/** The top-level component (App.tsx): its state, the story submission
    with the sequential generation loop, and the playback handlers. */
module App {
  import opened Wrappers
  import opened JsText
  import opened Constants
  import opened Prompts
  import opened Scenes
  import opened GeminiService

  const EmptyInputMessage := "Please provide some text to generate scenes."
  const SomeImagesFailedMessage := "Some images could not be generated. Please check individual scenes."
  const FallbackSceneError := "Failed to generate image"
  const DefaultSceneDuration := 3000
  const MinSceneDuration := 500

  /** `(err as Error).message || 'Failed to generate image'`: never empty,
      and the thrown message whenever there is one. */
  function SceneErrorText(thrown: Thrown): (text: string)
    ensures text != ""
    ensures thrown.ErrorValue? && thrown.message != "" ==> text == thrown.message
    ensures text != FallbackSceneError ==> thrown.ErrorValue? && text == thrown.message
  {
    match thrown
    case ErrorValue(message, _) => if message != "" then message else FallbackSceneError
    case NonErrorValue => FallbackSceneError
  }

  /** What one generation call leaves on its scene:
      `{ ...s, imageUrl: url, status: 'completed' }` or
      `{ ...s, status: 'error', error: message }`. */
  function Settle(s: Scene, outcome: Result<string, Thrown>): (r: Scene)
    ensures r.id == s.id && r.prompt == s.prompt && r.fullPrompt == s.fullPrompt
    ensures IsTerminal(r.status)
    ensures outcome.Success? ==>
              r.status == Completed && r.imageUrl == Some(outcome.value) && r.error == s.error
    ensures outcome.Failure? ==>
              r.status == Error && r.error == Some(SceneErrorText(outcome.error)) && r.imageUrl == s.imageUrl
  {
    match outcome
    case Success(url) => s.(imageUrl := Some(url), status := Completed)
    case Failure(thrown) => s.(status := Error, error := Some(SceneErrorText(thrown)))
  }

  /** The scene list after the whole loop, when call `k` with scene `k`'s
      full prompt produced `generate(k, fullPrompt)`: every scene is
      finished, completed with the returned URL exactly when its own call
      succeeded and failed with its own message otherwise, whatever the
      other calls did. */
  function FinalScenes(initial: seq<Scene>, generate: (nat, string) -> Result<string, Thrown>): (r: seq<Scene>)
    ensures |r| == |initial|
    ensures forall k :: 0 <= k < |r| ==>
              && r[k].id == initial[k].id
              && r[k].prompt == initial[k].prompt
              && r[k].fullPrompt == initial[k].fullPrompt
              && IsTerminal(r[k].status)
    ensures forall k :: 0 <= k < |r| && generate(k, initial[k].fullPrompt).Success? ==>
              && r[k].status == Completed
              && r[k].imageUrl == Some(generate(k, initial[k].fullPrompt).value)
              && r[k].error == initial[k].error
    ensures forall k :: 0 <= k < |r| && generate(k, initial[k].fullPrompt).Failure? ==>
              && r[k].status == Error
              && r[k].error == Some(SceneErrorText(generate(k, initial[k].fullPrompt).error))
              && r[k].imageUrl == initial[k].imageUrl
  {
    var r := seq(|initial|, k requires 0 <= k < |initial| => Settle(initial[k], generate(k, initial[k].fullPrompt)));
    forall k | 0 <= k < |r|
      ensures && r[k].id == initial[k].id
              && r[k].prompt == initial[k].prompt
              && r[k].fullPrompt == initial[k].fullPrompt
              && IsTerminal(r[k].status)
    {
      assert r[k] == Settle(initial[k], generate(k, initial[k].fullPrompt));
    }
    r
  }

  /** A freshly built pending scene ends well formed: an image exactly when
      completed, an error exactly when failed. */
  lemma FinalScenesWellFormed(initial: seq<Scene>, generate: (nat, string) -> Result<string, Thrown>)
    requires forall k :: 0 <= k < |initial| ==> initial[k].imageUrl == None && initial[k].error == None
    ensures forall k :: 0 <= k < |initial| ==> WellFormed(FinalScenes(initial, generate)[k])
  {
  }

  /** The aggregate error reflects the calls: some scene ends failed
      exactly when some request failed. */
  lemma SomeSceneFailedIffSomeCallFailed(initial: seq<Scene>, generate: (nat, string) -> Result<string, Thrown>)
    ensures (exists k :: 0 <= k < |initial| && FinalScenes(initial, generate)[k].status == Error)
        <==> (exists k :: 0 <= k < |initial| && generate(k, initial[k].fullPrompt).Failure?)
  {
    var r := FinalScenes(initial, generate);
    if k :| 0 <= k < |initial| && generate(k, initial[k].fullPrompt).Failure? {
      assert r[k].status == Error;
    }
    if k :| 0 <= k < |initial| && r[k].status == Error {
      assert generate(k, initial[k].fullPrompt).Failure?;
    }
  }

  /** With the real service, the fallback text never shows: every failure
      `generateImage` reports is an `Error` with a non-empty message, and
      that message is what the scene records. */
  lemma ServiceMessageReachesScene(keyConfigured: bool, call: SdkOutcome)
    requires GenerateImageResult(keyConfigured, call).Failure?
    ensures SceneErrorText(GenerateImageResult(keyConfigured, call).error)
         == GenerateImageResult(keyConfigured, call).error.message
  {
  }

  /** `(prevIndex + 1) % scenes.length`: one step forward, wrapping from
      the last scene to the first. */
  function NextIndex(i: nat, n: nat): (r: nat)
    requires n > 0
    ensures r < n
    ensures i + 1 < n ==> r == i + 1
    ensures i + 1 == n ==> r == 0
  {
    (i + 1) % n
  }

  /** `(prevIndex - 1 + scenes.length) % scenes.length`: one step back,
      wrapping from the first scene to the last. The operand is never
      negative, so JavaScript's `%` and Dafny's agree. */
  function PrevIndex(i: nat, n: nat): (r: nat)
    requires n > 0
    ensures r < n
    ensures 0 < i <= n ==> r == i - 1
    ensures i == 0 ==> r == n - 1
  {
    (i - 1 + n) % n
  }

  /** Forward and back undo each other on a valid index. */
  lemma NextPrevInverse(i: nat, n: nat)
    requires i < n
    ensures PrevIndex(NextIndex(i, n), n) == i
    ensures NextIndex(PrevIndex(i, n), n) == i
  {
  }

  /** `Math.max(500, parseInt(value, 10) || 3000)`, with `parsed` the
      outcome of `parseInt` (None for NaN). The result is at least 500; an
      unparsable or zero input gives the default 3000; any other number
      below 500 is raised to 500 and anything from 500 up is kept. */
  function ClampDuration(parsed: Option<int>): (d: int)
    ensures d >= MinSceneDuration
    ensures parsed == None || parsed == Some(0) ==> d == DefaultSceneDuration
    ensures parsed.Some? && parsed.value != 0 && parsed.value < MinSceneDuration ==> d == MinSceneDuration
    ensures parsed.Some? && parsed.value >= MinSceneDuration ==> d == parsed.value
  {
    var v := if parsed.Some? && parsed.value != 0 then parsed.value else DefaultSceneDuration;
    if v < MinSceneDuration then MinSceneDuration else v
  }

  /** The state of the component. */
  class StoryboardApp {
    var storyText: string
    var scenes: seq<Scene>
    var isLoading: bool
    var error: Option<string>
    var currentSceneIndex: nat
    var isPlaying: bool
    var sceneDuration: int

    /** The index is a valid scene index (or 0 with no scenes), playback
        only runs over a non-empty list, the delay respects the minimum,
        and scene ids are distinct. */
    ghost predicate Valid()
      reads this
    {
      && (currentSceneIndex < |scenes| || currentSceneIndex == 0)
      && (isPlaying ==> |scenes| > 0)
      && sceneDuration >= MinSceneDuration
      && DistinctIds(scenes)
    }

    constructor ()
      ensures Valid()
      ensures storyText == "" && scenes == [] && !isLoading && error == None
      ensures currentSceneIndex == 0 && !isPlaying && sceneDuration == DefaultSceneDuration
    {
      storyText := "";
      scenes := [];
      isLoading := false;
      error := None;
      currentSceneIndex := 0;
      isPlaying := false;
      sceneDuration := DefaultSceneDuration;
    }

    /** The start of `handleStorySubmit`: resets the error, the list and
        playback, computes the prompts, and either reports empty input
        (returning no scenes) or publishes one pending scene per prompt. */
    method BeginSubmission(text: string, clock: nat -> nat) returns (initial: seq<Scene>)
      requires Valid()
      modifies this
      ensures Valid()
      ensures storyText == text && currentSceneIndex == 0 && !isPlaying
      ensures sceneDuration == old(sceneDuration)
      ensures initial == InitialScenes(ScenePrompts(text), clock) && scenes == initial
      ensures initial == [] ==> error == Some(EmptyInputMessage) && !isLoading
      ensures initial != [] ==> error == None && isLoading
    {
      storyText := text;
      error := None;
      isLoading := true;
      scenes := [];
      currentSceneIndex := 0;
      isPlaying := false;

      var prompts := ScenePrompts(text);
      if |prompts| == 0 {
        error := Some(EmptyInputMessage);
        isLoading := false;
        return [];
      }
      initial := InitialScenes(prompts, clock);
      scenes := initial;
    }

    /** Marks the scene with `id` as generating. */
    method MarkGenerating(id: string)
      requires Valid()
      modifies this
      ensures Valid()
      ensures scenes == UpdateById(old(scenes), id, StartGenerating)
      ensures storyText == old(storyText) && isLoading == old(isLoading) && error == old(error)
      ensures currentSceneIndex == old(currentSceneIndex) && isPlaying == old(isPlaying)
      ensures sceneDuration == old(sceneDuration)
    {
      UpdateByIdKeepsIds(scenes, id, StartGenerating);
      scenes := UpdateById(scenes, id, StartGenerating);
    }

    /** Records the outcome of the call for the scene with `id`: completed
        with the URL, or failed with the error text. */
    method RecordOutcome(id: string, outcome: Result<string, Thrown>)
      requires Valid()
      modifies this
      ensures Valid()
      ensures scenes == UpdateById(old(scenes), id, (s: Scene) => Settle(s, outcome))
      ensures storyText == old(storyText) && isLoading == old(isLoading) && error == old(error)
      ensures currentSceneIndex == old(currentSceneIndex) && isPlaying == old(isPlaying)
      ensures sceneDuration == old(sceneDuration)
    {
      var settle := (s: Scene) => Settle(s, outcome);
      UpdateByIdKeepsIds(scenes, id, settle);
      scenes := UpdateById(scenes, id, settle);
    }

    /** The end of the run: the aggregate error when some scene failed, and
        loading over. */
    method EndSubmission(anyError: bool)
      requires Valid()
      modifies this
      ensures Valid()
      ensures error == if anyError then Some(SomeImagesFailedMessage) else old(error)
      ensures !isLoading
      ensures storyText == old(storyText) && scenes == old(scenes)
      ensures currentSceneIndex == old(currentSceneIndex) && isPlaying == old(isPlaying)
      ensures sceneDuration == old(sceneDuration)
    {
      if anyError {
        error := Some(SomeImagesFailedMessage);
      }
      isLoading := false;
    }

    /** One pass of the generation loop for scene `i`: marks it generating,
        makes the request, and records the outcome, all keyed by the
        scene's id. Only entry `i` changes. `during` is the list while the
        request is outstanding: scene `i` is generating, it is the only
        one, and every scene is well formed. */
    method GenerateSceneAt(i: nat, scene: Scene, generate: (nat, string) -> Result<string, Thrown>)
      returns (failed: bool, ghost during: seq<Scene>)
      requires Valid()
      requires i < |scenes| && scenes[i] == scene
      requires RunStage(scenes, i, false) && forall k :: 0 <= k < |scenes| ==> WellFormed(scenes[k])
      modifies this
      ensures Valid()
      ensures scenes == old(scenes)[i := Settle(scene, generate(i, scene.fullPrompt))]
      ensures during == old(scenes)[i := StartGenerating(scene)]
      ensures RunStage(during, i, true) && GeneratingCount(during) == 1
      ensures forall k :: 0 <= k < |during| ==> WellFormed(during[k])
      ensures RunStage(scenes, i + 1, false) && forall k :: 0 <= k < |scenes| ==> WellFormed(scenes[k])
      ensures GeneratingCount(scenes) == 0
      ensures failed <==> generate(i, scene.fullPrompt).Failure?
      ensures storyText == old(storyText) && isLoading == old(isLoading) && error == old(error)
      ensures currentSceneIndex == old(currentSceneIndex) && isPlaying == old(isPlaying)
      ensures sceneDuration == old(sceneDuration)
    {
      UpdateByIdIsIndexUpdate(scenes, i, StartGenerating);
      MarkGenerating(scene.id);
      during := scenes;
      assert RunStage(during, i, true);
      RunStageGeneratingCount(during, i, true);
      assert forall k :: 0 <= k < |scenes| ==> WellFormed(scenes[k]);
      var outcome := generate(i, scene.fullPrompt);
      failed := outcome.Failure?;
      UpdateByIdIsIndexUpdate(scenes, i, (s: Scene) => Settle(s, outcome));
      RecordOutcome(scene.id, outcome);
      RunStageGeneratingCount(scenes, i + 1, false);
    }

    /** The generation loop over the published list `initial`: settles
        every scene in order, each by its own request, and reports whether
        any of them failed. */
    method GenerateAll(initial: seq<Scene>, generate: (nat, string) -> Result<string, Thrown>)
      returns (anyError: bool)
      requires Valid()
      requires scenes == initial
      requires RunStage(initial, 0, false) && forall k :: 0 <= k < |initial| ==> WellFormed(initial[k])
      modifies this
      ensures Valid()
      ensures scenes == FinalScenes(initial, generate)
      ensures anyError <==> exists k :: 0 <= k < |scenes| && scenes[k].status == Error
      ensures GeneratingCount(scenes) == 0
      ensures storyText == old(storyText) && isLoading == old(isLoading) && error == old(error)
      ensures currentSceneIndex == old(currentSceneIndex) && isPlaying == old(isPlaying)
      ensures sceneDuration == old(sceneDuration)
    {
      anyError := false;
      for i := 0 to |initial|
        invariant Valid()
        invariant storyText == old(storyText) && isLoading == old(isLoading) && error == old(error)
        invariant currentSceneIndex == old(currentSceneIndex) && isPlaying == old(isPlaying)
        invariant sceneDuration == old(sceneDuration)
        invariant |scenes| == |initial|
        invariant forall k :: 0 <= k < i ==>
                    scenes[k] == Settle(initial[k], generate(k, initial[k].fullPrompt))
        invariant forall k :: i <= k < |scenes| ==> scenes[k] == initial[k]
        invariant RunStage(scenes, i, false)
        invariant forall k :: 0 <= k < |scenes| ==> WellFormed(scenes[k])
        invariant anyError <==> exists k :: 0 <= k < i && scenes[k].status == Error
      {
        var failed;
        ghost var during;
        failed, during := GenerateSceneAt(i, initial[i], generate);
        anyError := anyError || failed;
      }
      RunStageGeneratingCount(scenes, |initial|, false);
      var final := FinalScenes(initial, generate);
      assert forall k :: 0 <= k < |scenes| ==> scenes[k] == final[k];
      assert scenes == final;
    }

    /** `handleStorySubmit(text)`, run to the end. `clock(k)` is the clock
        reading taken for scene `k`'s id and `generate(k, fullPrompt)` is
        what the `k`-th image request yields. Each scene is marked
        generating, requested and settled in turn; a failure does not stop
        the later scenes; the aggregate error is set exactly when a scene
        failed. */
    method HandleStorySubmit(text: string, clock: nat -> nat,
                             generate: (nat, string) -> Result<string, Thrown>)
      requires Valid()
      modifies this
      ensures Valid()
      ensures storyText == text && currentSceneIndex == 0 && !isPlaying && !isLoading
      ensures sceneDuration == old(sceneDuration)
      ensures scenes == FinalScenes(InitialScenes(ScenePrompts(text), clock), generate)
      ensures GeneratingCount(scenes) == 0
      ensures error == if ScenePrompts(text) == [] then Some(EmptyInputMessage)
                       else if exists k :: 0 <= k < |scenes| && scenes[k].status == Error
                       then Some(SomeImagesFailedMessage)
                       else None
    {
      var initial := BeginSubmission(text, clock);
      if initial == [] {
        return;
      }
      var anyError := GenerateAll(initial, generate);
      EndSubmission(anyError);
    }

    /** `handlePlayPause`: toggles playback, but only when there are scenes. */
    method PlayPause()
      requires Valid()
      modifies this
      ensures Valid()
      ensures isPlaying == if |scenes| > 0 then !old(isPlaying) else old(isPlaying)
      ensures currentSceneIndex == old(currentSceneIndex)
      ensures storyText == old(storyText) && scenes == old(scenes) && isLoading == old(isLoading)
      ensures error == old(error) && sceneDuration == old(sceneDuration)
    {
      if |scenes| > 0 {
        isPlaying := !isPlaying;
      }
    }

    /** `handleNextScene`: one scene forward with wrap-around, and paused;
        nothing happens without scenes. */
    method NextScene()
      requires Valid()
      modifies this
      ensures Valid()
      ensures |scenes| > 0 ==> currentSceneIndex == NextIndex(old(currentSceneIndex), |scenes|) && !isPlaying
      ensures |scenes| == 0 ==> currentSceneIndex == old(currentSceneIndex) && isPlaying == old(isPlaying)
      ensures storyText == old(storyText) && scenes == old(scenes) && isLoading == old(isLoading)
      ensures error == old(error) && sceneDuration == old(sceneDuration)
    {
      if |scenes| > 0 {
        currentSceneIndex := NextIndex(currentSceneIndex, |scenes|);
        isPlaying := false;
      }
    }

    /** `handlePrevScene`: one scene back with wrap-around, and paused;
        nothing happens without scenes. */
    method PrevScene()
      requires Valid()
      modifies this
      ensures Valid()
      ensures |scenes| > 0 ==> currentSceneIndex == PrevIndex(old(currentSceneIndex), |scenes|) && !isPlaying
      ensures |scenes| == 0 ==> currentSceneIndex == old(currentSceneIndex) && isPlaying == old(isPlaying)
      ensures storyText == old(storyText) && scenes == old(scenes) && isLoading == old(isLoading)
      ensures error == old(error) && sceneDuration == old(sceneDuration)
    {
      if |scenes| > 0 {
        currentSceneIndex := PrevIndex(currentSceneIndex, |scenes|);
        isPlaying := false;
      }
    }

    /** `handleGoToScene(index)`: jumps and pauses for an index in range,
        and changes nothing otherwise. */
    method GoToScene(index: int)
      requires Valid()
      modifies this
      ensures Valid()
      ensures 0 <= index < |scenes| ==> currentSceneIndex == index && !isPlaying
      ensures !(0 <= index < |scenes|) ==>
                currentSceneIndex == old(currentSceneIndex) && isPlaying == old(isPlaying)
      ensures storyText == old(storyText) && scenes == old(scenes) && isLoading == old(isLoading)
      ensures error == old(error) && sceneDuration == old(sceneDuration)
    {
      if 0 <= index < |scenes| {
        currentSceneIndex := index;
        isPlaying := false;
      }
    }

    /** The auto-advance timer firing: while playing over a non-empty list,
        one scene forward with wrap-around, still playing. */
    method AutoAdvance()
      requires Valid()
      modifies this
      ensures Valid()
      ensures isPlaying && |scenes| > 0 ==>
                currentSceneIndex == NextIndex(old(currentSceneIndex), |scenes|)
      ensures !(isPlaying && |scenes| > 0) ==> currentSceneIndex == old(currentSceneIndex)
      ensures isPlaying == old(isPlaying)
      ensures storyText == old(storyText) && scenes == old(scenes) && isLoading == old(isLoading)
      ensures error == old(error) && sceneDuration == old(sceneDuration)
    {
      if isPlaying && |scenes| > 0 {
        currentSceneIndex := NextIndex(currentSceneIndex, |scenes|);
      }
    }

    /** The scene-duration input's change handler. */
    method SetSceneDuration(parsed: Option<int>)
      requires Valid()
      modifies this
      ensures Valid()
      ensures sceneDuration == ClampDuration(parsed)
      ensures currentSceneIndex == old(currentSceneIndex) && isPlaying == old(isPlaying)
      ensures storyText == old(storyText) && scenes == old(scenes) && isLoading == old(isLoading)
      ensures error == old(error)
    {
      sceneDuration := ClampDuration(parsed);
    }
  }
}
