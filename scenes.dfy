/** The Scene record (types.ts) and the pure parts of building and updating
    the scene list in App.tsx. */
module Scenes {
  import opened Wrappers
  import opened JsText
  import opened Constants

  datatype Status = Pending | Generating | Completed | Error

  /** One paragraph of the story with its generation state. */
  datatype Scene = Scene(
    id: string,
    prompt: string,
    fullPrompt: string,
    imageUrl: Option<string>,
    status: Status,
    error: Option<string>)

  predicate IsTerminal(st: Status) {
    st == Completed || st == Error
  }

  /** `imageUrl` is present exactly for a completed scene and `error`
      exactly for a failed one. */
  predicate WellFormed(s: Scene) {
    && (s.imageUrl.Some? <==> s.status == Completed)
    && (s.error.Some? <==> s.status == Error)
  }

  /** The template `scene-${index}-${Date.now()}`; `stamp` is the clock
      reading taken for this scene. */
  function SceneId(index: nat, stamp: nat): (id: string)
    ensures |id| > 6 + |Decimal(index)| && id[..6] == "scene-"
    ensures id[6 + |Decimal(index)|] == '-'
    ensures id[6..6 + |Decimal(index)|] == Decimal(index)
    ensures DecimalValue(id[6..6 + |Decimal(index)|]) == index
  {
    var digits := Decimal(index);
    var rest := digits + "-" + Decimal(stamp);
    var id := "scene-" + rest;
    assert id[6..] == rest;
    assert rest[..|digits|] == digits;
    assert id[6..6 + |digits|] == rest[..|digits|];
    DecimalRoundTrip(index);
    id
  }

  /** Two ids built for different indices differ, whatever the clock read:
      the index is the digits between the first two dashes. */
  lemma SceneIdDeterminesIndex(i: nat, a: nat, j: nat, b: nat)
    requires SceneId(i, a) == SceneId(j, b)
    ensures i == j
  {
    var x, y := Decimal(i), Decimal(j);
    var u := x + "-" + Decimal(a);
    var v := y + "-" + Decimal(b);
    assert "scene-" + u == SceneId(i, a) && "scene-" + v == SceneId(j, b);
    assert u == (SceneId(i, a))[6..] == v;
    assert u[|x|] == '-' && v[|y|] == '-';
    assert forall k :: 0 <= k < |x| ==> u[k] == x[k];
    assert forall k :: 0 <= k < |y| ==> v[k] == y[k];
    assert |x| == |y|;
    assert x == u[..|x|] && y == v[..|y|];
    DecimalInjective(i, j);
  }

  /** `${prompt} ${IMAGE_GENERATION_PROMPT_SUFFIX}`. */
  function FullPrompt(prompt: string): (full: string)
    ensures |full| == |prompt| + 1 + |ImagePromptSuffix|
    ensures full[..|prompt|] == prompt && full[|prompt|] == ' '
    ensures full[|prompt| + 1..] == ImagePromptSuffix
  {
    prompt + " " + ImagePromptSuffix
  }

  function NewScene(index: nat, stamp: nat, prompt: string): Scene {
    Scene(SceneId(index, stamp), prompt, FullPrompt(prompt), None, Pending, None)
  }

  predicate DistinctIds(scenes: seq<Scene>) {
    forall i, j :: 0 <= i < j < |scenes| ==> scenes[i].id != scenes[j].id
  }

  /** `scenePrompts.map((prompt, index) => ...)`: one pending scene per
      prompt, in order, with no image and no error, and with pairwise
      distinct ids whatever the clock reads at each element. */
  function InitialScenes(prompts: seq<string>, clock: nat -> nat): (scenes: seq<Scene>)
    ensures |scenes| == |prompts|
    ensures forall k :: 0 <= k < |scenes| ==>
              && scenes[k].prompt == prompts[k]
              && scenes[k].fullPrompt == prompts[k] + " " + ImagePromptSuffix
              && scenes[k].status == Pending
              && scenes[k].imageUrl == None
              && scenes[k].error == None
    ensures DistinctIds(scenes)
  {
    var scenes := seq(|prompts|, k requires 0 <= k < |prompts| => NewScene(k, clock(k), prompts[k]));
    forall k | 0 <= k < |scenes|
      ensures scenes[k].prompt == prompts[k] && scenes[k].fullPrompt == FullPrompt(prompts[k])
    {
      assert scenes[k] == NewScene(k, clock(k), prompts[k]);
    }
    forall i, j | 0 <= i < j < |scenes| ensures scenes[i].id != scenes[j].id {
      if scenes[i].id == scenes[j].id {
        SceneIdDeterminesIndex(i, clock(i), j, clock(j));
      }
    }
    scenes
  }

  /** `prevScenes.map(s => s.id === id ? change(s) : s)`: applies `change`
      to every scene carrying `id`. */
  function UpdateById(scenes: seq<Scene>, id: string, change: Scene -> Scene): (r: seq<Scene>)
    ensures |r| == |scenes|
    ensures forall k :: 0 <= k < |r| && scenes[k].id == id ==> r[k] == change(scenes[k])
    ensures forall k :: 0 <= k < |r| && scenes[k].id != id ==> r[k] == scenes[k]
  {
    seq(|scenes|, k requires 0 <= k < |scenes| =>
      if scenes[k].id == id then change(scenes[k]) else scenes[k])
  }

  /** An update that keeps ids keeps the list's length and ids, so it
      keeps them distinct. */
  lemma UpdateByIdKeepsIds(scenes: seq<Scene>, id: string, change: Scene -> Scene)
    requires forall s :: change(s).id == s.id
    ensures |UpdateById(scenes, id, change)| == |scenes|
    ensures forall k :: 0 <= k < |scenes| ==> UpdateById(scenes, id, change)[k].id == scenes[k].id
    ensures DistinctIds(scenes) ==> DistinctIds(UpdateById(scenes, id, change))
  {
  }

  /** With distinct ids, updating by the id of entry `i` changes entry `i`
      and nothing else. */
  lemma UpdateByIdIsIndexUpdate(scenes: seq<Scene>, i: nat, change: Scene -> Scene)
    requires DistinctIds(scenes) && i < |scenes|
    ensures UpdateById(scenes, scenes[i].id, change) == scenes[i := change(scenes[i])]
  {
    var r := UpdateById(scenes, scenes[i].id, change);
    forall k | 0 <= k < |scenes| ensures r[k] == scenes[i := change(scenes[i])][k] {
      if k != i && scenes[k].id == scenes[i].id {
        assert false;
      }
    }
  }

  /** `{ ...s, status: 'generating' }`. */
  function StartGenerating(s: Scene): (r: Scene)
    ensures r.status == Generating
    ensures r.id == s.id && r.prompt == s.prompt && r.fullPrompt == s.fullPrompt
    ensures r.imageUrl == s.imageUrl && r.error == s.error
  {
    s.(status := Generating)
  }

  /** The shape of the scene list while the generation loop is at step `i`:
      earlier scenes are finished, scene `i` is generating when `busy`, and
      the rest are still pending. */
  predicate RunStage(scenes: seq<Scene>, i: nat, busy: bool) {
    && i <= |scenes|
    && (busy ==> i < |scenes| && scenes[i].status == Generating)
    && (forall k :: 0 <= k < i ==> IsTerminal(scenes[k].status))
    && (forall k :: (if busy then i + 1 else i) <= k < |scenes| ==> scenes[k].status == Pending)
  }

  function GeneratingCount(scenes: seq<Scene>): nat {
    if scenes == [] then 0
    else (if scenes[0].status == Generating then 1 else 0) + GeneratingCount(scenes[1..])
  }

  /** Generation is sequential: at any stage of the loop exactly one scene
      is generating while a call is outstanding, and none otherwise. */
  lemma {:induction false} RunStageGeneratingCount(scenes: seq<Scene>, i: nat, busy: bool)
    requires RunStage(scenes, i, busy)
    ensures GeneratingCount(scenes) == if busy then 1 else 0
    decreases |scenes|
  {
    if scenes != [] {
      if i == 0 {
        RunStageGeneratingCount(scenes[1..], 0, false);
      } else {
        RunStageGeneratingCount(scenes[1..], i - 1, busy);
      }
    }
  }
}
