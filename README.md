# Story-to-storyboard core, modelled in Dafny

The application takes story text and splits it into paragraphs, which become
scene prompts. It asks an image-generation API for one picture per prompt,
strictly one after another. It then plays the pictures back as a slideshow,
stepped by hand or advanced on a timer. This project models that core and
proves what it promises:

- `prompts.dfy` covers the prompt chain
  `text.split(/\n\s*\n/).map(trim).filter(non-empty).slice(0, 10)`. It includes
  the regular expression's greedy matching and the white-space class shared by
  `\s` and `trim` (`js_text.dfy`).
- `scenes.dfy` holds the `Scene` record, the `scene-<index>-<clock>` ids, the
  initial pending list, and the id-keyed list updates.
- `app.dfy` holds the component state as a class. It covers the submission
  (resets, empty-input error, publishing the list, the sequential generation
  loop, the aggregate error) and the playback handlers (play/pause, next,
  previous, go-to, the auto-advance tick, the duration input).
- `gemini_service.dfy` holds the image service. It covers the API-key check,
  the lazily created client, the response check and data URL, and the mapping
  of any thrown value to the error the caller sees.
- `constants.dfy` and `wrappers.dfy` hold the constants and `Option`/`Result`.

Two things are parameters: the clock reading `Date.now()` gives for each id,
and the outcome of each image request (`generate(k, fullPrompt)` in the app,
an `SdkOutcome` in the service). Every property is proved for all of their
values.

Two behaviours of the code are easy to misread:

- A missing API key does not surface as a separate error. The throw sits inside
  `generateImage`'s own `try`, so every request fails with
  "Gemini API error: API_KEY is not configured. …". Each scene records that
  failure, and the loop goes on to the next scene.
- A scene's error text is not the remote error's message unchanged. It is the
  re-wrapped message from the service's catch block.

## Model

| member | source | states |
|---|---|---|
| `JsText.Trim` | App.tsx:32 | The trimmed text is empty exactly when the input is all white space. Otherwise it starts and ends with a character that is not white space. |
| `JsText.TrimStart` | App.tsx:32 | Removes only white space from the front and keeps a suffix that does not start with white space. |
| `JsText.TrimEnd` | App.tsx:32 | Removes only white space from the back and keeps a prefix that does not end with white space. |
| `JsText.TrimIdempotent` | App.tsx:32 | Trimming twice equals trimming once. |
| `JsText.IncludesInfix` | services/geminiService.ts:49-52 | `includes` finds its argument wherever it sits in the text. |
| `JsText.Decimal` | App.tsx:43 | `${index}` is a non-empty string of decimal digits. |
| `JsText.DecimalRoundTrip` | App.tsx:43 | Reading the decimal text of `n` back gives `n`. |
| `JsText.DecimalInjective` | App.tsx:43 | Different numbers have different decimal texts. |
| `Prompts.WhitespaceRunEnd` | App.tsx:31 | Finds the end of the longest white-space run from a position: everything before it is white space and the character at it is not. |
| `Prompts.LastNewline` | App.tsx:31 | Finds the last newline in a range, or reports that the range has none. |
| `Prompts.MatchEnd` | App.tsx:31 | `\n\s*\n` matches at `q` exactly when a newline, white-space, newline run starts there. The greedy match covers the longest such run. |
| `Prompts.RunStartsMatch` | App.tsx:31 | A match starts wherever a blank-line run starts. |
| `Prompts.SplitFrom` | App.tsx:31 | The split loop never yields a piece that contains a blank-line run. |
| `Prompts.NoMatchHasNoRun` | App.tsx:31 | Text in which no match starts holds no blank-line run. |
| `Prompts.SeparatorsFrom` | App.tsx:31 | Each stretch the split removes is a newline, white-space, newline run. |
| `Prompts.SplitBlankLines` | App.tsx:31 | `split` gives at least one piece, and no piece contains a blank-line run. |
| `Prompts.SplitFromRebuilds` | App.tsx:31 | From any point of the split loop, the remaining pieces with the removed runs put back between them rebuild the rest of the text. |
| `Prompts.SplitRebuilds` | App.tsx:31 | The pieces with the removed runs put back between them rebuild the text. |
| `Prompts.RunInSlice` | App.tsx:31-32 | A blank-line run inside a slice is also a run of the whole text. |
| `Prompts.SliceHasNoRun` | App.tsx:31-32 | Cutting a slice out of text without blank-line runs leaves none. |
| `Prompts.TrimHasNoRun` | App.tsx:32 | Trimming a piece creates no blank-line run. |
| `Prompts.TrimAll` | App.tsx:32 | Entry `k` is the trim of piece `k` (`.map(trim)`). Its properties are stated by `Prompts.TrimAllTrimmed`. |
| `Prompts.TrimAllTrimmed` | App.tsx:32 | Every mapped entry is already trimmed, and is empty exactly when its piece is all white space. |
| `Prompts.DropEmpty` | App.tsx:33 | `filter` keeps exactly the non-empty strings and never lengthens the list. |
| `Prompts.DropEmptyConcat` | App.tsx:33 | Filtering keeps the input order: filtering a concatenation gives the concatenation of the filtered parts. |
| `Prompts.KeptPieces` | App.tsx:32-33 | Every kept piece is non-empty, equal to its own trim, and free of blank-line runs. |
| `Prompts.KeptPrompts` | App.tsx:30-33 | Before the cap, every kept piece is non-empty, equal to its own trim, and free of blank-line runs. |
| `Prompts.ScenePrompts` | App.tsx:30-34 | At most 10 prompts. Each is non-empty, equal to its own trim, and free of blank-line runs. |
| `Prompts.KeptCount` | App.tsx:32-33 | Trimming and then filtering keeps one string per piece that is not all white space. |
| `Prompts.PromptCount` | App.tsx:30-34 | The number of prompts is min(number of non-blank pieces, 10). |
| `Prompts.InterleaveBlank` | App.tsx:31 | When the separators are white space, the rebuilt text is all white space exactly when every piece is. |
| `Prompts.AllWhitespaceConcat` | App.tsx:32 | A concatenation is all white space exactly when both parts are. |
| `Prompts.NonBlankCountZero` | App.tsx:33 | No piece counts as non-blank exactly when every piece is all white space. |
| `Prompts.NoPromptsIffBlank` | App.tsx:30-36 | The empty-input branch is taken exactly when the text is all white space. |
| `Prompts.FormSubmissionHasPrompts` | components/StoryInputForm.tsx:15-16 | Text the form submits (its non-empty trim) always yields at least one prompt. |
| `Prompts.ThreeParagraphs` | App.tsx:30-34 | `"A\n\nB\n\nC"` gives the prompts `"A"`, `"B"`, `"C"` in that order. |
| `Scenes.SceneId` | App.tsx:43 | The id starts with `scene-`, followed by the index's decimal digits and a dash. Reading those digits back gives the index. |
| `Scenes.FullPrompt` | App.tsx:45 | The full prompt is the prompt, one space, then the fixed suffix. Both parts can be read back from it. |
| `Scenes.SceneIdDeterminesIndex` | App.tsx:43 | Two ids built for different indices differ, whatever the clock read. |
| `Scenes.InitialScenes` | App.tsx:42-48 | One scene per prompt, in order. Each is pending, with no image and no error, and its full prompt is the prompt + " " + suffix. The ids are pairwise distinct. |
| `Scenes.UpdateById` | App.tsx:55 | Keeps the list's length. Every entry carrying the id gets the change, and every other entry is left as it was. |
| `Scenes.StartGenerating` | App.tsx:55 | The scene becomes generating, and every other field is kept. |
| `Scenes.UpdateByIdKeepsIds` | App.tsx:54-67 | An update keyed by id keeps the list's length and ids, so distinct ids stay distinct. |
| `Scenes.UpdateByIdIsIndexUpdate` | App.tsx:54-67 | With distinct ids, an update keyed by entry `i`'s id changes entry `i` and no other. |
| `Scenes.RunStageGeneratingCount` | App.tsx:52-69 | At every stage of the loop, exactly one scene is generating while a request is outstanding, and none between steps. |
| `GeminiService.KeyConfigured` | services/geminiService.ts:13 | The key counts as set when it is present and not the empty string, which are exactly the values for which `!API_KEY` is false. |
| `GeminiService.ImageUrlOf` | services/geminiService.ts:36-42 | Succeeds exactly when the first image has non-empty bytes. The URL is `data:image/png;base64,` followed by those bytes. Otherwise it throws an `Error`. |
| `GeminiService.ErrorDetails` | services/geminiService.ts:48 | The details are never empty. They are the message when it is non-empty. Otherwise they are the `details` property when it is a non-empty string, and 'Unknown Gemini API error' when it is not. |
| `GeminiService.MentionsInvalidKey` | services/geminiService.ts:49 | The details contain `API_KEY_INVALID` or `API key not valid`. `GeminiService.MarkersRecognised` shows either marker is found anywhere in the text. |
| `GeminiService.MentionsQuota` | services/geminiService.ts:52 | The details contain `Quota exceeded`. `GeminiService.MarkersRecognised` shows the marker is found anywhere in the text. |
| `GeminiService.MarkersRecognised` | services/geminiService.ts:49-52 | A details text holding either invalid-key marker, or the quota marker, is recognised as such, whatever surrounds the marker. |
| `GeminiService.Rethrown` | services/geminiService.ts:43-58 | Rethrows an `Error` with a non-empty message and no details. The message is the invalid-key message, the quota message, the unknown-error message, or "Gemini API error: " followed by the details. |
| `GeminiService.Attempt` | services/geminiService.ts:24-42 | The body of the `try`. Without a key it throws the not-configured error before any request. A rejected request passes its thrown value on. It succeeds exactly on a resolved response with image bytes, and the result is the data URL of those bytes. |
| `GeminiService.GenerateImageResult` | services/geminiService.ts:23-59 | Succeeds exactly when the key is set, the call resolves, and the response has image bytes. Every failure is an `Error` with a non-empty message. |
| `GeminiService.OnlyGenericPrefix` | services/geminiService.ts:49-55 | A message without the letters V, k and Q is rethrown behind the generic prefix. |
| `GeminiService.NotConfiguredIsWrapped` | services/geminiService.ts:12-55 | With no key, the caller sees "Gemini API error: API_KEY is not configured. …". |
| `GeminiService.NoImageDataIsWrapped` | services/geminiService.ts:36-55 | A missing or empty image list, or empty bytes, gives "Gemini API error: No image data received from API.". |
| `GeminiService.SuccessIsDataUrl` | services/geminiService.ts:36-38 | On success the result is exactly the data-URL prefix followed by the first image's bytes. |
| `GeminiService.InvalidKeyWins` | services/geminiService.ts:48-51 | Details that mention an invalid key give the invalid-key message, even when they also mention the quota. |
| `GeminiService.QuotaExceeded` | services/geminiService.ts:52-54 | Details that mention the quota but no invalid key give the quota message. |
| `GeminiService.OtherErrors` | services/geminiService.ts:46-57 | Any other `Error` gives "Gemini API error: " followed by the details. A thrown non-`Error` gives the unknown-error message. |
| `GeminiService.GenAIClient.constructor` | services/geminiService.ts:18 | The client holds the key it was created with. |
| `GeminiService.ImageService.constructor` | services/geminiService.ts:8-10 | The key is read once and there is no client yet. |
| `GeminiService.ImageService.GetGoogleGenAI` | services/geminiService.ts:12-21 | A missing or empty key throws the not-configured error and changes nothing. Otherwise the first call creates the client and every later call returns that same client. At most one client is ever created. |
| `GeminiService.ImageService.GenerateImage` | services/geminiService.ts:23-59 | The result is `GenerateImageResult`. The SDK is asked exactly when the key is set, with the given prompt. With a key, a client holding that key exists afterwards: the first call creates it, and later calls reuse it. Without a key the client state is unchanged. |
| `App.SceneErrorText` | App.tsx:66 | The scene's error text is never empty. It is the thrown message whenever there is one, and the fallback text otherwise. |
| `App.Settle` | App.tsx:58-67 | Settles one scene by its request's outcome, keeping its id and prompts. On success it is completed with the URL and its error is untouched. On failure it is failed with the error text and its image is untouched. |
| `App.FinalScenes` | App.tsx:51-69 | After the loop every scene is finished, with its id and prompts unchanged. It is completed with the returned URL when its own request succeeded, and failed with its own error text otherwise. |
| `App.FinalScenesWellFormed` | App.tsx:42-67 | After the loop each scene has an image exactly when completed and an error exactly when failed. |
| `App.SomeSceneFailedIffSomeCallFailed` | App.tsx:64-72 | Some scene ends failed exactly when some request failed. |
| `App.ServiceMessageReachesScene` | App.tsx:66 | With the real service the fallback text never shows: the scene records the service's message. |
| `App.NextIndex` | App.tsx:94 | Moves one scene forward, wrapping from the last scene to the first, and stays in range. |
| `App.PrevIndex` | App.tsx:101 | Moves one scene back, wrapping from the first scene to the last, and stays in range. |
| `App.NextPrevInverse` | App.tsx:92-104 | Next and previous undo each other on a valid index. |
| `App.ClampDuration` | App.tsx:129 | The result is at least 500. An unparsable or zero input gives 3000. Other values below 500 give 500, and values of 500 or more are kept. |
| `App.StoryboardApp.constructor` | App.tsx:13-20 | Starts with no text, no scenes, no error, index 0, paused, a 3000 ms delay, and the invariant. |
| `App.StoryboardApp.BeginSubmission` | App.tsx:22-49 | Resets the error, the list, the index and playback. With no prompts it sets the empty-input error, stops loading and builds no scenes. Otherwise it publishes the pending list while loading. |
| `App.StoryboardApp.MarkGenerating` | App.tsx:54-56 | The scene with the id becomes generating. Nothing else changes. |
| `App.StoryboardApp.RecordOutcome` | App.tsx:57-68 | The scene with the id is settled by the outcome. Nothing else changes. |
| `App.StoryboardApp.EndSubmission` | App.tsx:70-73 | Sets the aggregate error when a scene failed and stops loading. |
| `App.StoryboardApp.GenerateSceneAt` | App.tsx:53-68 | One loop step changes only entry `i`, which is settled by its own request. The ghost result `during` is the list while the request is outstanding: entry `i` switched to generating, exactly one scene generating, and every scene well formed. Afterwards no scene is generating. |
| `App.StoryboardApp.GenerateAll` | App.tsx:51-69 | Requests every scene in order and ends with `FinalScenes`, with no scene generating between steps. It reports failure exactly when some scene failed. |
| `App.StoryboardApp.HandleStorySubmit` | App.tsx:22-74 | The whole submission. It ends paused at index 0 with loading over and the scenes equal to `FinalScenes` of the initial list. No scene is left generating. The error is the empty-input error, or the aggregate error exactly when some scene failed, or none. |
| `App.StoryboardApp.PlayPause` | App.tsx:86-90 | Toggles playback only when there are scenes. |
| `App.StoryboardApp.NextScene` | App.tsx:92-97 | Moves one scene forward with wrap-around and pauses. Does nothing without scenes. |
| `App.StoryboardApp.PrevScene` | App.tsx:99-104 | Moves one scene back with wrap-around and pauses. Does nothing without scenes. |
| `App.StoryboardApp.GoToScene` | App.tsx:106-111 | For an index in range, jumps there and pauses. Otherwise changes nothing. |
| `App.StoryboardApp.AutoAdvance` | App.tsx:76-84 | While playing over a non-empty list, moves one scene forward with wrap-around. Otherwise changes nothing. |
| `App.StoryboardApp.SetSceneDuration` | App.tsx:129 | The delay becomes the clamped input, so it stays at least 500. |

## Left out

- The SDK request itself (services/geminiService.ts:27-34), including the model name and the request options, is a network call. It enters the model only through its outcome.
- Timer mechanics are not modelled: `setTimeout`, `clearTimeout`, and the effect's cancel-and-reschedule on every dependency change (App.tsx:76-84). Auto-advance is the discrete step `AutoAdvance`, meaning the timer firing.
- Two overlapping submissions are not modelled: an older loop's id-keyed updates running against a newer list. `HandleStorySubmit` runs one submission to the end. Playback handlers may run between the step methods, which keep the invariant.
- `Date.now()` is the `clock` parameter. Only id distinctness matters, and it comes from the index.
- `parseInt` is not modelled: the duration input arrives already parsed, with `None` for `NaN`.
- `console.error` logging is not modelled.
- Rendering is not modelled: the JSX of App.tsx and the components other than the form's trim guard.
- The `window.process` fallback in constants.ts is environment setup and is not modelled.
- JavaScript strings are UTF-16 code units, while Dafny characters are Unicode scalar values. Every white-space character involved is a single code unit, so trimming and splitting agree.
- `GeminiService.ErrorDetails`: an SDK error's `details` is taken to be a string when present. A non-string `details` value is not modelled.
- `App.SceneErrorText`: every thrown value that is not an `Error` records the fallback text. In the code, a non-`Error` object with a string `message` would record that message, and a thrown `null` or `undefined` would raise inside the catch and end the loop. The real service only ever throws `Error`s (`App.ServiceMessageReachesScene`), but the model's `generate` parameter allows any thrown value.
- `GeminiService.ImageUrlOf`: when the first image entry has no `image` object, the engine's TypeError is modelled with V8's wording. Its text depends on the engine.
