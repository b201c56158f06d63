/** The image service (services/geminiService.ts): the API-key check, the
    lazily created client, the check of the SDK's response, the data URL,
    and the mapping of whatever was thrown to the error the caller sees.
    The SDK call itself is an outcome handed in by the caller. */
module GeminiService {
  import opened Wrappers
  import opened JsText

  /** A value thrown in JavaScript: an `Error` (its `message`, and the
      `details` property some SDK errors carry), or anything else. */
  datatype Thrown = ErrorValue(message: string, details: Option<string>) | NonErrorValue

  /** The parts of the SDK's `GenerateImagesResponse` the service reads.
      Every level is optional in the SDK's types. */
  datatype Image = Image(imageBytes: Option<string>)
  datatype GeneratedImage = GeneratedImage(image: Option<Image>)
  datatype GenerateImagesResponse = GenerateImagesResponse(generatedImages: Option<seq<GeneratedImage>>)

  /** What the awaited `generateImages` call did: resolved with a response,
      or rejected with a thrown value. */
  datatype SdkOutcome = Resolved(response: GenerateImagesResponse) | Rejected(thrown: Thrown)

  // The two messages below are written in short pieces so that the
  // verifier can see, piece by piece, which characters they lack.
  const NotConfiguredMessage := "API_KEY is " + "not " + "configured. "
                              + "Please set " + "the API_KEY "
                              + "environment " + "variable."
  const NoImageDataMessage := "No image data " + "received from API."
  const InvalidKeyMessage := "Invalid API Key. Please ensure your API_KEY environment variable is correct."
  const QuotaMessage := "API Quota Exceeded. Please check your Gemini API usage limits."
  const GeminiErrorPrefix := "Gemini API error: "
  const UnknownDetails := "Unknown Gemini API error"
  const UnknownFailureMessage := "Failed to generate image due to an unknown error."
  const DataUrlPrefix := "data:image/png;base64,"
  /** The TypeError a JavaScript engine raises for `undefined.imageBytes`;
      the wording is the engine's (V8's here). */
  const MissingImageMessage := "Cannot read properties of undefined (reading 'imageBytes')"

  /** `!API_KEY` is false: the variable is set and not empty. */
  predicate KeyConfigured(apiKey: Option<string>) {
    apiKey.Some? && apiKey.value != ""
  }

  /** The response carries a first image with non-empty bytes. */
  predicate HasImageBytes(response: GenerateImagesResponse) {
    && response.generatedImages.Some?
    && |response.generatedImages.value| > 0
    && response.generatedImages.value[0].image.Some?
    && response.generatedImages.value[0].image.value.imageBytes.Some?
    && response.generatedImages.value[0].image.value.imageBytes.value != ""
  }

  function FirstImageBytes(response: GenerateImagesResponse): string
    requires HasImageBytes(response)
  {
    response.generatedImages.value[0].image.value.imageBytes.value
  }

  /** The check after the SDK call: a data URL when the first image has
      bytes, and a thrown error otherwise. The URL gives the bytes back
      after its fixed prefix. */
  function ImageUrlOf(response: GenerateImagesResponse): (r: Result<string, Thrown>)
    ensures r.Success? <==> HasImageBytes(response)
    ensures r.Success? ==>
              && |DataUrlPrefix| <= |r.value|
              && r.value[..|DataUrlPrefix|] == DataUrlPrefix
              && r.value[|DataUrlPrefix|..] == FirstImageBytes(response)
    ensures r.Failure? ==> r.error.ErrorValue? && r.error.details == None
  {
    if response.generatedImages.Some? && |response.generatedImages.value| > 0 then
      match response.generatedImages.value[0].image
      case None => Failure(ErrorValue(MissingImageMessage, None))
      case Some(image) =>
        if image.imageBytes.Some? && image.imageBytes.value != "" then
          Success(DataUrlPrefix + image.imageBytes.value)
        else
          Failure(ErrorValue(NoImageDataMessage, None))
    else
      Failure(ErrorValue(NoImageDataMessage, None))
  }

  /** `error.message || error.details || 'Unknown Gemini API error'`. */
  function ErrorDetails(message: string, details: Option<string>): (d: string)
    ensures d != ""
    ensures message != "" ==> d == message
    ensures message == "" && details.Some? && details.value != "" ==> d == details.value
    ensures message == "" && (details.None? || details.value == "") ==> d == UnknownDetails
  {
    if message != "" then message
    else if details.Some? && details.value != "" then details.value
    else UnknownDetails
  }

  predicate MentionsInvalidKey(details: string) {
    Includes(details, "API_KEY_INVALID") || Includes(details, "API key not valid")
  }

  predicate MentionsQuota(details: string) {
    Includes(details, "Quota exceeded")
  }

  /** Each marker is recognised wherever it sits in the details. */
  lemma MarkersRecognised(before: string, after: string)
    ensures MentionsInvalidKey(before + "API_KEY_INVALID" + after)
    ensures MentionsInvalidKey(before + "API key not valid" + after)
    ensures MentionsQuota(before + "Quota exceeded" + after)
  {
    IncludesInfix(before, "API_KEY_INVALID", after);
    IncludesInfix(before, "API key not valid", after);
    IncludesInfix(before, "Quota exceeded", after);
  }

  /** The catch block: what `generateImage` throws for a caught value.
      It is always an `Error` with a non-empty message, and the message is
      one of the two fixed messages, the unknown-error message, or the
      generic prefix followed by the details. */
  function Rethrown(caught: Thrown): (r: Thrown)
    ensures r.ErrorValue? && r.message != "" && r.details == None
    ensures || r.message == InvalidKeyMessage
            || r.message == QuotaMessage
            || r.message == UnknownFailureMessage
            || (|GeminiErrorPrefix| < |r.message| && r.message[..|GeminiErrorPrefix|] == GeminiErrorPrefix)
  {
    match caught
    case NonErrorValue => ErrorValue(UnknownFailureMessage, None)
    case ErrorValue(message, details) =>
      var d := ErrorDetails(message, details);
      if MentionsInvalidKey(d) then ErrorValue(InvalidKeyMessage, None)
      else if MentionsQuota(d) then ErrorValue(QuotaMessage, None)
      else ErrorValue(GeminiErrorPrefix + d, None)
  }

  /** The body of the `try`: fails with the not-configured error before any
      SDK call when the key is missing, passes on a rejected call, and
      otherwise checks the response. */
  function Attempt(keyConfigured: bool, call: SdkOutcome): (r: Result<string, Thrown>)
    ensures !keyConfigured ==> r == Failure(ErrorValue(NotConfiguredMessage, None))
    ensures keyConfigured && call.Rejected? ==> r == Failure(call.thrown)
    ensures r.Success? <==> keyConfigured && call.Resolved? && HasImageBytes(call.response)
    ensures r.Success? ==> r.value == DataUrlPrefix + FirstImageBytes(call.response)
  {
    if !keyConfigured then Failure(ErrorValue(NotConfiguredMessage, None))
    else
      match call
      case Rejected(thrown) => Failure(thrown)
      case Resolved(response) => ImageUrlOf(response)
  }

  /** `generateImage` as a whole: the attempt, with every failure passed
      through the catch block. */
  function GenerateImageResult(keyConfigured: bool, call: SdkOutcome): (r: Result<string, Thrown>)
    ensures r.Failure? ==> r.error.ErrorValue? && r.error.message != ""
    ensures r.Success? <==> keyConfigured && call.Resolved? && HasImageBytes(call.response)
  {
    match Attempt(keyConfigured, call)
    case Success(url) => Success(url)
    case Failure(thrown) => Failure(Rethrown(thrown))
  }

  /** A non-empty message without the letters 'V', 'k' and 'Q' cannot
      mention an invalid key or the quota, so it is re-thrown behind the
      generic prefix. */
  lemma OnlyGenericPrefix(message: string)
    requires message != [] && 'V' !in message && 'k' !in message && 'Q' !in message
    ensures Rethrown(ErrorValue(message, None)) == ErrorValue(GeminiErrorPrefix + message, None)
  {
    MissingCharExcludes(message, "API_KEY_INVALID", 'V');
    MissingCharExcludes(message, "API key not valid", 'k');
    MissingCharExcludes(message, "Quota exceeded", 'Q');
  }

  /** A missing key is caught by the service's own catch block, so the
      caller sees the generic prefix before the not-configured message. */
  lemma NotConfiguredIsWrapped(call: SdkOutcome)
    ensures GenerateImageResult(false, call)
         == Failure(ErrorValue(GeminiErrorPrefix + NotConfiguredMessage, None))
  {
    NotConfiguredLacksMarkerLetters();
    OnlyGenericPrefix(NotConfiguredMessage);
  }

  lemma NotConfiguredLacksMarkerLetters()
    ensures 'V' !in NotConfiguredMessage && 'k' !in NotConfiguredMessage && 'Q' !in NotConfiguredMessage
  {
    LacksMarkerLetters("API_KEY is ");
    LacksMarkerLetters("not ");
    LacksMarkerLetters("configured. ");
    LacksMarkerLetters("Please set ");
    LacksMarkerLetters("the API_KEY ");
    LacksMarkerLetters("environment ");
    LacksMarkerLetters("variable.");
  }

  lemma LacksMarkerLetters(piece: string)
    requires forall i :: 0 <= i < |piece| ==> piece[i] != 'V' && piece[i] != 'k' && piece[i] != 'Q'
    ensures 'V' !in piece && 'k' !in piece && 'Q' !in piece
  {
  }

  /** A response without usable image bytes (no list, an empty list, or a
      first image whose bytes are absent or empty) is re-wrapped by the
      catch block. */
  lemma NoImageDataIsWrapped(response: GenerateImagesResponse)
    requires || response.generatedImages.None?
             || |response.generatedImages.value| == 0
             || (&& response.generatedImages.value[0].image.Some?
                 && !HasImageBytes(response))
    ensures GenerateImageResult(true, Resolved(response))
         == Failure(ErrorValue(GeminiErrorPrefix + NoImageDataMessage, None))
  {
    OnlyGenericPrefix(NoImageDataMessage);
  }

  /** On success the result is the data-URL prefix followed by the first
      image's bytes. */
  lemma SuccessIsDataUrl(response: GenerateImagesResponse)
    requires HasImageBytes(response)
    ensures GenerateImageResult(true, Resolved(response))
         == Success(DataUrlPrefix + FirstImageBytes(response))
  {
  }

  /** The key-invalid check runs first, so it wins even when the details
      also mention the quota. */
  lemma InvalidKeyWins(message: string, details: Option<string>)
    requires MentionsInvalidKey(ErrorDetails(message, details))
    ensures Rethrown(ErrorValue(message, details)) == ErrorValue(InvalidKeyMessage, None)
  {
  }

  lemma QuotaExceeded(message: string, details: Option<string>)
    requires !MentionsInvalidKey(ErrorDetails(message, details))
    requires MentionsQuota(ErrorDetails(message, details))
    ensures Rethrown(ErrorValue(message, details)) == ErrorValue(QuotaMessage, None)
  {
  }

  /** Any other `Error` keeps its details behind the generic prefix; a
      thrown non-`Error` gets the unknown-error message. */
  lemma OtherErrors(message: string, details: Option<string>)
    requires !MentionsInvalidKey(ErrorDetails(message, details))
    requires !MentionsQuota(ErrorDetails(message, details))
    ensures Rethrown(ErrorValue(message, details))
         == ErrorValue(GeminiErrorPrefix + ErrorDetails(message, details), None)
    ensures Rethrown(NonErrorValue) == ErrorValue(UnknownFailureMessage, None)
  {
  }

  /** The SDK client; only the key it was created with matters here. */
  class GenAIClient {
    const apiKey: string

    constructor (apiKey: string)
      ensures this.apiKey == apiKey
    {
      this.apiKey := apiKey;
    }
  }

  /** The module state of the service: the key read from the environment
      at load time and the lazily created client `ai`. `clientsCreated`
      counts client constructions and `sdkRequests` records the prompts of
      the SDK calls made. */
  class ImageService {
    const apiKey: Option<string>
    var ai: GenAIClient?
    ghost var clientsCreated: nat
    ghost var sdkRequests: seq<string>

    ghost predicate Valid()
      reads this
    {
      && clientsCreated <= 1
      && (ai == null <==> clientsCreated == 0)
      && (ai != null ==> KeyConfigured(apiKey) && ai.apiKey == apiKey.value)
    }

    constructor (apiKey: Option<string>)
      ensures Valid()
      ensures this.apiKey == apiKey && ai == null
      ensures clientsCreated == 0 && sdkRequests == []
    {
      this.apiKey := apiKey;
      ai := null;
      clientsCreated := 0;
      sdkRequests := [];
    }

    /** `getGoogleGenAI`: throws the not-configured error when the key is
      missing or empty; otherwise creates the client on the first call
      and returns the same client on every later one. */
    method GetGoogleGenAI() returns (r: Result<GenAIClient, Thrown>)
      requires Valid()
      modifies this
      ensures Valid()
      ensures sdkRequests == old(sdkRequests)
      ensures !KeyConfigured(apiKey) ==>
                && r == Failure(ErrorValue(NotConfiguredMessage, None))
                && ai == old(ai) && clientsCreated == old(clientsCreated)
      ensures KeyConfigured(apiKey) ==>
                && r.Success? && r.value == ai && ai.apiKey == apiKey.value
      ensures old(ai) != null ==> ai == old(ai) && clientsCreated == old(clientsCreated)
      ensures old(ai) == null && KeyConfigured(apiKey) ==> fresh(ai) && clientsCreated == 1
    {
      if !KeyConfigured(apiKey) {
        return Failure(ErrorValue(NotConfiguredMessage, None));
      }
      if ai == null {
        ai := new GenAIClient(apiKey.value);
        clientsCreated := clientsCreated + 1;
      }
      r := Success(ai);
    }

    /** `generateImage(prompt)`, where `call` is what the SDK call would
      do if it is made. The SDK is asked exactly when the key is
      configured, and the result is `GenerateImageResult`. */
    method GenerateImage(prompt: string, call: SdkOutcome) returns (r: Result<string, Thrown>)
      requires Valid()
      modifies this
      ensures Valid()
      ensures r == GenerateImageResult(KeyConfigured(apiKey), call)
      ensures sdkRequests == if KeyConfigured(apiKey) then old(sdkRequests) + [prompt] else old(sdkRequests)
      ensures KeyConfigured(apiKey) ==> ai != null && ai.apiKey == apiKey.value
      ensures !KeyConfigured(apiKey) ==> ai == old(ai) && clientsCreated == old(clientsCreated)
      ensures old(ai) != null ==> ai == old(ai) && clientsCreated == old(clientsCreated)
      ensures old(ai) == null && KeyConfigured(apiKey) ==> fresh(ai) && clientsCreated == 1
    {
      var attempt: Result<string, Thrown>;
      var client := GetGoogleGenAI();
      match client {
        case Failure(thrown) =>
          attempt := Failure(thrown);
        case Success(_) =>
          sdkRequests := sdkRequests + [prompt];
          match call {
            case Rejected(thrown) => attempt := Failure(thrown);
            case Resolved(response) => attempt := ImageUrlOf(response);
          }
      }
      match attempt {
        case Success(url) => r := Success(url);
        case Failure(thrown) => r := Failure(Rethrown(thrown));
      }
    }
  }
}
