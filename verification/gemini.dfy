/** `editImage` of `src/app/banana/services/geminiService.ts`: one
    chat-completion request to the image proxy, authorised by the access
    token, and the reading of its answer into an image (and optional text),
    with every failure rethrown as an `Error` carrying a readable message. */
module Gemini {
  import opened Wrappers
  import opened Strings
  import opened Js
  import opened Http
  import opened Calls
  import opened TokenStore

  /** The `secondaryImage` argument. */
  datatype SecondaryImage = SecondaryImage(base64: Option<string>, mimeType: string)

  /** The arguments of `editImage`. The page may pass `undefined` for the
      image data (a data URL without a comma), so it is optional here. */
  datatype EditRequest = EditRequest(
    base64: Option<string>,
    mimeType: string,
    prompt: string,
    mask: Option<string>,
    secondary: Option<SecondaryImage>)

  /** The parts of a chat-completion response the service reads. An image
      entry's `url` is absent when `image_url` or its `url` is. */
  datatype ImageEntry = ImageEntry(kind: string, url: Option<string>)
  datatype ChatMessage = ChatMessage(content: Option<string>, images: Option<seq<ImageEntry>>)
  datatype Choice = Choice(message: Option<ChatMessage>, finishReason: Option<string>)
  datatype ChatResponse = ChatResponse(choices: Option<seq<Choice>>)

  /** `GeneratedContent` as `editImage` returns it: the image is always set. */
  datatype GeneratedContent = GeneratedContent(imageUrl: string, text: Option<string>)

  /** The `error` object of a JSON error text, as `JSON.parse` would give it. */
  datatype ErrorPayload = ErrorPayload(message: string, status: Option<string>, code: Option<int>)

  /** What `editImage` settles to, the calls it made, and the browser after its
      token read. */
  datatype Edited = Edited(result: Outcome<GeneratedContent>, trace: seq<Call>, browser: Browser)

  const MODEL: string := "google/gemini-2.5-flash-image-preview"
  const MAX_TOKENS: nat := 1000
  const APP_TITLE: string := "ROZO Banana"

  const NO_TOKEN: string :=
    "No stellar token found. " + "Please provide a stellar token in the URL parameters (?stellar=your-token)."
  const INVALID_TOKEN: string := "Invalid stellar token. " + "Please check your access token."
  const REQUEST_FAILED_PREFIX: string := "API request failed: "
  const NO_IMAGE: string :=
    "The model did not return an image. " + "It might have refused the request. Please try a different image or prompt."
  const SAFETY_BLOCKED: string := "The request was blocked for safety reasons. " + "Please modify your prompt or image."
  const CONTENT_FILTERED: string := "The content was filtered. " + "Please try a different prompt or image."
  const RATE_LIMITED: string := "You've exceeded the rate limit. Please wait a moment before trying again."
  const SERVER_ERROR: string :=
    "An unexpected server error occurred. This might be a temporary issue. Please try again in a few moments."
  const NO_QUOTA: string := "Insufficient quota. Please check your account balance."
  const UNKNOWN_ERROR: string := "An unknown error occurred while communicating with the API."

  // ---------------------------------------------------------------------------
  // The request

  /** `data:${mimeType};base64,${data}`. */
  function DataUrl(mimeType: string, data: string): string {
    "data:" + mimeType + ";base64," + data
  }

  /** The prompt sent when a mask restricts the edit. */
  function MaskedPrompt(prompt: string): string {
    "Apply the following instruction only to the masked area of the image: \"" + prompt + "\". Preserve the unmasked area."
  }

  /** The `content` array of the chat message. */
  function BuildContent(req: EditRequest): (r: seq<ContentPart>)
    ensures |r| == 2 + (if Present(req.mask) then 1 else 0) + (if req.secondary.Some? then 1 else 0)
    ensures r[0] == TextPart(if Present(req.mask) then MaskedPrompt(req.prompt) else req.prompt)
    ensures r[1] == ImageUrlPart(DataUrl(req.mimeType, Render(req.base64)))
    ensures Present(req.mask) ==> r[2] == ImageUrlPart(DataUrl("image/png", req.mask.value))
    ensures req.secondary.Some? ==>
      r[|r| - 1] == ImageUrlPart(DataUrl(req.secondary.value.mimeType, Render(req.secondary.value.base64)))
  {
    var text := if Present(req.mask) then MaskedPrompt(req.prompt) else req.prompt;
    var masks := if Present(req.mask) then [ImageUrlPart(DataUrl("image/png", req.mask.value))] else [];
    var extras := match req.secondary
      case None => []
      case Some(s) => [ImageUrlPart(DataUrl(s.mimeType, Render(s.base64)))];
    [TextPart(text), ImageUrlPart(DataUrl(req.mimeType, Render(req.base64)))] + masks + extras
  }

  /** The POST to the image proxy, authorised by `token`; the referer is the
      page's origin when there is a window. */
  function ImageRequest(req: EditRequest, token: string, hasWindow: bool, origin: string): Request {
    Request("POST", API_ENDPOINT,
      [JSON_CONTENT_TYPE,
       Header("x-api-token", token),
       Header("HTTP-Referer", if hasWindow then origin else ""),
       Header("X-Title", APP_TITLE)],
      ChatJson(ChatRequest(MODEL, "user", BuildContent(req), MAX_TOKENS)))
  }

  // ---------------------------------------------------------------------------
  // Reading the answer

  /** The image of the first image entry of the first choice, when that entry
      is an `image_url` with a non-empty URL; no other entry is looked at. */
  function ImageOf(data: ChatResponse): (r: Option<string>)
    ensures r.Some? ==> Truthy(r.value)
    ensures r.Some? <==>
      (data.choices.Some? && |data.choices.value| > 0
      && data.choices.value[0].message.Some?
      && data.choices.value[0].message.value.images.Some?
      && |data.choices.value[0].message.value.images.value| > 0
      && data.choices.value[0].message.value.images.value[0].kind == "image_url"
      && Present(data.choices.value[0].message.value.images.value[0].url))
    ensures r.Some? ==> r == data.choices.value[0].message.value.images.value[0].url
  {
    if data.choices.Some? && |data.choices.value| > 0 then
      match data.choices.value[0].message
      case None => None
      case Some(m) =>
        if m.images.Some? && |m.images.value| > 0
           && m.images.value[0].kind == "image_url" && Present(m.images.value[0].url)
        then m.images.value[0].url
        else None
    else None
  }

  /** The text of the first choice's message, when it is non-empty. */
  function TextOf(data: ChatResponse): Option<string> {
    if data.choices.Some? && |data.choices.value| > 0 then
      match data.choices.value[0].message
      case Some(m) => if Present(m.content) then m.content else None
      case None => None
    else None
  }

  /** The first choice's `finish_reason` (`data.choices[0]?.finish_reason`). */
  function FinishReason(data: ChatResponse): Option<string> {
    if data.choices.Some? && |data.choices.value| > 0 then data.choices.value[0].finishReason else None
  }

  /** The message thrown when no image came back. */
  function NoImageMessage(data: ChatResponse): (r: string)
    ensures FinishReason(data) == Some("safety") <==> r == SAFETY_BLOCKED
    ensures FinishReason(data) == Some("content_filter") <==> r == CONTENT_FILTERED
    ensures r in {NO_IMAGE, SAFETY_BLOCKED, CONTENT_FILTERED}
  {
    match FinishReason(data)
    case Some(reason) =>
      if reason == "safety" then SAFETY_BLOCKED
      else if reason == "content_filter" then CONTENT_FILTERED
      else NO_IMAGE
    case None => NO_IMAGE
  }

  // ---------------------------------------------------------------------------
  // The `catch` clause

  predicate IsJsonSpace(c: char) {
    c == ' ' || c == '\t' || c == '\n' || c == '\r'
  }

  function SkipJsonSpace(s: string): (r: string)
    ensures |r| <= |s| && r == s[|s| - |r|..]
    ensures |r| > 0 ==> !IsJsonSpace(r[0])
  {
    if |s| > 0 && IsJsonSpace(s[0]) then SkipJsonSpace(s[1..]) else s
  }

  /** `JSON.parse(text)` can give an object only if the text, past JSON white
      space, opens with a brace. */
  predicate MayBeJsonObject(text: string) {
    var t := SkipJsonSpace(text);
    |t| > 0 && t[0] == '{'
  }

  /** The message rethrown for an `Error` whose message is `m`; `parsed` is
      the `error` member `JSON.parse(m)` yields, and counts only for a text that
      can be a JSON object and a payload with a non-empty message. */
  function FriendlyMessage(m: string, parsed: Option<ErrorPayload>): (r: string)
    ensures !(MayBeJsonObject(m) && parsed.Some? && Truthy(parsed.value.message)) ==> r == m
    ensures MayBeJsonObject(m) && parsed.Some? && Truthy(parsed.value.message) ==>
      var p := parsed.value;
      && (p.status == Some("rate_limit_exceeded") ==> r == RATE_LIMITED)
      && ((p.status != Some("rate_limit_exceeded") && (p.code == Some(500) || p.status == Some("internal_server_error")))
          ==> r == SERVER_ERROR)
      && (p.status == Some("insufficient_quota") && p.code != Some(500) ==> r == NO_QUOTA)
      && ((p.status !in {Some("rate_limit_exceeded"), Some("internal_server_error"), Some("insufficient_quota")}
           && p.code != Some(500))
          ==> r == p.message)
  {
    if MayBeJsonObject(m) && parsed.Some? && Truthy(parsed.value.message) then
      var p := parsed.value;
      if p.status == Some("rate_limit_exceeded") then RATE_LIMITED
      else if p.code == Some(500) || p.status == Some("internal_server_error") then SERVER_ERROR
      else if p.status == Some("insufficient_quota") then NO_QUOTA
      else p.message
    else m
  }

  /** What the `catch` clause throws for a caught value. */
  function Rethrown(e: Thrown, parsed: Option<ErrorPayload>): (r: Thrown)
    ensures r.ErrorObject?
    ensures e.NonError? ==> r.message == UNKNOWN_ERROR
    ensures e.ErrorObject? ==> r.message == FriendlyMessage(e.message, parsed)
  {
    match e
    case ErrorObject(m) => ErrorObject(FriendlyMessage(m, parsed))
    case NonError => ErrorObject(UNKNOWN_ERROR)
  }

  /** The message of a non-OK response. */
  function StatusMessage(status: nat, statusText: string): string {
    if status == 401 || status == 403 then INVALID_TOKEN
    else REQUEST_FAILED_PREFIX + NatToString(status) + " " + statusText
  }

  // ---------------------------------------------------------------------------
  // `editImage`

  /** `editImage(req)`: `response` is what the proxy answers, `origin` is
      `window.location.origin`, and `parsed` is what `JSON.parse` makes of a
      caught message. */
  function EditImage(req: EditRequest, b: Browser, origin: string, response: FetchOutcome<ChatResponse>,
                     parsed: Option<ErrorPayload>): (r: Edited)
    ensures r.browser == GetStellarToken(b).browser
    ensures r.result.Threw? ==> r.result.error.ErrorObject?
    ensures !Present(GetStellarToken(b).token) ==>
      r.trace == [] && r.result == Threw(Rethrown(ErrorObject(NO_TOKEN), parsed))
    ensures Present(GetStellarToken(b).token) ==>
      r.trace == [Fetch(ImageRequest(req, GetStellarToken(b).token.value, b.hasWindow, origin))]
    ensures r.result.Returned? <==>
      (Present(GetStellarToken(b).token) && response.Responded? && IsOk(response.status)
      && response.json.JsonValue? && ImageOf(response.json.value).Some?)
    ensures r.result.Returned? ==>
      r.result.value == GeneratedContent(ImageOf(response.json.value).value, TextOf(response.json.value))
  {
    var read := GetStellarToken(b);
    if !Present(read.token) then
      Edited(Threw(Rethrown(ErrorObject(NO_TOKEN), parsed)), [], read.browser)
    else
      var trace := [Fetch(ImageRequest(req, read.token.value, b.hasWindow, origin))];
      var result := match response
        case FetchThrew(e) => Threw(Rethrown(e, parsed))
        case Responded(status, statusText, json) =>
          if !IsOk(status) then Threw(Rethrown(ErrorObject(StatusMessage(status, statusText)), parsed))
          else match json
            case JsonThrew(e) => Threw(Rethrown(e, parsed))
            case JsonValue(data) =>
              match ImageOf(data)
              case Some(url) => Returned(GeneratedContent(url, TextOf(data)))
              case None => Threw(Rethrown(ErrorObject(NoImageMessage(data)), parsed));
      Edited(result, trace, read.browser)
  }

  // ---------------------------------------------------------------------------
  // Properties

  /** A message opening with a capital letter never reads as a JSON object. */
  lemma CapitalisedPassesThrough(m: string, parsed: Option<ErrorPayload>)
    requires |m| > 0 && 'A' <= m[0] <= 'Z'
    ensures FriendlyMessage(m, parsed) == m
  {
    assert SkipJsonSpace(m) == m;
  }

  /** None of the service's own messages reads as JSON, so the `catch`
      clause passes each of them through unchanged, whatever `parsed` is. */
  lemma OwnMessagesPassThrough(status: nat, statusText: string, parsed: Option<ErrorPayload>)
    ensures FriendlyMessage(NO_TOKEN, parsed) == NO_TOKEN
    ensures FriendlyMessage(NO_IMAGE, parsed) == NO_IMAGE
    ensures FriendlyMessage(SAFETY_BLOCKED, parsed) == SAFETY_BLOCKED
    ensures FriendlyMessage(CONTENT_FILTERED, parsed) == CONTENT_FILTERED
    ensures FriendlyMessage(StatusMessage(status, statusText), parsed) == StatusMessage(status, statusText)
  {
    assert NO_TOKEN[0] == 'N';
    CapitalisedPassesThrough(NO_TOKEN, parsed);
    assert NO_IMAGE[0] == 'T';
    CapitalisedPassesThrough(NO_IMAGE, parsed);
    assert SAFETY_BLOCKED[0] == 'T';
    CapitalisedPassesThrough(SAFETY_BLOCKED, parsed);
    assert CONTENT_FILTERED[0] == 'T';
    CapitalisedPassesThrough(CONTENT_FILTERED, parsed);
    var m := StatusMessage(status, statusText);
    if status == 401 || status == 403 {
      assert INVALID_TOKEN[0] == 'I';
      CapitalisedPassesThrough(INVALID_TOKEN, parsed);
    } else {
      assert m[0] == REQUEST_FAILED_PREFIX[0];
      CapitalisedPassesThrough(m, parsed);
    }
  }

  /** Without a token nothing is fetched and the caller sees the token
      message. */
  lemma MissingTokenNeverFetches(req: EditRequest, b: Browser, origin: string,
                                 response: FetchOutcome<ChatResponse>, parsed: Option<ErrorPayload>)
    requires !Present(GetStellarToken(b).token)
    ensures var r := EditImage(req, b, origin, response, parsed);
      NoFetch(r.trace) && r.result == Threw(ErrorObject(NO_TOKEN))
  {
    OwnMessagesPassThrough(0, "", parsed);
  }

  /** A 401 or 403 from the proxy is reported as a bad token. */
  lemma RejectedTokenMessage(req: EditRequest, b: Browser, origin: string, status: nat, statusText: string,
                             json: JsonBody<ChatResponse>, parsed: Option<ErrorPayload>)
    requires Present(GetStellarToken(b).token)
    requires status == 401 || status == 403
    ensures EditImage(req, b, origin, Responded(status, statusText, json), parsed).result
      == Threw(ErrorObject(INVALID_TOKEN))
  {
    OwnMessagesPassThrough(status, statusText, parsed);
  }

  /** A successful call sends the token it read as `x-api-token`, and the
      image part carries the given data under the given MIME type. */
  lemma RequestCarriesTokenAndImage(req: EditRequest, b: Browser, origin: string,
                                    response: FetchOutcome<ChatResponse>, parsed: Option<ErrorPayload>)
    ensures var r := EditImage(req, b, origin, response, parsed);
      r.result.Returned? ==>
        |r.trace| == 1 && r.trace[0].Fetch?
        && r.trace[0].http.url == API_ENDPOINT
        && Header("x-api-token", GetStellarToken(b).token.value) in r.trace[0].http.headers
        && r.trace[0].http.body.ChatJson?
        && ImageUrlPart(DataUrl(req.mimeType, Render(req.base64))) in r.trace[0].http.body.chat.content
  {
    var r := EditImage(req, b, origin, response, parsed);
    if r.result.Returned? {
      var content := BuildContent(req);
      assert content[1] in content;
    }
  }

  /** Only the first choice's first image entry counts: an image anywhere
      else yields the no-image error. */
  lemma OnlyFirstImageCounts(first: ChatMessage, rest: seq<Choice>, reason: Option<string>)
    requires first.images.Some? && |first.images.value| > 0 && !Present(first.images.value[0].url)
    ensures ImageOf(ChatResponse(Some([Choice(Some(first), reason)] + rest))).None?
  {
  }

  /** A safety stop without an image is reported as such, past the catch. */
  lemma SafetyStopMessage(req: EditRequest, b: Browser, origin: string, data: ChatResponse,
                          parsed: Option<ErrorPayload>)
    requires Present(GetStellarToken(b).token)
    requires ImageOf(data).None? && FinishReason(data) == Some("safety")
    ensures EditImage(req, b, origin, Responded(200, "OK", JsonValue(data)), parsed).result
      == Threw(ErrorObject(SAFETY_BLOCKED))
  {
    OwnMessagesPassThrough(0, "", parsed);
  }

  /** Any other non-OK status reaches the caller as "API request failed: <status>
      <statusText>", untouched by the catch. */
  lemma FailedStatusMessage(req: EditRequest, b: Browser, origin: string, status: nat, statusText: string,
                            json: JsonBody<ChatResponse>, parsed: Option<ErrorPayload>)
    requires Present(GetStellarToken(b).token)
    requires !IsOk(status) && status != 401 && status != 403
    ensures EditImage(req, b, origin, Responded(status, statusText, json), parsed).result
      == Threw(ErrorObject(REQUEST_FAILED_PREFIX + NatToString(status) + " " + statusText))
  {
    OwnMessagesPassThrough(status, statusText, parsed);
  }

  /** An OK answer without an image reaches the caller with the message its
      finish reason selects, untouched by the catch. */
  lemma NoImageReported(req: EditRequest, b: Browser, origin: string, status: nat, statusText: string,
                        data: ChatResponse, parsed: Option<ErrorPayload>)
    requires Present(GetStellarToken(b).token)
    requires IsOk(status) && ImageOf(data).None?
    ensures var r := EditImage(req, b, origin, Responded(status, statusText, JsonValue(data)), parsed).result;
      r == Threw(ErrorObject(NoImageMessage(data)))
      && (FinishReason(data) == Some("safety") ==> r == Threw(ErrorObject(SAFETY_BLOCKED)))
      && (FinishReason(data) == Some("content_filter") ==> r == Threw(ErrorObject(CONTENT_FILTERED)))
      && (FinishReason(data) != Some("safety") && FinishReason(data) != Some("content_filter")
          ==> r == Threw(ErrorObject(NO_IMAGE)))
  {
    OwnMessagesPassThrough(status, statusText, parsed);
  }

  /** A JSON error text from the proxy is translated by its status. */
  lemma ProxyErrorTranslated(req: EditRequest, b: Browser, origin: string, m: string, p: ErrorPayload)
    requires Present(GetStellarToken(b).token)
    requires MayBeJsonObject(m) && Truthy(p.message)
    ensures p.status == Some("rate_limit_exceeded") ==>
      EditImage(req, b, origin, FetchThrew(ErrorObject(m)), Some(p)).result == Threw(ErrorObject(RATE_LIMITED))
    ensures p.status == Some("insufficient_quota") && p.code != Some(500) ==>
      EditImage(req, b, origin, FetchThrew(ErrorObject(m)), Some(p)).result == Threw(ErrorObject(NO_QUOTA))
    ensures p.code == Some(500) && p.status != Some("rate_limit_exceeded") ==>
      EditImage(req, b, origin, FetchThrew(ErrorObject(m)), Some(p)).result == Threw(ErrorObject(SERVER_ERROR))
  {
  }
}
