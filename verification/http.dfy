/** HTTP requests as the application issues them with `fetch`, and the
    outcomes a `fetch` followed by `response.json()` can have. */
module Http {
  import opened Js
  import opened PaymentTypes

  datatype Header = Header(name: string, value: string)

  /** One entry of a chat-completion message's `content` array. */
  datatype ContentPart = TextPart(text: string) | ImageUrlPart(url: string)

  datatype ChatRequest = ChatRequest(model: string, role: string, content: seq<ContentPart>, maxTokens: nat)

  datatype Body = NoBody | PaymentJson(body: RequestBody) | ChatJson(chat: ChatRequest)

  datatype Request = Request(verb: string, url: string, headers: seq<Header>, body: Body)

  /** The outcome of `response.json()`. */
  datatype JsonBody<T> = JsonValue(value: T) | JsonThrew(error: Thrown)

  /** The outcome of `fetch`: a response (status, status text, and what its
      body parses to), or a rejection. */
  datatype FetchOutcome<T> = Responded(status: nat, statusText: string, json: JsonBody<T>) | FetchThrew(error: Thrown)

  /** `response.ok`. */
  predicate IsOk(status: nat) {
    200 <= status <= 299
  }

  const JSON_CONTENT_TYPE: Header := Header("Content-Type", "application/json")
}
