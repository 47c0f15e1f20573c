/** What the two HTTP clients (`src/lib/llm.ts`, `src/lib/secondme.ts`) exchange
    with their servers: chat messages out, responses in. */
module Http {
  import opened Wrappers

  datatype Role = System | User | Assistant

  /** `ChatMessage` of `src/lib/llm.ts`; the Second Me client sends the same shape. */
  datatype ChatMessage = ChatMessage(role: Role, content: string)

  /** The result of one `fetch`.
      `Thrown(message)`: `fetch` rejected (network failure, or the abort
      controller's timeout firing), with that message.
      `Response`: `ok` and `status` as received; `text` is what `res.text()`
      (or `res.json()`) reads, "" when that read fails; `body` is the sequence of
      decoded chunks the body reader yields, `None` when there is no body. */
  datatype HttpResponse =
    | Thrown(message: string)
    | Response(ok: bool, status: nat, text: string, body: Option<seq<string>>)
}
