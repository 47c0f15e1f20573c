/** The LLM client of `src/lib/llm.ts`: an OpenAI-compatible chat completion
    over a streamed response. The environment (the API key, the server) is
    fixed when the gateway is built; the gateway records every request it sends. */
module Llm {
  import opened Wrappers
  import opened Text
  import opened Sse
  import opened Http

  const NO_KEY := "LLM_API_KEY is not configured"
  const API_ERROR := "LLM API error "
  const NO_BODY := "No response body"
  const EMPTY_RESPONSE := "Empty response from LLM"

  /** The two-message conversation `chatCompletion` sends. */
  function Wrap(systemPrompt: string, userMessage: string): (r: seq<ChatMessage>)
    ensures |r| == 2
    ensures r[0].role == System && r[0].content == systemPrompt
    ensures r[1].role == User && r[1].content == userMessage
  {
    [ChatMessage(System, systemPrompt), ChatMessage(User, userMessage)]
  }

  /** The message thrown for a non-ok response. */
  function ApiError(status: nat, text: string): string {
    API_ERROR + NatToString(status) + ": " + text
  }

  /** What a request resolves to once its response has arrived. */
  function Reply(res: HttpResponse, delta: DeltaReader): (r: Result<string>)
    ensures r.Ok? ==> r.value != ""
    ensures res.Thrown? ==> r == Err(res.message)
    ensures res.Response? && !res.ok ==> r.Err? && ContainsAt(r.error, NatToString(res.status), |API_ERROR|)
    ensures res.Response? && res.ok && res.body.None? ==> r == Err(NO_BODY)
    ensures res.Response? && res.ok && res.body.Some? ==> r == Decode(delta, res.body.value, EMPTY_RESPONSE)
  {
    match res
    case Thrown(m) => Err(m)
    case Response(ok, status, text, body) =>
      if !ok then
        ContainsMiddle(API_ERROR, NatToString(status), ": " + text);
        assert ApiError(status, text) == API_ERROR + NatToString(status) + (": " + text);
        Err(ApiError(status, text))
      else if body.None? then Err(NO_BODY)
      else Decode(delta, body.value, EMPTY_RESPONSE)
  }

  /** A call's outcome together with the log of requests sent so far. */
  datatype Exchange = Exchange(result: Result<string>, sent: seq<seq<ChatMessage>>)

  class Gateway {
    /** `process.env.LLM_API_KEY`; "" stands for unset. */
    const apiKey: string
    /** The response to the k-th request this gateway sends. */
    const network: nat -> HttpResponse
    /** Reads an event payload's delta (see `Sse.DeltaReader`). */
    const delta: DeltaReader
    /** Every request sent, in order. */
    var sent: seq<seq<ChatMessage>>

    constructor (apiKey: string, network: nat -> HttpResponse, delta: DeltaReader)
      ensures this.apiKey == apiKey && this.network == network && this.delta == delta
      ensures sent == []
    {
      this.apiKey := apiKey;
      this.network := network;
      this.delta := delta;
      sent := [];
    }

    /** One call of `chatCompletionMultiTurn` after the requests in `log`: without
        a key nothing is sent; otherwise exactly this request is sent and the
        result is what its response yields. */
    function Call(log: seq<seq<ChatMessage>>, messages: seq<ChatMessage>): (r: Exchange)
      ensures apiKey == "" ==> r == Exchange(Err(NO_KEY), log)
      ensures apiKey != "" ==> r.sent == log + [messages] && r.result == Reply(network(|log|), delta)
      ensures r.result.Ok? ==> apiKey != "" && r.result.value != ""
    {
      if apiKey == "" then Exchange(Err(NO_KEY), log)
      else Exchange(Reply(network(|log|), delta), log + [messages])
    }

    /** `chatCompletionMultiTurn`. */
    method ChatCompletionMultiTurn(messages: seq<ChatMessage>) returns (r: Result<string>)
      modifies this`sent
      ensures Exchange(r, sent) == Call(old(sent), messages)
    {
      if apiKey == "" {
        return Err(NO_KEY);
      }
      var res := network(|sent|);
      sent := sent + [messages];
      match res
      case Thrown(m) =>
        r := Err(m);
      case Response(ok, status, text, body) =>
        if !ok {
          r := Err(ApiError(status, text));
        } else if body.None? {
          r := Err(NO_BODY);
        } else {
          r := ConsumeSseStream(delta, body.value, EMPTY_RESPONSE);
        }
    }

    /** `chatCompletion`: the system prompt and the user message, in that order. */
    method ChatCompletion(systemPrompt: string, userMessage: string) returns (r: Result<string>)
      modifies this`sent
      ensures Exchange(r, sent) == Call(old(sent), Wrap(systemPrompt, userMessage))
    {
      r := ChatCompletionMultiTurn(Wrap(systemPrompt, userMessage));
    }
  }

  /** The error message of a non-ok response determines its status and body
      text: distinct statuses never produce the same message. */
  lemma ApiErrorInjective(s1: nat, t1: string, s2: nat, t2: string)
    requires ApiError(s1, t1) == ApiError(s2, t2)
    ensures s1 == s2 && t1 == t2
  {
    var d1, d2 := NatToString(s1), NatToString(s2);
    NatToStringDigits(s1);
    NatToStringDigits(s2);
    var m := ApiError(s1, t1);
    var p := |API_ERROR|;
    assert m[p..] == d1 + (": " + t1);
    assert m[p..] == d2 + (": " + t2);
    DigitRunLength(d1, ": " + t1);
    DigitRunLength(d2, ": " + t2);
    assert d1 == m[p..p + |d1|] == d2;
    assert t1 == m[p + |d1| + 2..] == t2;
  }
}
