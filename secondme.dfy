/** The Second Me client of `src/lib/secondme.ts`: instance-id validation, the
    instance listing with its online filter, and the buffered chat call. */
module SecondMe {
  import opened Wrappers
  import opened Text
  import opened Json
  import opened Sse
  import opened Http

  const INVALID_ID := "Invalid instance ID: "
  const LIST_FAILED := "Failed to list instances: "
  const API_ERROR := "Second Me API error "
  const NO_BODY := "No response body"
  const EMPTY_RESPONSE := "Empty response from Second Me"
  /** The `TypeError`s the listing raises on a malformed reply. Their wording is
      the JavaScript engine's; only the fact that they are thrown matters here. */
  const NOT_JSON := "SyntaxError: response body is not JSON"
  const NULL_ITEM := "TypeError: Cannot read properties of null (reading 'status')"
  const NOT_ARRAY := "TypeError: items.filter is not a function"

  /** A member of the character class `[a-zA-Z0-9_-]`. */
  predicate IsIdChar(c: char) {
    ('a' <= c <= 'z') || ('A' <= c <= 'Z') || ('0' <= c <= '9') || c == '_' || c == '-'
  }

  /** `/^[a-zA-Z0-9_-]+$/.test(id)`, matched the way the pattern reads: one
      class character, then either the end of the input or another match of
      the `+` loop. */
  predicate ValidateInstanceId(id: string) {
    id != [] && IsIdChar(id[0]) && (|id| == 1 || ValidateInstanceId(id[1..]))
  }

  /** The pattern accepts exactly the non-empty ids made only of letters,
      digits, `_` and `-`; so a path separator, a dot, a space or a trailing
      newline makes an id invalid. */
  lemma {:induction false} ValidateInstanceIdIff(id: string)
    ensures ValidateInstanceId(id) <==> id != [] && forall i :: 0 <= i < |id| ==> IsIdChar(id[i])
  {
    if |id| > 1 {
      ValidateInstanceIdIff(id[1..]);
      if forall i :: 0 <= i < |id| ==> IsIdChar(id[i]) {
        assert forall i :: 0 <= i < |id| - 1 ==> IsIdChar(id[1..][i]);
      }
      if ValidateInstanceId(id) {
        forall i | 0 <= i < |id|
          ensures IsIdChar(id[i])
        {
          if i > 0 {
            assert id[i] == id[1..][i - 1];
          }
        }
      }
    }
  }

  /** `i.status === "online"` for one element of `items`: only an object whose
      `status` member is the string "online" passes. */
  predicate IsOnline(item: Json) {
    item.JObject? && Get(item.fields, "status") == Some(JString("online"))
  }

  /** `items.filter((i) => i.status === "online")`. Reading `status` of a null
      element throws a `TypeError`; every other element is kept exactly when it
      is online. */
  function FilterOnline(items: seq<Json>): (r: Result<seq<Json>>)
    ensures r.Err? <==> JNull in items
    ensures r.Ok? ==> |r.value| <= |items|
    ensures r.Ok? ==> forall x :: x in r.value ==> x in items && IsOnline(x)
    ensures r.Ok? ==> forall x :: x in items && IsOnline(x) ==> x in r.value
  {
    if items == [] then Ok([])
    else if items[0] == JNull then Err(NULL_ITEM)
    else
      var rest := FilterOnline(items[1..]);
      assert items == [items[0]] + items[1..];
      if rest.Err? then rest
      else if IsOnline(items[0]) then Ok([items[0]] + rest.value)
      else Ok(rest.value)
  }

  /** The filter keeps the original order: filtering two runs of items one after
      the other is filtering their concatenation. */
  lemma {:induction false} FilterOnlineAppend(a: seq<Json>, b: seq<Json>)
    requires FilterOnline(a).Ok? && FilterOnline(b).Ok?
    ensures FilterOnline(a + b) == Ok(FilterOnline(a).value + FilterOnline(b).value)
  {
    if a != [] {
      HeadTailAppend(a, b);
      FilterOnlineAppend(a[1..], b);
      var x, y := FilterOnline(a[1..]).value, FilterOnline(b).value;
      if IsOnline(a[0]) {
        ConsAppend(a[0], x, y);
      }
    } else {
      EmptyAppend(b);
      EmptyAppend(FilterOnline(b).value);
    }
  }

  lemma HeadTailAppend<T>(a: seq<T>, b: seq<T>)
    requires a != []
    ensures a + b != [] && (a + b)[0] == a[0] && (a + b)[1..] == a[1..] + b
  {
  }

  lemma ConsAppend<T>(h: T, x: seq<T>, y: seq<T>)
    ensures [h] + (x + y) == ([h] + x) + y
  {
  }

  lemma EmptyAppend<T>(b: seq<T>)
    ensures [] + b == b
  {
  }

  /** What `listInstances` returns for the listing response `res`:
      `json?.data?.items ?? []`, filtered. */
  function ListOutcome(res: HttpResponse, parse: Parser): (r: Result<seq<Json>>)
    ensures res.Response? && !res.ok ==> r == Err(LIST_FAILED + NatToString(res.status))
    ensures r.Ok? ==> forall x :: x in r.value ==> IsOnline(x)
    ensures res.Response? && res.ok && parse(res.text).Some?
            && Member(Member(parse(res.text), "data"), "items").Some?
            && Member(Member(parse(res.text), "data"), "items").value.JArray?
            ==> r == FilterOnline(Member(Member(parse(res.text), "data"), "items").value.items)
  {
    match res
    case Thrown(m) => Err(m)
    case Response(ok, status, text, _) =>
      if !ok then Err(LIST_FAILED + NatToString(status))
      else
        match parse(text)
        case None => Err(NOT_JSON)
        case Some(json) =>
          match Member(Member(Some(json), "data"), "items")
          case None => Ok([])
          case Some(JNull) => Ok([])
          case Some(JArray(items)) => FilterOnline(items)
          case Some(_) => Err(NOT_ARRAY)
  }

  /** A reply without `data.items` (or with it null) lists no instance. */
  lemma MissingItemsListsNothing(res: HttpResponse, parse: Parser)
    requires res.Response? && res.ok && parse(res.text).Some?
    requires Member(Member(parse(res.text), "data"), "items") in {None, Some(JNull)}
    ensures ListOutcome(res, parse) == Ok([])
  {
  }

  /** What a chat request resolves to once its response has arrived. */
  function ChatReply(res: HttpResponse, delta: DeltaReader): (r: Result<string>)
    ensures r.Ok? ==> r.value != ""
    ensures res.Thrown? ==> r == Err(res.message)
    ensures res.Response? && !res.ok ==> r.Err? && ContainsAt(r.error, NatToString(res.status), |API_ERROR|)
    ensures res.Response? && res.ok && res.body.None? ==> r == Err(NO_BODY)
    ensures res.Response? && res.ok && res.body.Some? ==> r == Decode(delta, res.body.value, EMPTY_RESPONSE)
  {
    match res
    case Thrown(m) => Err(m)
    case Response(ok, status, text, body) =>
      if !ok then
        ContainsMiddle(API_ERROR, NatToString(status), ": " + text);
        assert API_ERROR + NatToString(status) + ": " + text == API_ERROR + NatToString(status) + (": " + text);
        Err(API_ERROR + NatToString(status) + ": " + text)
      else if body.None? then Err(NO_BODY)
      else Decode(delta, body.value, EMPTY_RESPONSE)
  }

  datatype Request =
    | ListRequest
    | ChatRequest(instanceId: string, messages: seq<ChatMessage>)

  class Client {
    /** The response to the k-th request this client sends. */
    const network: nat -> HttpResponse
    /** Reads an event payload's delta (see `Sse.DeltaReader`). */
    const delta: DeltaReader
    /** `JSON.parse`, as `res.json()` applies it to the listing's body. */
    const parse: Parser
    /** Every request sent, in order. */
    var sent: seq<Request>

    constructor (network: nat -> HttpResponse, delta: DeltaReader, parse: Parser)
      ensures this.network == network && this.delta == delta && this.parse == parse
      ensures sent == []
    {
      this.network := network;
      this.delta := delta;
      this.parse := parse;
      sent := [];
    }

    /** `listInstances`: one listing request, answered by `ListOutcome`. */
    method ListInstances() returns (r: Result<seq<Json>>)
      modifies this
      ensures sent == old(sent) + [ListRequest]
      ensures r == ListOutcome(network(|old(sent)|), parse)
    {
      var res := network(|sent|);
      sent := sent + [ListRequest];
      r := ListOutcome(res, parse);
    }

    /** `chatWithInstance`: an invalid id is refused before anything is sent;
        otherwise one chat request with the system prompt and the user message. */
    method ChatWithInstance(instanceId: string, systemPrompt: string, userMessage: string) returns (r: Result<string>)
      modifies this
      ensures !ValidateInstanceId(instanceId) ==> r == Err(INVALID_ID + instanceId) && sent == old(sent)
      ensures ValidateInstanceId(instanceId) ==>
                && sent == old(sent) + [ChatRequest(instanceId, [ChatMessage(System, systemPrompt), ChatMessage(User, userMessage)])]
                && r == ChatReply(network(|old(sent)|), delta)
    {
      if !ValidateInstanceId(instanceId) {
        return Err(INVALID_ID + instanceId);
      }
      var res := network(|sent|);
      sent := sent + [ChatRequest(instanceId, [ChatMessage(System, systemPrompt), ChatMessage(User, userMessage)])];
      match res
      case Thrown(m) =>
        r := Err(m);
      case Response(ok, status, text, body) =>
        if !ok {
          r := Err(API_ERROR + NatToString(status) + ": " + text);
        } else if body.None? {
          r := Err(NO_BODY);
        } else {
          r := ConsumeSseStream(delta, body.value, EMPTY_RESPONSE);
        }
    }
  }
}
