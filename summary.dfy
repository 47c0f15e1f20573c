/** `parseSummaryJSON` of `src/lib/negotiation.ts`: the model's reply is parsed
    as JSON; failing that, the text from the first `{` to the last `}` is
    parsed; failing that too, a text-only summary wraps the raw reply. */
module Summary {
  import opened Wrappers
  import opened Json
  import opened Types

  /** The position of the first occurrence of `c` in `s`. */
  function FirstIndex(s: string, c: char): (r: Option<nat>)
    ensures r.Some? ==> r.value < |s| && s[r.value] == c && forall k :: 0 <= k < r.value ==> s[k] != c
    ensures r.None? ==> forall k :: 0 <= k < |s| ==> s[k] != c
  {
    if s == [] then None
    else if s[0] == c then Some(0)
    else match FirstIndex(s[1..], c)
      case None => None
      case Some(i) => Some(i + 1)
  }

  /** The position of the last occurrence of `c` in `s`. */
  function LastIndex(s: string, c: char): (r: Option<nat>)
    ensures r.Some? ==> r.value < |s| && s[r.value] == c && forall k :: r.value < k < |s| ==> s[k] != c
    ensures r.None? ==> forall k :: 0 <= k < |s| ==> s[k] != c
  {
    if s == [] then None
    else if s[|s| - 1] == c then Some(|s| - 1)
    else LastIndex(s[..|s| - 1], c)
  }

  /** The span of `raw.match(/\{[\s\S]*\}/)`: the leftmost `{` and, the match
      being greedy, the last `}` after it. There is a match exactly when some
      `{` comes before some `}`. */
  function BracedSpan(raw: string): (r: Option<(nat, nat)>)
    ensures r.Some? ==> var (i, j) := r.value;
              && i < j < |raw| && raw[i] == '{' && raw[j] == '}'
              && (forall k :: 0 <= k < i ==> raw[k] != '{')
              && (forall k :: j < k < |raw| ==> raw[k] != '}')
    ensures r.None? <==> forall i, j :: 0 <= i < j < |raw| && raw[i] == '{' ==> raw[j] != '}'
  {
    match FirstIndex(raw, '{')
    case None => None
    case Some(i) =>
      match LastIndex(raw, '}')
      case None => None
      case Some(j) => if i < j then Some((i, j)) else None
  }

  /** The matched text, when there is a match. */
  function ExtractBraced(raw: string): (r: Option<string>)
    ensures r.Some? ==> |r.value| >= 2 && r.value[0] == '{' && r.value[|r.value| - 1] == '}'
    ensures r.None? <==> BracedSpan(raw).None?
    ensures BracedSpan(raw).Some? ==> r == Some(raw[BracedSpan(raw).value.0..BracedSpan(raw).value.1 + 1])
  {
    match BracedSpan(raw)
    case None => None
    case Some((i, j)) => Some(raw[i..j + 1])
  }

  const UNPARSEABLE := "无法解析结构化摘要"

  /** The last-resort summary: no consensus, no terms or concessions, one
      dispute saying the reply could not be parsed, and the raw reply as text. */
  function Fallback(raw: string): Json {
    JObject([
      ("consensus_reached", JBool(false)),
      ("agreement_terms", JArray([])),
      ("party_a_concessions", JArray([])),
      ("party_b_concessions", JArray([])),
      ("unresolved_disputes", JArray([JString(UNPARSEABLE)])),
      ("summary_text", JString(raw))])
  }

  /** `parseSummaryJSON(raw)`. The parsed value is returned as it is, without
      any check of its shape. */
  function ParseSummary(parse: Parser, raw: string): (r: Json)
    ensures parse(raw).Some? ==> r == parse(raw).value
    ensures parse(raw).None? && ExtractBraced(raw).Some? && parse(ExtractBraced(raw).value).Some?
            ==> r == parse(ExtractBraced(raw).value).value
    ensures parse(raw).None? && (ExtractBraced(raw).None? || parse(ExtractBraced(raw).value).None?)
            ==> r == Fallback(raw)
  {
    match parse(raw)
    case Some(v) => v
    case None =>
      match ExtractBraced(raw)
      case None => Fallback(raw)
      case Some(body) =>
        match parse(body)
        case Some(v) => v
        case None => Fallback(raw)
  }

  /** The fallback keeps the raw reply as its text, reports no consensus, and
      lacks `convergence_score` and `final_proposal`: it is not a complete summary. */
  lemma FallbackIsPartial(raw: string)
    ensures Get(Fallback(raw).fields, "summary_text") == Some(JString(raw))
    ensures Get(Fallback(raw).fields, "consensus_reached") == Some(JBool(false))
    ensures Get(Fallback(raw).fields, "convergence_score") == None
    ensures Get(Fallback(raw).fields, "final_proposal") == None
    ensures !IsSummaryShaped(Fallback(raw))
  {
    var f := Fallback(raw).fields;
    GetLastOccurrence(f, "summary_text", 5);
    GetLastOccurrence(f, "consensus_reached", 0);
    GetAbsent(f, "convergence_score");
    GetAbsent(f, "final_proposal");
  }

  /** A reply wrapped in text without braces (a Markdown code fence, a
      preamble) yields the value of the braced part when only that part parses. */
  lemma FencedReplyRecovered(parse: Parser, before: string, body: string, after: string)
    requires forall k :: 0 <= k < |before| ==> before[k] != '{'
    requires forall k :: 0 <= k < |after| ==> after[k] != '}'
    requires |body| >= 2 && body[0] == '{' && body[|body| - 1] == '}'
    requires parse(before + body + after).None?
    requires parse(body).Some?
    ensures ParseSummary(parse, before + body + after) == parse(body).value
  {
    var raw := before + body + after;
    var i, j := |before|, |before| + |body| - 1;
    assert raw[i] == '{' && raw[j] == '}';
    var span := BracedSpan(raw);
    assert span.Some?;
    assert forall k :: 0 <= k < i ==> raw[k] == before[k];
    assert forall k :: j < k < |raw| ==> raw[k] == after[k - j - 1];
    assert span.value == (i, j);
    assert raw[i..j + 1] == body;
  }

  /** Text with no `{` before a `}` falls back to the text-only summary when it
      does not parse as a whole. */
  lemma UnbracedReplyFallsBack(parse: Parser, raw: string)
    requires forall k :: 0 <= k < |raw| ==> raw[k] != '{'
    requires parse(raw).None?
    ensures ParseSummary(parse, raw) == Fallback(raw)
  {
  }
}
