/** The records of `src/lib/types.ts`: instances, messages, summaries, server
    events, the request that creates a negotiation, and the session itself. */
module Types {
  import opened Wrappers
  import opened Json

  /** `uuidv4()` values: the model hands out consecutive numbers, so an id is
      fresh exactly when it is at least every id issued before it. */
  type Uuid = nat

  datatype Speaker = A | B

  datatype Status = Pending | InProgress | Completed | Failed

  datatype Phase = Thinking | Responding

  /** A Second Me instance as the listing API describes it. */
  datatype SecondMeInstance = SecondMeInstance(uploadName: string, instanceId: string, description: string, status: string)

  /** One utterance of one agent in one round; `timestamp` is `Date.now()`. */
  datatype Message = Message(id: Uuid, round: nat, speaker: Speaker, content: string, timestamp: int)

  datatype StyleAnalysis = StyleAnalysis(styleLabel: string, description: string, cooperativeness: int, flexibility: int)

  datatype Impact = Positive | Negative

  datatype TurningPoint = TurningPoint(round: nat, speaker: Speaker, description: string, impact: Impact)

  datatype RedLineAnalysis = RedLineAnalysis(partyAMaintained: bool, partyBMaintained: bool, details: string)

  /** The structured summary: eight required fields and six optional ones. */
  datatype NegotiationSummary = NegotiationSummary(
    consensusReached: bool,
    convergenceScore: int,
    finalProposal: string,
    agreementTerms: seq<string>,
    partyAConcessions: seq<string>,
    partyBConcessions: seq<string>,
    unresolvedDisputes: seq<string>,
    summaryText: string,
    partyAStyle: Option<StyleAnalysis>,
    partyBStyle: Option<StyleAnalysis>,
    turningPoints: Option<seq<TurningPoint>>,
    satisfactionA: Option<int>,
    satisfactionB: Option<int>,
    redLineAnalysis: Option<RedLineAnalysis>)

  /** The events the server streams to the client. */
  datatype Event =
    | StatusEvent(phase: Phase, speaker: Speaker, round: nat)
    | MessageEvent(message: Message)
    | SummaryEvent(summary: Json)
    | DoneEvent(sessionId: Uuid)
    | ErrorEvent(error: string)

  /** The body of `POST /api/negotiate`. A missing field is modelled as "". */
  datatype CreateRequest = CreateRequest(
    topic: string,
    instanceAId: string,
    instanceAName: string,
    positionA: string,
    instanceBId: string,
    instanceBName: string,
    positionB: string,
    accessToken: Option<string>,
    redLineA: Option<string>,
    redLineB: Option<string>)

  /** A negotiation session. The engine updates `status`, `messages`, `summary`
      and `error` in place; every other field is fixed at creation. `summary`
      holds whatever the summary step produced (`JNull` for `null`), since the
      parsed reply is stored without a shape check. */
  class Session {
    const id: Uuid
    const topic: string
    const instanceAId: string
    const instanceAName: string
    const positionA: string
    const instanceBId: string
    const instanceBName: string
    const positionB: string
    const createdAt: int
    const accessToken: Option<string>
    const redLineA: Option<string>
    const redLineB: Option<string>
    var status: Status
    var messages: seq<Message>
    var summary: Json
    var error: Option<string>

    /** The object literal of `createSession`: pending, no messages, null
        summary and error, and none of the optional request fields. */
    constructor (id: Uuid, topic: string, instanceAId: string, instanceAName: string, positionA: string,
                 instanceBId: string, instanceBName: string, positionB: string, createdAt: int)
      ensures this.id == id && this.topic == topic && this.createdAt == createdAt
      ensures this.instanceAId == instanceAId && this.instanceAName == instanceAName && this.positionA == positionA
      ensures this.instanceBId == instanceBId && this.instanceBName == instanceBName && this.positionB == positionB
      ensures accessToken == None && redLineA == None && redLineB == None
      ensures status == Pending && messages == [] && summary == JNull && error == None
    {
      this.id := id;
      this.topic := topic;
      this.instanceAId := instanceAId;
      this.instanceAName := instanceAName;
      this.positionA := positionA;
      this.instanceBId := instanceBId;
      this.instanceBName := instanceBName;
      this.positionB := positionB;
      this.createdAt := createdAt;
      accessToken := None;
      redLineA := None;
      redLineB := None;
      status := Pending;
      messages := [];
      summary := JNull;
      error := None;
    }
  }

  /** The JSON kinds of a string array. */
  predicate IsStringArray(v: Option<Json>) {
    v.Some? && v.value.JArray? && forall k :: 0 <= k < |v.value.items| ==> v.value.items[k].JString?
  }

  /** A JSON value has the shape of a `NegotiationSummary`: an object whose
      members for the eight required fields of that record (`consensusReached`
      through `summaryText`) are present and of the declared kind. The code
      never checks this; `Summary.FallbackIsPartial` shows its fallback fails it. */
  predicate IsSummaryShaped(v: Json) {
    && v.JObject?
    && (var f := v.fields;
        && Get(f, "consensus_reached").Some? && Get(f, "consensus_reached").value.JBool?
        && Get(f, "convergence_score").Some? && Get(f, "convergence_score").value.JNumber?
        && Get(f, "final_proposal").Some? && Get(f, "final_proposal").value.JString?
        && IsStringArray(Get(f, "agreement_terms"))
        && IsStringArray(Get(f, "party_a_concessions"))
        && IsStringArray(Get(f, "party_b_concessions"))
        && IsStringArray(Get(f, "unresolved_disputes"))
        && Get(f, "summary_text").Some? && Get(f, "summary_text").value.JString?)
  }
}
