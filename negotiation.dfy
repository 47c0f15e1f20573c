/** The negotiation engine of `src/lib/negotiation.ts`: the in-memory session
    store, the retry policy, and the three-round exchange between agent A and
    agent B that ends with a summary. The model behind both agents is the
    `Llm.Gateway` the engine is given; `JSON.parse` is a `Json.Parser`. */
module Negotiation {
  import opened Wrappers
  import opened Json
  import opened Http
  import opened Types
  import opened Llm
  import opened Prompts
  import opened Summary

  const MAX_TOPIC_LENGTH: nat := 200
  const MAX_POSITION_LENGTH: nat := 500
  const NOT_FOUND := "Session not found"

  /** `s.slice(0, n)`: the first `n` characters, or all of `s` when it is shorter. */
  function Truncate(s: string, n: nat): (r: string)
    ensures |r| <= n && r <= s
    ensures |s| <= n ==> r == s
    ensures |s| > n ==> |r| == n
  {
    if |s| <= n then s else s[..n]
  }

  /** The reply that stands in for an agent that failed twice. */
  function Placeholder(msg: string): string {
    "[Agent 暂时无法响应：" + msg + "]"
  }

  /** A reply together with the log of requests sent so far. */
  datatype Attempt = Attempt(reply: string, sent: seq<seq<ChatMessage>>)

  /** `callWithRetry` after the requests in `log`: the first success of at most
      two identical calls, or the placeholder naming the first call's error. */
  function Retry(g: Gateway, log: seq<seq<ChatMessage>>, systemPrompt: string, userMessage: string): (r: Attempt)
    ensures r.reply != ""
    ensures g.apiKey == "" ==> r == Attempt(Placeholder(NO_KEY), log)
    ensures g.apiKey != "" ==>
              && |log| < |r.sent| <= |log| + 2 && r.sent[..|log|] == log
              && forall k :: |log| <= k < |r.sent| ==> r.sent[k] == Wrap(systemPrompt, userMessage)
  {
    var request := Wrap(systemPrompt, userMessage);
    var first := g.Call(log, request);
    if first.result.Ok? then Attempt(first.result.value, first.sent)
    else
      var second := g.Call(first.sent, request);
      if second.result.Ok? then Attempt(second.result.value, second.sent)
      else Attempt(Placeholder(first.result.error), second.sent)
  }

  /** `callWithRetry`: it never fails. */
  method CallWithRetry(llm: Gateway, systemPrompt: string, userMessage: string) returns (reply: string)
    modifies llm`sent
    ensures Attempt(reply, llm.sent) == Retry(llm, old(llm.sent), systemPrompt, userMessage)
  {
    var first := llm.ChatCompletion(systemPrompt, userMessage);
    if first.Ok? {
      return first.value;
    }
    var second := llm.ChatCompletion(systemPrompt, userMessage);
    if second.Ok? {
      return second.value;
    }
    reply := Placeholder(first.error);
  }

  /** The reply is the first call's success when there is one, the second's
      otherwise, and the placeholder carries the first error, never the second. */
  lemma RetryOutcome(g: Gateway, log: seq<seq<ChatMessage>>, systemPrompt: string, userMessage: string)
    ensures var first := g.Call(log, Wrap(systemPrompt, userMessage));
            var second := g.Call(first.sent, Wrap(systemPrompt, userMessage));
            var r := Retry(g, log, systemPrompt, userMessage);
            && (first.result.Ok? ==> r.reply == first.result.value && |r.sent| == |log| + 1)
            && (first.result.Err? && second.result.Ok? ==> r.reply == second.result.value)
            && (first.result.Err? && second.result.Err? ==> r.reply == Placeholder(first.result.error))
  {
  }

  /** What the engine knows about the session it runs: the topic and the two
      secret positions. */
  datatype Agenda = Agenda(topic: string, positionA: string, positionB: string)

  /** The state the engine threads through the rounds: the session's messages,
      the events emitted, the (system, user) prompts each turn asked, the last
      reply of each agent, the requests sent, and the next id to issue. */
  datatype Progress = Progress(
    messages: seq<Message>,
    events: seq<Event>,
    asked: seq<(string, string)>,
    lastA: string,
    lastB: string,
    sent: seq<seq<ChatMessage>>,
    nextUuid: nat)

  /** Before the first round: no replies yet. */
  function Start(messages: seq<Message>, sent: seq<seq<ChatMessage>>, nextUuid: nat): Progress {
    Progress(messages, [], [], "", "", sent, nextUuid)
  }

  /** One agent's turn: a status event, the reply (retried once), and the
      reply recorded as a message with a fresh id and the clock's time. */
  function Turn(g: Gateway, clock: nat -> int, speaker: Speaker, round: nat,
                systemPrompt: string, userMessage: string, p: Progress): Progress {
    var reply := Retry(g, p.sent, systemPrompt, userMessage);
    var msg := Message(p.nextUuid, round, speaker, reply.reply, clock(p.nextUuid));
    p.(messages := p.messages + [msg],
       events := p.events + [StatusEvent(Thinking, speaker, round), MessageEvent(msg)],
       asked := p.asked + [(systemPrompt, userMessage)],
       lastA := if speaker == A then reply.reply else p.lastA,
       lastB := if speaker == B then reply.reply else p.lastB,
       sent := reply.sent,
       nextUuid := p.nextUuid + 1)
  }

  /** A's turn of round `round` after progress `p`: A answers B's last reply
      (the topic in round 1), with a system prompt built from A's position. */
  function TurnA(g: Gateway, clock: nat -> int, a: Agenda, round: nat, p: Progress): Progress {
    Turn(g, clock, A, round, BuildSystemPrompt(a.topic, a.positionA, round, TOTAL_ROUNDS),
         PromptA(round, a.topic, p.lastB), p)
  }

  /** B's turn of round `round` after A's turn `q`: B answers A's reply of the
      same round, with a system prompt built from B's position. */
  function TurnB(g: Gateway, clock: nat -> int, a: Agenda, round: nat, q: Progress): Progress {
    Turn(g, clock, B, round, BuildSystemPrompt(a.topic, a.positionB, round, TOTAL_ROUNDS),
         PromptB(round, q.lastA), q)
  }

  /** The progress after the first `r` rounds. */
  function Rounds(g: Gateway, clock: nat -> int, a: Agenda, start: Progress, r: nat): Progress
    decreases r, 2
  {
    if r == 0 then start else AfterB(g, clock, a, start, r)
  }

  /** The progress after A's turn of round `round`. */
  function AfterA(g: Gateway, clock: nat -> int, a: Agenda, start: Progress, round: nat): Progress
    requires round >= 1
    decreases round, 0
  {
    TurnA(g, clock, a, round, Rounds(g, clock, a, start, round - 1))
  }

  /** The progress after B's turn of round `round`, which ends the round. */
  function AfterB(g: Gateway, clock: nat -> int, a: Agenda, start: Progress, round: nat): Progress
    requires round >= 1
    decreases round, 1
  {
    TurnB(g, clock, a, round, AfterA(g, clock, a, start, round))
  }

  /** The summary request: the analyst system prompt and the transcript. */
  function SummaryRequest(topic: string, messages: seq<Message>): seq<ChatMessage> {
    Wrap(SUMMARY_SYSTEM, SummaryPrompt(topic, Transcript(messages)))
  }

  /** How a run ends. */
  datatype Outcome = Succeeded(summary: Json) | FailedWith(error: string)

  datatype Final = Final(progress: Progress, outcome: Outcome)

  /** After the rounds: a status event for round 0, then the summary call; its
      success completes the run with `summary` and `done`, its error fails the
      run with one `error` event. */
  function Conclude(g: Gateway, parse: Parser, a: Agenda, id: Uuid, p: Progress): Final {
    var ex := g.Call(p.sent, SummaryRequest(a.topic, p.messages));
    var events := p.events + [StatusEvent(Thinking, A, 0)];
    match ex.result
    case Ok(raw) =>
      var v := ParseSummary(parse, raw);
      Final(p.(events := events + [SummaryEvent(v), DoneEvent(id)], sent := ex.sent), Succeeded(v))
    case Err(e) =>
      Final(p.(events := events + [ErrorEvent(e)], sent := ex.sent), FailedWith(e))
  }

  /** The engine's variables agree with the specification's progress. */
  ghost predicate Tracks(messages: seq<Message>, events: seq<Event>, lastA: string, lastB: string,
                         sent: seq<seq<ChatMessage>>, nextUuid: nat, p: Progress)
  {
    && messages == p.messages && events == p.events && lastA == p.lastA && lastB == p.lastB
    && sent == p.sent && nextUuid == p.nextUuid
  }

  /** A whole run of `runNegotiation` on an existing session. */
  function Negotiate(g: Gateway, clock: nat -> int, parse: Parser, a: Agenda, id: Uuid, rounds: nat,
                     messages: seq<Message>, sent: seq<seq<ChatMessage>>, nextUuid: nat): Final {
    Conclude(g, parse, a, id, Rounds(g, clock, a, Start(messages, sent, nextUuid), rounds))
  }

  /** `generateSummary`: the summary request, its reply parsed by `parseSummaryJSON`. */
  method GenerateSummary(llm: Gateway, parse: Parser, topic: string, messages: seq<Message>) returns (r: Result<Json>)
    modifies llm`sent
    ensures var ex := llm.Call(old(llm.sent), SummaryRequest(topic, messages));
            && llm.sent == ex.sent
            && r == match ex.result case Ok(raw) => Ok(ParseSummary(parse, raw)) case Err(e) => Err(e)
  {
    var raw := llm.ChatCompletion(SUMMARY_SYSTEM, SummaryPrompt(topic, Transcript(messages)));
    match raw
    case Ok(text) =>
      r := Ok(ParseSummary(parse, text));
    case Err(e) =>
      r := Err(e);
  }

  /** The process-wide session map of `src/lib/negotiation.ts`, with the id
      generator and the clock. Ids come from one counter shared by sessions
      and messages; the clock gives the time at which each id is issued. */
  class Store {
    var sessions: map<Uuid, Session>
    var nextUuid: Uuid
    const clock: nat -> int
    /** How many rounds a run plays: `TOTAL_ROUNDS`. */
    const rounds: nat

    /** Every session is stored under its own id, and every id in use was
        issued before `nextUuid`. */
    ghost predicate Valid()
      reads this
    {
      && (forall k :: k in sessions ==> sessions[k].id == k && k < nextUuid)
    }

    constructor (clock: nat -> int)
      ensures this.clock == clock && rounds == TOTAL_ROUNDS && sessions == map[] && nextUuid == 0
      ensures Valid()
    {
      this.clock := clock;
      rounds := TOTAL_ROUNDS;
      sessions := map[];
      nextUuid := 0;
    }

    /** `uuidv4()`: an id never issued before. */
    method NewUuid() returns (id: Uuid)
      modifies this`nextUuid
      ensures id == old(nextUuid) && nextUuid == id + 1
    {
      id := nextUuid;
      nextUuid := nextUuid + 1;
    }

    /** `getSession(id)`: the session stored under `id`, `None` for `undefined`. */
    function GetSession(id: Uuid): (r: Option<Session>)
      reads this
      ensures r.Some? <==> id in sessions
      ensures r.Some? ==> r.value == sessions[id]
      ensures Valid() && r.Some? ==> r.value.id == id
      ensures Valid() && id >= nextUuid ==> r.None?
    {
      if id in sessions then Some(sessions[id]) else None
    }

    /** `createSession(req)`: a pending session with the truncated topic and
        positions, stored under a fresh id. */
    method CreateSession(req: CreateRequest) returns (s: Session)
      requires Valid()
      modifies this
      ensures Valid() && fresh(s)
      ensures s.id == old(nextUuid) && s.id !in old(sessions) && nextUuid == old(nextUuid) + 1
      ensures sessions == old(sessions)[s.id := s]
      ensures GetSession(s.id) == Some(s)
      ensures s.topic == Truncate(req.topic, MAX_TOPIC_LENGTH)
      ensures s.positionA == Truncate(req.positionA, MAX_POSITION_LENGTH)
      ensures s.positionB == Truncate(req.positionB, MAX_POSITION_LENGTH)
      ensures s.instanceAId == req.instanceAId && s.instanceAName == req.instanceAName
      ensures s.instanceBId == req.instanceBId && s.instanceBName == req.instanceBName
      ensures s.createdAt == clock(s.id)
      ensures s.accessToken == None && s.redLineA == None && s.redLineB == None
      ensures s.status == Pending && s.messages == [] && s.summary == JNull && s.error == None
    {
      var topic := Truncate(req.topic, MAX_TOPIC_LENGTH);
      var positionA := Truncate(req.positionA, MAX_POSITION_LENGTH);
      var positionB := Truncate(req.positionB, MAX_POSITION_LENGTH);
      var id := NewUuid();
      s := new Session(id, topic, req.instanceAId, req.instanceAName, positionA,
                       req.instanceBId, req.instanceBName, positionB, clock(id));
      sessions := sessions[id := s];
    }

    /** `runNegotiation(sessionId, onEvent)`; the events emitted are returned in
        order. Only the store's id counter, the gateway's log and the session
        run are changed. */
    method RunNegotiation(llm: Gateway, parse: Parser, sessionId: Uuid) returns (events: seq<Event>)
      requires Valid()
      modifies this`nextUuid, llm`sent, if sessionId in sessions then {sessions[sessionId]} else {}
      ensures Valid() && sessions == old(sessions)
      ensures sessionId !in sessions ==>
                events == [ErrorEvent(NOT_FOUND)] && nextUuid == old(nextUuid) && llm.sent == old(llm.sent)
      ensures sessionId in sessions ==>
                var s := sessions[sessionId];
                var f := Negotiate(llm, clock, parse, Agenda(s.topic, s.positionA, s.positionB), sessionId, rounds,
                                   old(s.messages), old(llm.sent), old(nextUuid));
                && events == f.progress.events && s.messages == f.progress.messages
                && llm.sent == f.progress.sent && nextUuid == f.progress.nextUuid
                && match f.outcome
                   case Succeeded(v) => s.status == Status.Completed && s.summary == v && s.error == old(s.error)
                   case FailedWith(e) => s.status == Failed && s.error == Some(e) && s.summary == old(s.summary)
    {
      if sessionId !in sessions {
        events := [ErrorEvent(NOT_FOUND)];
        return;
      }
      events := Run(llm, parse, sessions[sessionId]);
    }

    /** `runNegotiation` on a session found in the store: in progress, the
        rounds, then the summary. */
    method Run(llm: Gateway, parse: Parser, s: Session) returns (events: seq<Event>)
      modifies this`nextUuid, llm`sent, s
      ensures nextUuid == old(nextUuid) + 2 * rounds
      ensures var f := Negotiate(llm, clock, parse, Agenda(s.topic, s.positionA, s.positionB), s.id, rounds,
                                 old(s.messages), old(llm.sent), old(nextUuid));
              && events == f.progress.events && s.messages == f.progress.messages
              && llm.sent == f.progress.sent && nextUuid == f.progress.nextUuid
              && match f.outcome
                 case Succeeded(v) => s.status == Status.Completed && s.summary == v && s.error == old(s.error)
                 case FailedWith(e) => s.status == Failed && s.error == Some(e) && s.summary == old(s.summary)
    {
      s.status := InProgress;
      ghost var start := Start(s.messages, llm.sent, nextUuid);
      events := PlayRounds(llm, s);
      ghost var p := Rounds(llm, clock, Agenda(s.topic, s.positionA, s.positionB), start, rounds);
      events := Finish(llm, parse, s, s.id, events, p);
    }

    /** The round loop of `runNegotiation`: three rounds, each A then B. */
    method PlayRounds(llm: Gateway, s: Session) returns (events: seq<Event>)
      modifies this`nextUuid, llm`sent, s`messages
      ensures var p := Rounds(llm, clock, Agenda(s.topic, s.positionA, s.positionB),
                              Start(old(s.messages), old(llm.sent), old(nextUuid)), rounds);
              && s.messages == p.messages && events == p.events && llm.sent == p.sent && nextUuid == p.nextUuid
    ensures nextUuid == old(nextUuid) + 2 * rounds
    {
      ghost var a := Agenda(s.topic, s.positionA, s.positionB);
      ghost var start := Start(s.messages, llm.sent, nextUuid);
      var lastA, lastB := "", "";
      events := [];
      var round := 1;
      while round <= rounds
        invariant 1 <= round <= rounds + 1
        invariant nextUuid == old(nextUuid) + 2 * (round - 1)
        invariant Tracks(s.messages, events, lastA, lastB, llm.sent, nextUuid, Rounds(llm, clock, a, start, round - 1))
      {
        events, lastA, lastB := PlayRound(llm, s, round, events, lastA, lastB, a, start);
        round := round + 1;
      }
    }

    /** One iteration of the round loop: A's turn, then B's. */
    method PlayRound(llm: Gateway, s: Session, round: nat, events: seq<Event>, lastA: string, lastB: string,
                     ghost a: Agenda, ghost start: Progress)
      returns (events': seq<Event>, lastA': string, lastB': string)
      requires round >= 1 && a == Agenda(s.topic, s.positionA, s.positionB)
      requires Tracks(s.messages, events, lastA, lastB, llm.sent, nextUuid, Rounds(llm, clock, a, start, round - 1))
      modifies this`nextUuid, llm`sent, s`messages
      ensures Tracks(s.messages, events', lastA', lastB', llm.sent, nextUuid, Rounds(llm, clock, a, start, round))
      ensures nextUuid == old(nextUuid) + 2
    {
      ghost var p := Rounds(llm, clock, a, start, round - 1);
      var sysA := BuildSystemPrompt(s.topic, s.positionA, round, TOTAL_ROUNDS);
      var promptA := PromptA(round, s.topic, lastB);
      assert AfterA(llm, clock, a, start, round) == Turn(llm, clock, A, round, sysA, promptA, p);
      ghost var q := AfterA(llm, clock, a, start, round);
      events', lastA' := PlayTurn(llm, s, A, round, sysA, promptA, events, p);
      var sysB := BuildSystemPrompt(s.topic, s.positionB, round, TOTAL_ROUNDS);
      var promptB := PromptB(round, lastA');
      events', lastB' := PlayTurn(llm, s, B, round, sysB, promptB, events', q);
    }

    /** One agent's turn of the round loop. */
    method PlayTurn(llm: Gateway, s: Session, speaker: Speaker, round: nat, systemPrompt: string, userMessage: string,
                    events: seq<Event>, ghost p: Progress) returns (events': seq<Event>, reply: string)
      requires s.messages == p.messages && events == p.events && llm.sent == p.sent && nextUuid == p.nextUuid
      modifies this`nextUuid, llm`sent, s`messages
      ensures var q := Turn(llm, clock, speaker, round, systemPrompt, userMessage, p);
              && s.messages == q.messages && events' == q.events && llm.sent == q.sent && nextUuid == q.nextUuid
              && reply == (if speaker == A then q.lastA else q.lastB)
    {
      events' := events + [StatusEvent(Thinking, speaker, round)];
      reply := CallWithRetry(llm, systemPrompt, userMessage);
      var id := NewUuid();
      var msg := Message(id, round, speaker, reply, clock(id));
      s.messages := s.messages + [msg];
      events' := events' + [MessageEvent(msg)];
    }

    /** The end of `runNegotiation`: the summary, then `completed` or `failed`. */
    method Finish(llm: Gateway, parse: Parser, s: Session, sessionId: Uuid, events: seq<Event>, ghost p: Progress)
      returns (events': seq<Event>)
      requires s.messages == p.messages && events == p.events && llm.sent == p.sent
      modifies llm`sent, s`status, s`summary, s`error
      ensures var f := Conclude(llm, parse, Agenda(s.topic, s.positionA, s.positionB), sessionId, p);
              && events' == f.progress.events && llm.sent == f.progress.sent && s.messages == old(s.messages)
              && match f.outcome
                 case Succeeded(v) => s.status == Status.Completed && s.summary == v && s.error == old(s.error)
                 case FailedWith(e) => s.status == Failed && s.error == Some(e) && s.summary == old(s.summary)
    {
      events' := events + [StatusEvent(Thinking, A, 0)];
      var summary := GenerateSummary(llm, parse, s.topic, s.messages);
      match summary
      case Ok(v) =>
        s.summary := v;
        s.status := Status.Completed;
        events' := events' + [SummaryEvent(v), DoneEvent(sessionId)];
      case Err(e) =>
        s.status := Failed;
        s.error := Some(e);
        events' := events' + [ErrorEvent(e)];
    }
  }
}
