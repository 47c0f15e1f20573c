/** What a run of the negotiation engine does, stated over the specification
    functions of `Negotiation`: the shape of each round, what accumulates over
    the rounds, how the prompts chain the agents' replies, and how a run ends. */
module NegotiationFacts {
  import opened Wrappers
  import opened Json
  import opened Http
  import opened Types
  import opened Llm
  import opened Text
  import opened Prompts
  import opened Summary
  import opened Negotiation

  /** One turn, as the rounds use it: the reply is recorded under the next
      id, the other agent's last reply is untouched, and the requests sent
      grow as `Retry` says. */
  lemma TurnEffect(g: Gateway, clock: nat -> int, speaker: Speaker, round: nat,
                   systemPrompt: string, userMessage: string, p: Progress)
    ensures var q := Turn(g, clock, speaker, round, systemPrompt, userMessage, p);
            var reply := if speaker == A then q.lastA else q.lastB;
            var msg := Message(p.nextUuid, round, speaker, reply, clock(p.nextUuid));
            && q.messages == p.messages + [msg]
            && q.events == p.events + [StatusEvent(Thinking, speaker, round), MessageEvent(msg)]
            && q.asked == p.asked + [(systemPrompt, userMessage)]
            && q.nextUuid == p.nextUuid + 1
            && (speaker == A ==> q.lastB == p.lastB) && (speaker == B ==> q.lastA == p.lastA)
            && reply != ""
            && (g.apiKey == "" ==> q.sent == p.sent && reply == Placeholder(NO_KEY))
            && (g.apiKey != "" ==> |p.sent| + 1 <= |q.sent| <= |p.sent| + 2 && p.sent <= q.sent)
            && (forall k :: |p.sent| <= k < |q.sent| ==> q.sent[k] == Wrap(systemPrompt, userMessage))
  {
  }

  /** One round after progress `p`: A speaks, then B, each reply stored as a
      message with the next id and the clock's time at that id, each preceded
      by a status event. Replies are never empty, and without a key both are
      the placeholder. */
  lemma RoundEffect(g: Gateway, clock: nat -> int, a: Agenda, j: nat, p: Progress)
    ensures var q := TurnB(g, clock, a, j, TurnA(g, clock, a, j, p));
            var msgA := Message(p.nextUuid, j, A, q.lastA, clock(p.nextUuid));
            var msgB := Message(p.nextUuid + 1, j, B, q.lastB, clock(p.nextUuid + 1));
            && q.messages == p.messages + [msgA] + [msgB]
            && q.events == p.events + [StatusEvent(Thinking, A, j), MessageEvent(msgA)]
                                    + [StatusEvent(Thinking, B, j), MessageEvent(msgB)]
            && q.nextUuid == p.nextUuid + 2
            && q.lastA != "" && q.lastB != ""
            && (g.apiKey == "" ==> q.lastA == q.lastB == Placeholder(NO_KEY))
  {
    var m := TurnA(g, clock, a, j, p);
    TurnEffect(g, clock, A, j, BuildSystemPrompt(a.topic, a.positionA, j, TOTAL_ROUNDS), PromptA(j, a.topic, p.lastB), p);
    TurnEffect(g, clock, B, j, BuildSystemPrompt(a.topic, a.positionB, j, TOTAL_ROUNDS), PromptB(j, m.lastA), m);
  }

  /** What one round asks: A with its own position and B's last reply, B with
      its own position and A's reply of this round. Without a key nothing is
      sent; with a key each agent sends one or two requests. */
  lemma RoundRequests(g: Gateway, clock: nat -> int, a: Agenda, j: nat, p: Progress)
    ensures var q := TurnB(g, clock, a, j, TurnA(g, clock, a, j, p));
            && q.asked == p.asked + [(BuildSystemPrompt(a.topic, a.positionA, j, TOTAL_ROUNDS), PromptA(j, a.topic, p.lastB))]
                                  + [(BuildSystemPrompt(a.topic, a.positionB, j, TOTAL_ROUNDS), PromptB(j, q.lastA))]
            && (g.apiKey == "" ==> q.sent == p.sent)
            && (g.apiKey != "" ==> |p.sent| + 2 <= |q.sent| <= |p.sent| + 4 && p.sent <= q.sent)
  {
    var m := TurnA(g, clock, a, j, p);
    var q := TurnB(g, clock, a, j, m);
    TurnEffect(g, clock, A, j, BuildSystemPrompt(a.topic, a.positionA, j, TOTAL_ROUNDS), PromptA(j, a.topic, p.lastB), p);
    TurnEffect(g, clock, B, j, BuildSystemPrompt(a.topic, a.positionB, j, TOTAL_ROUNDS), PromptB(j, m.lastA), m);
    if g.apiKey != "" {
      PrefixGrows(p.sent, m.sent, q.sent);
    }
  }

  /** The replies and the prompts of one round, as `RoundEffect` and
      `RoundRequests` state them, without the events and the requests. */
  lemma RoundPrompts(g: Gateway, clock: nat -> int, a: Agenda, j: nat, p: Progress)
    ensures var q := TurnB(g, clock, a, j, TurnA(g, clock, a, j, p));
            && q.messages == p.messages + [Message(p.nextUuid, j, A, q.lastA, clock(p.nextUuid))]
                                        + [Message(p.nextUuid + 1, j, B, q.lastB, clock(p.nextUuid + 1))]
            && q.asked == p.asked + [(BuildSystemPrompt(a.topic, a.positionA, j, TOTAL_ROUNDS), PromptA(j, a.topic, p.lastB))]
                                  + [(BuildSystemPrompt(a.topic, a.positionB, j, TOTAL_ROUNDS), PromptB(j, q.lastA))]
  {
    var m := TurnA(g, clock, a, j, p);
    TurnEffect(g, clock, A, j, BuildSystemPrompt(a.topic, a.positionA, j, TOTAL_ROUNDS), PromptA(j, a.topic, p.lastB), p);
    TurnEffect(g, clock, B, j, BuildSystemPrompt(a.topic, a.positionB, j, TOTAL_ROUNDS), PromptB(j, m.lastA), m);
  }

  /** Round `j` of a run is A's turn, then B's, on the progress after `j - 1` rounds. */
  lemma RoundsStep(g: Gateway, clock: nat -> int, a: Agenda, start: Progress, j: nat)
    requires j >= 1
    ensures Rounds(g, clock, a, start, j) == TurnB(g, clock, a, j, TurnA(g, clock, a, j, Rounds(g, clock, a, start, j - 1)))
  {
    assert AfterA(g, clock, a, start, j) == TurnA(g, clock, a, j, Rounds(g, clock, a, start, j - 1));
  }

  /** What `r` rounds leave in the replies of progress `q` after `start`:
      two messages per round appended to what was there before, every new
      message a non-empty reply, and, without a key, every new reply the
      placeholder. */
  ghost predicate Recorded(start: Progress, q: Progress, r: nat, noKey: bool) {
    && |q.messages| == |start.messages| + 2 * r && start.messages <= q.messages
    && (forall i :: |start.messages| <= i < |q.messages| ==> q.messages[i].content != "")
    && (noKey ==> forall i :: |start.messages| <= i < |q.messages| ==> q.messages[i].content == Placeholder(NO_KEY))
  }

  /** A round of the shape `RoundEffect` gives extends `Recorded` by one round. */
  lemma RecordedStep(start: Progress, p: Progress, q: Progress, r: nat, noKey: bool, msgA: Message, msgB: Message)
    requires Recorded(start, p, r, noKey)
    requires q.messages == p.messages + [msgA] + [msgB]
    requires msgA.content != "" && msgB.content != ""
    requires noKey ==> msgA.content == msgB.content == Placeholder(NO_KEY)
    ensures Recorded(start, q, r + 1, noKey)
  {
    PrefixGrows(start.messages, p.messages, q.messages);
  }

  /** Appending keeps a prefix a prefix. */
  lemma PrefixGrows<T>(s: seq<T>, p: seq<T>, q: seq<T>)
    requires s <= p && p <= q
    ensures s <= q
  {
    assert q[..|s|] == q[..|p|][..|s|];
  }

  /** After `r` rounds the progress is `Recorded` from the start. */
  lemma {:induction false} RoundsRecord(g: Gateway, clock: nat -> int, a: Agenda, start: Progress, r: nat)
    ensures Recorded(start, Rounds(g, clock, a, start, r), r, g.apiKey == "")
  {
    if r > 0 {
      RoundsRecord(g, clock, a, start, r - 1);
      var p := Rounds(g, clock, a, start, r - 1);
      var q := TurnB(g, clock, a, r, TurnA(g, clock, a, r, p));
      RoundsStep(g, clock, a, start, r);
      RoundEffect(g, clock, a, r, p);
      RecordedStep(start, p, q, r - 1, g.apiKey == "",
                   Message(p.nextUuid, r, A, q.lastA, clock(p.nextUuid)),
                   Message(p.nextUuid + 1, r, B, q.lastB, clock(p.nextUuid + 1)));
    }
  }

  /** What `r` rounds leave in progress `q` after `start` on the request
      side: two prompts asked per round; without a key nothing sent, with a
      key between two and four requests per round appended. */
  ghost predicate Requested(start: Progress, q: Progress, r: nat, noKey: bool) {
    && |q.asked| == |start.asked| + 2 * r && start.asked <= q.asked
    && (noKey ==> q.sent == start.sent)
    && (!noKey ==> |start.sent| + 2 * r <= |q.sent| <= |start.sent| + 4 * r && start.sent <= q.sent)
  }

  /** A round of the shape `RoundRequests` gives extends `Requested` by one round. */
  lemma RequestedStep(start: Progress, p: Progress, q: Progress, r: nat, noKey: bool, askA: (string, string), askB: (string, string))
    requires Requested(start, p, r, noKey)
    requires q.asked == p.asked + [askA] + [askB]
    requires noKey ==> q.sent == p.sent
    requires !noKey ==> |p.sent| + 2 <= |q.sent| <= |p.sent| + 4 && p.sent <= q.sent
    ensures Requested(start, q, r + 1, noKey)
  {
    PrefixGrows(start.asked, p.asked, q.asked);
    if !noKey {
      PrefixGrows(start.sent, p.sent, q.sent);
    }
  }

  /** After `r` rounds the progress has `Requested` from the start. */
  lemma {:induction false} RoundsRequests(g: Gateway, clock: nat -> int, a: Agenda, start: Progress, r: nat)
    ensures Requested(start, Rounds(g, clock, a, start, r), r, g.apiKey == "")
  {
    if r > 0 {
      RoundsRequests(g, clock, a, start, r - 1);
      var p := Rounds(g, clock, a, start, r - 1);
      var q := TurnB(g, clock, a, r, TurnA(g, clock, a, r, p));
      RoundsStep(g, clock, a, start, r);
      RoundRequests(g, clock, a, r, p);
      RequestedStep(start, p, q, r - 1, g.apiKey == "",
                    (BuildSystemPrompt(a.topic, a.positionA, r, TOTAL_ROUNDS), PromptA(r, a.topic, p.lastB)),
                    (BuildSystemPrompt(a.topic, a.positionB, r, TOTAL_ROUNDS), PromptB(r, q.lastA)));
    }
  }



  /** The messages of `r` rounds: for each round in turn, A's reply then B's,
      each carrying its round number. */
  ghost predicate Played(ms: seq<Message>, r: nat)
    decreases r
  {
    && |ms| == 2 * r
    && (r > 0 ==>
          && Played(ms[..2 * r - 2], r - 1)
          && ms[2 * r - 2].speaker == A && ms[2 * r - 2].round == r
          && ms[2 * r - 1].speaker == B && ms[2 * r - 1].round == r)
  }

  /** Message ids run on from `base` one by one, and each message carries the
      clock's time at its id. */
  ghost predicate Stamped(ms: seq<Message>, base: nat, clock: nat -> int) {
    forall i :: 0 <= i < |ms| ==> ms[i].id == base + i && ms[i].timestamp == clock(ms[i].id)
  }

  /** B's last reply among messages `ms` of whole rounds: the last message's
      content, or `lastB` when there is none. */
  function Prev(ms: seq<Message>, lastB: string): string {
    if |ms| == 0 then lastB else ms[|ms| - 1].content
  }

  /** What `r` rounds leave in the messages of progress `q` after `start`:
      the new messages are `Played`, `Stamped` from the start's next id and
      `Announced` by the new events,
      and the last replies are those of the last round (or the start's, when
      no round was played). */
  ghost predicate Shaped(start: Progress, q: Progress, r: nat, clock: nat -> int) {
    && start.messages <= q.messages && |q.messages| == |start.messages| + 2 * r
    && start.events <= q.events
    && q.nextUuid == start.nextUuid + 2 * r
    && var ms := q.messages[|start.messages|..];
       && Played(ms, r) && Stamped(ms, start.nextUuid, clock)
       && Announced(q.events[|start.events|..], ms)
       && q.lastB == Prev(ms, start.lastB)
       && (r == 0 ==> q.lastA == start.lastA)
       && (r > 0 ==> q.lastA == ms[|ms| - 2].content)
  }

  /** Every message among `ms`, in order, announced by a status event for
      its speaker and round and then a message event carrying it. */
  ghost predicate Announced(es: seq<Event>, ms: seq<Message>)
    decreases |ms|
  {
    if |ms| == 0 then es == []
    else
      && |es| >= 2
      && var m := ms[|ms| - 1];
         && Announced(es[..|es| - 2], ms[..|ms| - 1])
         && es[|es| - 2] == StatusEvent(Thinking, m.speaker, m.round)
         && es[|es| - 1] == MessageEvent(m)
  }

  /** One more message and its two events extend `Announced`. */
  lemma AnnouncedStep(es: seq<Event>, ms: seq<Message>, m: Message)
    requires Announced(es, ms)
    ensures Announced(es + [StatusEvent(Thinking, m.speaker, m.round), MessageEvent(m)], ms + [m])
  {
    var es' := es + [StatusEvent(Thinking, m.speaker, m.round), MessageEvent(m)];
    assert es'[..|es'| - 2] == es;
    assert (ms + [m])[..|ms|] == ms;
  }

  /** A round's two messages and their four events extend `Announced`. */
  lemma AnnouncedRound(es: seq<Event>, ms: seq<Message>, x: Message, y: Message)
    requires Announced(es, ms)
    ensures Announced(es + [StatusEvent(Thinking, x.speaker, x.round), MessageEvent(x)]
                         + [StatusEvent(Thinking, y.speaker, y.round), MessageEvent(y)], ms + [x] + [y])
  {
    AnnouncedStep(es, ms, x);
    AnnouncedStep(es + [StatusEvent(Thinking, x.speaker, x.round), MessageEvent(x)], ms + [x], y);
  }

  /** `Announced` events are two per message. */
  lemma {:induction false} AnnouncedLength(es: seq<Event>, ms: seq<Message>)
    requires Announced(es, ms)
    ensures |es| == 2 * |ms|
    decreases |ms|
  {
    if |ms| > 0 {
      AnnouncedLength(es[..|es| - 2], ms[..|ms| - 1]);
    }
  }

  /** `Announced` events: two per message, the status event of message `i`
      at `2i` and its message event right after. */
  lemma {:induction false} AnnouncedAt(es: seq<Event>, ms: seq<Message>)
    requires Announced(es, ms)
    ensures |es| == 2 * |ms|
    ensures forall i :: 0 <= i < |ms| ==>
              es[2 * i] == StatusEvent(Thinking, ms[i].speaker, ms[i].round) && es[2 * i + 1] == MessageEvent(ms[i])
    decreases |ms|
  {
    if |ms| > 0 {
      var es0, ms0 := es[..|es| - 2], ms[..|ms| - 1];
      AnnouncedAt(es0, ms0);
      forall i | 0 <= i < |ms|
        ensures es[2 * i] == StatusEvent(Thinking, ms[i].speaker, ms[i].round) && es[2 * i + 1] == MessageEvent(ms[i])
      {
        if i < |ms0| {
          assert es[2 * i] == es0[2 * i] && es[2 * i + 1] == es0[2 * i + 1] && ms[i] == ms0[i];
        }
      }
    }
  }

  /** Slicing off a prefix, then appending two pieces, is appending them after slicing. */
  lemma EventsAppend<T>(s: seq<T>, p: seq<T>, q: seq<T>, x: seq<T>, y: seq<T>)
    requires s <= p && q == p + x + y
    ensures s <= q && q[|s|..] == p[|s|..] + x + y
  {
    assert q[..|s|] == p[..|s|];
    assert q[|s|..] == p[|s|..] + x + y;
  }

  /** Slicing off a prefix commutes with appending two elements. */
  lemma SliceAppend<T>(s: seq<T>, p: seq<T>, q: seq<T>, x: T, y: T)
    requires s <= p && q == p + [x] + [y]
    ensures s <= q && q[|s|..] == p[|s|..] + [x] + [y]
  {
    assert q[..|s|] == p[..|s|];
    assert q[|s|..] == p[|s|..] + [x] + [y];
  }

  /** Two more messages of round `r + 1`, A's then B's, extend `Played`. */
  lemma PlayedStep(ms: seq<Message>, r: nat, x: Message, y: Message)
    requires Played(ms, r)
    requires x.speaker == A && x.round == r + 1 && y.speaker == B && y.round == r + 1
    ensures Played(ms + [x] + [y], r + 1)
  {
    assert (ms + [x] + [y])[..2 * r] == ms;
  }

  /** A round of the shape `RoundEffect` gives extends `Shaped` by one round. */
  lemma ShapedStep(start: Progress, p: Progress, q: Progress, r: nat, clock: nat -> int, msgA: Message, msgB: Message)
    requires Shaped(start, p, r, clock)
    requires msgA == Message(p.nextUuid, r + 1, A, q.lastA, clock(p.nextUuid))
    requires msgB == Message(p.nextUuid + 1, r + 1, B, q.lastB, clock(p.nextUuid + 1))
    requires q.messages == p.messages + [msgA] + [msgB] && q.nextUuid == p.nextUuid + 2
    requires q.events == p.events + [StatusEvent(Thinking, A, r + 1), MessageEvent(msgA)]
                                  + [StatusEvent(Thinking, B, r + 1), MessageEvent(msgB)]
    ensures Shaped(start, q, r + 1, clock)
  {
    var s := |start.messages|;
    var ms := p.messages[s..];
    SliceAppend(start.messages, p.messages, q.messages, msgA, msgB);
    PlayedStep(ms, r, msgA, msgB);
    assert start.nextUuid + |ms| == p.nextUuid;
    StampedStep(ms, start.nextUuid, clock, msgA, msgB);
    LastPair(ms, msgA, msgB, start.lastB);
    EventsAppend(start.events, p.events, q.events, [StatusEvent(Thinking, A, r + 1), MessageEvent(msgA)],
                 [StatusEvent(Thinking, B, r + 1), MessageEvent(msgB)]);
    AnnouncedRound(p.events[|start.events|..], ms, msgA, msgB);
  }

  /** Two more messages with the next two ids, stamped at their issue time,
      keep `Stamped`. */
  lemma StampedStep(ms: seq<Message>, base: nat, clock: nat -> int, x: Message, y: Message)
    requires Stamped(ms, base, clock)
    requires x.id == base + |ms| && x.timestamp == clock(x.id)
    requires y.id == x.id + 1 && y.timestamp == clock(y.id)
    ensures Stamped(ms + [x] + [y], base, clock)
  {
    var m := ms + [x] + [y];
    forall i | 0 <= i < |m|
      ensures m[i].id == base + i && m[i].timestamp == clock(m[i].id)
    {
      if i < |ms| {
        assert m[i] == ms[i];
      }
    }
  }

  /** The last two of two appended messages are those two. */
  lemma LastPair(ms: seq<Message>, x: Message, y: Message, lastB: string)
    ensures var m := ms + [x] + [y];
            && |m| == |ms| + 2 && m[|m| - 2] == x && Prev(m, lastB) == y.content
  {
  }

  /** After `r` rounds the progress is `Shaped` from the start. */
  lemma {:induction false} RoundsShaped(g: Gateway, clock: nat -> int, a: Agenda, start: Progress, r: nat)
    ensures Shaped(start, Rounds(g, clock, a, start, r), r, clock)
  {
    if r > 0 {
      RoundsShaped(g, clock, a, start, r - 1);
      var p := Rounds(g, clock, a, start, r - 1);
      var q := TurnB(g, clock, a, r, TurnA(g, clock, a, r, p));
      RoundsStep(g, clock, a, start, r);
      RoundEffect(g, clock, a, r, p);
      ShapedStep(start, p, q, r - 1, clock,
                 Message(p.nextUuid, r, A, q.lastA, clock(p.nextUuid)),
                 Message(p.nextUuid + 1, r, B, q.lastB, clock(p.nextUuid + 1)));
    }
  }

  /** The prompts of round `r >= 1`, the last two of `asked`, against the
      messages `ms` of rounds 1 to `r`: A is asked with its own position and
      B's reply of the round before (`lastB` in round 1), then B with its own
      position and A's reply of round `r`. */
  ghost predicate RoundAsked(asked: seq<(string, string)>, ms: seq<Message>, a: Agenda, r: nat, lastB: string) {
    && r >= 1 && |asked| == 2 * r && |ms| == 2 * r
    && asked[2 * r - 2] == (BuildSystemPrompt(a.topic, a.positionA, r, TOTAL_ROUNDS), PromptA(r, a.topic, Prev(ms[..2 * r - 2], lastB)))
    && asked[2 * r - 1] == (BuildSystemPrompt(a.topic, a.positionB, r, TOTAL_ROUNDS), PromptB(r, ms[2 * r - 2].content))
  }

  /** The prompts of `r` rounds against the messages of those rounds, each
      round's pair as `RoundAsked` says. */
  ghost predicate Chained(asked: seq<(string, string)>, ms: seq<Message>, a: Agenda, r: nat, lastB: string)
    decreases r
  {
    if r == 0 then asked == [] && ms == []
    else RoundAsked(asked, ms, a, r, lastB) && Chained(asked[..2 * r - 2], ms[..2 * r - 2], a, r - 1, lastB)
  }

  /** One more round of prompts and messages extends `Chained`. */
  lemma ChainedStep(asked: seq<(string, string)>, ms: seq<Message>, a: Agenda, r: nat, lastB: string,
                    askA: (string, string), askB: (string, string), x: Message, y: Message)
    requires Chained(asked, ms, a, r, lastB)
    requires askA == (BuildSystemPrompt(a.topic, a.positionA, r + 1, TOTAL_ROUNDS), PromptA(r + 1, a.topic, Prev(ms, lastB)))
    requires askB == (BuildSystemPrompt(a.topic, a.positionB, r + 1, TOTAL_ROUNDS), PromptB(r + 1, x.content))
    ensures Chained(asked + [askA] + [askB], ms + [x] + [y], a, r + 1, lastB)
  {
    var asked', ms' := asked + [askA] + [askB], ms + [x] + [y];
    assert |asked| == 2 * r && |ms| == 2 * r;
    TakeBeforeTwo(asked, askA, askB, 2 * (r + 1) - 2);
    TakeBeforeTwo(ms, x, y, 2 * (r + 1) - 2);
  }

  /** A round of the shapes `RoundEffect` and `RoundRequests` give, played
      after a progress whose last B reply is the one `Chained` expects,
      extends `Chained` by round `j`. */
  lemma ChainedRound(start: Progress, p: Progress, q: Progress, a: Agenda, j: nat, msgA: Message, msgB: Message)
    requires j >= 1 && start.asked <= p.asked && start.messages <= p.messages
    requires Chained(p.asked[|start.asked|..], p.messages[|start.messages|..], a, j - 1, start.lastB)
    requires p.lastB == Prev(p.messages[|start.messages|..], start.lastB)
    requires q.messages == p.messages + [msgA] + [msgB] && msgA.content == q.lastA && msgB.content == q.lastB
    requires q.asked == p.asked + [(BuildSystemPrompt(a.topic, a.positionA, j, TOTAL_ROUNDS), PromptA(j, a.topic, p.lastB))]
                                + [(BuildSystemPrompt(a.topic, a.positionB, j, TOTAL_ROUNDS), PromptB(j, q.lastA))]
    ensures start.asked <= q.asked && start.messages <= q.messages
    ensures Chained(q.asked[|start.asked|..], q.messages[|start.messages|..], a, j, start.lastB)
    ensures q.lastB == Prev(q.messages[|start.messages|..], start.lastB)
  {
    var askA := (BuildSystemPrompt(a.topic, a.positionA, j, TOTAL_ROUNDS), PromptA(j, a.topic, p.lastB));
    var askB := (BuildSystemPrompt(a.topic, a.positionB, j, TOTAL_ROUNDS), PromptB(j, q.lastA));
    SliceAppend(start.asked, p.asked, q.asked, askA, askB);
    SliceAppend(start.messages, p.messages, q.messages, msgA, msgB);
    ChainedStep(p.asked[|start.asked|..], p.messages[|start.messages|..], a, j - 1, start.lastB, askA, askB, msgA, msgB);
  }

  /** After `r` rounds the new prompts are `Chained` to the new messages. */
  lemma {:induction false} RoundsChained(g: Gateway, clock: nat -> int, a: Agenda, start: Progress, r: nat)
    ensures start.asked <= Rounds(g, clock, a, start, r).asked
    ensures start.messages <= Rounds(g, clock, a, start, r).messages
    ensures Chained(Rounds(g, clock, a, start, r).asked[|start.asked|..],
                    Rounds(g, clock, a, start, r).messages[|start.messages|..], a, r, start.lastB)
    ensures Rounds(g, clock, a, start, r).lastB == Prev(Rounds(g, clock, a, start, r).messages[|start.messages|..], start.lastB)
  {
    if r > 0 {
      RoundsChained(g, clock, a, start, r - 1);
      var p := Rounds(g, clock, a, start, r - 1);
      var q := TurnB(g, clock, a, r, TurnA(g, clock, a, r, p));
      RoundsStep(g, clock, a, start, r);
      RoundPrompts(g, clock, a, r, p);
      ChainedRound(start, p, q, a, r, Message(p.nextUuid, r, A, q.lastA, clock(p.nextUuid)),
                   Message(p.nextUuid + 1, r, B, q.lastB, clock(p.nextUuid + 1)));
    }
  }

  /** The end of a run keeps the messages, the prompts and the ids of the
      rounds; it adds a status event for round 0 and the summary call's
      request, then `summary` and `done` when the call succeeds, one `error`
      event with the call's error otherwise. */
  lemma ConcludeEffect(g: Gateway, parse: Parser, a: Agenda, id: Uuid, p: Progress)
    ensures var f := Conclude(g, parse, a, id, p);
            var ex := g.Call(p.sent, SummaryRequest(a.topic, p.messages));
            && f.progress.messages == p.messages && f.progress.asked == p.asked && f.progress.nextUuid == p.nextUuid
            && f.progress.sent == ex.sent
            && (f.outcome.Succeeded? <==> ex.result.Ok?)
            && (ex.result.Ok? ==>
                  && f.outcome.summary == ParseSummary(parse, ex.result.value)
                  && f.progress.events == p.events + [StatusEvent(Thinking, A, 0)] + [SummaryEvent(f.outcome.summary), DoneEvent(id)])
            && (ex.result.Err? ==>
                  && f.outcome.error == ex.result.error
                  && f.progress.events == p.events + [StatusEvent(Thinking, A, 0)] + [ErrorEvent(ex.result.error)])
  {
  }

  /** Splitting `r + [x] + tail` back into its pieces. */
  lemma SplitAround<T>(r: seq<T>, x: T, tail: seq<T>)
    ensures var s := r + [x] + tail;
            && s[..|r|] == r && s[|r|] == x && s[|r| + 1..] == tail
  {
    var s := r + [x] + tail;
    assert s[..|r|] == r;
    assert s[|r| + 1..] == tail;
  }

  /** Slicing from 0 is the whole sequence. */
  lemma SliceFromZero<T>(s: seq<T>)
    ensures s[0..] == s
  {
  }

  /** The messages a run adds: for each round in turn A's reply then B's,
      each with the round's number, never empty, with ids issued one by one
      from the store's counter and each stamped with the clock at its id;
      the messages already there are kept in front. */
  lemma RunMessages(g: Gateway, clock: nat -> int, parse: Parser, a: Agenda, id: Uuid, rounds: nat,
                    messages: seq<Message>, sent: seq<seq<ChatMessage>>, nextUuid: nat)
    ensures var f := Negotiate(g, clock, parse, a, id, rounds, messages, sent, nextUuid);
            var ms := f.progress.messages;
            && messages <= ms && |ms| == |messages| + 2 * rounds
            && Played(ms[|messages|..], rounds) && Stamped(ms[|messages|..], nextUuid, clock)
            && (forall i :: |messages| <= i < |ms| ==> ms[i].content != "")
            && f.progress.nextUuid == nextUuid + 2 * rounds
  {
    var start := Start(messages, sent, nextUuid);
    var p := Rounds(g, clock, a, start, rounds);
    RoundsShaped(g, clock, a, start, rounds);
    RoundsRecord(g, clock, a, start, rounds);
    ConcludeEffect(g, parse, a, id, p);
  }

  /** The prompts of a run: in each round A is asked with its own position
      and B's reply of the round before (nothing to quote in round 1), then B
      with its own position and A's reply of the same round. */
  lemma RunPrompts(g: Gateway, clock: nat -> int, parse: Parser, a: Agenda, id: Uuid, rounds: nat,
                   messages: seq<Message>, sent: seq<seq<ChatMessage>>, nextUuid: nat)
    ensures var f := Negotiate(g, clock, parse, a, id, rounds, messages, sent, nextUuid);
            && messages <= f.progress.messages
            && Chained(f.progress.asked, f.progress.messages[|messages|..], a, rounds, "")
  {
    var start := Start(messages, sent, nextUuid);
    var p := Rounds(g, clock, a, start, rounds);
    RoundsChained(g, clock, a, start, rounds);
    SliceFromZero(p.asked);
    ConcludeEffect(g, parse, a, id, p);
  }

  /** The events of a run: each new message announced by a status event and
      a message event, then a status event for round 0, then `summary` and
      `done` on success or a single `error` on failure. */
  lemma RunEvents(g: Gateway, clock: nat -> int, parse: Parser, a: Agenda, id: Uuid, rounds: nat,
                  messages: seq<Message>, sent: seq<seq<ChatMessage>>, nextUuid: nat)
    ensures var f := Negotiate(g, clock, parse, a, id, rounds, messages, sent, nextUuid);
            var es, n := f.progress.events, 4 * rounds;
            && messages <= f.progress.messages && |es| > n
            && Announced(es[..n], f.progress.messages[|messages|..])
            && es[n] == StatusEvent(Thinking, A, 0)
            && (f.outcome.Succeeded? ==> es[n + 1..] == [SummaryEvent(f.outcome.summary), DoneEvent(id)])
            && (f.outcome.FailedWith? ==> es[n + 1..] == [ErrorEvent(f.outcome.error)])
  {
    var start := Start(messages, sent, nextUuid);
    var p := Rounds(g, clock, a, start, rounds);
    RoundsShaped(g, clock, a, start, rounds);
    SliceFromZero(p.events);
    AnnouncedLength(p.events, p.messages[|messages|..]);
    assert |p.events| == 4 * rounds;
    ConcludeEffect(g, parse, a, id, p);
    var ex := g.Call(p.sent, SummaryRequest(a.topic, p.messages));
    if ex.result.Ok? {
      SplitAround(p.events, StatusEvent(Thinking, A, 0), [SummaryEvent(ParseSummary(parse, ex.result.value)), DoneEvent(id)]);
    } else {
      SplitAround(p.events, StatusEvent(Thinking, A, 0), [ErrorEvent(ex.result.error)]);
    }
  }

  /** A prefix stays a prefix when one more element is appended, and that
      element is the last. */
  lemma AppendOne<T>(s: seq<T>, p: seq<T>, x: T)
    requires s <= p
    ensures s <= p + [x] && (p + [x])[|p|] == x
  {
    assert (p + [x])[..|s|] == p[..|s|];
  }

  /** What a run asks of the model. Without a key nothing is sent, every
      reply is the placeholder and the run fails with the missing-key error.
      With a key each turn sends one or two requests and the summary one
      more, the last request sent being the summary request over the run's
      messages. */
  lemma RunRequests(g: Gateway, clock: nat -> int, parse: Parser, a: Agenda, id: Uuid, rounds: nat,
                    messages: seq<Message>, sent: seq<seq<ChatMessage>>, nextUuid: nat)
    ensures var f := Negotiate(g, clock, parse, a, id, rounds, messages, sent, nextUuid);
            var ms := f.progress.messages;
            && (g.apiKey == "" ==>
                  && f.outcome == FailedWith(NO_KEY) && f.progress.sent == sent
                  && |ms| == |messages| + 2 * rounds
                  && forall i :: |messages| <= i < |ms| ==> ms[i].content == Placeholder(NO_KEY))
            && (g.apiKey != "" ==>
                  && sent <= f.progress.sent
                  && |sent| + 2 * rounds + 1 <= |f.progress.sent| <= |sent| + 4 * rounds + 1
                  && f.progress.sent[|f.progress.sent| - 1] == SummaryRequest(a.topic, ms))
  {
    var start := Start(messages, sent, nextUuid);
    var p := Rounds(g, clock, a, start, rounds);
    RoundsRequests(g, clock, a, start, rounds);
    RoundsRecord(g, clock, a, start, rounds);
    ConcludeEffect(g, parse, a, id, p);
    if g.apiKey != "" {
      AppendOne(sent, p.sent, SummaryRequest(a.topic, p.messages));
    }
  }

  /** The three rounds of a negotiation leave six messages: speakers A, B,
      A, B, A, B with rounds 1, 1, 2, 2, 3, 3. */
  lemma ThreeRounds(ms: seq<Message>)
    requires Played(ms, TOTAL_ROUNDS)
    ensures |ms| == 6
    ensures [ms[0].speaker, ms[1].speaker, ms[2].speaker, ms[3].speaker, ms[4].speaker, ms[5].speaker] == [A, B, A, B, A, B]
    ensures [ms[0].round, ms[1].round, ms[2].round, ms[3].round, ms[4].round, ms[5].round] == [1, 1, 2, 2, 3, 3]
  {
    assert Played(ms[..4], 2);
    assert ms[..4][..2] == ms[..2];
    assert Played(ms[..2], 1);
  }

  /** Dropping the two elements just appended gives back the sequence. */
  lemma TakeBeforeTwo<T>(s: seq<T>, x: T, y: T, n: nat)
    requires n == |s|
    ensures (s + [x] + [y])[..n] == s
  {
    assert (s + [x] + [y])[..n] == s;
  }

  /** What the prompts of one round quote: A's opening prompt is the topic
      alone; every later A prompt quotes B's reply of the round before, and
      every B prompt A's reply of the same round, right after "对方说：";
      B's prompt announces the last round exactly in the last round. */
  lemma RoundQuotes(asked: seq<(string, string)>, ms: seq<Message>, a: Agenda, r: nat, lastB: string)
    requires RoundAsked(asked, ms, a, r, lastB)
    ensures r == 1 ==> asked[0].1 == OPENING + a.topic
    ensures r > 1 ==> ContainsAt(asked[2 * r - 2].1, ms[2 * r - 3].content, |REPLY_TO|)
    ensures ContainsAt(asked[2 * r - 1].1, ms[2 * r - 2].content, |REPLY_TO|)
    ensures r == TOTAL_ROUNDS <==> ContainsAt(asked[2 * r - 1].1, LAST_ROUND, |REPLY_TO| + |ms[2 * r - 2].content| + 2)
  {
    RoundQuotesA(asked, ms, a, r, lastB);
    RoundQuotesB(asked, ms, a, r, lastB);
  }

  lemma RoundQuotesA(asked: seq<(string, string)>, ms: seq<Message>, a: Agenda, r: nat, lastB: string)
    requires RoundAsked(asked, ms, a, r, lastB)
    ensures r == 1 ==> asked[0].1 == OPENING + a.topic
    ensures r > 1 ==> ContainsAt(asked[2 * r - 2].1, ms[2 * r - 3].content, |REPLY_TO|)
  {
    if r == 1 {
      RoundOpens(asked, ms, a, lastB);
    } else {
      RoundQuotesPrev(asked[2 * r - 2].1, ms, a.topic, r, lastB);
    }
  }

  lemma RoundOpens(asked: seq<(string, string)>, ms: seq<Message>, a: Agenda, lastB: string)
    requires RoundAsked(asked, ms, a, 1, lastB)
    ensures asked[0].1 == OPENING + a.topic
  {
    PromptAQuotes(1, a.topic, Prev(ms[..0], lastB));
  }

  lemma RoundQuotesPrev(prompt: string, ms: seq<Message>, topic: string, r: nat, lastB: string)
    requires r > 1 && |ms| >= 2 * r - 2 && prompt == PromptA(r, topic, Prev(ms[..2 * r - 2], lastB))
    ensures ContainsAt(prompt, ms[2 * r - 3].content, |REPLY_TO|)
  {
    var quoted := Prev(ms[..2 * r - 2], lastB);
    PrevOfTake(ms, 2 * r - 2, lastB);
    assert 2 * r - 2 - 1 == 2 * r - 3;
    PromptAQuotes(r, topic, quoted);
  }

  lemma RoundQuotesB(asked: seq<(string, string)>, ms: seq<Message>, a: Agenda, r: nat, lastB: string)
    requires RoundAsked(asked, ms, a, r, lastB)
    ensures ContainsAt(asked[2 * r - 1].1, ms[2 * r - 2].content, |REPLY_TO|)
    ensures r == TOTAL_ROUNDS <==> ContainsAt(asked[2 * r - 1].1, LAST_ROUND, |REPLY_TO| + |ms[2 * r - 2].content| + 2)
  {
    PromptBQuotes(r, ms[2 * r - 2].content);
  }

  lemma PrevOfTake(ms: seq<Message>, n: nat, lastB: string)
    requires 0 < n <= |ms|
    ensures Prev(ms[..n], lastB) == ms[n - 1].content
  {
  }

  /** The quoting facts of `RoundQuotes` for every round up to `r`, free of
      the prompt texts themselves. */
  ghost predicate Quoting(asked: seq<(string, string)>, ms: seq<Message>, topic: string, r: nat)
    decreases r
  {
    && |asked| == 2 * r && |ms| == 2 * r
    && (r > 0 ==>
          && (r == 1 ==> asked[0].1 == OPENING + topic)
          && (r > 1 ==> ContainsAt(asked[2 * r - 2].1, ms[2 * r - 3].content, |REPLY_TO|))
          && ContainsAt(asked[2 * r - 1].1, ms[2 * r - 2].content, |REPLY_TO|)
          && Quoting(asked[..2 * r - 2], ms[..2 * r - 2], topic, r - 1))
  }

  lemma {:induction false} ChainedQuoting(asked: seq<(string, string)>, ms: seq<Message>, a: Agenda, r: nat, lastB: string)
    requires Chained(asked, ms, a, r, lastB)
    ensures Quoting(asked, ms, a.topic, r)
    decreases r
  {
    if r > 0 {
      RoundQuotes(asked, ms, a, r, lastB);
      ChainedQuoting(asked[..2 * r - 2], ms[..2 * r - 2], a, r - 1, lastB);
    }
  }

  lemma {:induction false} QuotingAll(asked: seq<(string, string)>, ms: seq<Message>, topic: string, r: nat)
    requires Quoting(asked, ms, topic, r) && r >= 1
    ensures |asked| == 2 * r && |ms| == 2 * r
    ensures asked[0].1 == OPENING + topic
    ensures forall j :: 1 <= j <= r ==> ContainsAt(asked[2 * j - 1].1, ms[2 * j - 2].content, |REPLY_TO|)
    ensures forall j :: 1 < j <= r ==> ContainsAt(asked[2 * j - 2].1, ms[2 * j - 3].content, |REPLY_TO|)
    decreases r
  {
    var asked', ms' := asked[..2 * r - 2], ms[..2 * r - 2];
    if r > 1 {
      QuotingAll(asked', ms', topic, r - 1);
      assert asked'[0] == asked[0];
    }
    forall j | 1 <= j <= r
      ensures ContainsAt(asked[2 * j - 1].1, ms[2 * j - 2].content, |REPLY_TO|)
    {
      if j != r {
        assert asked'[2 * j - 1] == asked[2 * j - 1] && ms'[2 * j - 2] == ms[2 * j - 2];
      }
    }
    forall j | 1 < j <= r
      ensures ContainsAt(asked[2 * j - 2].1, ms[2 * j - 3].content, |REPLY_TO|)
    {
      if j != r {
        assert asked'[2 * j - 2] == asked[2 * j - 2] && ms'[2 * j - 3] == ms[2 * j - 3];
      }
    }
  }

  /** Over all rounds of `Chained` prompts: the first prompt is the opening
      on the topic, and in every round A's prompt quotes B's previous reply
      (from round 2 on) and B's prompt quotes A's reply of the round. */
  lemma ChainedQuotes(asked: seq<(string, string)>, ms: seq<Message>, a: Agenda, r: nat, lastB: string)
    requires Chained(asked, ms, a, r, lastB) && r >= 1
    ensures |asked| == 2 * r && |ms| == 2 * r
    ensures asked[0].1 == OPENING + a.topic
    ensures forall j :: 1 <= j <= r ==> ContainsAt(asked[2 * j - 1].1, ms[2 * j - 2].content, |REPLY_TO|)
    ensures forall j :: 1 < j <= r ==> ContainsAt(asked[2 * j - 2].1, ms[2 * j - 3].content, |REPLY_TO|)
  {
    ChainedQuoting(asked, ms, a, r, lastB);
    QuotingAll(asked, ms, a.topic, r);
  }
}
