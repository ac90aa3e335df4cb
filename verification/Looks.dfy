/** What the looks of a run at its queues found, told against the turns that followed them.

    Between two turns the loop looks at the steering queue and, when it has nothing else to do, at
    the follow-up queue.  A look records what the queue held, not what was taken from it: what the
    next turn begins with is then a statement about the queues and the history alone. */
module Looks {
  import opened Types
  import opened History
  import opened PendingQueues

  datatype Look =
    | NotLooked                                                     // the loop did not come to look
    | Skipped                                                       // the run was cancelled by then
    | Looked(mode: DeliveryMode, held: seq<Message>, clears: nat)   // what the queue held

  /** What a look takes: all of it, or the oldest message only. */
  function TakenBy(l: Look): seq<Message> {
    if !l.Looked? || l.held == [] then []
    else if l.mode == All then l.held
    else [l.held[0]]
  }

  /** The looks between two turns, before the first, or after the last. */
  datatype Boundary = Boundary(steering: Look, followUp: Look)

  const NOT_LOOKED := Boundary(NotLooked, NotLooked)

  predicate FoundNothing(b: Boundary) {
    b.steering.Looked? && b.steering.held == [] && b.followUp.Looked? && b.followUp.held == []
  }

  /** What the looks bring to the next turn: steering before follow-ups. */
  function Brings(b: Boundary): seq<Injection> {
    if TakenBy(b.steering) != [] then Tag(TakenBy(b.steering), Steering) else Tag(TakenBy(b.followUp), FollowUp)
  }

  /** A queue when the run started. */
  datatype Queued = Queued(messages: seq<Message>, clears: nat)

  ghost function Now(q: PendingQueue): Queued
    reads q
  {
    Queued(q.messages, q.clears)
  }

  /** Unless it was cleared, a queue still begins with what it held. */
  predicate Later(before: Queued, after: Queued) {
    before.clears <= after.clears && (before.clears == after.clears ==> before.messages <= after.messages)
  }

  /** How a run began: its prompts, whether they are alone in the first turn, the steering queue. */
  datatype Beginning = Beginning(opening: seq<Injection>, alone: bool, steering: Queued)

  /** Before the first turn the loop looks for steering messages, unless the prompts are to be alone;
      it finds what was queued when the run started, unless somebody cleared the queue. */
  predicate FirstLooks(s: Beginning, b: Boundary) {
    && b.followUp.NotLooked? && (b.steering.NotLooked? <==> s.alone)
    && (b.steering.Looked? && b.steering.clears == s.steering.clears ==> s.steering.messages <= b.steering.held)
  }

  /** After a turn the loop looks for steering messages, and for follow-ups only if there are none
      and no tool results to look at either. */
  predicate LaterLooks(t: Turn, b: Boundary) {
    && !b.steering.NotLooked? && (b.steering.Skipped? ==> !b.followUp.Looked?)
    && (!b.followUp.NotLooked? ==> TakenBy(b.steering) == [] && !MoreCalls(t))
  }

  predicate GoodLooks(s: Beginning, before: Option<Turn>, b: Boundary) {
    if before.None? then FirstLooks(s, b) else LaterLooks(before.value, b)
  }

  /** A turn begins with what was found before it, the first turn with the prompts before that.  It
      is withheld if the run had been cancelled by then. */
  predicate Begins(s: Beginning, before: Option<Turn>, b: Boundary, t: Turn) {
    && GoodLooks(s, before, b)
    && t.injected == (if before.None? then s.opening else []) + Brings(b)
    && (b.steering.Skipped? ==> t.response.Withheld? && t.response.message.stopReason == Aborted)
  }

  function LastOf(ts: seq<Turn>): Option<Turn> {
    if ts == [] then None else Some(ts[|ts| - 1])
  }

  /** Every turn begins with what the looks before it found. */
  predicate Informed(s: Beginning, ts: seq<Turn>, bs: seq<Boundary>) {
    |bs| == |ts| && forall i :: 0 <= i < |ts| ==> Begins(s, LastOf(ts[..i]), bs[i], ts[i])
  }

  /** `Informed`, folded. */
  ghost predicate Heard(s: Beginning, ts: seq<Turn>, bs: seq<Boundary>) {
    forall k :: Ask(k) && k == OfLooks ==> Informed(s, ts, bs)
  }

  /** The looks since the last turn, and the messages they bring; folded. */
  ghost predicate Found(s: Beginning, ts: seq<Turn>, b: Boundary, pending: seq<Message>, source: Origin) {
    forall k :: Ask(k) && k == OfLooks ==> GoodLooks(s, LastOf(ts), b) && Brings(b) == Tag(pending, source)
  }

  lemma NothingHeard(s: Beginning)
    ensures Heard(s, [], [])
  {}

  lemma HeardSnoc(s: Beginning, ts: seq<Turn>, bs: seq<Boundary>, b: Boundary, pending: seq<Message>, source: Origin,
                  t: Turn)
    requires Heard(s, ts, bs) && Found(s, ts, b, pending, source)
    requires t.injected == (if ts == [] then s.opening else []) + Tag(pending, source)
    requires b.steering.Skipped? ==> t.response.Withheld? && t.response.message.stopReason == Aborted
    ensures Heard(s, ts + [t], bs + [b])
  {
    assert Ask(OfLooks);
    forall i | 0 <= i < |ts + [t]| ensures Begins(s, LastOf((ts + [t])[..i]), (bs + [b])[i], (ts + [t])[i]) {
      assert (ts + [t])[..i] == ts[..i];
      if i == |ts| {
        assert ts[..i] == ts;
      } else {
        assert Begins(s, LastOf(ts[..i]), bs[i], ts[i]);
      }
    }
  }

  lemma NothingFound(s: Beginning)
    requires s.alone
    ensures Found(s, [], NOT_LOOKED, [], Steering)
  {}

  /** A look at the steering queue, which held `before` a moment ago. */
  lemma SteeringFound(s: Beginning, ts: seq<Turn>, before: Queued, l: Look)
    requires !l.NotLooked?
    requires ts == [] ==> !s.alone && Later(s.steering, before)
    requires l.Looked? ==> Later(before, Queued(l.held, l.clears))
    ensures Found(s, ts, Boundary(l, NotLooked), TakenBy(l), Steering)
  {}

  /** A look at the follow-up queue, after one at the steering queue brought nothing. */
  lemma FollowUpFound(s: Beginning, ts: seq<Turn>, b: Boundary, source: Origin, l: Look)
    requires ts != [] && Found(s, ts, b, [], source) && b.followUp.NotLooked? && !l.NotLooked?
    requires !MoreCalls(ts[|ts| - 1]) && (b.steering.Skipped? ==> l.Skipped?)
    ensures Found(s, ts, b.(followUp := l), TakenBy(l), FollowUp)
    ensures !b.steering.NotLooked?
    ensures TakenBy(l) == [] ==> b.steering.Skipped? || l.Skipped? || FoundNothing(b.(followUp := l))
  {
    assert Ask(OfLooks);
    TagLength(TakenBy(b.steering), Steering);
  }

  lemma BeginsAt(s: Beginning, ts: seq<Turn>, bs: seq<Boundary>, i: nat)
    requires Heard(s, ts, bs) && i < |ts|
    ensures |bs| == |ts| && Begins(s, if i == 0 then None else Some(ts[i - 1]), bs[i], ts[i])
  {
    assert Ask(OfLooks);
    assert Begins(s, LastOf(ts[..i]), bs[i], ts[i]);
  }
}
