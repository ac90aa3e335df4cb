/** Any sequence of runs of one agent, with anything done to its queues in between. */
module Sessions {
  import opened Types
  import opened History
  import opened Agents
  import opened Pairing
  import opened Orphans
  import Images
  import Rewriting
  import Transform

  // ----- What runs leave behind -----

  /** One run: the prompts it was started with, if any, its turns, and the failure that ended it if
      the client refused a request. */
  datatype Record = Record(prompts: Option<seq<Message>>, turns: seq<Turn>, failure: Option<AssistantMessage>)

  /** A run as the loop makes them; prompts open it, and nothing else is delivered as a prompt. */
  ghost predicate Genuine(r: Record) {
    && r.turns != [] && ValidTurns(r.turns) && Linked(r.turns)
    && (if r.failure.Some? then Refusal(r.turns) && r.failure.value.Failed() else Answered(r.turns))
    && (r.prompts.Some? ==> Tag(r.prompts.value, Origin.Prompt) <= r.turns[0].injected)
    && DeliveredBy(r.turns, Origin.Prompt) == (if r.prompts.Some? then r.prompts.value else [])
  }

  ghost predicate AllGenuine(records: seq<Record>) {
    forall i :: 0 <= i < |records| ==> Genuine(records[i])
  }

  /** What a run appends to the transcript. */
  ghost function Appends(r: Record): seq<Message>
    requires Genuine(r)
  {
    TranscriptOf(r.turns) + (if r.failure.Some? then [Assistant(r.failure.value)] else [])
  }

  ghost function Grown(records: seq<Record>): seq<Message>
    requires AllGenuine(records)
  {
    if records == [] then [] else Grown(records[..|records| - 1]) + Appends(records[|records| - 1])
  }

  /** The turns of all runs. */
  function TurnsOf(records: seq<Record>): seq<Turn> {
    if records == [] then [] else TurnsOf(records[..|records| - 1]) + records[|records| - 1].turns
  }

  /** The prompts of the runs that were started with prompts. */
  function PromptsOf(records: seq<Record>): seq<seq<Message>> {
    if records == [] then []
    else
      var last := records[|records| - 1].prompts;
      PromptsOf(records[..|records| - 1]) + (if last.Some? then [last.value] else [])
  }

  lemma RecordsSnoc(records: seq<Record>, r: Record)
    requires AllGenuine(records) && Genuine(r)
    ensures AllGenuine(records + [r])
    ensures Grown(records + [r]) == Grown(records) + Appends(r)
    ensures TurnsOf(records + [r]) == TurnsOf(records) + r.turns
    ensures PromptsOf(records + [r]) == PromptsOf(records) + (if r.prompts.Some? then [r.prompts.value] else [])
  {
    TakeBack(records, r);
  }

  lemma {:induction false} DeliveredAppend(a: seq<Turn>, b: seq<Turn>, o: Origin)
    ensures DeliveredBy(a + b, o) == DeliveredBy(a, o) + DeliveredBy(b, o)
    decreases |b|
  {
    if b == [] {
      AppendEmpty(a);
    } else {
      assert (a + b)[..|a + b| - 1] == a + b[..|b| - 1];
      DeliveredAppend(a, b[..|b| - 1], o);
      Associate(DeliveredBy(a, o), DeliveredBy(b[..|b| - 1], o), Delivered(b[|b| - 1].injected, o));
    }
  }

  lemma TameAppend(a: seq<Turn>, b: seq<Turn>)
    ensures AllTame(a + b) <==> AllTame(a) && AllTame(b)
  {
    if AllTame(a + b) {
      forall i | 0 <= i < |a| ensures Tame(a[i]) { assert (a + b)[i] == a[i]; }
      forall i | 0 <= i < |b| ensures Tame(b[i]) { assert (a + b)[|a| + i] == b[i]; }
    }
  }

  lemma {:induction false} RunKeepsPairing(r: Record)
    requires Genuine(r) && AllTame(r.turns)
    ensures WellPaired(Appends(r))
  {
    TurnsKeepPairing(r.turns);
    if r.failure.Some? {
      var failure := Assistant(r.failure.value);
      AfterOne(Owes([]), failure);
      WellPairedAppend(TranscriptOf(r.turns), [failure]);
    } else {
      AppendEmpty(TranscriptOf(r.turns));
    }
  }

  /** Main result, for any number of runs: as long as their streams are orderly and only user messages
      are injected, the transcript stays well paired, so that replaying it makes nothing up. */
  lemma {:induction false} RunsKeepPairing(base: seq<Message>, records: seq<Record>)
    requires WellPaired(base) && AllGenuine(records) && AllTame(TurnsOf(records))
    ensures WellPaired(base + Grown(records))
    ensures Flush(base + Grown(records)) == Kept(base + Grown(records))
  {
    if records == [] {
      AppendEmpty(base);
    } else {
      var init, r := records[..|records| - 1], records[|records| - 1];
      TameAppend(TurnsOf(init), r.turns);
      RunsKeepPairing(base, init);
      RunKeepsPairing(r);
      WellPairedAppend(base + Grown(init), Appends(r));
      Associate(base, Grown(init), Appends(r));
    }
    ReplaySynthesizesNothing(base + Grown(records));
  }

  /** And with the whole transform: if the target model and the others share no id, the transcript of
      any number of runs is only downgraded and rewritten for the target, message by message, and no
      result is made up. */
  lemma RunsAreReplayable(base: seq<Message>, records: seq<Record>, model: Model, norm: Option<Rewriting.Normalizer>)
    requires WellPaired(base) && AllGenuine(records) && AllTame(TurnsOf(records))
    requires Transform.Unshared(base + Grown(records), model)
    requires Rewriting.IdOnly(norm, model) && Rewriting.Stable(norm, model)
    ensures var ms := base + Grown(records);
            Transform.Transformed(ms, model, norm) == Kept(Rewriting.Rewrite(Images.Downgrade(ms, model), model, norm))
  {
    var ms := base + Grown(records);
    RunsKeepPairing(base, records);
    FlushKeepsExactly(ms);
    Transform.AnsweredIsOnlyRewritten(ms, model, norm);
  }

  // ----- Delivery -----

  /** `a` is `b` with some elements left out. */
  predicate Within<T(==)>(a: seq<T>, b: seq<T>) {
    if b == [] then a == []
    else
      var n := |b| - 1;
      (a != [] && a[|a| - 1] == b[n] && Within(a[..|a| - 1], b[..n])) || Within(a, b[..n])
  }

  lemma {:induction false} NothingWithin<T>(b: seq<T>)
    ensures Within([], b)
  {
    if b != [] {
      NothingWithin(b[..|b| - 1]);
    }
  }

  lemma {:induction false} WithinAppend<T>(a: seq<T>, b: seq<T>, c: seq<T>, d: seq<T>)
    requires Within(a, b) && Within(c, d)
    ensures Within(a + c, b + d)
    decreases |d|
  {
    if d == [] {
      AppendEmpty(a);
      AppendEmpty(b);
    } else {
      var n := |d| - 1;
      assert (b + d)[..|b + d| - 1] == b + d[..n];
      if c != [] && c[|c| - 1] == d[n] && Within(c[..|c| - 1], d[..n]) {
        WithinAppend(a, b, c[..|c| - 1], d[..n]);
        assert (a + c)[..|a + c| - 1] == a + c[..|c| - 1];
      } else {
        WithinAppend(a, b, c, d[..n]);
      }
    }
  }

  lemma {:induction false} InjectedWithin(js: seq<Injection>, o: Origin)
    ensures Within(Delivered(js, o), InjectedMessages(js))
  {
    if js != [] {
      var n := |js| - 1;
      InjectedWithin(js[..n], o);
      var last := [js[n].message];
      assert last[..0] == [];
      NothingWithin(last);
      WithinAppend(Delivered(js[..n], o), InjectedMessages(js[..n]), if js[n].origin == o then last else [], last);
      AppendEmpty(Delivered(js[..n], o));
    }
  }

  lemma TurnDeliversInOrder(t: Turn, o: Origin)
    requires ValidTurn(t)
    ensures Within(Delivered(t.injected, o), TurnTranscript(t))
  {
    var rest := ConsumerOf(t.response).pushed + ResultMessages(TurnResults(t));
    InjectedWithin(t.injected, o);
    NothingWithin(rest);
    WithinAppend(Delivered(t.injected, o), InjectedMessages(t.injected), [], rest);
    AppendEmpty(Delivered(t.injected, o));
    Associate(InjectedMessages(t.injected), ConsumerOf(t.response).pushed, ResultMessages(TurnResults(t)));
  }

  lemma {:induction false} TurnsDeliver(ts: seq<Turn>, o: Origin)
    requires ValidTurns(ts)
    ensures Within(DeliveredBy(ts, o), TranscriptOf(ts))
  {
    if ts != [] {
      var n := |ts| - 1;
      TurnsDeliver(ts[..n], o);
      TurnDeliversInOrder(ts[n], o);
      WithinAppend(DeliveredBy(ts[..n], o), TranscriptOf(ts[..n]), Delivered(ts[n].injected, o),
                   TurnTranscript(ts[n]));
    }
  }

  /** Main result: what was delivered from a queue, or as prompts, stands in the transcript, in order. */
  lemma {:induction false} DeliveredIsThere(records: seq<Record>, o: Origin)
    requires AllGenuine(records)
    ensures Within(DeliveredBy(TurnsOf(records), o), Grown(records))
  {
    if records != [] {
      var init, r := records[..|records| - 1], records[|records| - 1];
      var failure := if r.failure.Some? then [Assistant(r.failure.value)] else [];
      DeliveredIsThere(init, o);
      TurnsDeliver(r.turns, o);
      NothingWithin(failure);
      WithinAppend(DeliveredBy(r.turns, o), TranscriptOf(r.turns), [], failure);
      AppendEmpty(DeliveredBy(r.turns, o));
      WithinAppend(DeliveredBy(TurnsOf(init), o), Grown(init), DeliveredBy(r.turns, o), Appends(r));
      DeliveredAppend(TurnsOf(init), r.turns, o);
    }
  }

  // ----- One call -----

  /** A call on an idle agent; other tasks may interfere with the runs. */
  datatype Command = Prompting(prompts: seq<Message>, horizon: nat) | Continuing(horizon: nat) | Between(call: External)

  /** The agent when the session began. */
  datatype Began = Began(messages: seq<Message>, steered: seq<Message>, followed: seq<Message>, logs: Logs)

  /** An idle agent, given the records of all its runs. */
  ghost predicate Idle(agent: Agent, began: Began, records: seq<Record>)
    reads agent, agent.steering, agent.followUp
  {
    && agent.steering != agent.followUp && agent.Valid() && !agent.runtime.isStreaming
    && AllGenuine(records)
    && agent.messages == began.messages + Grown(records)
    && agent.steering.taken == began.steered + DeliveredBy(TurnsOf(records), Steering)
    && agent.followUp.taken == began.followed + DeliveredBy(TurnsOf(records), FollowUp)
    && Later(began.logs, agent.LogsNow())
  }

  /** Nothing is taken out of a log, and no clearing is forgotten. */
  predicate Later(before: Logs, after: Logs) {
    && before.steering <= after.steering && before.followUp <= after.followUp
    && before.steeringClears <= after.steeringClears && before.followUpClears <= after.followUpClears
  }

  /** The record of a run that has just ended. */
  ghost function LastRun(agent: Agent, r: RunResult, prompts: Option<seq<Message>>): Record
    requires r.Err? ==> agent.messages != [] && agent.messages[|agent.messages| - 1].Assistant?
    reads agent
  {
    Record(prompts, agent.turns, if r.Err? then Some(agent.messages[|agent.messages| - 1].assistant) else None)
  }

  lemma LastRunIsGenuine(agent: Agent, base: seq<Message>, r: RunResult, prompts: Option<seq<Message>>)
    requires agent.RunReport(base, r)
    requires if prompts.Some? then agent.opening == Tag(prompts.value, Origin.Prompt)
             else Delivered(agent.opening, Origin.Prompt) == []
    ensures r.Err? ==> agent.messages != [] && agent.messages[|agent.messages| - 1].Assistant?
    ensures Genuine(LastRun(agent, r, prompts))
    ensures agent.messages == base + Appends(LastRun(agent, r, prompts)) && !agent.runtime.isStreaming
  {
    agent.ReportMeans(base, r);
    if prompts.Some? {
      TagStart(prompts.value, Origin.Prompt);
    }
    match r {
      case Ok(_) => AppendEmpty(TranscriptOf(agent.turns));
      case Err(_) =>
        Associate(base, TranscriptOf(agent.turns), [agent.messages[|agent.messages| - 1]]);
    }
  }

  /** What a finished run adds. */
  lemma AfterRun(agent: Agent, began: Began, records: seq<Record>, base: seq<Message>, r: RunResult,
                 prompts: Option<seq<Message>>)
    requires agent.RunReport(base, r) && AllGenuine(records) && base == began.messages + Grown(records)
    requires if prompts.Some? then agent.opening == Tag(prompts.value, Origin.Prompt)
             else Delivered(agent.opening, Origin.Prompt) == []
    requires agent.steeringBase == began.steered + DeliveredBy(TurnsOf(records), Steering)
    requires agent.followUpBase == began.followed + DeliveredBy(TurnsOf(records), FollowUp)
    requires Later(began.logs, agent.logsBefore)
    ensures r.Err? ==> agent.messages != [] && agent.messages[|agent.messages| - 1].Assistant?
    ensures Idle(agent, began, records + [LastRun(agent, r, prompts)])
    ensures PromptsOf(records + [LastRun(agent, r, prompts)]) ==
            PromptsOf(records) + (if prompts.Some? then [prompts.value] else [])
  {
    LastRunIsGenuine(agent, base, r, prompts);
    var last := LastRun(agent, r, prompts);
    RecordsSnoc(records, last);
    DeliveredAppend(TurnsOf(records), agent.turns, Steering);
    DeliveredAppend(TurnsOf(records), agent.turns, FollowUp);
    Associate(began.steered, DeliveredBy(TurnsOf(records), Steering), DeliveredBy(agent.turns, Steering));
    Associate(began.followed, DeliveredBy(TurnsOf(records), FollowUp), DeliveredBy(agent.turns, FollowUp));
    Associate(began.messages, Grown(records), Appends(last));
  }

  /** A prompt always runs on an idle agent. */
  method PromptOnce(agent: Agent, prompts: seq<Message>, horizon: nat, ghost began: Began, ghost records: seq<Record>)
    returns (ghost records': seq<Record>)
    requires Idle(agent, began, records)
    modifies agent, agent.steering, agent.followUp
    ensures records <= records' && |records'| == |records| + 1 && Idle(agent, began, records')
    ensures PromptsOf(records') == PromptsOf(records) + [prompts]
    ensures Later(old(agent.LogsNow()), agent.LogsNow())
  {
    ghost var base := agent.messages;
    var r, ran := agent.Prompt(prompts, horizon);
    AfterRun(agent, began, records, base, r, Some(prompts));
    records' := records + [LastRun(agent, r, Some(prompts))];
  }

  method ContinueOnce(agent: Agent, horizon: nat, ghost began: Began, ghost records: seq<Record>)
    returns (ghost records': seq<Record>)
    requires Idle(agent, began, records)
    modifies agent, agent.steering, agent.followUp
    ensures records <= records' && Idle(agent, began, records') && PromptsOf(records') == PromptsOf(records)
    ensures Later(old(agent.LogsNow()), agent.LogsNow())
  {
    ghost var base := agent.messages;
    var r, ran := agent.Continue(horizon);
    records' := records;
    if ran {
      AfterRun(agent, began, records, base, r, None);
      records' := records + [LastRun(agent, r, None)];
      AppendEmpty(PromptsOf(records));
    }
  }

  /** A queue operation on an idle agent; there is no run to abort. */
  method Interfere(agent: Agent, call: External, ghost began: Began, ghost records: seq<Record>)
    requires Idle(agent, began, records)
    modifies agent.steering, agent.followUp
    ensures Idle(agent, began, records)
    ensures agent.steering.enqueued == old(agent.steering.enqueued) + (if call.Steer? then [call.message] else [])
    ensures agent.followUp.enqueued == old(agent.followUp.enqueued) +
            (if call.QueueFollowUp? then [call.message] else [])
    ensures agent.steering.clears == old(agent.steering.clears) + (if call.ClearSteering? then 1 else 0)
    ensures agent.followUp.clears == old(agent.followUp.clears) + (if call.ClearFollowUp? then 1 else 0)
  {
    AppendEmpty(agent.steering.enqueued);
    AppendEmpty(agent.followUp.enqueued);
    match call {
      case Steer(m) => agent.steering.Enqueue(m);
      case QueueFollowUp(m) => agent.followUp.Enqueue(m);
      case ClearSteering => agent.steering.Clear();
      case ClearFollowUp => agent.followUp.Clear();
      case Abort =>
    }
  }

  // ----- A session -----

  function SteeredBy(c: Command): seq<Message> {
    if c.Between? && c.call.Steer? then [c.call.message] else []
  }

  function FollowedBy(c: Command): seq<Message> {
    if c.Between? && c.call.QueueFollowUp? then [c.call.message] else []
  }

  function PromptedBy(c: Command): seq<seq<Message>> {
    if c.Prompting? then [c.prompts] else []
  }

  /** What the commands steer, queue and prompt, in order. */
  function AllSteered(script: seq<Command>): seq<Message> {
    if script == [] then [] else AllSteered(script[..|script| - 1]) + SteeredBy(script[|script| - 1])
  }

  function AllFollowed(script: seq<Command>): seq<Message> {
    if script == [] then [] else AllFollowed(script[..|script| - 1]) + FollowedBy(script[|script| - 1])
  }

  function AllPrompted(script: seq<Command>): seq<seq<Message>> {
    if script == [] then [] else AllPrompted(script[..|script| - 1]) + PromptedBy(script[|script| - 1])
  }

  /** What was logged since `before` has `asked` among it, in order. */
  predicate Logged(before: seq<Message>, after: seq<Message>, asked: seq<Message>) {
    before <= after && Within(asked, after[|before|..])
  }

  lemma LoggedThen(a: seq<Message>, b: seq<Message>, c: seq<Message>, first: seq<Message>, second: seq<Message>)
    requires Logged(a, b, first) && Logged(b, c, second)
    ensures Logged(a, c, first + second)
  {
    WithinAppend(first, b[|a|..], second, c[|b|..]);
    assert c[|a|..] == b[|a|..] + c[|b|..];
  }

  lemma NothingLogged(a: seq<Message>, b: seq<Message>)
    requires a <= b
    ensures Logged(a, b, [])
  {
    NothingWithin(b[|a|..]);
  }

  lemma OneLogged(a: seq<Message>, m: Message)
    ensures Logged(a, a + [m], [m])
  {
    assert (a + [m])[|a|..] == [m] && [m][..0] == [];
    NothingWithin<Message>([]);
  }

  method Execute(agent: Agent, c: Command, ghost began: Began, ghost records: seq<Record>)
    returns (ghost records': seq<Record>)
    requires Idle(agent, began, records)
    modifies agent, agent.steering, agent.followUp
    ensures Idle(agent, began, records')
    ensures PromptsOf(records') == PromptsOf(records) + PromptedBy(c)
    ensures Logged(old(agent.steering.enqueued), agent.steering.enqueued, SteeredBy(c))
    ensures Logged(old(agent.followUp.enqueued), agent.followUp.enqueued, FollowedBy(c))
  {
    match c {
      case Prompting(prompts, horizon) =>
        records' := PromptOnce(agent, prompts, horizon, began, records);
      case Continuing(horizon) =>
        records' := ContinueOnce(agent, horizon, began, records);
        AppendEmpty(PromptsOf(records));
      case Between(call) =>
        Interfere(agent, call, began, records);
        records' := records;
        AppendEmpty(PromptsOf(records));
        if call.Steer? {
          OneLogged(old(agent.steering.enqueued), call.message);
        }
        if call.QueueFollowUp? {
          OneLogged(old(agent.followUp.enqueued), call.message);
        }
    }
    if SteeredBy(c) == [] {
      NothingLogged(old(agent.steering.enqueued), agent.steering.enqueued);
    }
    if FollowedBy(c) == [] {
      NothingLogged(old(agent.followUp.enqueued), agent.followUp.enqueued);
    }
  }

  lemma NothingYet(agent: Agent, began: Began)
    requires agent.steering != agent.followUp && agent.Valid() && !agent.runtime.isStreaming
    requires began == Began(agent.messages, agent.steering.taken, agent.followUp.taken, agent.LogsNow())
    ensures Idle(agent, began, [])
    ensures Logged(agent.steering.enqueued, agent.steering.enqueued, [])
    ensures Logged(agent.followUp.enqueued, agent.followUp.enqueued, [])
  {
    AppendEmpty(agent.messages);
    AppendEmpty(agent.steering.taken);
    AppendEmpty(agent.followUp.taken);
    NothingLogged(agent.steering.enqueued, agent.steering.enqueued);
    NothingLogged(agent.followUp.enqueued, agent.followUp.enqueued);
  }

  /** Main result, for any script of calls.  The transcript has grown by exactly what the runs of the
      script made, one after another; every prompt of the script opened a run of its own, in order.
      What the script queued was logged in order, whatever other tasks queued besides; what was
      taken from a queue was delivered into the transcript, in order, and what was logged was taken
      or is still queued, unless somebody cleared the queue.  As long as the streams are orderly and
      only user messages are injected, the transcript stays well paired, so that replaying it makes
      nothing up. */
  method Session(agent: Agent, script: seq<Command>) returns (ghost records: seq<Record>)
    requires agent.steering != agent.followUp && agent.Valid() && !agent.runtime.isStreaming
    modifies agent, agent.steering, agent.followUp
    ensures agent.Valid() && !agent.runtime.isStreaming
    ensures AllGenuine(records) && agent.messages == old(agent.messages) + Grown(records)
    ensures PromptsOf(records) == AllPrompted(script)
    ensures Logged(old(agent.steering.enqueued), agent.steering.enqueued, AllSteered(script))
    ensures Logged(old(agent.followUp.enqueued), agent.followUp.enqueued, AllFollowed(script))
    ensures agent.steering.taken == old(agent.steering.taken) + DeliveredBy(TurnsOf(records), Steering)
    ensures agent.followUp.taken == old(agent.followUp.taken) + DeliveredBy(TurnsOf(records), FollowUp)
    ensures agent.steering.clears == 0 ==> agent.steering.enqueued == agent.steering.taken + agent.steering.messages
    ensures agent.followUp.clears == 0 ==> agent.followUp.enqueued == agent.followUp.taken + agent.followUp.messages
    ensures Within(DeliveredBy(TurnsOf(records), Steering), Grown(records))
    ensures Within(DeliveredBy(TurnsOf(records), FollowUp), Grown(records))
    ensures WellPaired(old(agent.messages)) && AllTame(TurnsOf(records)) ==>
              WellPaired(agent.messages) && Flush(agent.messages) == Kept(agent.messages)
  {
    ghost var began := Began(agent.messages, agent.steering.taken, agent.followUp.taken, agent.LogsNow());
    records := [];
    NothingYet(agent, began);
    for i := 0 to |script|
      invariant Idle(agent, began, records) && PromptsOf(records) == AllPrompted(script[..i])
      invariant Logged(began.logs.steering, agent.steering.enqueued, AllSteered(script[..i]))
      invariant Logged(began.logs.followUp, agent.followUp.enqueued, AllFollowed(script[..i]))
    {
      ghost var steered, followed := agent.steering.enqueued, agent.followUp.enqueued;
      TakeNext(script, i);
      records := Execute(agent, script[i], began, records);
      LoggedThen(began.logs.steering, steered, agent.steering.enqueued, AllSteered(script[..i]), SteeredBy(script[i]));
      LoggedThen(began.logs.followUp, followed, agent.followUp.enqueued, AllFollowed(script[..i]),
                 FollowedBy(script[i]));
    }
    TakeAll(script);
    DeliveredIsThere(records, Steering);
    DeliveredIsThere(records, FollowUp);
    if WellPaired(began.messages) && AllTame(TurnsOf(records)) {
      RunsKeepPairing(began.messages, records);
    }
  }
}
