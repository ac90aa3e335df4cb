/** Tool calls and their results on the transcript, across runs, and what replaying it needs. */
module Pairing {
  import opened Types
  import opened History
  import opened Streams
  import opened Agreement
  import opened Orphans

  /** What the rest of a transcript still owes: the calls to be answered next, in order; or nothing
      at all can mend it. */
  datatype Owing = Owes(calls: seq<ToolCall>) | Broken

  function CallsToAnswer(a: AssistantMessage): seq<ToolCall> {
    if a.Failed() then [] else a.Calls()
  }

  function After(o: Owing, m: Message): Owing {
    match o
    case Broken => Broken
    case Owes(calls) =>
      match m
      case User(_) => if calls == [] then o else Broken
      case Assistant(a) => if calls == [] then Owes(CallsToAnswer(a)) else Broken
      case Result(r) =>
        if calls != [] && r.callId == calls[0].id && r.toolName == calls[0].name then Owes(calls[1..]) else Broken
  }

  function AfterAll(o: Owing, ms: seq<Message>): Owing {
    if ms == [] then o else After(AfterAll(o, ms[..|ms| - 1]), ms[|ms| - 1])
  }

  /** Each message that did not fail is followed at once by one result per call, in order, and no
      result stands anywhere else. */
  predicate WellPaired(ms: seq<Message>) {
    AfterAll(Owes([]), ms) == Owes([])
  }

  lemma {:induction false} AfterAppend(o: Owing, a: seq<Message>, b: seq<Message>)
    ensures AfterAll(o, a + b) == AfterAll(AfterAll(o, a), b)
    decreases |b|
  {
    if b == [] {
      AppendEmpty(a);
    } else {
      assert (a + b)[..|a + b| - 1] == a + b[..|b| - 1];
      AfterAppend(o, a, b[..|b| - 1]);
    }
  }

  lemma WellPairedAppend(a: seq<Message>, b: seq<Message>)
    requires WellPaired(a)
    ensures WellPaired(a + b) <==> WellPaired(b)
  {
    AfterAppend(Owes([]), a, b);
  }

  lemma {:induction false} StaysBroken(ms: seq<Message>)
    ensures AfterAll(Broken, ms) == Broken
  {
    if ms != [] {
      StaysBroken(ms[..|ms| - 1]);
    }
  }

  /** While calls are owed, only their results may come. */
  lemma {:induction false} NextResult(calls: seq<ToolCall>, ms: seq<Message>, k: nat)
    requires k < |calls| && AfterAll(Owes(calls), ms) == Owes([])
    ensures k < |ms| && ms[k].Result? && ms[k].result.callId == calls[k].id && ms[k].result.toolName == calls[k].name
  {
    if ms != [] {
      assert ms == [ms[0]] + ms[1..];
      AfterAppend(Owes(calls), [ms[0]], ms[1..]);
      assert [ms[0]][..0] == [];
      StaysBroken(ms[1..]);
      if k > 0 {
        NextResult(calls[1..], ms[1..], k - 1);
      }
    }
  }

  lemma NoResultOwed(ms: seq<Message>)
    requires WellPaired(ms) && ms != []
    ensures !ms[0].Result?
  {
    assert ms == [ms[0]] + ms[1..];
    AfterAppend(Owes([]), [ms[0]], ms[1..]);
    assert [ms[0]][..0] == [];
    StaysBroken(ms[1..]);
  }

  lemma {:induction false} OwedDrop(calls: seq<ToolCall>, ms: seq<Message>)
    requires AfterAll(Owes(calls), ms) == Owes([])
    ensures |calls| <= |ms| && WellPaired(ms[|calls|..])
  {
    if calls == [] {
      assert ms[0..] == ms;
    } else {
      NextResult(calls, ms, 0);
      assert ms == [ms[0]] + ms[1..];
      AfterAppend(Owes(calls), [ms[0]], ms[1..]);
      assert [ms[0]][..0] == [];
      OwedDrop(calls[1..], ms[1..]);
      assert ms[1..][|calls| - 1..] == ms[|calls|..];
    }
  }

  /** What `WellPaired` says in so many words. */
  lemma PairedInOrder(ms: seq<Message>, i: nat)
    requires WellPaired(ms) && i < |ms| && ms[i].Assistant?
    ensures var calls := CallsToAnswer(ms[i].assistant);
            && i + |calls| < |ms|
            && (forall j :: i < j <= i + |calls| ==>
                  && ms[j].Result?
                  && ms[j].result.callId == calls[j - i - 1].id
                  && ms[j].result.toolName == calls[j - i - 1].name)
            && (i + |calls| + 1 < |ms| ==> !ms[i + |calls| + 1].Result?)
  {
    var calls, rest := CallsToAnswer(ms[i].assistant), ms[i + 1..];
    assert ms == (ms[..i] + [ms[i]]) + rest;
    AfterAppend(Owes([]), ms[..i] + [ms[i]], rest);
    AfterAppend(Owes([]), ms[..i], [ms[i]]);
    assert [ms[i]][..0] == [];
    StaysBroken(rest);
    OwedDrop(calls, rest);
    forall j | i < j <= i + |calls|
      ensures ms[j].Result? && ms[j].result.callId == calls[j - i - 1].id &&
              ms[j].result.toolName == calls[j - i - 1].name
    {
      NextResult(calls, rest, j - i - 1);
      assert rest[j - i - 1] == ms[j];
    }
    if |calls| < |rest| {
      NoResultOwed(rest[|calls|..]);
    }
  }

  lemma PairedIsAnswered(ms: seq<Message>)
    requires WellPaired(ms)
    ensures AllAnswered(ms)
  {
    forall i, c | 0 <= i < |ms| && ms[i].Assistant? && !ms[i].assistant.Failed() && c in ms[i].assistant.Calls()
      ensures AnsweredIn(ms, i, c.id)
    {
      PairedInOrder(ms, i);
      var calls := ms[i].assistant.Calls();
      var k :| 0 <= k < |calls| && calls[k] == c;
      assert AnsweredBy(ms, i, i + 1 + k, c.id);
    }
  }

  /** Main result: replaying a well-paired transcript only drops its failed messages. */
  lemma ReplaySynthesizesNothing(ms: seq<Message>)
    requires WellPaired(ms)
    ensures Flush(ms) == Kept(ms)
  {
    PairedIsAnswered(ms);
    FlushKeepsExactly(ms);
  }

  // ----- Runs keep the pairing -----

  ghost predicate UsersOnly(ms: seq<Message>) {
    forall i :: 0 <= i < |ms| ==> ms[i].User?
  }

  /** Only user messages are injected, and the stream is orderly. */
  ghost predicate Tame(t: Turn) {
    UsersOnly(InjectedMessages(t.injected)) && OrderlyTurn(t)
  }

  ghost predicate AllTame(ts: seq<Turn>) {
    forall i :: 0 <= i < |ts| ==> Tame(ts[i])
  }

  lemma {:induction false} UsersKeepPairing(ms: seq<Message>)
    requires UsersOnly(ms)
    ensures WellPaired(ms)
  {
    if ms != [] {
      UsersKeepPairing(ms[..|ms| - 1]);
    }
  }

  lemma OneAnswer(calls: seq<ToolCall>, ms: seq<Message>, o: Owing, c: ToolCall, outcome: Outcome)
    requires AfterAll(o, ms) == Owes(calls) && calls != [] && calls[0] == c
    ensures AfterAll(o, ms + [Result(ResultOf(c, outcome))]) == Owes(calls[1..])
  {
    assert (ms + [Result(ResultOf(c, outcome))])[..|ms|] == ms;
  }

  lemma ReportsSnoc(cs: seq<ToolCall>, os: seq<Outcome>, n: nat)
    requires |cs| == |os| && n < |cs|
    ensures ResultMessages(ResultsOf(cs[..n + 1], os[..n + 1])) ==
            ResultMessages(ResultsOf(cs[..n], os[..n])) + [Result(ResultOf(cs[n], os[n]))]
  {
    assert cs[..n + 1][..n] == cs[..n] && os[..n + 1][..n] == os[..n];
    ResultMessagesSnoc(ResultsOf(cs[..n], os[..n]), ResultOf(cs[n], os[n]));
  }

  lemma {:induction false} ResultsAnswer(cs: seq<ToolCall>, os: seq<Outcome>, n: nat)
    requires |cs| == |os| && n <= |cs|
    ensures AfterAll(Owes(cs), ResultMessages(ResultsOf(cs[..n], os[..n]))) == Owes(cs[n..])
  {
    if n == 0 {
      assert cs[0..] == cs;
    } else {
      ResultsAnswer(cs, os, n - 1);
      ReportsSnoc(cs, os, n - 1);
      OneAnswer(cs[n - 1..], ResultMessages(ResultsOf(cs[..n - 1], os[..n - 1])), Owes(cs), cs[n - 1], os[n - 1]);
      assert cs[n - 1..][1..] == cs[n..];
    }
  }

  lemma AfterOne(o: Owing, m: Message)
    ensures AfterAll(o, [m]) == After(o, m)
  {
    assert [m][..0] == [];
  }

  lemma AnswerOwes(t: Turn)
    requires OrderlyTurn(t)
    ensures AfterAll(Owes([]), ConsumerOf(t.response).pushed) == Owes(CallsRun(t))
  {
    EndsOfResponse(t);
    if FinalOf(t).Some? {
      AfterOne(Owes([]), Assistant(FinalOf(t).value));
    }
  }

  lemma AllReported(t: Turn)
    requires ValidTurn(t)
    ensures AfterAll(Owes(CallsRun(t)), ResultMessages(TurnResults(t))) == Owes([])
  {
    var cs := CallsRun(t);
    ResultsAnswer(cs, t.outcomes, |cs|);
    assert cs[..|cs|] == cs && t.outcomes[..|cs|] == t.outcomes && cs[|cs|..] == [];
  }

  /** However a turn's calls were run, or failed as truncated, its block on the transcript pairs. */
  lemma TurnKeepsPairing(t: Turn)
    requires ValidTurn(t) && Tame(t)
    ensures WellPaired(TurnTranscript(t))
  {
    var js, answer := InjectedMessages(t.injected), ConsumerOf(t.response).pushed;
    UsersKeepPairing(js);
    AnswerOwes(t);
    AllReported(t);
    AfterAppend(Owes([]), js, answer);
    AfterAppend(Owes([]), js + answer, ResultMessages(TurnResults(t)));
  }

  lemma {:induction false} TurnsKeepPairing(ts: seq<Turn>)
    requires ValidTurns(ts) && AllTame(ts)
    ensures WellPaired(TranscriptOf(ts))
  {
    if ts != [] {
      var n := |ts| - 1;
      TurnsKeepPairing(ts[..n]);
      TurnKeepsPairing(ts[n]);
      WellPairedAppend(TranscriptOf(ts[..n]), TurnTranscript(ts[n]));
    }
  }

  /** Main result: a run that succeeded keeps a well-paired transcript well paired. */
  lemma SucceededRunKeepsPairing(base: seq<Message>, ts: seq<Turn>, trace: seq<AgentEvent>, transcript: seq<Message>,
                                 produced: seq<Message>)
    requires WellPaired(base) && AllTame(ts)
    requires SucceededRun(base, ts, trace, transcript, produced)
    ensures WellPaired(transcript)
  {
    TurnsKeepPairing(ts);
    WellPairedAppend(base, TranscriptOf(ts));
  }

  /** So does a run whose last request was refused. */
  lemma RefusedRunKeepsPairing(base: seq<Message>, ts: seq<Turn>, trace: seq<AgentEvent>, transcript: seq<Message>,
                               failure: AssistantMessage)
    requires WellPaired(base) && AllTame(ts)
    requires RefusedRun(base, ts, trace, transcript, failure)
    ensures WellPaired(transcript)
  {
    TurnsKeepPairing(ts);
    WellPairedAppend(base, TranscriptOf(ts));
    assert [Assistant(failure)][..0] == [];
    WellPairedAppend(base + TranscriptOf(ts), [Assistant(failure)]);
  }
}
