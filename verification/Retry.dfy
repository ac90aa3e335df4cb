/** The retry wrapper around a provider: each attempt's events are forwarded as they come, a
    retriable failure starts another attempt after a growing delay.

    The attempts' streams, the moments of cancellation and timeout and the table of retriable
    messages are given. */
module Retrying {
  import opened Types
  import Ansi
  import opened History
  import opened Streams
  import opened Agreement

  const BASE_DELAY_MS := 1000
  const MAX_EXPONENT := 20

  function Pow2(n: nat): nat {
    if n == 0 then 1 else 2 * Pow2(n - 1)
  }

  /** The delay before retry number `attempt`, counted from 1. */
  function Backoff(attempt: nat, cap: nat): nat {
    var exponent := if attempt <= 1 then 0 else attempt - 1;
    var raw := BASE_DELAY_MS * Pow2(if exponent < MAX_EXPONENT then exponent else MAX_EXPONENT);
    if raw < cap then raw else cap
  }

  lemma {:induction false} Pow2Grows(m: nat, n: nat)
    requires m <= n
    ensures Pow2(m) <= Pow2(n)
  {
    if m < n {
      Pow2Grows(m, n - 1);
    }
  }

  /** Delays start at a second, never shrink and never exceed the cap; short of it each is twice the
      one before. */
  lemma BackoffGrows(attempt: nat, later: nat, cap: nat)
    requires attempt <= later
    ensures Backoff(1, cap) == if cap < BASE_DELAY_MS then cap else BASE_DELAY_MS
    ensures Backoff(attempt, cap) <= Backoff(later, cap) <= cap
    ensures 1 <= attempt <= MAX_EXPONENT && later == attempt + 1 && Backoff(later, cap) < cap ==>
              Backoff(later, cap) == 2 * Backoff(attempt, cap)
  {
    var m := if attempt <= 1 then 0 else if attempt - 1 < MAX_EXPONENT then attempt - 1 else MAX_EXPONENT;
    var n := if later <= 1 then 0 else if later - 1 < MAX_EXPONENT then later - 1 else MAX_EXPONENT;
    Pow2Grows(m, n);
  }

  // ----- The log of retries -----

  /** One attempt: what was read of its stream, and the message of the failure that ended it. */
  datatype Attempt = Attempt(seen: seq<StreamEvent>, reason: string)

  /** The diagnostics of the retries that followed the attempts. */
  function RetryLog(attempts: seq<Attempt>, maxRetries: nat, cap: nat): (log: seq<Diagnostic>)
    ensures |log| == |attempts|
  {
    if attempts == [] then []
    else
      var n := |attempts|;
      RetryLog(attempts[..n - 1], maxRetries, cap) + [Retry(n, maxRetries, attempts[n - 1].reason, Backoff(n, cap))]
  }

  lemma {:induction false} RetryLogAt(attempts: seq<Attempt>, maxRetries: nat, cap: nat, k: nat)
    requires k < |attempts|
    ensures RetryLog(attempts, maxRetries, cap)[k] == Retry(k + 1, maxRetries, attempts[k].reason, Backoff(k + 1, cap))
  {
    var n := |attempts| - 1;
    if k < n {
      RetryLogAt(attempts[..n], maxRetries, cap, k);
    }
  }

  /** The retries are numbered from 1, and their delays never shrink and never exceed the cap. */
  lemma RetriesAreNumbered(attempts: seq<Attempt>, maxRetries: nat, cap: nat, j: nat, k: nat)
    requires j <= k < |attempts|
    ensures var log := RetryLog(attempts, maxRetries, cap);
            && log[j].Retry? && log[k].Retry?
            && log[j].attempt == j + 1 && log[k].attempt == k + 1
            && log[j].delayMs <= log[k].delayMs <= cap
  {
    RetryLogAt(attempts, maxRetries, cap, j);
    RetryLogAt(attempts, maxRetries, cap, k);
    BackoffGrows(j + 1, k + 1, cap);
  }

  /** A message's own diagnostics come before those of the retries. */
  function Attached(a: AssistantMessage, log: seq<Diagnostic>): AssistantMessage {
    if log == [] then a
    else a.(diagnostics := Some((if a.diagnostics.Some? then a.diagnostics.value else []) + log))
  }

  // ----- What is forwarded -----

  function NonTerminal(es: seq<StreamEvent>): seq<StreamEvent> {
    if es == [] then []
    else NonTerminal(es[..|es| - 1]) + (if es[|es| - 1].Terminal() then [] else [es[|es| - 1]])
  }

  function Forwarded(attempts: seq<Attempt>): seq<StreamEvent> {
    if attempts == [] then [] else Forwarded(attempts[..|attempts| - 1]) + NonTerminal(attempts[|attempts| - 1].seen)
  }

  /** How the wrapper ended: with a terminal event of the last attempt, with a stream that had none,
      cancelled while reading, or cancelled while waiting to retry after a failure. */
  datatype End =
    | Concluded(event: StreamEvent)
    | RanDry
    | CutOff
    | CutOffWaiting(failure: AssistantMessage)

  /** `timedOut` is the timeout in milliseconds, if it has passed. */
  function AbortText(timedOut: Option<nat>): string {
    if timedOut.Some? then "Request timed out after " + Ansi.Print(timedOut.value) + "ms" else "Request was aborted"
  }

  function Aborting(a: AssistantMessage, timedOut: Option<nat>): AssistantMessage {
    a.(stopReason := Aborted, errorMessage := Some(AbortText(timedOut)))
  }

  /** A failure reported as a cancellation although it was the timeout. */
  function TimeoutRewritten(reason: StopReason, a: AssistantMessage, timedOut: Option<nat>): AssistantMessage {
    if reason == Aborted && timedOut.Some? then a.(errorMessage := Some(AbortText(timedOut))) else a
  }

  function EmptyMessage(model: Model): AssistantMessage {
    AssistantMessage([], model.api, model.provider, model.id, 0, Aborted, None, None, None)
  }

  /** The last event: it carries the log of all retries. */
  function Conclusion(model: Model, end: End, log: seq<Diagnostic>, timedOut: Option<nat>): seq<StreamEvent>
    requires end.Concluded? ==> end.event.Terminal()
  {
    match end
    case Concluded(Done(reason, m)) => [Done(reason, Attached(m, log))]
    case Concluded(Failure(reason, m)) => [Failure(reason, Attached(TimeoutRewritten(reason, m, timedOut), log))]
    case RanDry => []
    case CutOff => [Failure(Aborted, Attached(Aborting(EmptyMessage(model), timedOut), log))]
    case CutOffWaiting(m) => [Failure(Aborted, Attached(Aborting(m, timedOut), log))]
  }

  function ReasonOf(a: AssistantMessage): string {
    if a.errorMessage.Some? then a.errorMessage.value else ""
  }

  /** Whether a failure is worth another attempt, after `retries` of them. */
  predicate Retriable(retriable: string -> bool, reason: StopReason, a: AssistantMessage, retries: nat, maxRetries: nat)
  {
    reason == Error && retries < maxRetries && retriable(ReasonOf(a))
  }

  // ----- What is given -----

  /** The stream of each attempt, numbered from 0; whether the run is cancelled before an attempt's
      next read, after so many events, and while it waits after an attempt; and the timeout if
      it has passed when that is looked up, after so many events or while waiting. */
  datatype Env = Env(
    streams: nat -> seq<StreamEvent>,
    cancelled: (nat, nat) -> bool,
    cancelledWaiting: nat -> bool,
    timedOut: (nat, nat) -> Option<nat>,
    timedOutWaiting: nat -> Option<nat>)

  ghost predicate NoTerminal(es: seq<StreamEvent>) {
    forall i :: 0 <= i < |es| ==> !es[i].Terminal()
  }

  /** What is read of attempt `k`: its stream up to its first terminal event, to its end, or to a
      cancellation.  At the end of the stream cancellation is looked at once more. */
  ghost predicate AttemptRead(env: Env, k: nat, seen: seq<StreamEvent>, end: End) {
    var n := |seen|;
    && seen <= env.streams(k)
    && (forall i :: 0 <= i < n ==> !env.cancelled(k, i))
    && match end
       case Concluded(event) => n > 0 && NoTerminal(seen[..n - 1]) && seen[n - 1] == event && event.Terminal()
       case RanDry => seen == env.streams(k) && NoTerminal(seen) && !env.cancelled(k, n) && !env.cancelled(k, n + 1)
       case CutOff => NoTerminal(seen) && (env.cancelled(k, n) || (seen == env.streams(k) && env.cancelled(k, n + 1)))
       case CutOffWaiting(_) => false
  }

  /** Attempt `k` was read to a failure worth another attempt. */
  ghost predicate RetriedAttempt(env: Env, retriable: string -> bool, k: nat, a: Attempt) {
    && a.seen != []
    && AttemptRead(env, k, a.seen, Concluded(a.seen[|a.seen| - 1]))
    && a.seen[|a.seen| - 1].Failure?
    && a.seen[|a.seen| - 1].reason == Error
    && a.reason == ReasonOf(a.seen[|a.seen| - 1].message)
    && retriable(a.reason)
  }

  ghost predicate AllRetried(env: Env, retriable: string -> bool, attempts: seq<Attempt>) {
    forall k :: 0 <= k < |attempts| ==> RetriedAttempt(env, retriable, k, attempts[k])
  }

  /** The waits after attempts before `n` were not cancelled. */
  ghost predicate WaitedOut(env: Env, n: int) {
    forall k :: 0 <= k < n ==> !env.cancelledWaiting(k)
  }

  lemma WaitedOnce(env: Env, n: nat)
    requires WaitedOut(env, n) && !env.cancelledWaiting(n)
    ensures WaitedOut(env, n + 1)
  {
  }

  lemma NoneInPrefix(a: seq<StreamEvent>, b: seq<StreamEvent>)
    ensures a <= b && NoTerminal(b) ==> NoTerminal(a)
  {
  }

  lemma ReadOnce(env: Env, k: nat, seen: seq<StreamEvent>, end: End, seen': seq<StreamEvent>, end': End)
    requires AttemptRead(env, k, seen, end) && AttemptRead(env, k, seen', end') && |seen| <= |seen'|
    ensures |seen| == |seen'|
  {
    NoneInPrefix(seen, seen');
    if end'.Concluded? {
      NoneInPrefix(seen, seen'[..|seen'| - 1]);
    }
  }

  /** The streams and the cancellations settle how far an attempt is read and how that ends. */
  lemma ReadUniquely(env: Env, k: nat, seen: seq<StreamEvent>, end: End, seen': seq<StreamEvent>, end': End)
    requires AttemptRead(env, k, seen, end) && AttemptRead(env, k, seen', end')
    ensures seen == seen' && end == end'
  {
    if |seen| <= |seen'| {
      ReadOnce(env, k, seen, end, seen', end');
    } else {
      ReadOnce(env, k, seen', end', seen, end);
    }
    assert seen == seen';
    assert end.Concluded? ==> seen[|seen| - 1].Terminal();
    assert end'.Concluded? ==> seen[|seen| - 1].Terminal();
  }

  lemma NonTerminalSnoc(es: seq<StreamEvent>, i: nat)
    requires i < |es|
    ensures NonTerminal(es[..i + 1]) == NonTerminal(es[..i]) + (if es[i].Terminal() then [] else [es[i]])
  {
    assert es[..i + 1][..i] == es[..i];
  }

  // ----- The loops -----

  /** Reads one attempt's stream until a terminal event, its end or cancellation. */
  method ReadAttempt(env: Env, k: nat, yielded: seq<StreamEvent>)
    returns (yielded': seq<StreamEvent>, seen: seq<StreamEvent>, end: End)
    ensures AttemptRead(env, k, seen, end)
    ensures yielded' == yielded + NonTerminal(seen)
  {
    var events := env.streams(k);
    yielded', seen := yielded, [];
    for i := 0 to |events|
      invariant seen == events[..i] && NoTerminal(seen) && yielded' == yielded + NonTerminal(seen)
      invariant forall j :: 0 <= j < i ==> !env.cancelled(k, j)
    {
      if env.cancelled(k, i) {
        return yielded', seen, CutOff;
      }
      NonTerminalSnoc(events, i);
      TakeNext(events, i);
      seen := events[..i + 1];
      if events[i].Terminal() {
        AppendEmpty(yielded');
        return yielded', seen, Concluded(events[i]);
      }
      yielded' := yielded' + [events[i]];
    }
    TakeAll(events);
    end := if env.cancelled(k, |events|) || env.cancelled(k, |events| + 1) then CutOff else RanDry;
  }

  /** What the wrapper did: the attempts it retried, what it read of the last one, and how that ended. */
  ghost predicate Account(env: Env, model: Model, retriable: string -> bool, maxRetries: nat, cap: nat,
                          yielded: seq<StreamEvent>, retried: seq<Attempt>, last: Option<seq<StreamEvent>>, end: End)
  {
    var n, log := |retried|, RetryLog(retried, maxRetries, cap);
    && n <= maxRetries
    && AllRetried(env, retriable, retried)
    && match last
       case Some(seen) =>
         && WaitedOut(env, n)
         && AttemptRead(env, n, seen, end)
         && !Retries(env, retriable, maxRetries, n, seen, end)
         && yielded == Forwarded(retried) + NonTerminal(seen) + Conclusion(model, end, log, env.timedOut(n, |seen|))
       case None =>
         && n > 0 && WaitedOut(env, n - 1) && env.cancelledWaiting(n - 1)
         && end == CutOffWaiting(FailureOf(retried[n - 1]))
         && yielded == Forwarded(retried) + Conclusion(model, end, log, env.timedOutWaiting(n - 1))
  }

  /** Attempt `n` ended in a failure that is retried. */
  predicate Retries(env: Env, retriable: string -> bool, maxRetries: nat, n: nat, seen: seq<StreamEvent>, end: End) {
    && end.Concluded? && end.event.Failure?
    && Retriable(retriable, end.event.reason,
                 TimeoutRewritten(end.event.reason, end.event.message, env.timedOut(n, |seen|)), n, maxRetries)
  }

  function FailureOf(a: Attempt): AssistantMessage
    requires a.seen != [] && a.seen[|a.seen| - 1].Terminal()
  {
    a.seen[|a.seen| - 1].message
  }

  /** A retriable failure extends the log and what was forwarded. */
  lemma RetryOnce(env: Env, retriable: string -> bool, maxRetries: nat, cap: nat, retried: seq<Attempt>, a: Attempt)
    requires AllRetried(env, retriable, retried) && RetriedAttempt(env, retriable, |retried|, a)
    ensures AllRetried(env, retriable, retried + [a])
    ensures RetryLog(retried + [a], maxRetries, cap) ==
            RetryLog(retried, maxRetries, cap) +
            [Retry(|retried| + 1, maxRetries, a.reason, Backoff(|retried| + 1, cap))]
    ensures Forwarded(retried + [a]) == Forwarded(retried) + NonTerminal(a.seen)
  {
    TakeBack(retried, a);
  }

  /** Yields the last event, with the log of the retries. */
  method Conclude(yielded: seq<StreamEvent>, model: Model, end: End, diagnostics: seq<Diagnostic>, late: Option<nat>)
    returns (yielded': seq<StreamEvent>)
    requires end.Concluded? ==> end.event.Terminal()
    ensures yielded' == yielded + Conclusion(model, end, diagnostics, late)
  {
    match end {
      case RanDry =>
        AppendEmpty(yielded);
        yielded' := yielded;
      case CutOff =>
        yielded' := yielded + [Failure(Aborted, Attached(Aborting(EmptyMessage(model), late), diagnostics))];
      case CutOffWaiting(error) =>
        yielded' := yielded + [Failure(Aborted, Attached(Aborting(error, late), diagnostics))];
      case Concluded(event) =>
        if event.Done? {
          yielded' := yielded + [Done(event.reason, Attached(event.message, diagnostics))];
        } else {
          var error := TimeoutRewritten(event.reason, event.message, late);
          yielded' := yielded + [Failure(event.reason, Attached(error, diagnostics))];
        }
    }
  }

  /** After `attempt` failures, all of them retried. */
  ghost predicate Retried(env: Env, retriable: string -> bool, maxRetries: nat, cap: nat, attempt: nat,
                          retried: seq<Attempt>, diagnostics: seq<Diagnostic>, yielded: seq<StreamEvent>)
  {
    && attempt == |retried| && AllRetried(env, retriable, retried) && WaitedOut(env, attempt)
    && diagnostics == RetryLog(retried, maxRetries, cap) && yielded == Forwarded(retried)
  }

  lemma EndedWaiting(env: Env, model: Model, retriable: string -> bool, maxRetries: nat, cap: nat, n: nat,
                     retried: seq<Attempt>, diagnostics: seq<Diagnostic>, yielded: seq<StreamEvent>,
                     error: AssistantMessage)
    requires n < maxRetries && |retried| == n + 1 && AllRetried(env, retriable, retried) && WaitedOut(env, n)
    requires error == FailureOf(retried[n]) && env.cancelledWaiting(n)
    requires diagnostics == RetryLog(retried, maxRetries, cap)
    requires yielded == Forwarded(retried) +
                        Conclusion(model, CutOffWaiting(error), diagnostics, env.timedOutWaiting(n))
    ensures Account(env, model, retriable, maxRetries, cap, yielded, retried, None, CutOffWaiting(error))
  {
  }

  lemma EndedReading(env: Env, model: Model, retriable: string -> bool, maxRetries: nat, cap: nat, n: nat,
                     retried: seq<Attempt>, diagnostics: seq<Diagnostic>, before: seq<StreamEvent>,
                     yielded: seq<StreamEvent>, seen: seq<StreamEvent>, end: End)
    requires n <= maxRetries && Retried(env, retriable, maxRetries, cap, n, retried, diagnostics, before)
    requires AttemptRead(env, n, seen, end) && !Retries(env, retriable, maxRetries, n, seen, end)
    requires yielded == before + NonTerminal(seen) + Conclusion(model, end, diagnostics, env.timedOut(n, |seen|))
    ensures Account(env, model, retriable, maxRetries, cap, yielded, retried, Some(seen), end)
  {
  }

  /** Records a failure that is retried, and waits; a cancellation meanwhile ends the run. */
  method WaitToRetry(env: Env, model: Model, retriable: string -> bool, maxRetries: nat, cap: nat, attempt: nat,
                     yielded: seq<StreamEvent>, diagnostics: seq<Diagnostic>, error: AssistantMessage,
                     ghost retried: seq<Attempt>)
    returns (over: bool, yielded': seq<StreamEvent>, diagnostics': seq<Diagnostic>)
    requires attempt < maxRetries && |retried| == attempt + 1 && AllRetried(env, retriable, retried)
    requires WaitedOut(env, attempt) && error == FailureOf(retried[attempt])
    requires RetryLog(retried, maxRetries, cap) ==
             diagnostics + [Retry(attempt + 1, maxRetries, ReasonOf(error), Backoff(attempt + 1, cap))]
    requires yielded == Forwarded(retried)
    ensures over ==>
              Account(env, model, retriable, maxRetries, cap, yielded', retried, None, CutOffWaiting(error))
    ensures !over ==> Retried(env, retriable, maxRetries, cap, attempt + 1, retried, diagnostics', yielded')
  {
    over, yielded' := env.cancelledWaiting(attempt), yielded;
    diagnostics' := diagnostics + [Retry(attempt + 1, maxRetries, ReasonOf(error), Backoff(attempt + 1, cap))];
    if over {
      yielded' := Conclude(yielded, model, CutOffWaiting(error), diagnostics', env.timedOutWaiting(attempt));
      EndedWaiting(env, model, retriable, maxRetries, cap, attempt, retried, diagnostics', yielded', error);
    } else {
      WaitedOnce(env, attempt);
    }
  }

  lemma WorthAnother(env: Env, retriable: string -> bool, maxRetries: nat, n: nat, seen: seq<StreamEvent>, end: End)
    requires AttemptRead(env, n, seen, end) && Retries(env, retriable, maxRetries, n, seen, end)
    ensures n < maxRetries && end.Concluded? && end.event.Failure?
    ensures RetriedAttempt(env, retriable, n, Attempt(seen, ReasonOf(end.event.message)))
    ensures FailureOf(Attempt(seen, ReasonOf(end.event.message))) == end.event.message
  {
  }

  /** One attempt, which ends the run unless it fails and is worth another. */
  method TryOnce(env: Env, model: Model, retriable: string -> bool, maxRetries: nat, cap: nat, attempt: nat,
                 yielded: seq<StreamEvent>, diagnostics: seq<Diagnostic>, ghost retried: seq<Attempt>)
    returns (over: bool, yielded': seq<StreamEvent>, diagnostics': seq<Diagnostic>, ghost retried': seq<Attempt>,
             ghost last: Option<seq<StreamEvent>>, ghost end: End)
    requires attempt <= maxRetries && Retried(env, retriable, maxRetries, cap, attempt, retried, diagnostics, yielded)
    ensures over ==> Account(env, model, retriable, maxRetries, cap, yielded', retried', last, end)
    ensures over ==> attempt + 1 == |retried'| + (if last.Some? then 1 else 0)
    ensures !over ==> attempt < maxRetries &&
                      Retried(env, retriable, maxRetries, cap, attempt + 1, retried', diagnostics', yielded')
  {
    var seen, ending;
    yielded', seen, ending := ReadAttempt(env, attempt, yielded);
    if Retries(env, retriable, maxRetries, attempt, seen, ending) {
      WorthAnother(env, retriable, maxRetries, attempt, seen, ending);
      var error := ending.event.message;
      ghost var a := Attempt(seen, ReasonOf(error));
      RetryOnce(env, retriable, maxRetries, cap, retried, a);
      retried', last, end := retried + [a], None, CutOffWaiting(error);
      over, yielded', diagnostics' :=
        WaitToRetry(env, model, retriable, maxRetries, cap, attempt, yielded', diagnostics, error, retried');
    } else {
      over, diagnostics', retried', last, end := true, diagnostics, retried, Some(seen), ending;
      yielded' := Conclude(yielded', model, ending, diagnostics, env.timedOut(attempt, |seen|));
      EndedReading(env, model, retriable, maxRetries, cap, attempt, retried, diagnostics, yielded, yielded', seen,
                   ending);
    }
  }

  /** Main result.  At most `maxRetries + 1` attempts; what is yielded is their non-terminal events in
      order, then at most one terminal event, which carries the log of the retries. */
  method StreamSimple(env: Env, model: Model, retriable: string -> bool, maxRetries: nat, cap: nat)
    returns (yielded: seq<StreamEvent>, calls: nat, ghost retried: seq<Attempt>, ghost last: Option<seq<StreamEvent>>,
             ghost end: End)
    ensures Account(env, model, retriable, maxRetries, cap, yielded, retried, last, end)
    ensures 1 <= calls <= maxRetries + 1 && calls == |retried| + (if last.Some? then 1 else 0)
  {
    var diagnostics: seq<Diagnostic> := [];
    yielded, calls, retried := [], 0, [];
    while true
      invariant calls <= maxRetries
      invariant Retried(env, retriable, maxRetries, cap, calls, retried, diagnostics, yielded)
      decreases maxRetries - calls
    {
      var over;
      over, yielded, diagnostics, retried, last, end :=
        TryOnce(env, model, retriable, maxRetries, cap, calls, yielded, diagnostics, retried);
      calls := calls + 1;
      if over {
        return;
      }
    }
  }

  // ----- The account is settled by what is given -----

  lemma SameAttempt(env: Env, retriable: string -> bool, k: nat, a: Attempt, b: Attempt)
    requires RetriedAttempt(env, retriable, k, a) && RetriedAttempt(env, retriable, k, b)
    ensures a == b
  {
    ReadUniquely(env, k, a.seen, Concluded(a.seen[|a.seen| - 1]), b.seen, Concluded(b.seen[|b.seen| - 1]));
  }

  /** A wrapper that stopped after fewer retries would have had to go on. */
  lemma NotFewer(env: Env, model: Model, retriable: string -> bool, maxRetries: nat, cap: nat,
                 yielded: seq<StreamEvent>, retried: seq<Attempt>, last: Option<seq<StreamEvent>>, end: End,
                 yielded': seq<StreamEvent>, retried': seq<Attempt>, last': Option<seq<StreamEvent>>, end': End)
    requires Account(env, model, retriable, maxRetries, cap, yielded, retried, last, end)
    requires Account(env, model, retriable, maxRetries, cap, yielded', retried', last', end')
    ensures |retried| >= |retried'|
  {
    var n := |retried|;
    if n < |retried'| {
      assert RetriedAttempt(env, retriable, n, retried'[n]);
      if last.Some? {
        ReadUniquely(env, n, last.value, end, retried'[n].seen, Concluded(retried'[n].seen[|retried'[n].seen| - 1]));
      }
    }
  }

  /** Main result: the attempts' streams, the cancellations and the timeouts settle everything that is
      yielded, and what was retried. */
  lemma AccountIsUnique(env: Env, model: Model, retriable: string -> bool, maxRetries: nat, cap: nat,
                        yielded: seq<StreamEvent>, retried: seq<Attempt>, last: Option<seq<StreamEvent>>, end: End,
                        yielded': seq<StreamEvent>, retried': seq<Attempt>, last': Option<seq<StreamEvent>>, end': End)
    requires Account(env, model, retriable, maxRetries, cap, yielded, retried, last, end)
    requires Account(env, model, retriable, maxRetries, cap, yielded', retried', last', end')
    ensures yielded == yielded' && retried == retried' && last == last' && end == end'
  {
    var n := |retried|;
    NotFewer(env, model, retriable, maxRetries, cap, yielded, retried, last, end, yielded', retried', last', end');
    NotFewer(env, model, retriable, maxRetries, cap, yielded', retried', last', end', yielded, retried, last, end);
    forall k | 0 <= k < n ensures retried[k] == retried'[k] {
      SameAttempt(env, retriable, k, retried[k], retried'[k]);
    }
    assert retried == retried';
    if last.Some? && last'.Some? {
      ReadUniquely(env, n, last.value, end, last'.value, end');
    }
  }

  /** The first terminal event of attempt `k` is a failure worth another attempt. */
  ghost predicate FailsRetriably(env: Env, retriable: string -> bool, k: nat) {
    exists i :: 0 <= i < |env.streams(k)| && NoTerminal(env.streams(k)[..i]) &&
      RetriableFailure(retriable, env.streams(k)[i])
  }

  predicate RetriableFailure(retriable: string -> bool, e: StreamEvent) {
    e.Failure? && e.reason == Error && retriable(ReasonOf(e.message))
  }

  ghost predicate NeverCancelled(env: Env) {
    (forall k, i :: !env.cancelled(k, i)) && (forall k :: !env.cancelledWaiting(k))
  }

  lemma ReadToFailure(env: Env, retriable: string -> bool, k: nat) returns (seen: seq<StreamEvent>)
    requires NeverCancelled(env) && FailsRetriably(env, retriable, k)
    ensures seen != [] && RetriableFailure(retriable, seen[|seen| - 1])
    ensures AttemptRead(env, k, seen, Concluded(seen[|seen| - 1]))
  {
    var s := env.streams(k);
    var i :| 0 <= i < |s| && NoTerminal(s[..i]) && RetriableFailure(retriable, s[i]);
    seen := s[..i + 1];
    TakeNext(s, i);
  }

  /** Main result: unless it is cancelled, the wrapper retries an attempt exactly if this attempt and
      all before it failed with a retriable error and the allowance is not used up. */
  lemma RetriedExactly(env: Env, model: Model, retriable: string -> bool, maxRetries: nat, cap: nat,
                       yielded: seq<StreamEvent>, retried: seq<Attempt>, last: Option<seq<StreamEvent>>,
                       end: End, k: nat)
    requires Account(env, model, retriable, maxRetries, cap, yielded, retried, last, end) && NeverCancelled(env)
    ensures k < |retried| <==> k < maxRetries && forall j :: 0 <= j <= k ==> FailsRetriably(env, retriable, j)
  {
    if k < |retried| {
      forall j | 0 <= j <= k ensures FailsRetriably(env, retriable, j) {
        var seen := retried[j].seen;
        assert RetriedAttempt(env, retriable, j, retried[j]);
        var i := |seen| - 1;
        assert env.streams(j)[..i] == seen[..i];
        assert RetriableFailure(retriable, env.streams(j)[i]);
      }
    } else if k < maxRetries && forall j :: 0 <= j <= k ==> FailsRetriably(env, retriable, j) {
      var n := |retried|;
      var seen := ReadToFailure(env, retriable, n);
      ReadUniquely(env, n, last.value, end, seen, Concluded(seen[|seen| - 1]));
    }
  }

  // ----- One terminal event, last -----

  lemma {:induction false} NonTerminalHasNone(es: seq<StreamEvent>)
    ensures forall i :: 0 <= i < |NonTerminal(es)| ==> !NonTerminal(es)[i].Terminal()
  {
    if es != [] {
      NonTerminalHasNone(es[..|es| - 1]);
    }
  }

  lemma {:induction false} ForwardedHasNone(attempts: seq<Attempt>)
    ensures forall i :: 0 <= i < |Forwarded(attempts)| ==> !Forwarded(attempts)[i].Terminal()
  {
    if attempts != [] {
      ForwardedHasNone(attempts[..|attempts| - 1]);
      NonTerminalHasNone(attempts[|attempts| - 1].seen);
    }
  }

  /** What is forwarded before the conclusion. */
  function Body(retried: seq<Attempt>, last: Option<seq<StreamEvent>>): seq<StreamEvent> {
    Forwarded(retried) + (if last.Some? then NonTerminal(last.value) else [])
  }

  lemma AccountShape(env: Env, model: Model, retriable: string -> bool, maxRetries: nat, cap: nat,
                     yielded: seq<StreamEvent>, retried: seq<Attempt>, last: Option<seq<StreamEvent>>, end: End)
    returns (timedOut: Option<nat>)
    requires Account(env, model, retriable, maxRetries, cap, yielded, retried, last, end)
    ensures end.Concluded? ==> end.event.Terminal()
    ensures yielded == Body(retried, last) + Conclusion(model, end, RetryLog(retried, maxRetries, cap), timedOut)
    ensures forall i :: 0 <= i < |Body(retried, last)| ==> !Body(retried, last)[i].Terminal()
  {
    var n := |retried|;
    timedOut := if last.Some? then env.timedOut(n, |last.value|) else env.timedOutWaiting(n - 1);
    ForwardedHasNone(retried);
    if last.Some? {
      NonTerminalHasNone(last.value);
    } else {
      AppendEmpty(Forwarded(retried));
    }
  }

  /** Whatever happens, a terminal event comes last, and it carries the log of the retries after
      its own diagnostics. */
  lemma TerminalIsLast(env: Env, model: Model, retriable: string -> bool, maxRetries: nat, cap: nat,
                       yielded: seq<StreamEvent>, retried: seq<Attempt>, last: Option<seq<StreamEvent>>, end: End)
    requires Account(env, model, retriable, maxRetries, cap, yielded, retried, last, end)
    ensures forall i :: 0 <= i < |yielded| - 1 ==> !yielded[i].Terminal()
    ensures end.RanDry? <==> yielded == [] || !yielded[|yielded| - 1].Terminal()
    ensures !end.RanDry? && retried != [] ==>
              var d := yielded[|yielded| - 1].message.diagnostics;
              d.Some? && |retried| <= |d.value| && d.value[|d.value| - |retried|..] ==
                RetryLog(retried, maxRetries, cap)
  {
    var log := RetryLog(retried, maxRetries, cap);
    var timedOut := AccountShape(env, model, retriable, maxRetries, cap, yielded, retried, last, end);
    var tail := Conclusion(model, end, log, timedOut);
    if !end.RanDry? {
      assert |tail| == 1 && yielded[|yielded| - 1] == tail[0] && tail[0].Terminal();
      if retried != [] {
        AttachedEnds(model, end, log, timedOut);
      }
    }
  }

  lemma AttachedEnds(model: Model, end: End, log: seq<Diagnostic>, timedOut: Option<nat>)
    requires end.Concluded? ==> end.event.Terminal()
    requires log != [] && !end.RanDry?
    ensures var d := Conclusion(model, end, log, timedOut)[0].message.diagnostics;
            d.Some? && |log| <= |d.value| && d.value[|d.value| - |log|..] == log
  {
    var a := match end
      case Concluded(Done(_, m)) => m
      case Concluded(Failure(reason, m)) => TimeoutRewritten(reason, m, timedOut)
      case CutOff => Aborting(EmptyMessage(model), timedOut)
      case CutOffWaiting(m) => Aborting(m, timedOut);
    var own := if a.diagnostics.Some? then a.diagnostics.value else [];
    assert (own + log)[|own|..] == log;
  }

  /** The diagnostics a message had before those of the retries. */
  function Own(a: AssistantMessage): seq<Diagnostic> {
    if a.diagnostics.Some? then a.diagnostics.value else []
  }

  /** `b` is `a` but for its diagnostics: those of `a`, then the log. */
  predicate Logged(a: AssistantMessage, b: AssistantMessage, log: seq<Diagnostic>) {
    && b.diagnostics == (if log == [] then a.diagnostics else Some(Own(a) + log))
    && b == a.(diagnostics := b.diagnostics)
  }

  /** What the last event says.  A terminal event keeps its kind, its reason and all of its message; the
      log of the retries comes after the message's own diagnostics, and only a cancellation that was
      the timeout has its error text replaced.  A run cut off while reading ends with an empty aborted
      message, one cut off while waiting with the message that had failed, aborted; either says
      whether that was the timeout or the caller. */
  lemma EndingSays(env: Env, model: Model, retriable: string -> bool, maxRetries: nat, cap: nat,
                   yielded: seq<StreamEvent>, retried: seq<Attempt>, last: Option<seq<StreamEvent>>, end: End)
    requires Account(env, model, retriable, maxRetries, cap, yielded, retried, last, end)
    requires !end.RanDry?
    ensures yielded != [] && yielded[|yielded| - 1].Terminal()
    ensures var e, log := yielded[|yielded| - 1], RetryLog(retried, maxRetries, cap);
            var late := if last.Some? then env.timedOut(|retried|, |last.value|)
                        else env.timedOutWaiting(|retried| - 1);
            var text := if late.Some? then "Request timed out after " + Ansi.Print(late.value) + "ms"
                        else "Request was aborted";
            match end
            case Concluded(Done(reason, m)) => e.Done? && e.reason == reason && Logged(m, e.message, log)
            case Concluded(Failure(reason, m)) =>
              && e.Failure? && e.reason == reason
              && (if reason == Aborted && late.Some? then Logged(m.(errorMessage := Some(text)), e.message, log)
                  else Logged(m, e.message, log))
            case CutOff =>
              && e.Failure? && e.reason == Aborted && e.message.content == []
              && e.message.stopReason == Aborted && e.message.errorMessage == Some(text)
              && e.message.api == model.api && e.message.provider == model.provider && e.message.model == model.id
            case CutOffWaiting(m) =>
              && e.Failure? && e.reason == Aborted
              && Logged(m.(stopReason := Aborted, errorMessage := Some(text)), e.message, log)
            case _ => true
  {
    var log := RetryLog(retried, maxRetries, cap);
    var late := if last.Some? then env.timedOut(|retried|, |last.value|) else env.timedOutWaiting(|retried| - 1);
    var tail := Conclusion(model, end, log, late);
    assert |tail| == 1 && yielded[|yielded| - 1] == tail[0];
  }

  // ----- Retries and the shape of the stream -----

  function StartCount(es: seq<StreamEvent>): nat {
    if es == [] then 0 else StartCount(es[..|es| - 1]) + (if es[|es| - 1].Start? then 1 else 0)
  }

  lemma {:induction false} StartCounted(es: seq<StreamEvent>)
    ensures StartCount(es) > 0 <==> StartedBefore(es, |es|)
  {
    if es != [] {
      StartCounted(es[..|es| - 1]);
      Earlier(es, |es| - 1);
    }
  }

  /** An event after others none of which is terminal. */
  lemma OrderlySnoc(es: seq<StreamEvent>, init: seq<StreamEvent>, e: StreamEvent)
    requires es == init + [e] && NoTerminal(init)
    ensures Orderly(es) <==> Orderly(init) && (e.Start? ==> StartCount(init) == 0)
  {
    TakeBack(init, e);
    Earlier(es, |init|);
    StartCounted(init);
    assert !EndedBefore(init, |init|);
  }

  /** With its terminal event last, a stream is orderly exactly when it has at most one Start. */
  lemma {:induction false} OrderlyByStarts(es: seq<StreamEvent>)
    requires forall i :: 0 <= i < |es| - 1 ==> !es[i].Terminal()
    ensures Orderly(es) <==> StartCount(es) <= 1
  {
    if es != [] {
      var init, e := es[..|es| - 1], es[|es| - 1];
      assert es == init + [e];
      OrderlyByStarts(init);
      OrderlySnoc(es, init, e);
    }
  }

  /** Main result.  The agent loop makes one balanced message of the wrapper's stream exactly when no
      more than one Start was forwarded: a retry after a Start breaks it if the next attempt starts. */
  lemma RetriesStayBalancedExactly(env: Env, model: Model, retriable: string -> bool, maxRetries: nat, cap: nat,
                                   yielded: seq<StreamEvent>, retried: seq<Attempt>, last: Option<seq<StreamEvent>>,
                                   end: End, failure: AssistantMessage)
    requires Account(env, model, retriable, maxRetries, cap, yielded, retried, last, end)
    ensures Balanced(ConsumerOf(Streamed(yielded, failure))) <==> StartCount(yielded) <= 1
  {
    TerminalIsLast(env, model, retriable, maxRetries, cap, yielded, retried, last, end);
    OrderlyByStarts(yielded);
    OrderlyIffBalanced(yielded, failure);
  }

  // ----- The same, over the streams that are read -----

  /** A stream up to its first terminal event. */
  function UntilTerminal(es: seq<StreamEvent>): (r: seq<StreamEvent>)
    ensures r <= es
  {
    if es == [] then []
    else
      var n := |es| - 1;
      var before := UntilTerminal(es[..n]);
      if |before| == n && !es[n].Terminal() then es else before
  }

  lemma {:induction false} UntilTerminalIs(es: seq<StreamEvent>, i: nat)
    requires i <= |es| && NoTerminal(es[..i]) && (i < |es| ==> es[i].Terminal())
    ensures UntilTerminal(es) == es[..i]
  {
    if es != [] {
      var n := |es| - 1;
      if i <= n {
        assert es[..n][..i] == es[..i];
        UntilTerminalIs(es[..n], i);
      } else {
        assert forall k :: 0 <= k < n ==> es[..n][k] == es[..i][k];
        TakeAll(es[..n]);
        UntilTerminalIs(es[..n], n);
        assert es[..i][n] == es[n];
      }
    }
  }

  /** How many Starts the streams of the first `n` attempts have before their first terminal events. */
  function StartsIn(env: Env, n: nat): nat {
    if n == 0 then 0 else StartsIn(env, n - 1) + StartCount(UntilTerminal(env.streams(n - 1)))
  }

  lemma {:induction false} StartCountAppend(a: seq<StreamEvent>, b: seq<StreamEvent>)
    ensures StartCount(a + b) == StartCount(a) + StartCount(b)
    decreases |b|
  {
    if b == [] {
      AppendEmpty(a);
    } else {
      assert (a + b)[..|a + b| - 1] == a + b[..|b| - 1];
      StartCountAppend(a, b[..|b| - 1]);
    }
  }

  lemma {:induction false} NonTerminalIsAll(es: seq<StreamEvent>)
    requires NoTerminal(es)
    ensures NonTerminal(es) == es
  {
    if es != [] {
      var n := |es| - 1;
      NonTerminalIsAll(es[..n]);
      assert es == es[..n] + [es[n]];
    }
  }

  lemma StartsForwarded(env: Env, k: nat, seen: seq<StreamEvent>, end: End)
    requires NeverCancelled(env) && AttemptRead(env, k, seen, end)
    ensures NonTerminal(seen) == UntilTerminal(env.streams(k))
  {
    var s := env.streams(k);
    if end.Concluded? {
      var n := |seen| - 1;
      NonTerminalIsAll(seen[..n]);
      AppendEmpty(seen[..n]);
      assert s[..n] == seen[..n] && s[n] == seen[n];
      UntilTerminalIs(s, n);
    } else {
      NonTerminalIsAll(s);
      TakeAll(s);
      UntilTerminalIs(s, |s|);
    }
  }

  lemma {:induction false} StartsOfRetried(env: Env, retriable: string -> bool, retried: seq<Attempt>)
    requires NeverCancelled(env) && AllRetried(env, retriable, retried)
    ensures StartCount(Forwarded(retried)) == StartsIn(env, |retried|)
  {
    if retried != [] {
      var n := |retried| - 1;
      var seen := retried[n].seen;
      assert RetriedAttempt(env, retriable, n, retried[n]);
      StartsOfRetried(env, retriable, retried[..n]);
      StartsForwarded(env, n, seen, Concluded(seen[|seen| - 1]));
      StartCountAppend(Forwarded(retried[..n]), NonTerminal(seen));
    }
  }

  /** The streams make the wrapper retry `n` times: the first `n` attempts fail with a retriable error, and
      the next does not or the allowance is used up. */
  ghost predicate RetryCount(env: Env, retriable: string -> bool, maxRetries: nat, n: nat) {
    && n <= maxRetries && (forall k :: 0 <= k < n ==> FailsRetriably(env, retriable, k))
    && (n == maxRetries || !FailsRetriably(env, retriable, n))
  }

  lemma RetriesCounted(env: Env, model: Model, retriable: string -> bool, maxRetries: nat, cap: nat,
                       yielded: seq<StreamEvent>, retried: seq<Attempt>, last: Option<seq<StreamEvent>>,
                       end: End, n: nat)
    requires Account(env, model, retriable, maxRetries, cap, yielded, retried, last, end) && NeverCancelled(env)
    requires RetryCount(env, retriable, maxRetries, n)
    ensures |retried| == n
  {
    if |retried| < n {
      RetriedExactly(env, model, retriable, maxRetries, cap, yielded, retried, last, end, |retried|);
    } else {
      RetriedExactly(env, model, retriable, maxRetries, cap, yielded, retried, last, end, n);
    }
  }

  lemma StartsYielded(env: Env, model: Model, retriable: string -> bool, maxRetries: nat, cap: nat,
                      yielded: seq<StreamEvent>, retried: seq<Attempt>, last: Option<seq<StreamEvent>>, end: End)
    requires Account(env, model, retriable, maxRetries, cap, yielded, retried, last, end) && NeverCancelled(env)
    ensures StartCount(yielded) == StartsIn(env, |retried| + 1)
  {
    var n, log := |retried|, RetryLog(retried, maxRetries, cap);
    var body, late := Forwarded(retried) + NonTerminal(last.value), env.timedOut(n, |last.value|);
    StartsOfRetried(env, retriable, retried);
    StartsForwarded(env, n, last.value, end);
    StartCountAppend(Forwarded(retried), NonTerminal(last.value));
    StartCountAppend(body, Conclusion(model, end, log, late));
    ConclusionStartsNothing(model, end, log, late);
  }

  lemma ConclusionStartsNothing(model: Model, end: End, log: seq<Diagnostic>, late: Option<nat>)
    requires end.Concluded? ==> end.event.Terminal()
    ensures StartCount(Conclusion(model, end, log, late)) == 0
  {
    NoStarts(Conclusion(model, end, log, late));
  }

  lemma {:induction false} NoStarts(es: seq<StreamEvent>)
    requires forall i :: 0 <= i < |es| ==> !es[i].Start?
    ensures StartCount(es) == 0
  {
    if es != [] {
      NoStarts(es[..|es| - 1]);
    }
  }

  /** Main result, over the given streams: unless it is cancelled, the agent loop makes one balanced message
      of the wrapper's stream exactly if the streams that are read have at most one Start between them. */
  lemma UncancelledIsBalancedExactly(env: Env, model: Model, retriable: string -> bool, maxRetries: nat, cap: nat,
                                     yielded: seq<StreamEvent>, retried: seq<Attempt>,
                                     last: Option<seq<StreamEvent>>, end: End, failure: AssistantMessage, n: nat)
    requires Account(env, model, retriable, maxRetries, cap, yielded, retried, last, end) && NeverCancelled(env)
    requires RetryCount(env, retriable, maxRetries, n)
    ensures Balanced(ConsumerOf(Streamed(yielded, failure))) <==> StartsIn(env, n + 1) <= 1
  {
    RetriesStayBalancedExactly(env, model, retriable, maxRetries, cap, yielded, retried, last, end, failure);
    RetriesCounted(env, model, retriable, maxRetries, cap, yielded, retried, last, end, n);
    StartsYielded(env, model, retriable, maxRetries, cap, yielded, retried, last, end);
  }

  /** A first attempt that fails after its Start, and a second that starts as well. */
  function StartsTwice(first: AssistantMessage, failed: AssistantMessage, second: AssistantMessage,
                       final: AssistantMessage): Env
  {
    Env((k: nat) => if k == 0 then [Start(first), Failure(Error, failed)]
                    else [Start(second), Done(final.stopReason, final)],
        (k: nat, i: nat) => false, (k: nat) => false, (k: nat, i: nat) => None, (k: nat) => None)
  }

  lemma ReadPair(env: Env, k: nat, first: AssistantMessage, last: StreamEvent)
    requires NeverCancelled(env) && env.streams(k) == [Start(first), last] && last.Terminal()
    ensures AttemptRead(env, k, env.streams(k), Concluded(last)) && NonTerminal(env.streams(k)) == [Start(first)]
  {
    var s := env.streams(k);
    assert s[..1] == [Start(first)] && s[..1][..0] == [];
    assert NonTerminal([Start(first)]) == [Start(first)];
    AppendEmpty([Start(first)]);
  }

  /** Then both Starts are forwarded, and the partial message of the first stays on the transcript. */
  lemma RetryAfterStartLeavesPartial(
    first: AssistantMessage, failed: AssistantMessage, second: AssistantMessage, final: AssistantMessage,
    model: Model, retriable: string -> bool, cap: nat, yielded: seq<StreamEvent>, retried: seq<Attempt>,
    last: Option<seq<StreamEvent>>, end: End, failure: AssistantMessage)
    requires retriable(ReasonOf(failed))
    requires Account(StartsTwice(first, failed, second, final), model, retriable, 1, cap, yielded, retried, last, end)
    ensures var log := [Retry(1, 1, ReasonOf(failed), Backoff(1, cap))];
            var concluded := Attached(final, log);
            && yielded == [Start(first), Start(second), Done(concluded.stopReason, concluded)]
            && !Balanced(ConsumerOf(Streamed(yielded, failure)))
            && ConsumerOf(Streamed(yielded, failure)).pushed == [Assistant(first), Assistant(concluded)]
  {
    var env := StartsTwice(first, failed, second, final);
    var log := [Retry(1, 1, ReasonOf(failed), Backoff(1, cap))];
    var concluded := Attached(final, log);
    var all := [Start(first), Start(second), Done(concluded.stopReason, concluded)];
    StartsTwiceAccount(first, failed, second, final, model, retriable, cap);
    AccountIsUnique(env, model, retriable, 1, cap, yielded, retried, last, end, all,
                    [Attempt(env.streams(0), ReasonOf(failed))], Some(env.streams(1)),
                    Concluded(Done(final.stopReason, final)));
    SecondStartBreaksAgreement(first, second, concluded, failure);
    OrderlyIffBalanced(all, failure);
  }

  lemma StartsTwiceRetried(first: AssistantMessage, failed: AssistantMessage, second: AssistantMessage,
                           final: AssistantMessage, retriable: string -> bool, cap: nat)
    requires retriable(ReasonOf(failed))
    ensures var env := StartsTwice(first, failed, second, final);
            var a := Attempt(env.streams(0), ReasonOf(failed));
            && AllRetried(env, retriable, [a]) && Forwarded([a]) == [Start(first)]
            && RetryLog([a], 1, cap) == [Retry(1, 1, ReasonOf(failed), Backoff(1, cap))]
  {
    var env := StartsTwice(first, failed, second, final);
    var a := Attempt(env.streams(0), ReasonOf(failed));
    ReadPair(env, 0, first, Failure(Error, failed));
    RetryOnce(env, retriable, 1, cap, [], a);
    EmptyThen([a]);
    EmptyThen([Start(first)]);
    EmptyThen([Retry(1, 1, ReasonOf(failed), Backoff(1, cap))]);
  }

  lemma StartsTwiceAccount(first: AssistantMessage, failed: AssistantMessage, second: AssistantMessage,
                           final: AssistantMessage, model: Model, retriable: string -> bool, cap: nat)
    requires retriable(ReasonOf(failed))
    ensures var env := StartsTwice(first, failed, second, final);
            var concluded := Attached(final, [Retry(1, 1, ReasonOf(failed), Backoff(1, cap))]);
            Account(env, model, retriable, 1, cap, [Start(first), Start(second), Done(concluded.stopReason, concluded)],
                    [Attempt(env.streams(0), ReasonOf(failed))], Some(env.streams(1)),
                    Concluded(Done(final.stopReason, final)))
  {
    var env := StartsTwice(first, failed, second, final);
    var concluded := Attached(final, [Retry(1, 1, ReasonOf(failed), Backoff(1, cap))]);
    StartsTwiceRetried(first, failed, second, final, retriable, cap);
    ReadPair(env, 1, second, Done(final.stopReason, final));
    assert [Start(first)] + [Start(second)] + [Done(concluded.stopReason, concluded)] ==
           [Start(first), Start(second), Done(concluded.stopReason, concluded)];
  }
}
