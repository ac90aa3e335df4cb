/** When a provider stream makes a balanced message: exactly for orderly streams. */
module Streams {
  import opened Types
  import opened History

  /** One message on the transcript, announced once, updated, and closed once, at the end. */
  ghost predicate Balanced(c: Consumer) {
    && c.final.Some?
    && c.pushed == [Assistant(c.final.value)]
    && |c.emitted| >= 2
    && c.emitted[0].MessageStart? && c.emitted[0].message.Assistant?
    && (forall i :: 0 < i < |c.emitted| - 1 ==> c.emitted[i].MessageUpdate?)
    && c.emitted[|c.emitted| - 1] == MessageEnd(Assistant(c.final.value))
  }

  ghost predicate StartedBefore(es: seq<StreamEvent>, i: nat)
    requires i <= |es|
  {
    exists k :: 0 <= k < i && es[k].Start?
  }

  ghost predicate EndedBefore(es: seq<StreamEvent>, i: nat)
    requires i <= |es|
  {
    exists k :: 0 <= k < i && es[k].Terminal()
  }

  /** At most one Start, at most one terminal event, no Start after it, and no update after it
      either if the message had been started. */
  ghost predicate Orderly(es: seq<StreamEvent>) {
    forall i :: 0 <= i < |es| ==>
      && (es[i].Start? ==> !StartedBefore(es, i) && !EndedBefore(es, i))
      && (es[i].Terminal() ==> !EndedBefore(es, i))
      && (es[i].Update? ==> !StartedBefore(es, i) || !EndedBefore(es, i))
  }

  /** The shape that the loop's author expects: a Start first if at all, a terminal event last. */
  ghost predicate WellFormed(es: seq<StreamEvent>) {
    && (forall i :: 0 < i < |es| ==> !es[i].Start?)
    && (forall i :: 0 <= i < |es| - 1 ==> !es[i].Terminal())
  }

  lemma WellFormedIsOrderly(es: seq<StreamEvent>)
    requires WellFormed(es)
    ensures Orderly(es)
  {
  }

  // ----- Both directions, by following the consumer -----

  ghost predicate Open(c: Consumer) {
    && |c.pushed| == 1
    && |c.emitted| >= 1
    && c.emitted[0].MessageStart? && c.emitted[0].message.Assistant?
    && forall i :: 0 < i < |c.emitted| ==> c.emitted[i].MessageUpdate?
  }

  ghost predicate Tidy(c: Consumer) {
    if c.final.Some? then Balanced(c)
    else if c.started then Open(c)
    else c.pushed == [] && c.emitted == []
  }

  /** Beyond repair: two messages were pushed, or a message was closed before the last event. */
  ghost predicate Broken(c: Consumer) {
    |c.pushed| >= 2 || exists i :: 0 <= i < |c.emitted| - 1 && c.emitted[i].MessageEnd?
  }

  lemma BrokenStays(c: Consumer, e: StreamEvent)
    requires Broken(c)
    ensures Broken(Consume(c, e))
  {
    var c' := Consume(c, e);
    if |c.pushed| < 2 {
      var i :| 0 <= i < |c.emitted| - 1 && c.emitted[i].MessageEnd?;
      assert c'.emitted[i] == c.emitted[i];
    }
  }

  lemma TidyStays(c: Consumer, e: StreamEvent)
    requires Tidy(c)
    requires e.Start? ==> !c.started && c.final.None?
    requires e.Terminal() ==> c.final.None?
    requires e.Update? ==> !c.started || c.final.None?
    ensures Tidy(Consume(c, e))
  {
  }

  lemma TidyBreaks(c: Consumer, e: StreamEvent)
    requires Tidy(c)
    requires (e.Start? && (c.started || c.final.Some?)) || (e.Terminal() && c.final.Some?) ||
             (e.Update? && c.started && c.final.Some?)
    ensures Broken(Consume(c, e))
  {
    var c' := Consume(c, e);
    if c.final.Some? && !e.Start? && c.started {
      assert c'.emitted[|c.emitted| - 1] == c.emitted[|c.emitted| - 1];
    }
  }

  lemma {:induction false} Follow(es: seq<StreamEvent>)
    ensures ConsumeAll(es).started <==> StartedBefore(es, |es|)
    ensures ConsumeAll(es).final.Some? <==> EndedBefore(es, |es|)
    ensures if Orderly(es) then Tidy(ConsumeAll(es)) else Broken(ConsumeAll(es))
  {
    if es != [] {
      var n := |es| - 1;
      var c, e := ConsumeAll(es[..n]), es[n];
      Follow(es[..n]);
      Earlier(es, n);
      if Orderly(es[..n]) {
        if Orderly(es) {
          TidyStays(c, e);
        } else {
          TidyBreaks(c, e);
        }
      } else {
        BrokenStays(c, e);
      }
    }
  }

  lemma Earlier(es: seq<StreamEvent>, n: nat)
    requires |es| == n + 1
    ensures forall i :: 0 <= i <= n ==> (StartedBefore(es, i) <==> StartedBefore(es[..n], i))
    ensures forall i :: 0 <= i <= n ==> (EndedBefore(es, i) <==> EndedBefore(es[..n], i))
    ensures StartedBefore(es, n + 1) <==> StartedBefore(es[..n], n) || es[n].Start?
    ensures EndedBefore(es, n + 1) <==> EndedBefore(es[..n], n) || es[n].Terminal()
    ensures Orderly(es) <==>
              && Orderly(es[..n])
              && (es[n].Start? ==> !StartedBefore(es[..n], n) && !EndedBefore(es[..n], n))
              && (es[n].Terminal() ==> !EndedBefore(es[..n], n))
              && (es[n].Update? ==> !StartedBefore(es[..n], n) || !EndedBefore(es[..n], n))
  {
    var init := es[..n];
    forall i | 0 <= i <= n ensures StartedBefore(es, i) <==> StartedBefore(init, i) {
      if StartedBefore(es, i) {
        var k :| 0 <= k < i && es[k].Start?;
        assert init[k].Start?;
      }
      if StartedBefore(init, i) {
        var k :| 0 <= k < i && init[k].Start?;
        assert es[k].Start?;
      }
    }
    forall i | 0 <= i <= n ensures EndedBefore(es, i) <==> EndedBefore(init, i) {
      if EndedBefore(es, i) {
        var k :| 0 <= k < i && es[k].Terminal();
        assert init[k].Terminal();
      }
      if EndedBefore(init, i) {
        var k :| 0 <= k < i && init[k].Terminal();
        assert es[k].Terminal();
      }
    }
    assert forall i :: 0 <= i < n ==> init[i] == es[i];
  }

  /** A streamed response is balanced exactly when its stream is orderly, whatever message closes
      a truncated stream. */
  lemma OrderlyIffBalanced(es: seq<StreamEvent>, failure: AssistantMessage)
    ensures Orderly(es) <==> Balanced(ConsumerOf(Streamed(es, failure)))
  {
    Follow(es);
    var c := ConsumeAll(es);
    if Orderly(es) {
      if c.final.None? {
        var d := Close(c, failure);
        assert d == ConsumerOf(Streamed(es, failure));
        assert Balanced(d);
      }
    } else {
      if c.final.None? {
        var d := Close(c, failure);
        if |c.pushed| < 2 {
          var i :| 0 <= i < |c.emitted| - 1 && c.emitted[i].MessageEnd?;
          assert d.emitted[i] == c.emitted[i];
        }
      } else {
      }
    }
  }
}
