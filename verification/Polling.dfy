/** What a finished run did with its queues: which messages each turn began with, and what the run
    had last seen of its queues when it ended. */
module Polling {
  import opened Types
  import opened History
  import opened PendingQueues
  import opened Looks
  import opened Agents
  import opened Batches

  /** A turn begins with what the looks before it found. */
  lemma TurnBegins(agent: Agent, base: seq<Message>, r: RunResult, i: nat)
    requires agent.RunReport(base, r) && i < |agent.turns|
    ensures |agent.heard| == |agent.turns|
    ensures Begins(agent.Began(), if i == 0 then None else Some(agent.turns[i - 1]), agent.heard[i], agent.turns[i])
  {
    BeginsAt(agent.Began(), agent.turns, agent.heard, i);
  }

  lemma TurnFollows(agent: Agent, base: seq<Message>, r: RunResult, i: nat)
    requires agent.RunReport(base, r) && 0 < i < |agent.turns|
    ensures Follows(agent.turns[i - 1], agent.turns[i])
  {
    agent.ReportMeans(base, r);
  }

  /** A turn withheld because the run was cancelled is the last. */
  lemma WithheldIsLast(agent: Agent, base: seq<Message>, r: RunResult, i: nat)
    requires agent.RunReport(base, r) && i < |agent.turns|
    requires agent.turns[i].response.Withheld? && agent.turns[i].response.message.stopReason == Aborted
    ensures i == |agent.turns| - 1
  {
    if i < |agent.turns| - 1 {
      TurnFollows(agent, base, r, i + 1);
    }
  }

  lemma BringsWhatWasHeld(b: Boundary, t: Turn, next: Turn)
    requires LaterLooks(t, b) && Follows(t, next) && next.injected == [] + Brings(b)
    ensures match b.steering
            case NotLooked => false
            case Skipped => next.injected == []
            case Looked(mode, held, _) =>
              if held != [] then next.injected == Tag(if mode == All then held else [held[0]], Steering)
              else if MoreCalls(t) then next.injected == []
              else
                match b.followUp
                case Looked(mode', held', _) =>
                  held' != [] && next.injected == Tag(if mode' == All then held' else [held'[0]], FollowUp)
                case _ => false
  {
    EmptyThen(Brings(b));
  }

  /** A turn goes on exactly if its message ended neither in an error nor aborted, and leaves tool results
      to look at exactly if it then ran calls not all of which ask the loop to stop. */
  lemma GoesOnExactly(t: Turn)
    requires ValidTurn(t)
    ensures GoesOn(t) <==>
              FinalOf(t).Some? && FinalOf(t).value.stopReason != Error && FinalOf(t).value.stopReason != Aborted
    ensures MoreCalls(t) <==>
              && GoesOn(t) && FinalOf(t).value.Calls() != []
              && exists i: nat :: i < |t.outcomes| && t.outcomes[i].result.terminate != Some(true)
  {
    TerminatesExactly(t.outcomes);
  }

  /** A turn whose stream broke off without a terminal event does not go on, and runs no tool. */
  lemma TruncatedStreamEnds(t: Turn)
    requires ValidTurn(t) && t.response.Streamed?
    requires forall i :: 0 <= i < |t.response.events| ==> !t.response.events[i].Terminal()
    ensures FinalOf(t) == Some(t.response.failure) && t.response.failure.stopReason == Error
    ensures !GoesOn(t) && CallsRun(t) == []
  {
    NoneIsFinal(t.response.events);
  }

  lemma {:induction false} NoneIsFinal(es: seq<StreamEvent>)
    requires forall i :: 0 <= i < |es| ==> !es[i].Terminal()
    ensures ConsumeAll(es).final.None?
  {
    if es != [] {
      NoneIsFinal(es[..|es| - 1]);
    }
  }

  /** Main result, for every turn after the first of any run.  The turn before it went on, and since
      then the run looked at the steering queue.  What it held then opens the turn: all of it, or the
      oldest message, as the mode of the queue says.  If it held nothing, either there are tool results
      to look at, and the turn begins with no message, or the run looked at the follow-up queue as well
      and the turn begins with what that held.  The run looks at nothing only once it is cancelled, and
      such a turn is the last and is withheld. */
  lemma LaterTurnsBeginWithTheQueue(agent: Agent, base: seq<Message>, r: RunResult, i: nat)
    requires agent.RunReport(base, r) && 0 < i < |agent.turns|
    ensures GoesOn(agent.turns[i - 1]) && |agent.heard| == |agent.turns|
    ensures var seen, injected := agent.heard[i], agent.turns[i].injected;
            match seen.steering
            case NotLooked => false
            case Skipped =>
              injected == [] && i == |agent.turns| - 1 && agent.turns[i].response.Withheld? &&
              agent.turns[i].response.message.stopReason == Aborted
            case Looked(mode, held, _) =>
              if held != [] then injected == Tag(if mode == All then held else [held[0]], Steering)
              else if MoreCalls(agent.turns[i - 1]) then injected == []
              else
                match seen.followUp
                case Looked(mode', held', _) =>
                  held' != [] && injected == Tag(if mode' == All then held' else [held'[0]], FollowUp)
                case _ => false
  {
    TurnBegins(agent, base, r, i);
    TurnFollows(agent, base, r, i);
    BringsWhatWasHeld(agent.heard[i], agent.turns[i - 1], agent.turns[i]);
    if agent.heard[i].steering.Skipped? {
      WithheldIsLast(agent, base, r, i);
    }
  }

  /** And for the first turn: it begins with the prompts.  Where they are alone that is all; otherwise
      the steering messages follow which the queue held before the turn, and unless somebody cleared it
      in the meantime those queued when the run started are the first of them. */
  lemma FirstTurnBeginsWithTheQueue(agent: Agent, base: seq<Message>, r: RunResult)
    requires agent.RunReport(base, r)
    ensures agent.turns != [] && |agent.heard| == |agent.turns|
    ensures var injected := agent.turns[0].injected;
            match agent.heard[0].steering
            case NotLooked => agent.alone && injected == agent.opening
            case Skipped =>
              !agent.alone && injected == agent.opening && |agent.turns| == 1 && agent.turns[0].response.Withheld?
            case Looked(mode, held, clears) =>
              && !agent.alone
              && injected == agent.opening + Tag(if mode == All || held == [] then held else [held[0]], Steering)
              && (clears == agent.startQueue.clears ==> agent.startQueue.messages <= held)
  {
    agent.ReportMeans(base, r);
    TurnBegins(agent, base, r, 0);
    AppendEmpty(agent.opening);
    if agent.heard[0].steering.Skipped? {
      WithheldIsLast(agent, base, r, 0);
    }
  }

  /** Main result: a run that was neither refused, failed, told to stop nor cancelled ends only after it
      found both queues empty since its last turn, which left no tool results to look at. */
  lemma IdleRunFoundQueuesEmpty(agent: Agent, base: seq<Message>, r: RunResult)
    requires agent.RunReport(base, r) && r.Ok? && !agent.stopAsked && !agent.cancelled
    ensures agent.turns != []
    ensures GoesOn(agent.turns[|agent.turns| - 1]) ==>
              && !MoreCalls(agent.turns[|agent.turns| - 1])
              && agent.ahead.steering.Looked? && agent.ahead.steering.held == []
              && agent.ahead.followUp.Looked? && agent.ahead.followUp.held == []
  {
    agent.ReportMeans(base, r);
  }
}
