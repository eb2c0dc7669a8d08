/** Projecting one admitted command's run out of a session log: which facts are handed on, and
    why stopping to wait for input and resuming later loses and repeats nothing. */
module InboundKernel {
  import opened Basics
  import opened KernelLog

  datatype Receipt = Receipt(status: string, commandId: string, acceptedSeq: Option<int>, runId: Option<string>)

  datatype Submission = Submission(sessionId: string, receipt: Receipt)

  datatype Error =
    | NotAccepted
    | NoCommandSequence
    | ResumedRunChanged
    | InvalidCursor
    | OtherSession
    | CommandRejected
    | InvalidRunBinding
    | ConflictingRuns
    | EndedWithoutBoundary

  /** How a stream ends: at a fact that is a boundary of the run, or with an error. */
  datatype Ending = Boundary | Failed(error: Error)

  /** What a reader knows: the run it follows, if bound yet, and the last sequence number. */
  datatype View = View(run: Option<string>, cursor: int)

  datatype Outcome = Outcome(out: seq<Fact>, ending: Ending, view: View)

  predicate BoundaryState(state: string, stopAtWaiting: bool) {
    state in {"completed", "failed", "cancelled", "interrupted"} || (stopAtWaiting && state == "waiting")
  }

  predicate IsBoundary(f: Fact, stopAtWaiting: bool) {
    RunTransition(f) && f.payloadState.Some? && BoundaryState(f.payloadState.value, stopAtWaiting)
  }

  /** The fact is the transition that the admitted command caused. */
  predicate Binds(s: Submission, f: Fact) { RunTransition(f) && f.causationId == Some(s.receipt.commandId) }

  /** One fact: an error, or the view after it. */
  datatype Seen = Halt(error: Error, view: View) | Skip(view: View) | Hand(view: View)

  function Look(s: Submission, v: View, f: Fact): Seen {
    if f.sessionId != s.sessionId then Halt(OtherSession, v)
    else if f.seqno <= v.cursor then Skip(v)
    else
      var v' := v.(cursor := f.seqno);
      if f.eventType == "control.command_rejected" && f.payloadCommand == Some(s.receipt.commandId) then
        Halt(CommandRejected, v')
      else if Binds(s, f) && (f.runId.None? || f.payloadRun != f.runId) then Halt(InvalidRunBinding, v')
      else if Binds(s, f) && v.run.Some? && v.run != f.runId then Halt(ConflictingRuns, v')
      else
        var bound := if Binds(s, f) then v'.(run := f.runId) else v';
        if bound.run.None? || f.runId != bound.run then Skip(bound) else Hand(bound)
  }

  lemma LookMoves(s: Submission, v: View, f: Fact)
    ensures match Look(s, v, f)
            case Halt(error, v') => v'.run == v.run && v.cursor <= v'.cursor && error != EndedWithoutBoundary
            case Skip(v') =>
              && v'.run == v.run
              && (if f.seqno <= v.cursor then v' == v else v'.cursor == f.seqno && (v.run.Some? ==> f.runId != v.run))
            case Hand(v') =>
              && v.cursor < f.seqno == v'.cursor && v'.run == f.runId && f.runId.Some?
              && (v.run.Some? ==> v'.run == v.run)
  {
  }

  function Follow(s: Submission, v: View, facts: seq<Fact>, stopAtWaiting: bool): (o: Outcome)
    ensures o.ending == Boundary ==> o.out != []
    decreases |facts|
  {
    if facts == [] then Outcome([], Failed(EndedWithoutBoundary), v)
    else
      match Look(s, v, facts[0])
      case Halt(error, v') => Outcome([], Failed(error), v')
      case Skip(v') => Follow(s, v', facts[1..], stopAtWaiting)
      case Hand(v') =>
        if IsBoundary(facts[0], stopAtWaiting) then Outcome([facts[0]], Boundary, v')
        else
          var rest := Follow(s, v', facts[1..], stopAtWaiting);
          rest.(out := [facts[0]] + rest.out)
  }

  /** One step of the stream. */
  lemma Unroll(s: Submission, v: View, facts: seq<Fact>, stopAtWaiting: bool)
    requires facts != []
    ensures var o := Follow(s, v, facts, stopAtWaiting);
            match Look(s, v, facts[0])
            case Halt(error, v') => o == Outcome([], Failed(error), v')
            case Skip(v') => o == Follow(s, v', facts[1..], stopAtWaiting)
            case Hand(v') =>
              if IsBoundary(facts[0], stopAtWaiting) then o == Outcome([facts[0]], Boundary, v')
              else
                var rest := Follow(s, v', facts[1..], stopAtWaiting);
                o.out == [facts[0]] + rest.out && o.ending == rest.ending && o.view == rest.view
  {
    hide Look, IsBoundary;
  }

  /** What is checked before the subscription is opened. */
  function Refused(s: Submission, expectedRun: Option<string>, afterSeq: int): Option<Error> {
    if s.receipt.status !in {"accepted", "duplicate"} then Some(NotAccepted)
    else if s.receipt.acceptedSeq.None? || s.receipt.acceptedSeq.value < 1 then Some(NoCommandSequence)
    else if expectedRun.Some? && s.receipt.runId.Some? && expectedRun != s.receipt.runId then Some(ResumedRunChanged)
    else if afterSeq < 0 then Some(InvalidCursor)
    else None
  }

  function Start(s: Submission, expectedRun: Option<string>, afterSeq: int): View {
    View(if s.receipt.runId.Some? then s.receipt.runId else expectedRun, afterSeq)
  }

  function Streamed(s: Submission, expectedRun: Option<string>, afterSeq: int, facts: seq<Fact>, stopAtWaiting: bool): Outcome {
    var v := Start(s, expectedRun, afterSeq);
    var refused := Refused(s, expectedRun, afterSeq);
    if refused.Some? then Outcome([], Failed(refused.value), v) else Follow(s, v, facts, stopAtWaiting)
  }

  method Examine(s: Submission, run: Option<string>, cursor: int, fact: Fact) returns (seen: Seen)
    ensures seen == Look(s, View(run, cursor), fact)
  {
    var v := View(run, cursor);
    if fact.sessionId != s.sessionId { return Halt(OtherSession, v); }
    if fact.seqno <= cursor { return Skip(v); }
    v := v.(cursor := fact.seqno);
    if fact.eventType == "control.command_rejected" && fact.payloadCommand == Some(s.receipt.commandId) {
      return Halt(CommandRejected, v);
    }
    if fact.family == "control" && fact.eventType == "control.run_transition" && fact.causationId == Some(s.receipt.commandId) {
      if fact.runId.None? || fact.payloadRun != fact.runId { return Halt(InvalidRunBinding, v); }
      if run.Some? && run != fact.runId { return Halt(ConflictingRuns, v); }
      v := v.(run := fact.runId);
    }
    if v.run.None? || fact.runId != v.run { return Skip(v); }
    seen := Hand(v);
  }

  /** Streams the facts that a subscription delivers. */
  method StreamFacts(s: Submission, delivered: seq<Fact>, expectedRun: Option<string>, afterSeq: int, stopAtWaiting: bool)
    returns (out: seq<Fact>, ending: Ending, view: View)
    ensures Outcome(out, ending, view) == Streamed(s, expectedRun, afterSeq, delivered, stopAtWaiting)
  {
    var receipt := s.receipt;
    out, view := [], View(if receipt.runId.Some? then receipt.runId else expectedRun, afterSeq);
    if receipt.status !in {"accepted", "duplicate"} { ending := Failed(NotAccepted); return; }
    if receipt.acceptedSeq.None? || receipt.acceptedSeq.value < 1 { ending := Failed(NoCommandSequence); return; }
    if expectedRun.Some? && receipt.runId.Some? && expectedRun != receipt.runId { ending := Failed(ResumedRunChanged); return; }
    if afterSeq < 0 { ending := Failed(InvalidCursor); return; }
    out, ending, view := Read(s, view, delivered, stopAtWaiting);
  }

  method Read(s: Submission, start: View, delivered: seq<Fact>, stopAtWaiting: bool)
    returns (out: seq<Fact>, ending: Ending, view: View)
    ensures Outcome(out, ending, view) == Follow(s, start, delivered, stopAtWaiting)
  {
    hide Look, IsBoundary, Follow;
    out, view := [], start;
    ghost var whole, left := Follow(s, start, delivered, stopAtWaiting), delivered;
    for i := 0 to |delivered|
      invariant left == delivered[i..]
      invariant whole.out == out + Follow(s, view, left, stopAtWaiting).out
      invariant whole.ending == Follow(s, view, left, stopAtWaiting).ending && whole.view == Follow(s, view, left, stopAtWaiting).view
    {
      Unroll(s, view, left, stopAtWaiting);
      var seen := Examine(s, view.run, view.cursor, delivered[i]);
      left := left[1..];
      view := seen.view;
      if seen.Halt? { ending := Failed(seen.error); return; }
      if seen.Skip? { continue; }
      out := out + [delivered[i]];
      if IsBoundary(delivered[i], stopAtWaiting) { ending := Boundary; return; }
    }
    NothingFollows(s, view, stopAtWaiting);
    ending := Failed(EndedWithoutBoundary);
  }

  lemma NothingFollows(s: Submission, v: View, stopAtWaiting: bool)
    ensures Follow(s, v, [], stopAtWaiting) == Outcome([], Failed(EndedWithoutBoundary), v)
  {
  }

  // ---------------------------------------------------------- what is handed on

  predicate OneRun(out: seq<Fact>, run: Option<string>) {
    forall f <- out :: f.runId == run && run.Some?
  }

  predicate Proper(v: View, o: Outcome, stopAtWaiting: bool) {
    && OneRun(o.out, o.view.run) && (v.run.Some? ==> o.view.run == v.run)
    && Increasing(o.out) && (forall f <- o.out :: v.cursor < f.seqno <= o.view.cursor) && v.cursor <= o.view.cursor
    && (o.ending == Boundary ==>
          && o.out != [] && IsBoundary(o.out[|o.out| - 1], stopAtWaiting)
          && o.view.cursor == o.out[|o.out| - 1].seqno)
    && (forall i :: 0 <= i < |o.out| - (if o.ending == Boundary then 1 else 0) ==> !IsBoundary(o.out[i], stopAtWaiting))
  }

  lemma ProperCons(v: View, f: Fact, v': View, rest: Outcome, o: Outcome, stopAtWaiting: bool)
    requires Proper(v', rest, stopAtWaiting) && !IsBoundary(f, stopAtWaiting)
    requires v.cursor < f.seqno == v'.cursor && v'.run == f.runId && f.runId.Some? && (v.run.Some? ==> v'.run == v.run)
    requires o.out == [f] + rest.out && o.ending == rest.ending && o.view == rest.view
    ensures Proper(v, o, stopAtWaiting)
  {
    hide IsBoundary;
    assert forall i :: 0 < i < |o.out| ==> o.out[i] == rest.out[i - 1] && o.out[i] in rest.out;
  }

  /** The output is one run, in increasing order behind the cursor; it ends normally exactly at
      a boundary, and with no other boundary before it. */
  lemma {:induction false} OutputIsOneRun(s: Submission, v: View, facts: seq<Fact>, stopAtWaiting: bool)
    ensures Proper(v, Follow(s, v, facts, stopAtWaiting), stopAtWaiting)
    decreases |facts|
  {
    if facts != [] {
      hide Look, IsBoundary, Follow;
      LookMoves(s, v, facts[0]);
      Unroll(s, v, facts, stopAtWaiting);
      match Look(s, v, facts[0])
      case Halt(_, _) =>
      case Skip(v') => OutputIsOneRun(s, v', facts[1..], stopAtWaiting);
      case Hand(v') =>
        if !IsBoundary(facts[0], stopAtWaiting) {
          OutputIsOneRun(s, v', facts[1..], stopAtWaiting);
          ProperCons(v, facts[0], v', Follow(s, v', facts[1..], stopAtWaiting), Follow(s, v, facts, stopAtWaiting), stopAtWaiting);
        }
    }
  }

  function OfRun(facts: seq<Fact>, run: string): seq<Fact> {
    if facts == [] then []
    else (if facts[0].runId == Some(run) then [facts[0]] else []) + OfRun(facts[1..], run)
  }

  /** `read` facts were looked at; what was handed on is all of the run among them. */
  predicate Complete(o: Outcome, facts: seq<Fact>, run: string, read: nat) {
    && read <= |facts| && o.out == OfRun(facts[..read], run)
    && (o.ending == Failed(EndedWithoutBoundary) ==> read == |facts|)
    && (o.ending == Boundary ==> o.out != [] && 0 < read && facts[read - 1] == o.out[|o.out| - 1])
  }

  lemma CompleteCons(o: Outcome, rest: Outcome, facts: seq<Fact>, run: string, read: nat)
    requires facts != [] && Complete(rest, facts[1..], run, read) && o.ending == rest.ending
    requires o.out == (if facts[0].runId == Some(run) then [facts[0]] else []) + rest.out
    ensures Complete(o, facts, run, read + 1)
  {
    assert facts[..read + 1][1..] == facts[1..][..read] && facts[..read + 1][0] == facts[0];
  }

  /** Once the run is bound, what is handed on is every fact of that run up to the end. */
  lemma {:induction false} NothingOfTheRunIsMissed(s: Submission, v: View, facts: seq<Fact>, stopAtWaiting: bool)
    returns (read: nat)
    requires v.run.Some? && Increasing(facts) && forall f <- facts :: f.seqno > v.cursor
    ensures Complete(Follow(s, v, facts, stopAtWaiting), facts, v.run.value, read)
    decreases |facts|
  {
    read := 0;
    if facts == [] { return; }
    hide Look, IsBoundary, Follow, OfRun;
    assert facts[0] in facts && forall f <- facts[1..] :: f.seqno > facts[0].seqno && f in facts;
    LookMoves(s, v, facts[0]);
    Unroll(s, v, facts, stopAtWaiting);
    var o := Follow(s, v, facts, stopAtWaiting);
    match Look(s, v, facts[0])
    case Halt(_, _) => NothingRead(facts, v.run.value);
    case Skip(v') =>
      read := NothingOfTheRunIsMissed(s, v', facts[1..], stopAtWaiting);
      assert o.out == [] + o.out;
      CompleteCons(o, Follow(s, v', facts[1..], stopAtWaiting), facts, v.run.value, read);
      read := read + 1;
    case Hand(v') =>
      if IsBoundary(facts[0], stopAtWaiting) {
        OneRead(facts, v.run.value);
        read := 1;
      } else {
        read := NothingOfTheRunIsMissed(s, v', facts[1..], stopAtWaiting);
        CompleteCons(o, Follow(s, v', facts[1..], stopAtWaiting), facts, v.run.value, read);
        read := read + 1;
      }
  }

  lemma NothingRead(facts: seq<Fact>, run: string)
    ensures OfRun(facts[..0], run) == []
  {
  }

  lemma OneRead(facts: seq<Fact>, run: string)
    requires facts != [] && facts[0].runId == Some(run)
    ensures OfRun(facts[..1], run) == [facts[0]]
  {
    assert facts[..1][1..] == [];
  }

  // ---------------------------------------------------------------- redelivery

  /** The delivery without the facts that were delivered before. */
  function Fresh(cursor: int, delivered: seq<Fact>): seq<Fact>
    decreases |delivered|
  {
    if delivered == [] then []
    else if delivered[0].seqno <= cursor then Fresh(cursor, delivered[1..])
    else [delivered[0]] + Fresh(delivered[0].seqno, delivered[1..])
  }

  /** Facts of the session that are delivered again change nothing. */
  lemma {:induction false} RedeliveryChangesNothing(s: Submission, v: View, delivered: seq<Fact>, stopAtWaiting: bool)
    requires forall f <- delivered :: f.sessionId == s.sessionId
    ensures Follow(s, v, delivered, stopAtWaiting) == Follow(s, v, Fresh(v.cursor, delivered), stopAtWaiting)
    decreases |delivered|
  {
    if delivered != [] {
      var f := delivered[0];
      assert f in delivered && forall g <- delivered[1..] :: g in delivered;
      Unroll(s, v, delivered, stopAtWaiting);
      if f.seqno <= v.cursor {
        RedeliveryChangesNothing(s, v, delivered[1..], stopAtWaiting);
      } else {
        LookMoves(s, v, f);
        hide Look, IsBoundary, Follow;
        FreshHead(v.cursor, delivered);
        Unroll(s, v, Fresh(v.cursor, delivered), stopAtWaiting);
        RedeliveryChangesNothing(s, Look(s, v, f).view, delivered[1..], stopAtWaiting);
      }
    }
  }

  lemma FreshHead(cursor: int, delivered: seq<Fact>)
    requires delivered != [] && delivered[0].seqno > cursor
    ensures Fresh(cursor, delivered)[0] == delivered[0]
    ensures Fresh(cursor, delivered)[1..] == Fresh(delivered[0].seqno, delivered[1..])
  {
  }

  // -------------------------------------------------------------------- resuming

  /** Streaming with a stop at every wait, resuming each time from the cursor and the run that
      the caller kept. */
  function Resumed(s: Submission, expectedRun: Option<string>, afterSeq: int, log: seq<Fact>): Outcome
    decreases |Since(log, afterSeq)|
  {
    var o := Streamed(s, expectedRun, afterSeq, Since(log, afterSeq), true);
    if !Waits(o) || !Increasing(log) then o
    else
      WaitingIsProgress(s, expectedRun, afterSeq, log);
      var rest := Resumed(s, o.view.run, o.view.cursor, log);
      rest.(out := o.out + rest.out)
  }

  /** The stream stopped for input. */
  predicate Waits(o: Outcome) { o.ending == Boundary && o.out != [] && !IsBoundary(o.out[|o.out| - 1], false) }

  lemma WaitsCons(f: Fact, rest: Outcome, o: Outcome)
    requires o.out == [f] + rest.out && o.ending == rest.ending && rest.out != []
    ensures Waits(o) <==> Waits(rest)
  {
    assert o.out[|o.out| - 1] == rest.out[|rest.out| - 1];
  }

  /** Where a stream that waits has stopped, an unstopped one goes on. */
  lemma {:induction false} WaitSplits(s: Submission, v: View, facts: seq<Fact>) returns (read: nat)
    requires Waits(Follow(s, v, facts, true))
    ensures var o := Follow(s, v, facts, true);
            var whole := Follow(s, v, facts, false);
            && 0 < read <= |facts| && facts[read - 1].seqno == o.view.cursor
            && var rest := Follow(s, o.view, facts[read..], false);
               whole.out == o.out + rest.out && whole.ending == rest.ending && whole.view == rest.view
    decreases |facts|
  {
    hide Look, Follow, IsBoundary;
    assert facts != [] by { NoFacts(s, v); }
    LookMoves(s, v, facts[0]);
    Unroll(s, v, facts, true);
    Unroll(s, v, facts, false);
    StopsAtLess(facts[0]);
    match Look(s, v, facts[0])
    case Skip(v') =>
      read := WaitSplits(s, v', facts[1..]);
      assert facts[1..][read..] == facts[read + 1..];
      read := read + 1;
    case Hand(v') =>
      if IsBoundary(facts[0], true) {
        read := 1;
      } else {
        var o := Follow(s, v', facts[1..], true);
        WaitsCons(facts[0], o, Follow(s, v, facts, true));
        read := WaitSplits(s, v', facts[1..]);
        assert facts[1..][read..] == facts[read + 1..];
        read := read + 1;
      }
  }

  lemma NoFacts(s: Submission, v: View)
    ensures !Waits(Follow(s, v, [], true))
  {
  }

  lemma StopsAtLess(f: Fact)
    ensures IsBoundary(f, false) ==> IsBoundary(f, true)
  {
  }

  /** Reading on from the last of the first `read` facts. */
  lemma SinceAfter(log: seq<Fact>, afterSeq: int, read: nat, cursor: int)
    requires Increasing(log) && 0 < read <= |Since(log, afterSeq)| && Since(log, afterSeq)[read - 1].seqno == cursor >= afterSeq
    ensures Since(log, cursor) == Since(log, afterSeq)[read..]
  {
    hide Since, Increasing;
    var facts := Since(log, afterSeq);
    SinceIsTheRest(log, afterSeq);
    SinceComposes(log, afterSeq, cursor);
    assert facts == facts[..read - 1] + [facts[read - 1]] + facts[read..];
    SinceWithin(facts, facts[..read - 1], facts[read - 1], facts[read..]);
  }

  lemma WaitingIsProgress(s: Submission, expectedRun: Option<string>, afterSeq: int, log: seq<Fact>)
    requires Increasing(log)
    requires Waits(Streamed(s, expectedRun, afterSeq, Since(log, afterSeq), true))
    ensures var o := Streamed(s, expectedRun, afterSeq, Since(log, afterSeq), true);
            && |Since(log, o.view.cursor)| < |Since(log, afterSeq)|
            && afterSeq < o.view.cursor && o.view.run.Some?
            && (s.receipt.runId.Some? ==> o.view.run == s.receipt.runId)
            && (expectedRun.Some? ==> o.view.run == expectedRun)
  {
    hide Look, RunTransition, BoundaryState, Follow, Since, Increasing;
    var facts := Since(log, afterSeq);
    var v := Start(s, expectedRun, afterSeq);
    OutputIsOneRun(s, v, facts, true);
    var o := Follow(s, v, facts, true);
    var read := WaitSplits(s, v, facts);
    SinceIsTheRest(log, afterSeq);
    SinceAfter(log, afterSeq, read, o.view.cursor);
    assert o.out[|o.out| - 1] in o.out;
  }

  /** On any session log, stopping at every wait and resuming from the kept cursor and run
      yields exactly the uninterrupted stream, however often the run waits. */
  lemma {:induction false} ResumingIsSeamless(s: Submission, expectedRun: Option<string>, afterSeq: int, log: seq<Fact>)
    requires Increasing(log)
    ensures Resumed(s, expectedRun, afterSeq, log) == Streamed(s, expectedRun, afterSeq, Since(log, afterSeq), false)
    decreases |Since(log, afterSeq)|
  {
    hide Look, RunTransition, BoundaryState, Follow, Since, Increasing;
    var facts := Since(log, afterSeq);
    var v := Start(s, expectedRun, afterSeq);
    var o := Streamed(s, expectedRun, afterSeq, facts, true);
    if Waits(o) {
      WaitingIsProgress(s, expectedRun, afterSeq, log);
      var read := WaitSplits(s, v, facts);
      SinceIsTheRest(log, afterSeq);
      SinceComposes(log, afterSeq, o.view.cursor);
      assert facts == facts[..read - 1] + [facts[read - 1]] + facts[read..];
      SinceWithin(facts, facts[..read - 1], facts[read - 1], facts[read..]);
      ResumingIsSeamless(s, o.view.run, o.view.cursor, log);
      assert Start(s, o.view.run, o.view.cursor) == o.view;
      assert Refused(s, o.view.run, o.view.cursor).None?;
    } else if Refused(s, expectedRun, afterSeq).None? {
      NoWaitNoDifference(s, v, facts);
    }
  }

  /** A stream that does not end at a wait does not depend on whether it would have. */
  lemma {:induction false} NoWaitNoDifference(s: Submission, v: View, facts: seq<Fact>)
    requires !Waits(Follow(s, v, facts, true))
    ensures Follow(s, v, facts, true) == Follow(s, v, facts, false)
    decreases |facts|
  {
    if facts != [] {
      hide Look, Follow, IsBoundary;
      Unroll(s, v, facts, true);
      Unroll(s, v, facts, false);
      StopsAtLess(facts[0]);
      match Look(s, v, facts[0])
      case Halt(_, _) =>
      case Skip(v') => NoWaitNoDifference(s, v', facts[1..]);
      case Hand(v') =>
        if !IsBoundary(facts[0], true) {
          var o := Follow(s, v', facts[1..], true);
          if o.out != [] { WaitsCons(facts[0], o, Follow(s, v, facts, true)); }
          NoWaitNoDifference(s, v', facts[1..]);
        }
    }
  }
}
