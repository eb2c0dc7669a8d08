/** The durable event log of one session: facts in strictly increasing order. */
module KernelLog {
  import opened Basics

  /** A session event, as far as the A2A projection looks at it. An absent or empty run id is
      None; the payload entries are what the payload holds under those names. */
  datatype Fact = Fact(
    sessionId: string, seqno: int, family: string, eventType: string, causationId: Option<string>,
    runId: Option<string>, payloadRun: Option<string>, payloadState: Option<string>, payloadCommand: Option<string>)

  predicate RunTransition(f: Fact) { f.family == "control" && f.eventType == "control.run_transition" }

  predicate Increasing(log: seq<Fact>) {
    forall i, j :: 0 <= i < j < |log| ==> log[i].seqno < log[j].seqno
  }

  /** What a subscription from a cursor delivers. */
  function Since(log: seq<Fact>, cursor: int): seq<Fact> {
    if log == [] then []
    else if log[0].seqno > cursor then log
    else Since(log[1..], cursor)
  }

  lemma {:induction false} SinceIsTheRest(log: seq<Fact>, cursor: int)
    requires Increasing(log)
    ensures Increasing(Since(log, cursor))
    ensures forall f :: f in Since(log, cursor) <==> f in log && f.seqno > cursor
  {
    if log != [] {
      if log[0].seqno > cursor {
        forall f | f in log ensures f.seqno > cursor { var i :| 0 <= i < |log| && log[i] == f; }
      } else {
        assert log == [log[0]] + log[1..];
        SinceIsTheRest(log[1..], cursor);
      }
    }
  }

  /** Reading on from the last fact read is reading the rest. */
  lemma {:induction false} SinceWithin(log: seq<Fact>, before: seq<Fact>, last: Fact, rest: seq<Fact>)
    requires Increasing(log) && log == before + [last] + rest
    ensures Since(log, last.seqno) == rest
  {
    if before == [] {
      assert log[0] == last && log[1..] == rest;
      if rest != [] { assert log[1].seqno > log[0].seqno; }
    } else {
      assert log[0].seqno < log[|before|].seqno;
      assert log[1..] == before[1..] + [last] + rest;
      SinceWithin(log[1..], before[1..], last, rest);
    }
  }

  lemma {:induction false} SinceComposes(log: seq<Fact>, a: int, b: int)
    requires a <= b
    ensures Since(Since(log, a), b) == Since(log, b)
  {
    if log != [] && log[0].seqno <= a { SinceComposes(log[1..], a, b); }
  }
}
