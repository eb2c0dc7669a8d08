/** The reconciler that re-reads session logs for facts the server has not acknowledged. Its
    scan cursors are an optimisation that never passes a fact still owed. */
module KernelReconciler {
  import opened Basics
  import opened KernelLog

  const STATES := {"running", "waiting", "completed", "failed", "interrupted", "cancelled"}

  const MAX_FACTS := 100

  const MAX_SCANNED := 1000

  const MAX_ITEMS := 25

  /** What identifies a task's facts; the server never changes it. */
  datatype Binding = Binding(sessionId: string, commandId: string)

  predicate Eligible(b: Binding, f: Fact) {
    RunTransition(f) && f.causationId == Some(b.commandId) && f.payloadState.Some? && f.payloadState.value in STATES
  }

  // -------------------------------------------------------------------- the server

  function LastSeq(log: seq<Fact>): int { if log == [] then 0 else log[|log| - 1].seqno }

  /** The logs of the sessions and, per task, the facts that were acknowledged. */
  datatype Server = Server(logs: map<string, seq<Fact>>, bindings: map<string, Binding>, acked: set<(string, int)>)
  {
    function Log(b: Binding): seq<Fact> { if b.sessionId in logs then logs[b.sessionId] else [] }

    predicate Valid() {
      forall s <- logs :: Increasing(logs[s]) && forall f <- logs[s] :: f.seqno >= 1 && f.sessionId == s
    }

    /** Every eligible fact of the task up to `seqno` is acknowledged, and the log has got there. */
    predicate Settled(task: string, seqno: int) {
      && task in bindings && seqno <= LastSeq(Log(bindings[task]))
      && forall f <- Log(bindings[task]) :: Eligible(bindings[task], f) && f.seqno <= seqno ==> (task, f.seqno) in acked
    }
  }

  /** What may happen on the other side meanwhile: logs grow at their ends, acknowledgements
      and bindings stay. */
  predicate Later(a: Server, b: Server) {
    && b.Valid() && a.acked <= b.acked
    && (forall t <- a.bindings :: t in b.bindings && b.bindings[t] == a.bindings[t])
    && (forall s <- a.logs :: s in b.logs && a.logs[s] <= b.logs[s])
  }

  lemma LaterSame(a: Server)
    requires a.Valid()
    ensures Later(a, a)
  {
  }

  lemma LaterTransitive(a: Server, b: Server, c: Server)
    requires Later(a, b) && Later(b, c)
    ensures Later(a, c)
  {
  }

  lemma LastIsLargest(log: seq<Fact>)
    requires Increasing(log)
    ensures forall f <- log :: f.seqno <= LastSeq(log)
  {
  }

  /** What is appended is newer than all that was there. */
  lemma NewerThanLast(before: seq<Fact>, log: seq<Fact>)
    requires before <= log && Increasing(log) && forall f <- log :: f.seqno >= 1
    ensures forall i :: |before| <= i < |log| ==> log[i].seqno > LastSeq(before)
  {
    forall i | |before| <= i < |log| ensures log[i].seqno > LastSeq(before) {
      assert log[i] in log;
      if before != [] { assert log[|before| - 1].seqno < log[i].seqno; }
    }
  }

  lemma SettledLater(a: Server, b: Server, task: string, seqno: int)
    requires a.Valid() && Later(a, b) && a.Settled(task, seqno)
    ensures b.Settled(task, seqno)
  {
    var binding := a.bindings[task];
    var before, log := a.Log(binding), b.Log(binding);
    assert before <= log && Increasing(log) && forall f <- log :: f.seqno >= 1;
    NewerThanLast(before, log);
    forall f | f in log && Eligible(binding, f) && f.seqno <= seqno ensures (task, f.seqno) in b.acked {
      var i :| 0 <= i < |log| && log[i] == f;
      assert i < |before|;
      assert before[i] == f;
    }
    if before != [] {
      assert log[|before| - 1] in log && log[|before| - 1] == before[|before| - 1];
      LastIsLargest(log);
    } else if log != [] {
      assert log[|log| - 1] in log;
    }
  }

  // ----------------------------------------------------------------- recovery pages

  /** An item of a recovery page; `valid` when it passes the checks on its fields. */
  datatype Item = Item(valid: bool, taskId: string, afterSeq: int, binding: Binding)

  datatype Page = Page(items: seq<Item>, next: string)

  /** The page says of a task what the server knows of it. */
  predicate Owned(s: Server, item: Item) {
    item.valid ==> 0 <= item.afterSeq && s.Settled(item.taskId, item.afterSeq) && s.bindings[item.taskId] == item.binding
  }

  /** How one scan goes: what the server has become when it is opened and when it is reported,
      how many facts arrive in time, whether the stream then hands out a wrong fact, whether
      the server takes the report and whether its answer arrives. */
  datatype Scan = Scan(atOpening: Server, atReport: Server, arrived: nat, wrong: Option<Fact>, taken: bool, answered: bool)

  /** Nothing goes wrong with the scan. */
  predicate Works(item: Item, scan: Scan) { item.valid && scan.wrong.None? && scan.answered }

  /** The sweep has met the task, on this page or an earlier one. */
  predicate Met(sweep: set<string>, items: seq<Item>, task: string) {
    task in sweep || exists item <- items :: item.valid && item.taskId == task
  }

  function Max(a: int, b: int): int { if a < b then b else a }

  function Cursor(cursors: map<string, int>, task: string): int { if task in cursors then cursors[task] else 0 }

  lemma OwnedLater(a: Server, b: Server, item: Item)
    requires a.Valid() && Later(a, b) && Owned(a, item)
    ensures Owned(b, item)
  {
    if item.valid { SettledLater(a, b, item.taskId, item.afterSeq); }
  }

  /** How many facts of the task's log are still to be scanned. */
  function Owes(s: Server, item: Item, cursors: map<string, int>): nat {
    |Since(s.Log(item.binding), Max(item.afterSeq, Cursor(cursors, item.taskId)))|
  }

  /** A scan moves the cursor of its own task only, and only forward. */
  predicate Moved(before: map<string, int>, after: map<string, int>, item: Item, ok: bool) {
    if ok then
      && item.valid && item.taskId in after && Max(item.afterSeq, Cursor(before, item.taskId)) <= after[item.taskId]
      && after == before[item.taskId := after[item.taskId]]
    else after == before
  }

  /** What scanning the first `n` items of a page does to cursors and sweep: cursors only
      advance, and every scan that works leaves one. */
  ghost predicate Scanned(items: seq<Item>, scans: seq<Scan>, n: nat, cursors: map<string, int>, sweep: set<string>,
                          cursors': map<string, int>, sweep': set<string>)
    requires n <= |items| == |scans|
  {
    && (forall t <- cursors :: t in cursors' && cursors[t] <= cursors'[t])
    && (forall t <- cursors' :: t in cursors || t in sweep')
    && (forall t :: t in sweep' <==> Met(sweep, items[..n], t))
    && (forall k :: 0 <= k < n && Works(items[k], scans[k]) ==> items[k].taskId in cursors')
  }

  lemma NoneScanned(items: seq<Item>, scans: seq<Scan>, cursors: map<string, int>, sweep: set<string>)
    requires |items| == |scans|
    ensures Scanned(items, scans, 0, cursors, sweep, cursors, sweep)
  {
  }

  lemma MetOneMore(sweep: set<string>, items: seq<Item>, n: nat, t: string)
    requires n < |items|
    ensures Met(sweep, items[..n + 1], t) <==> Met(sweep, items[..n], t) || (items[n].valid && items[n].taskId == t)
  {
    assert items[..n + 1] == items[..n] + [items[n]];
  }

  lemma ScannedOneMore(items: seq<Item>, scans: seq<Scan>, n: nat, cursors: map<string, int>, sweep: set<string>,
                       mid: map<string, int>, met: set<string>, cursors': map<string, int>, sweep': set<string>, ok: bool)
    requires n < |items| == |scans| && Scanned(items, scans, n, cursors, sweep, mid, met)
    requires Moved(mid, cursors', items[n], ok) && (Works(items[n], scans[n]) ==> ok)
    requires sweep' == met + (if items[n].valid then {items[n].taskId} else {})
    ensures Scanned(items, scans, n + 1, cursors, sweep, cursors', sweep')
  {
    forall t ensures t in sweep' <==> Met(sweep, items[..n + 1], t) {
      MetOneMore(sweep, items, n, t);
    }
  }

  lemma AllScanned(items: seq<Item>, scans: seq<Scan>, cursors: map<string, int>, sweep: set<string>,
                   cursors': map<string, int>, sweep': set<string>)
    requires |items| == |scans| && Scanned(items, scans, |items|, cursors, sweep, cursors', sweep')
    ensures forall t <- cursors :: t in cursors' && cursors[t] <= cursors'[t]
    ensures forall t :: t in sweep' <==> Met(sweep, items, t)
    ensures forall i :: 0 <= i < |items| && Works(items[i], scans[i]) ==> items[i].taskId in cursors' && Met(sweep, items, items[i].taskId)
  {
    assert items[..|items|] == items;
  }

  /** The eligible facts among the first `n` of a stream. */
  function Picked(b: Binding, facts: seq<Fact>, n: nat): seq<Fact>
    requires n <= |facts|
  {
    if n == 0 then []
    else Picked(b, facts, n - 1) + (if Eligible(b, facts[n - 1]) then [facts[n - 1]] else [])
  }

  lemma {:induction false} PickedAll(b: Binding, facts: seq<Fact>, n: nat)
    requires n <= |facts|
    ensures forall f :: f in Picked(b, facts, n) <==> f in facts[..n] && Eligible(b, f)
    ensures |Picked(b, facts, n)| <= n
  {
    if n > 0 {
      PickedAll(b, facts, n - 1);
      assert facts[..n] == facts[..n - 1] + [facts[n - 1]];
    }
  }

  function Acks(task: string, facts: seq<Fact>): set<(string, int)> { set f | f in facts :: (task, f.seqno) }

  /** Where reading `n` facts behind a cursor gets to. */
  function ReadTo(rest: seq<Fact>, start: int, n: nat): int
    requires n <= |rest|
  {
    if n == 0 then start else rest[n - 1].seqno
  }

  lemma ReadingMovesOn(log: seq<Fact>, start: int, n: nat)
    requires Increasing(log) && n <= |Since(log, start)|
    ensures var rest := Since(log, start);
            && start <= ReadTo(rest, start, n) && (n > 0 ==> ReadTo(rest, start, n) <= LastSeq(log))
            && Since(log, ReadTo(rest, start, n)) == rest[n..]
  {
    hide Since, Increasing;
    var rest := Since(log, start);
    SinceIsTheRest(log, start);
    if n > 0 {
      var last := rest[n - 1];
      assert last in rest;
      LastIsLargest(log);
      SinceComposes(log, start, last.seqno);
      assert rest == rest[..n - 1] + [last] + rest[n..];
      SinceWithin(rest, rest[..n - 1], last, rest[n..]);
    }
  }

  lemma ReadFactsArePicked(b: Binding, rest: seq<Fact>, start: int, n: nat, f: Fact)
    requires Increasing(rest) && n <= |rest| && f in rest && Eligible(b, f)
    requires start < f.seqno <= ReadTo(rest, start, n)
    ensures f in Picked(b, rest, n)
  {
    PickedAll(b, rest, n);
    var i :| 0 <= i < |rest| && rest[i] == f;
    assert forall k :: 0 < n <= k < |rest| ==> rest[n - 1].seqno < rest[k].seqno;
    assert i < n;
    assert rest[..n][i] == f;
  }

  /** Reporting what was picked settles the task as far as was read. */
  lemma ReadingSettles(s: Server, task: string, start: int, n: nat)
    requires s.Valid() && s.Settled(task, start)
    requires n <= |Since(s.Log(s.bindings[task]), start)|
    ensures var rest := Since(s.Log(s.bindings[task]), start);
            s.(acked := s.acked + Acks(task, Picked(s.bindings[task], rest, n))).Settled(task, ReadTo(rest, start, n))
  {
    hide Picked, Eligible, Since;
    var b := s.bindings[task];
    var log := s.Log(b);
    var rest := Since(log, start);
    SinceIsTheRest(log, start);
    ReadingMovesOn(log, start, n);
    forall f | f in log && Eligible(b, f) && f.seqno <= ReadTo(rest, start, n)
      ensures (task, f.seqno) in s.acked + Acks(task, Picked(b, rest, n))
    {
      if f.seqno > start { ReadFactsArePicked(b, rest, start, n, f); }
    }
  }

  // ------------------------------------------------------------------- the reconciler

  class Reconciler {
    var scanCursors: map<string, int>
    var sweepTasks: set<string>
    var cursor: string
    var server: Server

    /** No scan cursor has passed a fact that is still owed. */
    ghost predicate Valid()
      reads this
    {
      server.Valid() && forall t <- scanCursors :: server.Settled(t, scanCursors[t])
    }

    /** A reconciler that has just been started, or started again. */
    constructor (server: Server)
      requires server.Valid()
      ensures Valid() && this.server == server && scanCursors == map[] && sweepTasks == {} && cursor == ""
    {
      scanCursors, sweepTasks, cursor, this.server := map[], {}, "", server;
    }

    method Meanwhile(next: Server)
      requires Valid()
      modifies `server
      ensures Valid() && Later(old(server), server)
      ensures server == if Later(old(server), next) then next else old(server)
    {
      if Later(server, next) {
        forall t | t in scanCursors ensures next.Settled(t, scanCursors[t]) { SettledLater(server, next, t, scanCursors[t]); }
        server := next;
      }
    }

    /** Reads the stream until the time is up, a limit is reached or something is wrong. */
    method ReadStream(item: Item, start: int, scan: Scan) returns (facts: seq<Fact>, observed: int, ok: bool, count: nat)
      requires server.Valid() && item.valid && 0 <= start
      ensures var rest := Since(server.Log(item.binding), start);
              && count <= |rest| && count <= scan.arrived && |facts| <= MAX_FACTS && |facts| <= count <= MAX_SCANNED
              && facts == Picked(item.binding, rest, count)
              && observed == ReadTo(rest, start, count)
              && (ok && count < scan.arrived && count < |rest| ==> |facts| == MAX_FACTS || count == MAX_SCANNED)
              && (scan.wrong.None? ==> ok)
    {
      hide Since, Eligible, Increasing, Later;
      var rest := Since(server.Log(item.binding), start);
      var limit := if scan.arrived < |rest| then scan.arrived else |rest|;
      facts, observed, ok, count := [], start, true, 0;
      while count < limit && |facts| < MAX_FACTS && count < MAX_SCANNED
        invariant |facts| <= count <= limit && count <= MAX_SCANNED && |facts| <= MAX_FACTS
        invariant facts == Picked(item.binding, rest, count)
        invariant observed == ReadTo(rest, start, count)
        decreases limit - count
      {
        var fact := rest[count];
        count := count + 1;
        observed := fact.seqno;
        if Eligible(item.binding, fact) { facts := facts + [fact]; }
      }
      if count == limit && scan.wrong.Some? {
        // the next thing handed out is older than what was read, or from another session
        if scan.wrong.value.seqno <= observed || scan.wrong.value.sessionId != item.binding.sessionId { ok := false; }
      }
    }

    /** Scans one task and reports what it finds; the cursor moves only once the report is
        acknowledged. */
    method ScanTask(item: Item, scan: Scan) returns (ok: bool)
      requires Valid() && Owned(server, item)
      modifies `scanCursors, `sweepTasks, `server
      ensures Valid() && Later(old(server), server)
      ensures sweepTasks == old(sweepTasks) + (if item.valid then {item.taskId} else {})
      ensures Moved(old(scanCursors), scanCursors, item, ok)
      ensures Works(item, scan) ==> ok
      ensures ok && scan.atOpening == scan.atReport == old(server) ==>
                && server.logs == old(server).logs
                && Owes(server, item, scanCursors) <= Owes(old(server), item, old(scanCursors))
                && (0 < scan.arrived && Owes(old(server), item, old(scanCursors)) > 0 ==>
                      Owes(server, item, scanCursors) < Owes(old(server), item, old(scanCursors)))
    {
      hide Since, Eligible, Later;
      ok := false;
      LaterSame(server);
      if !item.valid { return; }
      sweepTasks := sweepTasks + {item.taskId};
      ok := Observe(item, Max(item.afterSeq, Cursor(scanCursors, item.taskId)), scan);
    }

    /** Reads behind the cursor and reports. */
    method Observe(item: Item, start: int, scan: Scan) returns (ok: bool)
      requires Valid() && item.valid && 0 <= start && server.Settled(item.taskId, start)
      requires server.bindings[item.taskId] == item.binding
      modifies `scanCursors, `server
      ensures Valid() && Later(old(server), server)
      ensures if ok then item.taskId in scanCursors && start <= scanCursors[item.taskId]
                         && scanCursors == old(scanCursors)[item.taskId := scanCursors[item.taskId]]
              else scanCursors == old(scanCursors)
      ensures Works(item, scan) ==> ok
      ensures ok && scan.atOpening == scan.atReport == old(server) ==>
                var before := |Since(old(server).Log(item.binding), start)|;
                var after := |Since(old(server).Log(item.binding), scanCursors[item.taskId])|;
                && server.logs == old(server).logs
                && after <= before && (0 < scan.arrived && before > 0 ==> after < before)
    {
      hide Since, Picked, Eligible;
      ok := false;
      Meanwhile(scan.atOpening);
      SettledLater(old(server), server, item.taskId, start);
      var facts, observed, read, n;
      facts, observed, read, n := ReadStream(item, start, scan);
      ReadingMovesOn(server.Log(item.binding), start, n);
      ReadingSettles(server, item.taskId, start, n);
      if read {
        ghost var asRead := server;
        ok := Report(item.taskId, facts, observed, scan);
        LaterTransitive(old(server), asRead, server);
      }
    }

    /** Reports what was read; only then may the cursor move. */
    method Report(task: string, facts: seq<Fact>, observed: int, scan: Scan) returns (ok: bool)
      requires Valid() && server.(acked := server.acked + Acks(task, facts)).Settled(task, observed)
      modifies `scanCursors, `server
      ensures Valid() && Later(old(server), server)
      ensures scanCursors == if ok then old(scanCursors)[task := observed] else old(scanCursors)
      ensures scan.answered ==> ok
      ensures scan.atReport == old(server) ==> server.logs == old(server).logs
    {
      LaterSame(server);
      Meanwhile(scan.atReport);
      if facts != [] {
        if scan.taken || scan.answered { Acknowledge(task, facts); }
        if !scan.answered { return false; }
      }
      SettledAsRead(old(server), server, task, facts, observed);
      scanCursors := scanCursors[task := observed];
      ok := true;
    }

    method Acknowledge(task: string, facts: seq<Fact>)
      requires Valid()
      modifies `server
      ensures Valid() && server == old(server).(acked := old(server).acked + Acks(task, facts))
    {
      server := server.(acked := server.acked + Acks(task, facts));
    }

    /** Scans the items of a page; a broken task does not keep the others from being scanned. */
    method ScanPage(items: seq<Item>, scans: seq<Scan>) returns (ok: bool)
      requires Valid() && |scans| == |items| && forall item <- items :: Owned(server, item)
      modifies `scanCursors, `sweepTasks, `server
      ensures Valid()
      // whatever happened to the others
      ensures Scanned(items, scans, |items|, old(scanCursors), old(sweepTasks), scanCursors, sweepTasks)
    {
      hide Later, Owned, Scanned, Moved;
      ok := true;
      NoneScanned(items, scans, scanCursors, sweepTasks);
      for i := 0 to |items|
        invariant Valid() && forall item <- items :: Owned(server, item)
        invariant Scanned(items, scans, i, old(scanCursors), old(sweepTasks), scanCursors, sweepTasks)
      {
        assert items[i] in items;
        ghost var before, mid, met := server, scanCursors, sweepTasks;
        var scanned := ScanTask(items[i], scans[i]);
        forall item | item in items ensures Owned(server, item) { OwnedLater(before, server, item); }
        ScannedOneMore(items, scans, i, old(scanCursors), old(sweepTasks), mid, met, scanCursors, sweepTasks, scanned);
        if !scanned { ok := false; }
      }
    }

    /** One page of the sweep. */
    method ReconcileOnce(page: Page, scans: seq<Scan>) returns (ok: bool)
      requires Valid() && |scans| == |page.items| && forall item <- page.items :: Owned(server, item)
      modifies this
      ensures Valid()
      // the page is turned down as a whole, or everything in it is scanned
      ensures |page.items| > MAX_ITEMS ==> !ok && scanCursors == old(scanCursors) && cursor == old(cursor)
      ensures |page.items| <= MAX_ITEMS ==> cursor == page.next
      ensures |page.items| <= MAX_ITEMS ==>
                forall i :: 0 <= i < |scans| && Works(page.items[i], scans[i]) ==> page.items[i].taskId in scanCursors
      // cursors advance; only the end of a sweep drops those of tasks it never met
      ensures forall t <- old(scanCursors) :: t in scanCursors ==> old(scanCursors)[t] <= scanCursors[t]
      ensures forall t <- old(scanCursors) :: t !in scanCursors ==> page.next == "" && !Met(old(sweepTasks), page.items, t)
      ensures |page.items| <= MAX_ITEMS && page.next == "" ==>
                sweepTasks == {} && forall t <- scanCursors :: Met(old(sweepTasks), page.items, t)
    {
      hide Scanned, Met, Owned, Works;
      if |page.items| > MAX_ITEMS { return false; }
      ok := ScanPage(page.items, scans);
      AllScanned(page.items, scans, old(scanCursors), old(sweepTasks), scanCursors, sweepTasks);
      cursor := page.next;
      if cursor == "" { EndSweep(); }
    }

    /** Drops the cursors of the tasks that the sweep never met. */
    method EndSweep()
      requires Valid()
      modifies `scanCursors, `sweepTasks
      ensures Valid() && sweepTasks == {}
      ensures forall t :: t in scanCursors <==> t in old(scanCursors) && t in old(sweepTasks)
      ensures forall t <- scanCursors :: scanCursors[t] == old(scanCursors)[t]
    {
      scanCursors := map t | t in scanCursors && t in sweepTasks :: scanCursors[t];
      sweepTasks := {};
    }

    /** Scans of a task whose log stands still, each seeing at least one fact, end with every
        eligible fact acknowledged after at most as many scans as there are facts. */
    method CatchUp(item: Item, arrivals: seq<nat>)
      requires Valid() && item.valid && Owned(server, item) && forall n <- arrivals :: n > 0
      requires |arrivals| >= Owes(server, item, scanCursors)
      modifies this
      ensures Valid() && server.logs == old(server).logs
      ensures forall f <- server.Log(item.binding) :: Eligible(item.binding, f) ==> (item.taskId, f.seqno) in server.acked
    {
      hide Later;
      var i := 0;
      while Owes(server, item, scanCursors) > 0
        invariant Valid() && Owned(server, item) && server.logs == old(server).logs
        invariant i + Owes(server, item, scanCursors) <= |arrivals|
        decreases |arrivals| - i
      {
        assert arrivals[i] in arrivals;
        ghost var before := server;
        var ignored := ScanTask(item, Scan(server, server, arrivals[i], None, true, true));
        OwnedLater(before, server, item);
        i := i + 1;
      }
      var reached := Max(item.afterSeq, Cursor(scanCursors, item.taskId));
      SinceIsTheRest(server.Log(item.binding), reached);
      assert server.Settled(item.taskId, reached);
    }
  }

  /** What was settled when it was read is settled once it is reported, whatever came after. */
  lemma SettledAsRead(a: Server, b: Server, task: string, facts: seq<Fact>, read: int)
    requires a.Valid() && a.(acked := a.acked + Acks(task, facts)).Settled(task, read)
    requires b.Valid() && a.acked + Acks(task, facts) <= b.acked
    requires forall t <- a.bindings :: t in b.bindings && b.bindings[t] == a.bindings[t]
    requires forall s <- a.logs :: s in b.logs && a.logs[s] <= b.logs[s]
    ensures b.Settled(task, read)
  {
    var a' := a.(acked := a.acked + Acks(task, facts));
    assert Later(a', b);
    SettledLater(a', b, task, read);
  }
}
