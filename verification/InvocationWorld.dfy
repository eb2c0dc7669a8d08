/** What one operation of the service sees of its surroundings: the lease over the durable
    row, the canonical store, the control plane and the wire. Every call is one await. At an
    await any number of steps of other workers happen first, the lease may be lost, and the
    call may fail, be interrupted or never return, all as the input script says. */
module InvocationWorld {
  import opened Basics
  import opened InvocationTypes
  import opened InvocationProtocol
  import opened InvocationSafety
  import opened InvocationSpool
  import opened InvocationTheorems

  /** How an await ends: with a result, an exception, a cancellation (or a closed generator),
      or not at all. */
  datatype Outcome = Done | Raised(code: string) | Interrupted | Crashed

  datatype Fate = Proceed | Fail(code: string) | Interrupt | Die

  datatype Prepared = Prepared(platformTask: string, remote: Option<(string, Option<string>)>, targetMatches: bool, hosted: bool)

  datatype RemoteTask = RemoteTask(taskId: Option<string>, contextId: Option<string>, state: RemoteState)

  datatype Native =
    | NativeTask(task: RemoteTask)
    | NativeStatus(task: RemoteTask)
    | NativeMessage(taskId: Option<string>, contextId: Option<string>)
    | NativeOther(taskId: Option<string>, contextId: Option<string>)
    | EndOfStream
    | NothingYet

  /** One await: what others do meanwhile, how it ends, whether its effect took place, and
      the values it may return. */
  datatype Choice = Choice(
    others: seq<Label>, fate: Fate, took: bool, gap: nat, allowed: bool, consistent: bool,
    prepared: Prepared, task: RemoteTask, native: Native, bodies: seq<Body>)

  /** Raised by the service itself when a prepared call names no remote task. */
  const BINDING_UNKNOWN := "A2A_REMOTE_BINDING_UNKNOWN"

  /** Raised by the service itself when a replay misses a fact. */
  const FACT_REQUIRED := "A2A_TERMINAL_RECOVERY_FACT_REQUIRED"

  /** Raised when somebody else holds the scope's lease. */
  const BUSY := "InvocationCheckpointBusy"

  /** Not an exception that only the service itself raises. */
  predicate Outside(o: Outcome) { o != Raised(BINDING_UNKNOWN) && o != Raised(FACT_REQUIRED) }

  const SILENCE := Choice([], Die, false, 0, false, false, Prepared("", None, false, false),
                          RemoteTask(None, None, TaskWorking), NothingYet, [])

  /** `l` writes the row, the log or the wire on behalf of `op`. */
  predicate Acts(op: OpId, l: Label) {
    (l.Save? || l.SaveFails? || l.Publish? || l.PublishUnsaved? || l.OpenStream?) && l.op == op
  }

  ghost predicate Idle(run: seq<Label>, from: nat, op: OpId) {
    forall i :: from <= i < |run| ==> !Acts(op, run[i])
  }

  /** This state of the remote task was read back at or after `from`. */
  ghost predicate WasRead(run: seq<Label>, from: nat, op: OpId, state: RemoteState) {
    exists i :: from <= i < |run| && run[i] == ReadBack(op, state)
  }

  lemma WasReadLater(run: seq<Label>, from: nat, run': seq<Label>, from': nat, op: OpId, state: RemoteState)
    requires WasRead(run, from, op, state) && run <= run' && from' <= from
    ensures WasRead(run', from', op, state)
  {
    var i :| from <= i < |run| && run[i] == ReadBack(op, state);
    assert run'[i] == run[i];
  }

  /** At some point at or after `from` the cancel flag stood so. */
  ghost predicate FlagWas(c: Config, run: seq<Label>, from: nat, wanted: bool) {
    exists n: nat :: from <= n <= |run| && Exec(c, run[..n]).Some? && Exec(c, run[..n]).value.cancelFlag == wanted
  }

  lemma FlagWasNow(c: Config, run: seq<Label>, g: Global, from: nat)
    requires Reaches(c, run, g) && from <= |run|
    ensures FlagWas(c, run, from, g.cancelFlag)
  {
    assert run[..|run|] == run;
  }

  lemma FlagWasLater(c: Config, run: seq<Label>, from: nat, run': seq<Label>, from': nat, wanted: bool)
    requires FlagWas(c, run, from, wanted) && run <= run' && from' <= from
    ensures FlagWas(c, run', from', wanted)
  {
    var n: nat :| from <= n <= |run| && Exec(c, run[..n]).Some? && Exec(c, run[..n]).value.cancelFlag == wanted;
    assert run'[..n] == run[..n];
  }

  /** The spool of an operation whose save has failed, as far as it is not published. */
  function Lost(g: Global, op: OpId): Option<seq<Event>> { if op in g.unsaved then Some(g.unsaved[op]) else None }

  predicate FirstLost(g: Global, op: OpId, e: Event) {
    Lost(g, op).Some? && Lost(g, op).value != [] && Lost(g, op).value[0] == e
  }

  /** What the steps of others leave alone, as far as `op` is concerned. */
  ghost predicate Undisturbed(op: OpId, a: Global, b: Global) {
    KeptFor(op, a, b) && Lost(b, op) == Lost(a, op)
  }

  ghost predicate KeptFor(op: OpId, a: Global, b: Global) {
    && (op in b.base <==> op in a.base) && (op in a.base ==> b.base[op] == a.base[op])
    && (op in b.grants <==> op in a.grants) && (op in a.grants ==> b.grants[op] == a.grants[op])
    && a.log <= b.log && a.sends <= b.sends
  }

  lemma EvolvesLater(base: Option<Row>, r: Row, log: seq<Event>, log': seq<Event>)
    requires Evolves(base, r, log) && log <= log'
    ensures Evolves(base, r, log')
  {
    if base.Some? {
      var b := base.value;
      FactsCarry(r, log, r, log');
      if Drained(b.pending, r.pending, log) {
        var k :| 0 <= k <= |b.pending| && Published(b.pending[..k], log) && r.pending == b.pending[k..];
        assert Published(b.pending[..k], log');
      }
    }
  }

  lemma NextUpLater(spool: seq<Event>, log: seq<Event>, log': seq<Event>, e: Event)
    requires NextUp(spool, log, e) && log <= log'
    ensures NextUp(spool, log', e)
  {
    var k :| 0 <= k < |spool| && spool[k] == e && Published(spool[..k], log);
    assert Published(spool[..k], log');
  }

  /** A row may always be saved again as it is. */
  lemma EvolvesSame(r: Row, log: seq<Event>)
    ensures Evolves(Some(r), r, log)
  {
    assert r.pending[0..] == r.pending && Published(r.pending[..0], log);
  }

  /** `l` is a step of somebody else. */
  predicate Foreign(g: Global, l: Label, op: OpId)
    requires op in g.live
  {
    if l.Crash? then l.inst != g.live[op] else l.RequestCancel? || l.LoseLease? || l.op != op
  }

  lemma EndingOthers(g: Global, ops: set<OpId>, inst: Instance, op: OpId)
    requires op in g.live && op !in ops
    ensures op in Ended(g, ops, inst).live && Ended(g, ops, inst).live[op] == g.live[op]
    ensures Undisturbed(op, g, Ended(g, ops, inst))
  {
  }

  lemma AppendingOthers(g: Global, e: Event, seqno: nat, op: OpId)
    ensures Append(g, e, seqno).live == g.live && Undisturbed(op, g, Append(g, e, seqno))
  {
  }

  lemma PublishingOthers(c: Config, g: Global, l: Label, op: OpId)
    requires op in g.live && Foreign(g, l, op) && (l.Publish? || l.PublishUnsaved?)
    ensures op in Next(c, g, l).live && Next(c, g, l).live[op] == g.live[op]
    ensures Undisturbed(op, g, Next(c, g, l))
  {
    hide Append;
    if l.Publish? {
      AppendingOthers(g, l.event, l.seqno, op);
    } else if l.op in g.unsaved && g.unsaved[l.op] != [] {
      var popped := g.(unsaved := g.unsaved[l.op := g.unsaved[l.op][1..]]);
      AppendingOthers(popped, g.unsaved[l.op][0], l.seqno, op);
    }
  }

  lemma OthersLeaveAlone(c: Config, g: Global, l: Label, op: OpId)
    requires op in g.live && Foreign(g, l, op)
    ensures op in Next(c, g, l).live && Next(c, g, l).live[op] == g.live[op]
    ensures Undisturbed(op, g, Next(c, g, l))
  {
    hide Ended, Fresh, Append;
    if l.Crash? { EndingOthers(g, OpsOf(g, l.inst), l.inst, op); }
    else if (l.SaveFails? || l.Finish?) && l.op in g.live { EndingOthers(g, {l.op}, g.live[l.op], op); }
    else if l.Publish? || l.PublishUnsaved? { PublishingOthers(c, g, l, op); }
  }

  /** The holder's save is accepted, and afterwards the durable row is what it saved. */
  lemma HolderSaves(c: Config, run: seq<Label>, g: Global, op: OpId, r: Row, receipt: Option<string>)
    requires c.serial && Reaches(c, run, g)
    requires g.holder == Some(op) && op in g.base && Discipline(g.base[op], r, g.log, receipt)
    ensures Enabled(c, g, Save(op, r, receipt))
    ensures var g' := Next(c, g, Save(op, r, receipt));
            && g'.row == Some(r) && g'.log == g.log && g'.base == g.base[op := Some(r)]
            && g'.live == g.live && g'.holder == g.holder
            && g'.grants == (if receipt.Some? then g.grants[op := receipt.value] else g.grants)
    ensures Discipline(Some(r), r, g.log, None)
  {
    SaveIsNeverRejected(c, run, g, op, r, receipt);
    EvolvesSame(r, g.log);
  }

  /** `l` does not start an operation of this instance. */
  predicate Elsewhere(l: Label, inst: Instance) { !(l.Start? && l.inst == inst) }

  lemma EndedFrees(g: Global, ops: set<OpId>, inst: Instance, other: Instance)
    requires other !in g.live.Values
    ensures other !in Ended(g, ops, inst).live.Values
  {
  }

  lemma InstanceStaysFree(c: Config, g: Global, l: Label, inst: Instance)
    requires inst !in g.live.Values && Elsewhere(l, inst)
    ensures inst !in Next(c, g, l).live.Values
  {
    hide Ended, Fresh;
    if l.Start? { assert forall op <- Next(c, g, l).live :: Next(c, g, l).live[op] != inst; }
    else if l.Crash? { EndedFrees(g, OpsOf(g, l.inst), l.inst, inst); }
    else if (l.SaveFails? || l.Finish?) && l.op in g.live { EndedFrees(g, {l.op}, g.live[l.op], inst); }
  }

  lemma FinishFrees(g: Global, op: OpId)
    requires Owned(g) && op in g.live
    ensures g.live[op] !in Ended(g, {op}, g.live[op]).live.Values
  {
    OneOperationPerInstance(g, op);
    assert forall other <- g.live - {op} :: other !in OpsOf(g, g.live[op]);
  }

  /** Service instances are serial; whether an operation goes on after a failed save is left open. */
  class World {
    const config: Config
    var g: Global
    ghost var run: seq<Label>
    var script: seq<Choice>
    var clocks: seq<int>

    ghost predicate Sound() reads this { config.serial && Reaches(config, run, g) }

    /** A replay that misses a fact is no outcome where operations stop at a failed save. */
    predicate Complete(o: Outcome) { config.failStop ==> o != Raised(FACT_REQUIRED) }

    ghost predicate Live(op: OpId) reads this { Sound() && op in g.live }

    ghost predicate Loaded(op: OpId) reads this { Live(op) && op in g.base }

    method Step(l: Label)
      requires Sound() && Enabled(config, g, l)
      modifies this`g, this`run
      ensures Sound() && g == Next(config, old(g), l) && run == old(run) + [l]
    {
      ExecStep(config, run, g, l);
      g, run := Next(config, g, l), run + [l];
    }

    method Interfere(op: OpId, others: seq<Label>)
      requires Live(op)
      modifies this`g, this`run
      ensures Live(op) && Undisturbed(op, old(g), g) && g.live[op] == old(g).live[op]
      ensures old(run) <= run && Idle(run, |old(run)|, op)
    {
      for i := 0 to |others|
        invariant Live(op) && Undisturbed(op, old(g), g) && g.live[op] == old(g).live[op]
        invariant old(run) <= run && Idle(run, |old(run)|, op)
      {
        if Foreign(g, others[i], op) && Enabled(config, g, others[i]) {
          OthersLeaveAlone(config, g, others[i], op);
          Step(others[i]);
        }
      }
    }

    method Await(op: OpId) returns (c: Choice, o: Outcome)
      requires Live(op)
      modifies this`g, this`run, this`script
      ensures Sound() && old(run) <= run && Idle(run, |old(run)|, op)
      ensures !o.Crashed? ==> Live(op) && Undisturbed(op, old(g), g) && |script| < |old(script)|
      ensures !o.Crashed? ==> g.live[op] == old(g).live[op]
      ensures |script| <= |old(script)| && Outside(o)
    {
      c := SILENCE;
      if script != [] {
        c, script := script[0], script[1..];
        Interfere(op, c.others);
      }
      match c.fate
      case Proceed => o := Done;
      case Fail(code) => o := Raised(if code in {BINDING_UNKNOWN, FACT_REQUIRED} then "A2A_EXTERNAL_FAILURE" else code);
      case Interrupt => o := Interrupted;
      case Die => Step(Crash(g.live[op])); o := Crashed;
    }

    method Now() returns (t: int)
      modifies this`clocks
    {
      t := 1;
      if clocks != [] { t, clocks := clocks[0], clocks[1..]; }
    }

    // ------------------------------------------------------------ the lease

    /** An await of an instance that runs no operation on the scope. */
    method AwaitFree(inst: Instance) returns (c: Choice, o: Outcome)
      requires Sound() && inst !in g.live.Values
      modifies this`g, this`run, this`script
      ensures Sound() && old(run) <= run && inst !in g.live.Values && |script| <= |old(script)|
      ensures Outside(o) && o != Raised(BUSY)
    {
      hide Exec, Enabled, Next;
      c := SILENCE;
      if script != [] {
        c, script := script[0], script[1..];
        for i := 0 to |c.others|
          invariant Sound() && old(run) <= run && inst !in g.live.Values && |script| <= |old(script)|
        {
          if Elsewhere(c.others[i], inst) && Enabled(config, g, c.others[i]) {
            InstanceStaysFree(config, g, c.others[i], inst);
            Step(c.others[i]);
          }
        }
      }
      match c.fate
      case Proceed => o := Done;
      case Fail(code) => o := Raised(if code in {BINDING_UNKNOWN, FACT_REQUIRED, BUSY} then "A2A_EXTERNAL_FAILURE" else code);
      case Interrupt => o := Interrupted;
      case Die => o := Crashed;
    }

    /** Takes the scope's lease for one operation, unless somebody holds it by then. An
        acquisition that is cut short takes nothing: its connection is given up. */
    method Acquire(inst: Instance) returns (op: OpId, o: Outcome)
      requires Sound() && inst !in g.live.Values
      modifies this`g, this`run, this`script
      ensures Sound() && old(run) <= run
      ensures o == Raised(BUSY) ==> g.holder.Some?
      ensures o.Done? ==> Live(op) && g.live[op] == inst && op !in g.grants && |run| > |old(run)| && run[|run| - 1] == Start(op, inst)
      ensures !o.Done? ==> inst !in g.live.Values
      ensures Outside(o)
    {
      var c;
      c, o := AwaitFree(inst);
      op := g.nextOp;
      if o.Done? && g.holder.Some? { o := Raised(BUSY); }
      if o.Done? {
        RunKeepsSendInv(config, run, g);
        Step(Start(op, inst));
      }
    }

    /** Records the wish to cancel beside the row, without taking the lease. Only a row that the
        handle names is touched, and only its flag. */
    method RequestCancel(inst: Instance, handle: Handle) returns (row: Option<Row>, o: Outcome)
      requires Sound() && inst !in g.live.Values
      modifies this`g, this`run, this`script
      ensures Sound() && old(run) <= run && Outside(o)
      ensures row == g.row
      ensures o.Done? ==> row.Some? && !HandleConflicts(row.value.handle, handle)
      ensures o.Done? ==> g.cancelFlag && |run| > |old(run)| && run[|run| - 1] == Label.RequestCancel
    {
      var c;
      c, o := AwaitFree(inst);
      row := g.row;
      if row.None? {
        if o.Done? { o := Raised("A2A_INVOCATION_NOT_FOUND"); }
      } else if HandleConflicts(row.value.handle, handle) {
        if o.Done? { o := Raised("A2A_HANDLE_CONFLICT"); }
      } else if o.Done? || c.took {
        Step(Label.RequestCancel);
      }
    }

    method Load(op: OpId) returns (row: Option<Row>, o: Outcome)
      requires Live(op)
      modifies this`g, this`run, this`script
      ensures Sound() && old(run) <= run && Idle(run, |old(run)|, op) && |script| <= |old(script)|
      ensures !o.Crashed? ==> Live(op) && g.live[op] == old(g).live[op]
      ensures o.Done? ==> Loaded(op) && g.base[op] == row == g.row && g.holder == Some(op)
      ensures o.Done? ==> (op in g.grants ==> op in old(g.grants))
      ensures Outside(o)
    {
      var c;
      c, o := Await(op);
      row := None;
      if o.Done? {
        if g.holder == Some(op) {
          Step(Label.Load(op));
          row := g.row;
        } else {
          o := Raised("A2A_CHECKPOINT_LEASE_CLOSED");
        }
      }
    }

    method Commit(op: OpId, r: Row, receipt: Option<string>)
      requires Loaded(op) && g.holder == Some(op) && Discipline(g.base[op], r, g.log, receipt)
      modifies this`g, this`run
      ensures Loaded(op) && old(run) <= run && g.base[op] == Some(r)
      ensures g.row == Some(r) && g.holder == Some(op) && g.log == old(g.log)
      ensures g.grants == (if receipt.Some? then old(g.grants)[op := receipt.value] else old(g.grants))
      ensures Discipline(Some(r), r, g.log, None)
    {
      HolderSaves(config, run, g, op, r, receipt);
      Step(Label.Save(op, r, receipt));
    }

    method Abandon(op: OpId, r: Row)
      requires Loaded(op) && Discipline(g.base[op], r, g.log, None)
      modifies this`g, this`run
      ensures Sound() && old(run) <= run
      ensures !config.failStop ==> g == old(g).(unsaved := old(g).unsaved[op := r.pending])
    {
      Step(Label.SaveFails(op, r));
    }

    /** Saves under the lease. A save that fails is raised to the caller, or ends the operation
        where operations stop at a failed save; it may have been committed all the same, like one
        that is interrupted. */
    method Save(op: OpId, r: Row, receipt: Option<string>) returns (o: Outcome)
      requires Loaded(op) && Discipline(g.base[op], r, g.log, receipt)
      modifies this`g, this`run, this`script
      ensures Sound() && old(run) <= run && |script| <= |old(script)|
      ensures Outside(o)
      ensures o.Raised? ==> !config.failStop && Lost(g, op) == Some(r.pending)
      ensures !o.Crashed? ==> Loaded(op) && old(g.log) <= g.log && g.base[op] in {old(g.base[op]), Some(r)}
      ensures o.Done? ==> g.base[op] == Some(r) && g.row == Some(r) && g.holder == Some(op)
      ensures o.Done? && receipt.Some? ==> op in g.grants && g.grants[op] == receipt.value
      ensures !o.Crashed? && receipt.None? ==>
                (op in g.grants <==> op in old(g.grants)) && (op in g.grants ==> g.grants[op] == old(g.grants)[op])
    {
      hide Evolves, RowInv, Exec;
      var c;
      c, o := Await(op);
      if o.Crashed? { return; }
      EvolvesLater(g.base[op], r, old(g.log), g.log);
      if g.holder == Some(op) && (c.took || o.Done?) {
        Commit(op, r, receipt);
      } else if o.Done? {
        o := Raised("A2A_CHECKPOINT_LEASE_CLOSED");
      }
      if o.Raised? {
        Abandon(op, r);
        if config.failStop { o := Crashed; }
      }
    }

    method CancelRequested(op: OpId) returns (requested: bool, o: Outcome)
      requires Live(op)
      modifies this`g, this`run, this`script
      ensures Sound() && old(run) <= run && Idle(run, |old(run)|, op)
      ensures !o.Crashed? ==> Live(op) && Undisturbed(op, old(g), g) && |script| < |old(script)|
      ensures |script| <= |old(script)| && Outside(o)
      ensures o.Done? ==> requested == g.cancelFlag
    {
      var c;
      c, o := Await(op);
      requested := !o.Crashed? && g.cancelFlag;
      if o.Done? && !LeaseActive(g, op) { o := Raised("A2A_CHECKPOINT_LEASE_CLOSED"); }
    }

    method ClearCancel(op: OpId) returns (o: Outcome)
      requires Live(op)
      modifies this`g, this`run, this`script
      ensures Sound() && old(run) <= run && Idle(run, |old(run)|, op)
      ensures !o.Crashed? ==> Live(op) && Undisturbed(op, old(g), g)
      ensures |script| <= |old(script)| && Outside(o)
      ensures o.Done? ==> |run| > |old(run)| && run[|run| - 1] == Label.ClearCancel(op)
    {
      var c;
      c, o := Await(op);
      if o.Done? {
        if LeaseActive(g, op) { Step(Label.ClearCancel(op)); } else { o := Raised("A2A_CHECKPOINT_LEASE_CLOSED"); }
      }
    }

    method Finish(op: OpId)
      requires Live(op)
      modifies this`g, this`run
      ensures Sound() && run == old(run) + [Label.Finish(op)] && g == Next(config, old(g), Label.Finish(op))
      ensures old(g).live[op] !in g.live.Values
    {
      RunKeepsSendInv(config, run, g);
      FinishFrees(g, op);
      Step(Label.Finish(op));
    }

    // ------------------------------------------------------ the canonical store

    function NextSeqno(gap: nat): (n: nat)
      reads this
      ensures forall s <- g.seqnos :: s < n
    {
      1 + gap + Largest(g.seqnos)
    }

    /** The event waits to be published: next of a committed spool, there already, or first in
        a spool whose save has failed. */
    ghost predicate Due(op: OpId, e: Event)
      reads this
      requires Loaded(op)
    {
      && g.base[op].Some?
      && (NextUp(g.base[op].value.pending, g.log, e) || e in g.log || FirstLost(g, op, e))
    }

    /** Appends the event unless it is there. */
    method PersistOne(op: OpId, e: Event) returns (seqno: nat, o: Outcome)
      requires Loaded(op) && Due(op, e)
      modifies this`g, this`run, this`script
      ensures Sound() && old(run) <= run && |script| <= |old(script)| && Outside(o)
      ensures !o.Crashed? ==> Live(op) && KeptFor(op, old(g), g)
      ensures o.Done? ==> e in g.log
      // a lost spool loses its head when that is what is published
      ensures !o.Crashed? && Lost(g, op) != Lost(old(g), op) ==>
                FirstLost(old(g), op, e) && Lost(g, op) == Some(Lost(old(g), op).value[1..]) && e in g.log
      ensures o.Done? && FirstLost(old(g), op, e) ==> Lost(g, op) == Some(Lost(old(g), op).value[1..])
    {
      hide Exec, Enabled, Next;
      var c;
      c, o := Await(op);
      seqno := 0;
      if o.Crashed? { return; }
      if NextUp(old(g.base[op]).value.pending, old(g.log), e) { NextUpLater(g.base[op].value.pending, old(g.log), g.log, e); }
      if c.took || o.Done? {
        seqno := NextSeqno(c.gap);
        Put(op, e, seqno);
      }
    }

    method Put(op: OpId, e: Event, seqno: nat)
      requires Loaded(op) && Due(op, e) && forall s <- g.seqnos :: s < seqno
      modifies this`g, this`run
      ensures Sound() && old(run) <= run
      ensures Live(op) && KeptFor(op, old(g), g) && e in g.log
      ensures Lost(g, op) == if FirstLost(old(g), op, e) then Some(Lost(old(g), op).value[1..]) else Lost(old(g), op)
    {
      hide Exec;
      if FirstLost(g, op, e) {
        Step(PublishUnsaved(op, seqno));
      } else if e !in g.log {
        Step(Publish(op, e, seqno));
      }
    }

    method Facts(op: OpId) returns (facts: seq<Event>, numbers: seq<nat>, o: Outcome)
      requires Live(op)
      modifies this`g, this`run, this`script
      ensures Sound() && old(run) <= run && Idle(run, |old(run)|, op)
      ensures !o.Crashed? ==> Live(op) && Undisturbed(op, old(g), g)
      ensures |script| <= |old(script)| && Outside(o)
      ensures o.Done? ==> facts == g.log && |numbers| == |facts|
    {
      var c;
      c, o := Await(op);
      facts, numbers := g.log, g.seqnos;
      RunKeepsNumbers(config, run, g);
    }

    // ---------------------------------------------------- remote side and wire

    /** Opens the message stream; only a committed, unused receipt allows it. An attempt that
        raises may have reached the remote side. */
    method OpenStream(op: OpId, token: string) returns (o: Outcome)
      requires Live(op) && op in g.grants && g.grants[op] == token
      modifies this`g, this`run, this`script
      ensures Sound() && old(run) <= run && |script| <= |old(script)| && Outside(o)
      ensures !o.Crashed? ==>
                && Live(op) && old(g.log) <= g.log && Lost(g, op) == Lost(old(g), op) && (op in g.base <==> op in old(g.base))
                && (op in g.base ==> g.base[op] == old(g.base)[op])
      ensures o.Done? ==> token in g.sends
    {
      var c;
      c, o := Await(op);
      if o.Done? || (!o.Crashed? && c.took) { Step(Label.OpenStream(op)); }
    }

    method ReadTask(op: OpId) returns (c: Choice, o: Outcome)
      requires Live(op)
      modifies this`g, this`run, this`script
      ensures Sound() && old(run) <= run && Idle(run, |old(run)|, op)
      ensures !o.Crashed? ==> Live(op) && Undisturbed(op, old(g), g) && |script| < |old(script)|
      ensures |script| <= |old(script)| && Outside(o)
      ensures o.Done? ==> WasRead(run, |old(run)|, op, c.task.state)
    {
      c, o := Await(op);
      if o.Done? { Step(ReadBack(op, c.task.state)); }
    }
  }

  function Largest(s: seq<nat>): (m: nat)
    ensures forall x <- s :: x <= m
  {
    if s == [] then 0
    else
      var rest := Largest(s[1..]);
      assert s == [s[0]] + s[1..];
      if s[0] < rest then rest else s[0]
  }
}
