/** The durable side of one A2A scope as a transition system: the checkpoint row, the
    lease, the canonical log and the wire, shared by any number of service instances whose
    operations interleave, lose their lease or crash between any two awaits. */
module InvocationProtocol {
  import opened Basics
  import opened InvocationTypes

  // ------------------------------------------------------------ the durable row

  datatype Context = Context(contextId: string, taskId: Option<string>)

  /** The event adapter, abstractly: it numbers what it maps and completes an item once. */
  datatype Adapter = Adapter(next: nat, completed: set<string>)

  datatype AdapterCheckpoint = AdapterCheckpoint(adapter: Adapter, context: Context)

  datatype Row = Row(
    request: Request, handle: Handle, sendEntered: bool, descriptor: Descriptor,
    adapter: Option<AdapterCheckpoint>, snapshot: Option<Snapshot>,
    tokens: map<string, string>, refs: seq<OutputRef>, continuationId: Option<string>,
    pendingContinuation: Option<Continuation>, pendingInput: Option<Event>,
    source: Source, cursor: nat, lastEvent: Option<Event>, pending: seq<Event>)
  {
    function Done(): set<string> { if adapter.Some? then adapter.value.adapter.completed else {} }

    predicate TerminalSnapshot() { snapshot.Some? && snapshot.value.Terminal() }

    /** Nothing has been sent and no remote task is known. */
    predicate Untouched() { !sendEntered && handle.remoteTask.None? }
  }

  /** What the identity checks of a restore demand. */
  predicate IdentityMatches(r: Row) {
    && r.handle.identity == r.request.handle.identity
    && r.descriptor.locator.scopeId == r.handle.Scope()
    && r.descriptor.locator.parentScopeId == r.handle.identity.parentScopeId
    && r.descriptor.locator.bindingId == r.request.spec.bindingId
    && r.descriptor.locator.agentId == r.request.spec.targetAgentId
    && Some(r.descriptor.locator.versionId) == r.request.spec.expectedVersion
    && r.descriptor.locator.trigger.callId == r.handle.identity.callId
    && (forall ref <- r.refs :: ref.scopeId == r.handle.Scope())
  }

  /** What every row the service writes satisfies on its own. */
  predicate RowInv(r: Row) {
    && r.request.Valid() && r.handle.Valid() && r.descriptor.Valid()
    && IdentityMatches(r)
    && r.request.token in r.tokens && r.tokens[r.request.token] == r.request.digest
    && (r.snapshot.Some? ==> r.snapshot.value.Valid())
    && (r.TerminalSnapshot() ==> r.descriptor.Terminal())
    && (r.descriptor.cancel.requestState == LocalConfirmed ==> !r.sendEntered)
    && (r.handle.platformTask.None? ==> !r.sendEntered && r.refs == [] && r.adapter.None?)
    && (r.Untouched() ==>
          && r.descriptor.status in {Submitted, Cancelled}
          && (r.snapshot.Some? ==> r.snapshot.value.status == Seen(Cancelled)))
  }

  /** The checks the lease makes on a save against the row already there. */
  predicate ChainAccepts(previous: Option<Row>, r: Row) {
    && r.request.handle.identity == r.handle.identity
    && (previous.Some? ==>
          && previous.value.request == r.request
          && previous.value.handle.Scope() == r.handle.Scope()
          && (previous.value.sendEntered ==> r.sendEntered)
          && Kept(previous.value.handle.platformTask, r.handle.platformTask)
          && Kept(previous.value.handle.remoteTask, r.handle.remoteTask)
          && Kept(previous.value.handle.remoteContext, r.handle.remoteContext))
  }

  // ------------------------------------------- how an operation changes its row

  predicate Published(es: seq<Event>, log: seq<Event>) { forall e <- es :: e in log }

  /** A prefix of the spool was published and popped. */
  predicate Drained(before: seq<Event>, after: seq<Event>, log: seq<Event>) {
    exists k :: 0 <= k <= |before| && Published(before[..k], log) && after == before[k..]
  }

  /** A batch that may replace a fully published spool: it completes no item again, and a
      closing fact in it closes the descriptor saved with it. */
  predicate FreshBatch(b: Row, r: Row) {
    && (forall e <- r.pending :: ClosingFact(e) ==> e.descriptor == r.descriptor && e.descriptor.Terminal())
    && (forall i :: 0 <= i < |r.pending| && Completion(r.pending[i]) ==>
          && r.pending[i].body.itemId !in b.Done() && r.pending[i].body.itemId in r.Done()
          && (forall j :: 0 <= j < i ==> !Completes(r.pending[j], r.pending[i].body.itemId)))
  }

  predicate SpoolEvolves(b: Row, r: Row, log: seq<Event>) {
    || Drained(b.pending, r.pending, log)
    || (Published(b.pending, log) && FreshBatch(b, r))
  }

  /** The first row of a scope: the request, not sent, nothing published. */
  predicate FirstRow(r: Row) {
    && !r.sendEntered && r.handle == r.request.handle
    && r.descriptor.status == Submitted && r.descriptor.cancel == CancelState(UnknownCapability, NoRequest)
    && r.snapshot.None? && r.refs == [] && r.pending == [] && r.adapter.None?
    && r.tokens == map[r.request.token := r.request.digest]
  }

  /** Everything an operation that last loaded or saved `b` may have changed in memory by
      the time it saves `r`. */
  predicate Evolves(base: Option<Row>, r: Row, log: seq<Event>) {
    match base
    case None => FirstRow(r)
    case Some(b) =>
      && b.request == r.request
      && LocatorsKept(b.handle, r.handle)
      && (b.sendEntered ==> r.sendEntered)
      && (forall t <- b.tokens :: t in r.tokens && r.tokens[t] == b.tokens[t])
      && b.descriptor.locator == r.descriptor.locator
      && (b.descriptor.Terminal() ==> r.descriptor == b.descriptor)
      && (b.descriptor.Terminal() && !b.sendEntered ==> !r.sendEntered)
      && (b.TerminalSnapshot() ==> r.snapshot == b.snapshot)
      && b.Done() <= r.Done()
      && SpoolEvolves(b, r, log)
      && (r.descriptor.Terminal() && !b.descriptor.Terminal() ==> ClosedIn(r, log))
      && (forall ref <- r.refs :: ref in b.refs || CoveredIn(r, log, ref))
  }

  predicate ClosedIn(r: Row, log: seq<Event>) {
    exists e <- log + r.pending :: ClosingFact(e) && e.descriptor == r.descriptor
  }

  predicate CoveredIn(r: Row, log: seq<Event>, ref: OutputRef) {
    exists e <- log + r.pending :: Covers(e, ref)
  }

  /** A save that authorises one send: the receipt for `token`. For the first message it
      turns "not sent" into "possibly sent"; for a continuation it adds the token. */
  predicate Receipt(base: Option<Row>, r: Row, token: string) {
    && base.Some?
    && r.sendEntered && token in r.tokens
    && !base.value.descriptor.Terminal()
    && (if token == r.request.token then base.value.Untouched() else token !in base.value.tokens)
  }

  predicate Discipline(base: Option<Row>, r: Row, log: seq<Event>, receipt: Option<string>) {
    && RowInv(r)
    && Evolves(base, r, log)
    && (receipt.Some? ==> Receipt(base, r, receipt.value))
  }

  // -------------------------------------------------------------- global state

  type OpId = nat

  type Instance = nat

  /** Which runs are considered. `serial`: no service instance starts an operation on the
      scope while an earlier operation of its own is still running. `failStop`: an operation
      ends at its first failed save. */
  datatype Config = Config(serial: bool, failStop: bool)

  datatype Global = Global(
    row: Option<Row>, cancelFlag: bool, log: seq<Event>, seqnos: seq<nat>,
    holder: Option<OpId>,              // whose connection owns the advisory lock
    live: map<OpId, Instance>,         // running operations
    leases: map<Instance, OpId>,       // each instance's lease table entry for this scope
    nextOp: OpId,
    base: map<OpId, Option<Row>>,      // the row an operation last loaded or saved
    unsaved: map<OpId, seq<Event>>,    // spool of an operation whose save failed
    grants: map<OpId, string>,         // send receipts committed and not yet used
    sends: seq<string>,                // tokens for which a message stream was opened
    accepted: seq<Event>)              // events of committed batches, in order, once each

  const INIT := Global(None, false, [], [], None, map[], map[], 0, map[], map[], map[], [], [])

  datatype RemoteState =
    | TaskWorking
    | TaskCompleted
    | TaskFailed
    | TaskRejected
    | TaskCanceled
    | TaskInputRequired
    | TaskAuthRequired

  datatype Label =
    | Start(op: OpId, inst: Instance)
    | Load(op: OpId)
    | Save(op: OpId, row: Row, receipt: Option<string>)
    | SaveFails(op: OpId, row: Row)
    | Publish(op: OpId, event: Event, seqno: nat)
    | PublishUnsaved(op: OpId, seqno: nat)
    | OpenStream(op: OpId)
    | ReadBack(op: OpId, state: RemoteState)
    | RequestCancel
    | ClearCancel(op: OpId)
    | LoseLease
    | Finish(op: OpId)
    | Crash(inst: Instance)

  /** Events of `es` that `seen` does not have, each once, in order. */
  function Fresh(es: seq<Event>, seen: seq<Event>): seq<Event> {
    if es == [] then []
    else if es[0] in seen then Fresh(es[1..], seen)
    else [es[0]] + Fresh(es[1..], seen + [es[0]])
  }

  /** `e` is the next event of a committed spool: all before it are in the log. */
  predicate NextUp(spool: seq<Event>, log: seq<Event>, e: Event) {
    exists k :: 0 <= k < |spool| && spool[k] == e && Published(spool[..k], log)
  }

  predicate LeaseActive(g: Global, op: OpId)
    requires op in g.live
  {
    g.live[op] in g.leases && g.holder == Some(g.leases[g.live[op]])
  }

  predicate Enabled(c: Config, g: Global, l: Label) {
    match l
    case Start(op, inst) =>
      op == g.nextOp && g.holder.None? && (c.serial ==> inst !in g.live.Values)
    case Load(op) => op in g.live && g.holder == Some(op)
    case Save(op, r, receipt) =>
      // the lease is looked up in the instance's table; without an entry nothing is saved
      && op in g.live && op in g.base && Discipline(g.base[op], r, g.log, receipt)
      && (g.live[op] in g.leases ==> LeaseActive(g, op) && ChainAccepts(g.row, r))
    case SaveFails(op, r) => op in g.live && op in g.base && Discipline(g.base[op], r, g.log, None)
    case Publish(op, e, seqno) =>
      && op in g.live && op in g.base && g.base[op].Some?
      && NextUp(g.base[op].value.pending, g.log, e)
      && (forall s <- g.seqnos :: s < seqno)
    case PublishUnsaved(op, seqno) =>
      && op in g.live && op in g.unsaved && g.unsaved[op] != []
      && (forall s <- g.seqnos :: s < seqno)
    case OpenStream(op) => op in g.live && op in g.grants
    case ReadBack(op, _) => op in g.live
    case RequestCancel => g.row.Some?
    case ClearCancel(op) => op in g.live && LeaseActive(g, op)
    case LoseLease => g.holder.Some?
    case Finish(op) => op in g.live
    case Crash(_) => true
  }

  function Append(g: Global, e: Event, seqno: nat): Global {
    if e in g.log then g else g.(log := g.log + [e], seqnos := g.seqnos + [seqno])
  }

  function Ended(g: Global, ops: set<OpId>, inst: Instance): Global {
    g.(holder := if g.holder.Some? && g.holder.value in ops then None else g.holder,
       live := g.live - ops, leases := g.leases - {inst}, base := g.base - ops,
       unsaved := g.unsaved - ops, grants := g.grants - ops)
  }

  function OpsOf(g: Global, inst: Instance): set<OpId> {
    set op | op in g.live && g.live[op] == inst
  }

  function Next(c: Config, g: Global, l: Label): Global {
    match l
    case Start(op, inst) =>
      g.(holder := Some(op), live := g.live[op := inst], leases := g.leases[inst := op], nextOp := g.nextOp + 1)
    case Load(op) => g.(base := g.base[op := g.row])
    case Save(op, r, receipt) =>
      var granted := if receipt.Some? then g.grants[op := receipt.value] else g.grants;
      if op in g.live && g.live[op] in g.leases then
        g.(row := Some(r), base := g.base[op := Some(r)], grants := granted,
           accepted := g.accepted + Fresh(r.pending, g.accepted))
      else g.(grants := granted)
    case SaveFails(op, r) =>
      if op !in g.live then g
      else if c.failStop then Ended(g, {op}, g.live[op])
      else g.(unsaved := g.unsaved[op := r.pending])
    case Publish(_, e, seqno) => Append(g, e, seqno)
    case PublishUnsaved(op, seqno) =>
      if op in g.unsaved && g.unsaved[op] != [] then
        Append(g.(unsaved := g.unsaved[op := g.unsaved[op][1..]]), g.unsaved[op][0], seqno)
      else g
    case OpenStream(op) =>
      if op in g.grants then g.(sends := g.sends + [g.grants[op]], grants := g.grants - {op}) else g
    case ReadBack(_, _) => g
    case RequestCancel => g.(cancelFlag := true)
    case ClearCancel(_) => g.(cancelFlag := false)
    case LoseLease => g.(holder := None)
    case Finish(op) => if op in g.live then Ended(g, {op}, g.live[op]) else g
    case Crash(inst) => Ended(g, OpsOf(g, inst), inst)
  }

  // ---------------------------------------------------------------------- runs

  /** The state after a run, or None when some label was not enabled. */
  ghost function Exec(c: Config, run: seq<Label>): Option<Global> {
    if run == [] then Some(INIT)
    else
      var before := Exec(c, run[..|run| - 1]);
      var l := run[|run| - 1];
      if before.Some? && Enabled(c, before.value, l) then Some(Next(c, before.value, l)) else None
  }

  ghost predicate Reaches(c: Config, run: seq<Label>, g: Global) { Exec(c, run) == Some(g) }

  lemma ExecStep(c: Config, run: seq<Label>, g: Global, l: Label)
    requires Reaches(c, run, g) && Enabled(c, g, l)
    ensures Reaches(c, run + [l], Next(c, g, l))
  {
    assert (run + [l])[..|run|] == run;
  }
}
