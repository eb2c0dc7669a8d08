/** The frozen contracts of an A2A invocation: handles with write-once locators, the
    public scope descriptor with its transition table, snapshots and cancel results.
    The constructors that the validators guard are functions returning a Result. */
module InvocationTypes {
  import opened Basics

  datatype Result<+T> = Ok(value: T) | Err(code: string)

  /** A scope id is a hash of its components, taken to be injective. */
  datatype ScopeId =
    | Derived(runId: string, callId: string, targetAgentId: string, attemptId: string)
    | Named(name: string)

  datatype Identity = Identity(
    runId: string, sessionId: string, parentScopeId: ScopeId, callId: string,
    bindingId: string, targetAgentId: string, attemptId: string)

  // ---------------------------------------------------------------- handles

  datatype Handle = Handle(
    identity: Identity, platformTask: Option<string>,
    remoteTask: Option<string>, remoteContext: Option<string>)
  {
    predicate Valid() {
      && (remoteTask.Some? ==> platformTask.Some?)
      && (remoteContext.Some? ==> remoteTask.Some?)
    }

    function Scope(): ScopeId {
      Derived(identity.runId, identity.callId, identity.targetAgentId, identity.attemptId)
    }

    function WithPlatformTask(task: string): (r: Result<Handle>)
      requires Valid()
      ensures r.Ok? <==> platformTask in {None, Some(task)}
      ensures r.Ok? ==> r.value.Valid() && LocatorsKept(this, r.value) && r.value.platformTask == Some(task)
      ensures r.Ok? ==> r.value.remoteTask == remoteTask && r.value.remoteContext == remoteContext
    {
      if platformTask.Some? && platformTask.value != task then Err("A2A_BINDING_CONFLICT")
      else Ok(this.(platformTask := Some(task)))
    }

    function BindRemoteTask(task: string, context: Option<string>): (r: Result<Handle>)
      requires Valid()
      ensures r.Ok? <==> platformTask.Some? && (remoteTask.None? || (remoteTask == Some(task) && remoteContext == context))
      ensures r.Ok? ==> r.value.Valid() && LocatorsKept(this, r.value) && r.value.platformTask == platformTask
      ensures r.Ok? ==> r.value.remoteTask == Some(task) && r.value.remoteContext == context
    {
      if platformTask.None? then Err("A2A_PLATFORM_TASK_REQUIRED")
      else if remoteTask.Some? && (remoteTask != Some(task) || remoteContext != context) then
        Err("A2A_BINDING_CONFLICT")
      else Ok(this.(remoteTask := Some(task), remoteContext := context))
    }
  }

  predicate Kept(before: Option<string>, after: Option<string>) {
    before.Some? ==> after == before
  }

  /** The handle `after` still names the same call, and no locator already set has changed. */
  predicate LocatorsKept(before: Handle, after: Handle) {
    && before.identity == after.identity
    && Kept(before.platformTask, after.platformTask)
    && Kept(before.remoteTask, after.remoteTask)
    && Kept(before.remoteContext, after.remoteContext)
  }

  /** A supplied handle does not name the known call: another identity, or another locator. */
  predicate HandleConflicts(known: Handle, supplied: Handle) {
    || supplied.identity != known.identity
    || (supplied.platformTask.Some? && supplied.platformTask != known.platformTask)
    || (supplied.remoteTask.Some? && supplied.remoteTask != known.remoteTask)
    || (supplied.remoteContext.Some? && supplied.remoteContext != known.remoteContext)
  }

  // --------------------------------------------------------------- requests

  datatype Spec = Spec(localName: string, bindingId: string, targetAgentId: string, expectedVersion: Option<string>)

  datatype Request = Request(spec: Spec, handle: Handle, digest: string, token: string, deadline: int)
  {
    predicate Valid() {
      && handle.Valid()
      && spec.targetAgentId == handle.identity.targetAgentId
      && spec.bindingId == handle.identity.bindingId
      && handle.platformTask.None?
    }
  }

  datatype Continuation = Continuation(spec: Spec, handle: Handle, digest: string, token: string, deadline: int)
  {
    predicate Valid() {
      && handle.Valid()
      && spec.targetAgentId == handle.identity.targetAgentId
      && spec.bindingId == handle.identity.bindingId
      && handle.platformTask.Some? && handle.remoteTask.Some?
    }
  }

  // ------------------------------------------------------------ descriptors

  datatype TriggerRef = TriggerRef(scopeId: ScopeId, itemId: string, callId: string)

  datatype OutputRef = OutputRef(scopeId: ScopeId, itemId: string, partId: string)

  datatype ScopeStatus = Submitted | Working | InputRequired | Completed | Failed | Cancelled

  predicate TerminalStatus(s: ScopeStatus) { s in {Completed, Failed, Cancelled} }

  datatype Capability = Supported | Unsupported | UnknownCapability

  datatype RequestState = NoRequest | CancelRequested | RequestUnsupported | RequestUnknown | Confirmed | LocalConfirmed

  datatype CancelState = CancelState(capability: Capability, requestState: RequestState)

  /** The part of a descriptor that every replacement must preserve. */
  datatype Locator = Locator(
    scopeId: ScopeId, parentScopeId: ScopeId, trigger: TriggerRef, bindingId: string,
    agentId: string, agentName: string, versionId: string, startedAt: int)

  datatype Descriptor = Descriptor(
    locator: Locator, status: ScopeStatus, endedAt: Option<int>,
    outputs: seq<OutputRef>, cancel: CancelState)
  {
    predicate Terminal() { TerminalStatus(status) }

    predicate Valid() {
      && locator.scopeId != locator.parentScopeId
      && locator.trigger.scopeId == locator.parentScopeId
      && (Terminal() <==> endedAt.Some?)
      && (endedAt.Some? ==> locator.startedAt <= endedAt.value)
      && (forall ref <- outputs :: ref.scopeId == locator.scopeId)
      && (status == Cancelled ==> cancel.requestState in {Confirmed, LocalConfirmed})
      && (cancel.requestState == Confirmed ==> cancel.capability == Supported)
      && (cancel.requestState == RequestUnsupported ==> cancel.capability == Unsupported)
      && (cancel.requestState in {Confirmed, LocalConfirmed} ==> status == Cancelled)
    }
  }

  function Successors(s: ScopeStatus): set<ScopeStatus> {
    match s
    case Submitted => {Submitted, Working, Cancelled}
    case Working => {Working, InputRequired, Completed, Failed, Cancelled}
    case InputRequired => {InputRequired, Working, Completed, Failed, Cancelled}
    case Completed => {Completed}
    case Failed => {Failed}
    case Cancelled => {Cancelled}
  }

  /** The frozen child state machine: which descriptor may replace which. */
  predicate TransitionAllowed(previous: Descriptor, current: Descriptor) {
    && previous.locator == current.locator
    && current.status in Successors(previous.status)
    && (current.cancel.requestState == LocalConfirmed ==> previous.status in {Submitted, Cancelled})
    && (previous.Terminal() ==> previous == current)
  }

  // ----------------------------------------------------------------- events

  datatype FactKind = ItemStarted | ItemReplaced | ItemCompleted

  /** What the adapter reports about a native event, as far as the service looks at it. */
  datatype Body =
    | RunBody
    | ItemDone(itemId: string, carriesOutput: bool, parts: seq<Part>)
    | ContinuationCreated(continuationId: string)
    | InputRequested(interactionId: string, needsAnswer: bool)
    | InputResolved(interactionId: string)
    | ContinuationResumed
    | OtherBody

  datatype Part = Part(partId: string, isText: bool)

  /** A canonical event is identified by its content: the source derives every event id by
      hashing what is listed here (`at` is the log cursor a scope fact was made from, `n`
      the adapter's own occurrence number). */
  datatype Event =
    | ScopeFact(kind: FactKind, descriptor: Descriptor, at: nat)
    | Mapped(n: nat, body: Body)
    | OutcomeStarted
    | OutcomeFailed

  /** The fact that closes the public scope. */
  predicate ClosingFact(e: Event) { e.ScopeFact? && e.kind == ItemCompleted }

  predicate Completion(e: Event) { e.Mapped? && e.body.ItemDone? }

  predicate Completes(e: Event, itemId: string) { Completion(e) && e.body.itemId == itemId }

  /** The event completes the referenced item with the referenced part in it. */
  predicate Covers(e: Event, ref: OutputRef) {
    Completes(e, ref.itemId) && exists p <- e.body.parts :: p.partId == ref.partId
  }

  // -------------------------------------------------------------- snapshots

  datatype SnapshotStatus =
    | Seen(status: ScopeStatus)
    | AuthRequired
    | Rejected
    | UnknownOutcome

  datatype Source = Local | Stream | GetTask

  datatype Snapshot = Snapshot(
    handle: Handle, status: SnapshotStatus, source: Source, cursor: nat, lastEvent: Option<Event>,
    outputs: seq<OutputRef>, continuationId: Option<string>, error: Option<string>)
  {
    predicate Terminal() {
      status == Rejected || (status.Seen? && TerminalStatus(status.status))
    }

    predicate Paused() { status in {Seen(InputRequired), AuthRequired} }

    /** What the snapshot's own validator demands. */
    predicate Valid() {
      && (handle.platformTask.None? ==>
            status == Seen(Cancelled) && source == Local && outputs == [] && continuationId.None?)
      && (source in {Stream, GetTask} ==> handle.remoteTask.Some?)
      && (Paused() ==> continuationId.Some?)
      && (status == Seen(Failed) ==> error.Some?)
      && (error.Some? ==> status in {Seen(Failed), UnknownOutcome})
      && (forall ref <- outputs :: ref.scopeId == handle.Scope())
    }
  }

  // --------------------------------------------------------- cancel results

  datatype CancelOutcome =
    | LocalCancelledBeforeSend
    | RemoteCancelled
    | RequestedButUnknown
    | RequestedButUnsupported
    | AlreadyTerminal

  datatype CancelResult = CancelResult(handle: Handle, outcome: CancelOutcome, snapshot: Option<Snapshot>)
  {
    predicate Valid() {
      && (handle.platformTask.None? ==>
            && handle.remoteTask.None?
            && (|| (outcome == RequestedButUnknown && snapshot.None?)
                || (&& outcome in {LocalCancelledBeforeSend, AlreadyTerminal} && snapshot.Some?
                    && snapshot.value.status == Seen(Cancelled) && snapshot.value.source == Local)))
      && (outcome == RemoteCancelled ==> handle.remoteTask.Some?)
      && (outcome == LocalCancelledBeforeSend ==> handle.remoteTask.None?)
      && (snapshot.Some? ==> snapshot.value.handle == handle)
      && (outcome in {LocalCancelledBeforeSend, RemoteCancelled} ==>
            snapshot.Some? && snapshot.value.status == Seen(Cancelled))
      && (outcome == RemoteCancelled ==> snapshot.Some? && snapshot.value.source in {Stream, GetTask})
      && (outcome == AlreadyTerminal ==> snapshot.Some? && snapshot.value.Terminal())
    }
  }
}
