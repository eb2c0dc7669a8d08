/** Exactly which disciplines the guarantees need. Each theorem is an equivalence over all runs;
    its other half is a run in which every save is one that the service's code makes. */
module InvocationExactness {
  import opened Basics
  import opened InvocationTypes
  import opened InvocationProtocol
  import opened InvocationSafety
  import opened InvocationSpool
  import opened InvocationTheorems

  // ------------------------------------------------------------- the guarantees

  ghost predicate AtMostOneSend(c: Config) {
    forall run, g :: Reaches(c, run, g) ==> NoRepeats(g.sends)
  }

  /** Over all runs no token opens two message streams, if and only if a service instance
      never runs two operations on the scope at once. */
  lemma AtMostOneSendExactlyWhenSerial(c: Config)
    ensures AtMostOneSend(c) <==> c.serial
  {
    if c.serial {
      forall run, g | Reaches(c, run, g) ensures NoRepeats(g.sends) { RunKeepsSendInv(c, run, g); }
    } else {
      var run, g, run', g' := StaleOperationSendsAgain(c);
      assert !NoRepeats(g'.sends) by { assert g'.sends[0] == g'.sends[1]; }
    }
  }

  /** The first message may have been sent, and nobody holds a receipt for it any more. */
  predicate Spent(g: Global) {
    g.row.Some? && g.row.value.sendEntered && g.row.value.request.token !in g.grants.Values
  }

  ghost predicate NeverResent(c: Config) {
    forall run, g, run', g' :: Reaches(c, run, g) && Reaches(c, run', g') && run <= run' && Spent(g) ==>
      g.sends <= g'.sends && g.row.value.request.token !in g'.sends[|g.sends|..]
  }

  /** A call whose outcome is unknown is never sent again, exactly with serial instances. */
  lemma NeverResentExactlyWhenSerial(c: Config)
    ensures NeverResent(c) <==> c.serial
  {
    if c.serial {
      forall run, g, run', g' | Reaches(c, run, g) && Reaches(c, run', g') && run <= run' && Spent(g)
        ensures g.sends <= g'.sends && g.row.value.request.token !in g'.sends[|g.sends|..]
      {
        assert run' == run + run'[|run|..];
        UnknownOutcomeIsNeverResent(c, run, g, run'[|run|..], g');
      }
    } else {
      var run, g, run', g' := StaleOperationSendsAgain(c);
      assert g'.sends[|g.sends|..] == ["token"];
    }
  }

  ghost predicate ClosedStaysUnsent(c: Config) {
    forall run, g, run', g' :: Reaches(c, run, g) && Reaches(c, run', g') && run <= run' && ClosedUnsent(g.row) ==>
      ClosedUnsent(g'.row) && g'.sends == []
  }

  /** A call durably closed before it was sent stays closed and unsent, exactly with serial
      instances. */
  lemma ClosedStaysUnsentExactlyWhenSerial(c: Config)
    ensures ClosedStaysUnsent(c) <==> c.serial
  {
    if c.serial {
      forall run, g, run', g' | Reaches(c, run, g) && Reaches(c, run', g') && run <= run' && ClosedUnsent(g.row)
        ensures ClosedUnsent(g'.row) && g'.sends == []
      {
        assert run' == run + run'[|run|..];
        ClosedUnsentNeverSends(c, run, g, run'[|run|..], g');
      }
    } else {
      var run, g, run', g' := ConfirmedCancelIsFollowedByASend(c);
    }
  }

  ghost predicate Chained(c: Config) {
    forall run, g, run', g' :: Reaches(c, run, g) && Reaches(c, run', g') && run <= run' ==> Follows(g.row, g'.row)
  }

  /** Beyond what every configuration keeps, tokens, closed descriptors and terminal snapshots
      are kept along the rows of every run, exactly with serial instances. */
  lemma ChainedExactlyWhenSerial(c: Config)
    ensures Chained(c) <==> c.serial
  {
    if c.serial {
      forall run, g, run', g' | Reaches(c, run, g) && Reaches(c, run', g') && run <= run' ensures Follows(g.row, g'.row) {
        assert run' == run + run'[|run|..];
        CheckpointChain(c, run, g, run'[|run|..], g');
      }
    } else {
      var run, g, run', g' := ConfirmedCancelIsFollowedByASend(c);
      assert !Follows(g.row, g'.row);
    }
  }

  /** Under the lease entry its instance has, the operation's save would be written. */
  predicate ActiveSave(g: Global, op: OpId, r: Row, receipt: Option<string>) {
    && op in g.live && op in g.base && Discipline(g.base[op], r, g.log, receipt)
    && g.live[op] in g.leases && LeaseActive(g, op)
  }

  ghost predicate NeverRejected(c: Config) {
    forall run, g, op, r, receipt :: Reaches(c, run, g) && ActiveSave(g, op, r, receipt) ==> ChainAccepts(g.row, r)
  }

  /** No save the service issues is turned down by the lease, exactly with serial instances. */
  lemma NeverRejectedExactlyWhenSerial(c: Config)
    ensures NeverRejected(c) <==> c.serial
  {
    if c.serial {
      forall run, g, op, r, receipt | Reaches(c, run, g) && ActiveSave(g, op, r, receipt) ensures ChainAccepts(g.row, r) {
        RunKeepsSendInv(c, run, g);
        SaveIsNeverRejected(c, run, g, op, r, receipt);
      }
    } else {
      var run, g := StaleSaveIsRejected(c);
    }
  }

  ghost predicate SpoolExact(c: Config) {
    forall run, g :: Reaches(c, run, g) ==>
      g.accepted == g.log + Fresh(Spool(g.row), g.log) && NoRepeats(g.log)
  }

  /** In every reachable state the log plus the unpublished rest of the durable spool is
      exactly the committed events in order, if and only if instances are serial and an
      operation stops at its first failed save. */
  lemma SpoolExactExactlyWhenDisciplined(c: Config)
    ensures SpoolExact(c) <==> c.serial && c.failStop
  {
    if c.serial && c.failStop {
      forall run, g | Reaches(c, run, g)
        ensures g.accepted == g.log + Fresh(Spool(g.row), g.log) && NoRepeats(g.log)
      {
        RunKeepsSpool(c, run, g);
      }
    } else if !c.failStop {
      var run, g := UnsavedBatchIsPublished(c);
      assert |g.log| > |g.accepted|;
    } else {
      var run, g := StaleSaveDropsBatch(c);
      assert |g.accepted| == 2 && |g.log + Fresh(Spool(g.row), g.log)| == 1;
    }
  }

  ghost predicate ReplayComplete(c: Config) {
    forall run, g, b :: Reaches(c, run, g) && KnownRow(g, b) && Published(b.pending, g.log) ==> Replays(b, g.log)
  }

  /** A replay never misses a fact, exactly under both disciplines. */
  lemma ReplayCompleteExactlyWhenDisciplined(c: Config)
    ensures ReplayComplete(c) <==> c.serial && c.failStop
  {
    if c.serial && c.failStop {
      forall run, g, b | Reaches(c, run, g) && KnownRow(g, b) && Published(b.pending, g.log) ensures Replays(b, g.log) {
        ReplayFindsEveryFact(c, run, g, b);
      }
    } else if !c.serial {
      var run, g, b := TwoClosings(c);
    } else {
      var run, g, b := UnsavedClosing(c);
    }
  }

  /** The fate of a recorded continuation token: it is ever among the sent ones from here on if
      and only if it was sent already or a receipt for it is still held. */
  lemma RecordedTokenIsSentExactlyWhenUsed(c: Config, run: seq<Label>, g: Global, t: string)
    requires c.serial && Reaches(c, run, g)
    requires g.row.Some? && t in g.row.value.tokens && t != g.row.value.request.token
    ensures (exists run', g' :: run <= run' && Reaches(c, run', g') && t in g'.sends) <==> Used(g, t)
  {
    if t in g.sends {
      assert run <= run && Reaches(c, run, g);
    } else if op :| op in g.grants && g.grants[op] == t {
      RunKeepsSendInv(c, run, g);
      ExecStep(c, run, g, OpenStream(op));
      var run', g' := run + [OpenStream(op)], Next(c, g, OpenStream(op));
      assert run <= run' && Reaches(c, run', g') && t in g'.sends;
    } else {
      forall run', g' | run <= run' && Reaches(c, run', g') ensures t !in g'.sends {
        assert run' == run + run'[|run|..];
        RecordedTokenStaysUnsent(c, run, g, run'[|run|..], g', t);
        assert !Used(g', t);
      }
    }
  }

  // -------------------------------------------------------- the saves of the service

  /** Publishing pops the head of the spool. */
  predicate Popped(b: Row, r: Row) {
    && b.pending != [] && b.cursor <= r.cursor
    && r == b.(pending := b.pending[1..], cursor := r.cursor, lastEvent := Some(b.pending[0]))
  }

  /** The send receipt. */
  predicate Entered(b: Row, r: Row) {
    b.pending == [] && !b.descriptor.Terminal() && b.handle.platformTask.Some? && r == b.(sendEntered := true)
  }

  /** A descriptor that the transition table allows, with its fact, on an empty spool. */
  predicate Announced(b: Row, r: Row) {
    && b.pending == [] && LocatorsKept(b.handle, r.handle)
    && r == b.(handle := r.handle, descriptor := r.descriptor, source := r.source, pending := r.pending)
    && TransitionAllowed(b.descriptor, r.descriptor)
    && |r.pending| == 1 && r.pending[0].ScopeFact?
    && r.pending[0] == ScopeFact(r.pending[0].kind, r.descriptor, b.cursor)
    && (r.pending[0].kind == ItemStarted ==> r.descriptor == b.descriptor && b.descriptor.status == Submitted)
    && (r.pending[0].kind == ItemCompleted <==> r.descriptor.Terminal())
  }

  /** A native report, bound and mapped, on an empty spool. */
  predicate TookIn(b: Row, r: Row) {
    && b.pending == [] && b.sendEntered && LocatorsKept(b.handle, r.handle) && r.adapter.Some?
    && r == b.(handle := r.handle, adapter := r.adapter, refs := r.refs, continuationId := r.continuationId,
               pendingInput := r.pendingInput, pending := r.pending)
    && forall e <- r.pending :: e.Mapped?
  }

  /** The last save of an operation that has reached a snapshot. */
  predicate Concluded(b: Row, r: Row) {
    && b.pending == [] && r.snapshot.Some? && r == b.(snapshot := r.snapshot)
    && var s := r.snapshot.value;
       && s.Valid() && s == Snapshot(b.handle, s.status, b.source, b.cursor, b.lastEvent, b.refs, s.continuationId, s.error)
       && (s.Paused() ==> s.continuationId == b.continuationId)
       && (s.status.Seen? ==> s.status.status == b.descriptor.status)
  }

  /** A continuation is kept for its approval; or, in the last save, its token is noted. */
  predicate KeptOrNoted(b: Row, r: Row) {
    && b.pending == [] && b.descriptor.status == InputRequired
    && (|| (b.pendingContinuation.None? && r.pendingContinuation.Some? && r.pendingContinuation.value.Valid()
            && r == b.(pendingContinuation := r.pendingContinuation))
        || (b.pendingContinuation.Some? && b.pendingContinuation.value.token !in b.tokens
            && r == b.(tokens := b.tokens[b.pendingContinuation.value.token := b.pendingContinuation.value.digest])))
  }

  /** Some of the saves that the service makes, as they follow on the row last saved. */
  predicate CodeSave(base: Option<Row>, r: Row) {
    match base
    case None => FirstRow(r)
    case Some(b) => r == b || Popped(b, r) || Entered(b, r) || Announced(b, r) || TookIn(b, r) || Concluded(b, r) || KeptOrNoted(b, r)
  }

  /** If the step is a save, done or failed, it is one of those. */
  predicate ByTheCode(g: Global, l: Label) {
    l.Save? || l.SaveFails? ==> l.op in g.base && CodeSave(g.base[l.op], l.row)
  }

  /** The run reaches this state, and every save in it is one that the service makes. */
  ghost predicate Takes(c: Config, run: seq<Label>, g: Global) {
    && Reaches(c, run, g)
    && (run != [] ==>
          var last := |run| - 1;
          Takes(c, run[..last], Exec(c, run[..last]).value) && ByTheCode(Exec(c, run[..last]).value, run[last]))
  }

  lemma TakesReaches(c: Config, run: seq<Label>, g: Global)
    requires Takes(c, run, g)
    ensures Reaches(c, run, g)
  {
  }

  // ---------------------------------------------------------- the rows of the runs

  function ExampleRequest(): Request {
    var id := Identity("run", "session", Named("root"), "call", "binding", "agent", "attempt");
    Request(Spec("peer", "binding", "agent", Some("version")), Handle(id, None, None, None), "digest", "token", 100)
  }

  function Described(status: ScopeStatus, ended: Option<int>, cancel: CancelState): Descriptor {
    Descriptor(Locator(ExampleRequest().handle.Scope(), Named("root"), TriggerRef(Named("root"), "item", "call"), "binding",
                       "agent", "peer", "version", 1),
               status, ended, [], cancel)
  }

  const QUIET := CancelState(UnknownCapability, NoRequest)

  const SUBMITTED := ScopeFact(ItemStarted, Described(Submitted, None, QUIET), 0)

  const WORKING := ScopeFact(ItemReplaced, Described(Working, None, QUIET), 1)

  /** The request, saved before anything is asked of anybody. */
  function First(): Row {
    Row(ExampleRequest(), ExampleRequest().handle, false, Described(Submitted, None, QUIET), None, None,
        map["token" := "digest"], [], None, None, None, Local, 0, None, [])
  }

  /** The head of the spool is published and popped. */
  function Pop(r: Row, seqno: nat): Row
    requires r.pending != []
  {
    r.(pending := r.pending[1..], cursor := seqno, lastEvent := Some(r.pending[0]))
  }

  /** A new descriptor with its fact. */
  function Tell(r: Row, d: Descriptor): Row {
    r.(descriptor := d, pending := [ScopeFact(if d.Terminal() then ItemCompleted else ItemReplaced, d, r.cursor)])
  }

  /** Prepared, with the first fact in the spool; then published. */
  function Prepared(): Row {
    First().(handle := ExampleRequest().handle.(platformTask := Some("task")), pending := [SUBMITTED])
  }

  function Introduced(): Row { Pop(Prepared(), 1) }

  /** Possibly sent; then at work; then that published. */
  function Sent(): Row { Introduced().(sendEntered := true) }

  function AtWork(): Row { Tell(Sent(), Described(Working, None, QUIET)) }

  function Underway(): Row { Pop(AtWork(), 2) }

  /** Cancelled before the send, with the fact still to be published; then published. */
  function Closing(ended: int): Row {
    Tell(Introduced(), Described(Cancelled, Some(ended), CancelState(UnknownCapability, LocalConfirmed)))
  }

  function ClosedRow(ended: int): Row { Pop(Closing(ended), 2) }

  /** The remote task is known; then it has completed, the fact still to be published. */
  function Bound(): Row {
    Underway().(handle := Underway().handle.(remoteTask := Some("remote")),
                adapter := Some(AdapterCheckpoint(Adapter(0, {}), Context("", Some("remote")))))
  }

  function Finishing(ended: int): Row { Tell(Bound().(source := GetTask), Described(Completed, Some(ended), QUIET)) }

  /** The remote task asks for input. */
  function Asking(): Row {
    Bound().(adapter := Some(AdapterCheckpoint(Adapter(1, {}), Context("", Some("remote")))), continuationId := Some("next"),
             pending := [Mapped(0, ContinuationCreated("next"))])
  }

  function Asked(): Row { Pop(Asking(), 3) }

  function Pausing(): Row { Tell(Asked().(source := Stream), Described(InputRequired, None, QUIET)) }

  function Paused(): Row { Pop(Pausing(), 4) }

  /** Waiting for input; then a continuation is kept; then its token is on record. */
  function Waiting(): Row {
    var r := Paused();
    r.(snapshot := Some(Snapshot(r.handle, Seen(InputRequired), Stream, 4, r.lastEvent, [], Some("next"), None)))
  }

  function Resuming(): Row {
    Waiting().(pendingContinuation := Some(Continuation(ExampleRequest().spec, Waiting().handle, "other", "more", 100)))
  }

  function Noted(): Row { Resuming().(tokens := Resuming().tokens["more" := "other"]) }

  // ------------------------------------------------------- how the rows follow

  /** `r` may be saved on `b`: the service makes that save, and nothing turns it down. */
  ghost predicate Goes(b: Row, r: Row) {
    && CodeSave(Some(b), r) && ChainAccepts(Some(b), r) && RowInv(r)
    && forall log {:trigger Discipline(Some(b), r, log, None)} :: Discipline(Some(b), r, log, None)
  }

  /** An open call without outputs: a save of the service on an empty spool is disciplined. */
  lemma CodeSaveGoes(b: Row, r: Row)
    requires RowInv(b) && RowInv(r) && CodeSave(Some(b), r) && b.pending == []
    requires !b.descriptor.Terminal() && !b.TerminalSnapshot() && b.Done() == r.Done() == {} && r.refs == []
    requires forall e <- r.pending :: !Completion(e)
    ensures Goes(b, r)
  {
    hide RowInv, Discipline, CodeSave;
    assert ChainAccepts(Some(b), r) by { CodeSaveLinks(b, r); SameIdentity(b); SameIdentity(r); }
    forall log ensures Discipline(Some(b), r, log, None) { CodeSaveFits(b, r, log); }
  }

  lemma CodeSaveLinks(b: Row, r: Row)
    requires CodeSave(Some(b), r)
    ensures b.request == r.request && LocatorsKept(b.handle, r.handle) && (b.sendEntered ==> r.sendEntered)
    ensures forall t <- b.tokens :: t in r.tokens && r.tokens[t] == b.tokens[t]
    ensures b.descriptor.locator == r.descriptor.locator
    ensures b.pending == [] ==> forall e <- r.pending :: ClosingFact(e) ==> e.descriptor == r.descriptor && e.descriptor.Terminal()
    ensures r.descriptor.Terminal() && !b.descriptor.Terminal() ==>
              r.pending != [] && ClosingFact(r.pending[0]) && r.pending[0].descriptor == r.descriptor
  {
  }

  lemma CodeSaveFits(b: Row, r: Row, log: seq<Event>)
    requires RowInv(r) && CodeSave(Some(b), r) && b.pending == []
    requires !b.descriptor.Terminal() && !b.TerminalSnapshot() && b.Done() == r.Done() == {} && r.refs == []
    requires forall e <- r.pending :: !Completion(e)
    ensures Discipline(Some(b), r, log, None)
  {
    hide RowInv, CodeSave;
    CodeSaveLinks(b, r);
    assert Published(b.pending, log) && FreshBatch(b, r);
    if r.descriptor.Terminal() { assert r.pending[0] in log + r.pending; }
  }

  lemma SameIdentity(r: Row)
    requires RowInv(r)
    ensures r.request.handle.identity == r.handle.identity
  {
  }

  /** Popping a published event. */
  lemma PopFits(b: Row, log: seq<Event>, seqno: nat)
    requires |b.pending| == 1 && b.pending[0] in log && RowInv(b) && b.cursor <= seqno
    ensures var r := Pop(b, seqno);
            RowInv(r) && CodeSave(Some(b), r) && ChainAccepts(Some(b), r) && Discipline(Some(b), r, log, None)
  {
    var r := Pop(b, seqno);
    assert b.pending[1..] == r.pending && Published(b.pending[..1], log);
    assert Drained(b.pending, r.pending, log);
    FactsCarry(b, log, r, log);
  }

  lemma FirstFits(log: seq<Event>)
    ensures Discipline(None, First(), log, None) && ChainAccepts(None, First()) && CodeSave(None, First()) && RowInv(First())
  {
  }

  lemma PreparedGoes()
    ensures Goes(First(), Prepared()) && RowInv(Introduced())
  {
    CodeSaveGoes(First(), Prepared());
  }

  lemma SentGoes()
    ensures Goes(Introduced(), Sent()) && Receipt(Some(Introduced()), Sent(), "token")
  {
    CodeSaveGoes(Introduced(), Sent());
  }

  lemma AtWorkGoes()
    ensures Goes(Sent(), AtWork()) && RowInv(Underway())
  {
    CodeSaveGoes(Sent(), AtWork());
  }

  lemma ClosingGoes(ended: int)
    requires ended > 0
    ensures Goes(Introduced(), Closing(ended)) && RowInv(ClosedRow(ended))
  {
    CodeSaveGoes(Introduced(), Closing(ended));
  }

  lemma BoundGoes()
    ensures Goes(Underway(), Bound())
  {
    CodeSaveGoes(Underway(), Bound());
  }

  lemma FinishingGoes(ended: int)
    requires ended > 0
    ensures Goes(Bound(), Finishing(ended))
  {
    CodeSaveGoes(Bound(), Finishing(ended));
  }

  lemma AskingGoes()
    ensures Goes(Underway(), Asking()) && RowInv(Asked())
  {
    CodeSaveGoes(Underway(), Asking());
  }

  lemma PausingGoes()
    ensures Goes(Asked(), Pausing()) && RowInv(Paused())
  {
    CodeSaveGoes(Asked(), Pausing());
  }

  lemma GoesKeeps(b: Row, r: Row)
    requires Goes(b, r)
    ensures RowInv(r)
  {
  }

  /** Saves that leave the descriptor and the spool alone keep a sent row well formed. */
  lemma QuietSave(b: Row, r: Row)
    requires RowInv(b) && b.sendEntered && !b.descriptor.Terminal() && (Concluded(b, r) || KeptOrNoted(b, r))
    requires r.TerminalSnapshot() ==> b.TerminalSnapshot()
    ensures RowInv(r)
  {
  }

  lemma WaitingGoes()
    ensures Goes(Paused(), Waiting())
  {
    hide RowInv;
    PausingGoes();
    QuietSave(Paused(), Waiting());
    CodeSaveGoes(Paused(), Waiting());
  }

  lemma ResumingGoes()
    ensures Goes(Waiting(), Resuming())
  {
    hide RowInv, Goes;
    assert RowInv(Waiting()) by { WaitingGoes(); GoesKeeps(Paused(), Waiting()); }
    QuietSave(Waiting(), Resuming());
    CodeSaveGoes(Waiting(), Resuming());
  }

  lemma NotedGoes()
    ensures Goes(Resuming(), Noted())
  {
    hide RowInv, Goes;
    assert RowInv(Resuming()) by { ResumingGoes(); GoesKeeps(Waiting(), Resuming()); }
    QuietSave(Resuming(), Noted());
    CodeSaveGoes(Resuming(), Noted());
  }

  /** The unchanged row may always be saved again. */
  lemma AgainGoes(r: Row)
    requires RowInv(r) && r.pending == [] && !r.descriptor.Terminal() && !r.TerminalSnapshot() && r.Done() == {} && r.refs == []
    ensures Goes(r, r)
  {
    CodeSaveGoes(r, r);
  }

  /** What the runs look at in the rows. */
  lemma Spools()
    ensures First().pending == Introduced().pending == Sent().pending == Underway().pending == Bound().pending == []
    ensures Asked().pending == Paused().pending == Waiting().pending == Resuming().pending == Noted().pending == []
    ensures Prepared().pending == [SUBMITTED] && AtWork().pending == [WORKING] && SUBMITTED != WORKING
    ensures Prepared().cursor == 0 && AtWork().cursor == 1 && Asking().cursor == 2 && Pausing().cursor == 3
    ensures |Asking().pending| == |Pausing().pending| == 1 && Asking().pending[0].Mapped? && Pausing().pending[0].ScopeFact?
    ensures Pausing().pending[0].descriptor.status == InputRequired
    ensures forall t :: Closing(t).pending == [ScopeFact(ItemCompleted, Closing(t).descriptor, 1)] && ClosedRow(t).pending == []
    ensures forall t :: Finishing(t).pending == [ScopeFact(ItemCompleted, Finishing(t).descriptor, 2)]
    ensures forall t :: Closing(t).descriptor.endedAt == Some(t) == Finishing(t).descriptor.endedAt
    ensures forall t :: Closing(t).cursor == 1 && Finishing(t).cursor == 2 && ClosedRow(t).descriptor == Closing(t).descriptor
    ensures forall t :: ClosedUnsent(Some(ClosedRow(t))) && Closing(t).descriptor.Terminal() && Finishing(t).descriptor.Terminal()
    ensures Sent().sendEntered && Sent().request.token == "token" == Noted().request.token
    ensures "more" in Noted().tokens && "more" !in Waiting().tokens && Noted().descriptor.status == InputRequired
    ensures Noted().pendingContinuation.Some? && Noted().pendingContinuation.value.token == "more"
  {
  }

  /** The same equalities, by name, where the rows themselves are not looked at. */
  lemma Pops()
    ensures Pop(Prepared(), 1) == Introduced() && Pop(AtWork(), 2) == Underway() && Pop(Asking(), 3) == Asked()
    ensures Pop(Pausing(), 4) == Paused() && forall t :: Pop(Closing(t), 2) == ClosedRow(t)
  {
  }

  /** What the lease makes of the stale saves. */
  lemma StaleChains(t: int, u: int)
    ensures ChainAccepts(Some(Sent()), Sent()) && !ChainAccepts(Some(Sent()), Introduced())
    ensures ChainAccepts(Some(ClosedRow(t)), Sent()) && ChainAccepts(Some(Closing(t)), Introduced())
    ensures ChainAccepts(Some(ClosedRow(t)), Closing(u))
  {
  }

  // --------------------------------------------------------------------- steps

  lemma Do(c: Config, run: seq<Label>, g: Global, l: Label) returns (run': seq<Label>, g': Global)
    requires Takes(c, run, g) && Enabled(c, g, l) && ByTheCode(g, l)
    ensures g' == Next(c, g, l) && Takes(c, run', g') && run <= run'
  {
    hide Enabled, Next, CodeSave;
    ExecStep(c, run, g, l);
    run', g' := run + [l], Next(c, g, l);
    assert run'[..|run'| - 1] == run;
  }

  lemma DoSave(c: Config, run: seq<Label>, g: Global, op: OpId, r: Row, receipt: Option<string>)
    returns (run': seq<Label>, g': Global)
    requires Takes(c, run, g) && ActiveSave(g, op, r, receipt) && ChainAccepts(g.row, r) && CodeSave(g.base[op], r)
    ensures Takes(c, run', g') && run <= run'
    ensures g' == g.(row := Some(r), base := g.base[op := Some(r)], accepted := g.accepted + Fresh(r.pending, g.accepted),
                     grants := if receipt.Some? then g.grants[op := receipt.value] else g.grants)
  {
    hide Discipline, ChainAccepts, CodeSave, Takes;
    run', g' := Do(c, run, g, Save(op, r, receipt));
  }

  lemma DoPublish(c: Config, run: seq<Label>, g: Global, op: OpId, e: Event, seqno: nat)
    returns (run': seq<Label>, g': Global)
    requires Takes(c, run, g) && op in g.live && op in g.base && g.base[op].Some? && g.base[op].value.pending == [e]
    requires e !in g.log && forall s <- g.seqnos :: s < seqno
    ensures Takes(c, run', g') && run <= run'
    ensures g' == g.(log := g.log + [e], seqnos := g.seqnos + [seqno])
  {
    hide Discipline, ChainAccepts, Takes;
    assert [e][..0] == [] && NextUp([e], g.log, e);
    run', g' := Do(c, run, g, Publish(op, e, seqno));
  }

  lemma DoOpen(c: Config, run: seq<Label>, g: Global, op: OpId) returns (run': seq<Label>, g': Global)
    requires Takes(c, run, g) && op in g.live && op in g.grants
    ensures Takes(c, run', g') && run <= run'
    ensures g' == g.(sends := g.sends + [g.grants[op]], grants := g.grants - {op})
  {
    hide Discipline, ChainAccepts, Takes;
    run', g' := Do(c, run, g, OpenStream(op));
  }

  /** A batch of one event is saved and published. */
  lemma DoCommit(c: Config, run: seq<Label>, g: Global, op: OpId, r: Row, seqno: nat)
    returns (run': seq<Label>, g': Global)
    requires Takes(c, run, g) && Holding(g, op) && g.base[op].Some? && Goes(g.base[op].value, r) && ChainAccepts(g.row, r)
    requires |r.pending| == 1 && r.pending[0] !in g.log && r.pending[0] !in g.accepted && forall s <- g.seqnos :: s < seqno
    ensures Takes(c, run', g') && run <= run'
    ensures g' == g.(row := Some(r), base := g.base[op := Some(r)], accepted := g.accepted + r.pending,
                     log := g.log + r.pending, seqnos := g.seqnos + [seqno])
  {
    hide Discipline, ChainAccepts, CodeSave, RowInv, Takes;
    var e := r.pending[0];
    assert r.pending == [e];
    FreshOne(e, g.accepted);
    assert Discipline(Some(g.base[op].value), r, g.log, None);
    run', g' := DoSave(c, run, g, op, r, None);
    run', g' := DoPublish(c, run', g', op, e, seqno);
  }

  /** The same, and the published event is popped. */
  lemma DoBatch(c: Config, run: seq<Label>, g: Global, op: OpId, r: Row, seqno: nat)
    returns (run': seq<Label>, g': Global)
    requires Takes(c, run, g) && Holding(g, op) && g.base[op].Some? && Goes(g.base[op].value, r) && ChainAccepts(g.row, r)
    requires |r.pending| == 1 && r.pending[0] !in g.log && r.pending[0] !in g.accepted && forall s <- g.seqnos :: s < seqno
    requires r.cursor <= seqno
    ensures Takes(c, run', g') && run <= run'
    ensures g' == g.(row := Some(Pop(r, seqno)), base := g.base[op := Some(Pop(r, seqno))], accepted := g.accepted + r.pending,
                     log := g.log + r.pending, seqnos := g.seqnos + [seqno])
  {
    hide Discipline, ChainAccepts, CodeSave, RowInv, Takes;
    run', g' := DoCommit(c, run, g, op, r, seqno);
    PopFits(r, g'.log, seqno);
    assert Fresh(Pop(r, seqno).pending, g'.accepted) == [];
    run', g' := DoSave(c, run', g', op, Pop(r, seqno), None);
  }

  /** A save that starts no batch. */
  lemma DoKeep(c: Config, run: seq<Label>, g: Global, op: OpId, r: Row) returns (run': seq<Label>, g': Global)
    requires Takes(c, run, g) && Holding(g, op) && g.base[op].Some? && Goes(g.base[op].value, r) && ChainAccepts(g.row, r)
    requires r.pending == []
    ensures Takes(c, run', g') && run <= run'
    ensures g' == g.(row := Some(r), base := g.base[op := Some(r)])
  {
    hide Discipline, ChainAccepts, CodeSave, RowInv, Takes;
    assert Discipline(Some(g.base[op].value), r, g.log, None);
    run', g' := DoSave(c, run, g, op, r, None);
    assert Fresh(r.pending, g.accepted) == [];
  }

  /** The send receipt of the first message. */
  lemma DoEnter(c: Config, run: seq<Label>, g: Global, op: OpId) returns (run': seq<Label>, g': Global)
    requires Takes(c, run, g) && Holding(g, op) && g.base[op] == Some(Introduced()) && ChainAccepts(g.row, Sent())
    ensures Takes(c, run', g') && run <= run'
    ensures g' == g.(row := Some(Sent()), base := g.base[op := Some(Sent())], grants := g.grants[op := "token"])
  {
    hide Discipline, ChainAccepts, CodeSave, RowInv, Takes, First, Prepared, Introduced, Sent, AtWork, Underway, Closing, ClosedRow, Bound, Finishing, Asking, Asked, Pausing, Paused, Waiting, Resuming, Noted;
    Spools();
    SentGoes();
    assert Discipline(Some(Introduced()), Sent(), g.log, None);
    ReceiptFits(Some(Introduced()), Sent(), g.log, "token");
    run', g' := DoSave(c, run, g, op, Sent(), Some("token"));
    assert Fresh(Sent().pending, g.accepted) == [];
  }

  lemma ReceiptFits(base: Option<Row>, r: Row, log: seq<Event>, token: string)
    requires Discipline(base, r, log, None) && Receipt(base, r, token)
    ensures Discipline(base, r, log, Some(token))
  {
  }

  /** The operation saves under the lease entry that its instance has. */
  predicate Holding(g: Global, op: OpId) {
    op in g.live && op in g.base && g.live[op] in g.leases && LeaseActive(g, op)
  }

  lemma FreshOne(e: Event, seen: seq<Event>)
    ensures Fresh([e], seen) == if e in seen then [] else [e]
    ensures Fresh([], seen) == []
  {
    assert [e][1..] == [];
  }

  // ---------------------------------------------------------------------- runs

  const ONE_OPERATION := INIT.(
    row := Some(Introduced()), log := [SUBMITTED], seqnos := [1], accepted := [SUBMITTED], holder := Some(0),
    live := map[0 := 0], leases := map[0 := 0], nextOp := 1, base := map[0 := Some(Introduced())])

  /** An operation that has saved its request and published the first fact. */
  lemma FirstFactIsOut(c: Config) returns (run: seq<Label>, g: Global)
    ensures Takes(c, run, g) && g == ONE_OPERATION
  {
    hide Discipline, ChainAccepts, CodeSave, RowInv, Takes, First, Prepared, Introduced, Sent, AtWork, Underway, Closing, ClosedRow, Bound, Finishing, Asking, Asked, Pausing, Paused, Waiting, Resuming, Noted;
    Spools();
    Pops();
    run, g := Begun(c);
    PreparedGoes();
    assert ChainAccepts(Some(First()), Prepared());
    run, g := DoBatch(c, run, g, 0, Prepared(), 1);
  }

  lemma Begun(c: Config) returns (run: seq<Label>, g: Global)
    ensures Takes(c, run, g)
    ensures g == INIT.(row := Some(First()), holder := Some(0), live := map[0 := 0], leases := map[0 := 0],
                       nextOp := 1, base := map[0 := Some(First())])
  {
    hide Discipline, ChainAccepts, CodeSave, RowInv, Takes, First, Prepared, Introduced, Sent, AtWork, Underway, Closing, ClosedRow, Bound, Finishing, Asking, Asked, Pausing, Paused, Waiting, Resuming, Noted;
    Spools();
    run, g := Opened(c);
    FirstFits(g.log);
    FreshOne(SUBMITTED, []);
    run, g := DoSave(c, run, g, 0, First(), None);
  }

  lemma Opened(c: Config) returns (run: seq<Label>, g: Global)
    ensures Takes(c, run, g)
    ensures g == INIT.(holder := Some(0), live := map[0 := 0], leases := map[0 := 0], nextOp := 1, base := map[0 := None])
  {
    hide Discipline, ChainAccepts, RowInv, CodeSave;
    run, g := [], INIT;
    run, g := Do(c, run, g, Start(0, 0));
    run, g := Do(c, run, g, Load(0));
  }

  /** Operation 0 has lost its lease; its instance has started operation 1 on the same row. */
  lemma OverlappingOperations(c: Config) returns (run: seq<Label>, g: Global)
    requires !c.serial
    ensures Takes(c, run, g)
    ensures g == ONE_OPERATION.(holder := Some(1), live := map[0 := 0, 1 := 0], leases := map[0 := 1], nextOp := 2,
                                base := map[0 := Some(Introduced()), 1 := Some(Introduced())])
  {
    hide Discipline, ChainAccepts, CodeSave, RowInv, Takes, First, Prepared, Introduced, Sent, AtWork, Underway, Closing, ClosedRow, Bound, Finishing, Asking, Asked, Pausing, Paused, Waiting, Resuming, Noted;
    run, g := FirstFactIsOut(c);
    run, g := Do(c, run, g, LoseLease);
    run, g := Do(c, run, g, Start(1, 0));
    run, g := Do(c, run, g, Load(1));
  }

  /** An operation loses its lease while it is still running; its instance starts another
      one, whose lease entry the first operation then saves and sends under; so does its owner. */
  lemma StaleOperationSendsAgain(c: Config) returns (run: seq<Label>, g: Global, run': seq<Label>, g': Global)
    requires !c.serial
    ensures Takes(c, run, g) && Takes(c, run', g') && run <= run' && Spent(g)
    ensures g.row.value.request.token == "token" && g.sends == ["token"] && g'.sends == ["token", "token"]
  {
    hide Discipline, ChainAccepts, CodeSave, RowInv, Takes, Enabled, Next, First, Prepared, Introduced, Sent, AtWork, Underway, Closing, ClosedRow, Bound, Finishing, Asking, Asked, Pausing, Paused, Waiting, Resuming, Noted;
    Spools();
    run, g := OverlappingOperations(c);
    SentGoes();
    StaleChains(2, 3);
    run, g := DoEnter(c, run, g, 0);
    run, g := DoOpen(c, run, g, 0);
    run', g' := DoEnter(c, run, g, 1);
    run', g' := DoOpen(c, run', g', 1);
  }

  /** A cancel has closed the call before sending and published that; the operation it
      overlapped with then sends. */
  lemma ConfirmedCancelIsFollowedByASend(c: Config) returns (run: seq<Label>, g: Global, run': seq<Label>, g': Global)
    requires !c.serial
    ensures Takes(c, run, g) && Takes(c, run', g') && run <= run'
    ensures g.row == Some(ClosedRow(2)) && ClosedUnsent(g.row) && g.sends == [] && Closing(2).pending[0] in g.log
    ensures g'.row == Some(Sent()) && g'.sends == ["token"]
  {
    hide Discipline, ChainAccepts, CodeSave, RowInv, Takes, Enabled, Next, First, Prepared, Introduced, Sent, AtWork, Underway, Closing, ClosedRow, Bound, Finishing, Asking, Asked, Pausing, Paused, Waiting, Resuming, Noted;
    Spools();
    Pops();
    run, g := OverlappingOperations(c);
    ClosingGoes(2);
    StaleChains(2, 3);
    run, g := DoBatch(c, run, g, 1, Closing(2), 2);
    run', g' := DoEnter(c, run, g, 0);
    run', g' := DoOpen(c, run', g', 0);
  }

  /** The stale operation's save is turned down once the other one has sent. */
  lemma StaleSaveIsRejected(c: Config) returns (run: seq<Label>, g: Global)
    requires !c.serial
    ensures Takes(c, run, g) && ActiveSave(g, 0, Introduced(), None) && CodeSave(g.base[0], Introduced())
    ensures !ChainAccepts(g.row, Introduced())
  {
    hide Discipline, ChainAccepts, CodeSave, RowInv, Takes, Enabled, Next, First, Prepared, Introduced, Sent, AtWork, Underway, Closing, ClosedRow, Bound, Finishing, Asking, Asked, Pausing, Paused, Waiting, Resuming, Noted;
    Spools();
    run, g := OverlappingOperations(c);
    SentGoes();
    StaleChains(2, 3);
    IntroducedAgain();
    assert Discipline(Some(Introduced()), Introduced(), g.log, None);
    run, g := DoEnter(c, run, g, 1);
  }

  lemma IntroducedAgain()
    ensures Goes(Introduced(), Introduced())
  {
    AgainGoes(Introduced());
  }

  /** A stale save under another operation's lease overwrites a committed batch. */
  lemma StaleSaveDropsBatch(c: Config) returns (run: seq<Label>, g: Global)
    requires !c.serial
    ensures Takes(c, run, g) && g.accepted == [SUBMITTED, Closing(2).pending[0]]
    ensures g.log == [SUBMITTED] && g.row == Some(Introduced())
  {
    hide Discipline, ChainAccepts, CodeSave, RowInv, Takes, Enabled, Next, First, Prepared, Introduced, Sent, AtWork, Underway, Closing, ClosedRow, Bound, Finishing, Asking, Asked, Pausing, Paused, Waiting, Resuming, Noted;
    Spools();
    run, g := OverlappingOperations(c);
    ClosingGoes(2);
    StaleChains(2, 3);
    IntroducedAgain();
    FreshOne(Closing(2).pending[0], g.accepted);
    assert Discipline(Some(Introduced()), Closing(2), g.log, None);
    run, g := DoSave(c, run, g, 1, Closing(2), None);
    run, g := DoKeep(c, run, g, 0, Introduced());
  }

  /** One operation that holds the receipt of the first message. */
  lemma SentCall(c: Config) returns (run: seq<Label>, g: Global)
    ensures Takes(c, run, g)
    ensures g == ONE_OPERATION.(row := Some(Sent()), base := map[0 := Some(Sent())], grants := map[0 := "token"])
  {
    hide Discipline, ChainAccepts, CodeSave, RowInv, Takes, Enabled, Next, First, Prepared, Introduced, Sent, AtWork, Underway, Closing, ClosedRow, Bound, Finishing, Asking, Asked, Pausing, Paused, Waiting, Resuming, Noted;
    run, g := FirstFactIsOut(c);
    SentGoes();
    run, g := DoEnter(c, run, g, 0);
  }

  /** The call may have been sent when the save of the "working" batch fails; the handler of the
      failure flushes that batch: the log has an event no checkpoint ever committed. */
  lemma UnsavedBatchIsPublished(c: Config) returns (run: seq<Label>, g: Global)
    requires !c.failStop
    ensures Takes(c, run, g) && g.row == Some(Sent()) && g.accepted == [SUBMITTED] && g.log == [SUBMITTED, WORKING]
  {
    hide Discipline, ChainAccepts, CodeSave, RowInv, Takes, First, Prepared, Introduced, Sent, AtWork, Underway, Closing, ClosedRow, Bound, Finishing, Asking, Asked, Pausing, Paused, Waiting, Resuming, Noted;
    Spools();
    run, g := SentCall(c);
    AtWorkGoes();
    run, g := DoFail(c, run, g, AtWork());
    run, g := DoFlush(c, run, g, WORKING, 2);
  }

  /** The save of a batch of operation 0 fails. */
  lemma DoFail(c: Config, run: seq<Label>, g: Global, r: Row) returns (run': seq<Label>, g': Global)
    requires !c.failStop && Takes(c, run, g) && 0 in g.live && 0 in g.base && g.base[0].Some? && Goes(g.base[0].value, r)
    ensures Takes(c, run', g') && run <= run' && g' == g.(unsaved := g.unsaved[0 := r.pending])
  {
    hide Discipline, ChainAccepts, CodeSave, RowInv, Takes;
    assert Discipline(Some(g.base[0].value), r, g.log, None);
    run', g' := Do(c, run, g, SaveFails(0, r));
  }

  /** It is published all the same. */
  lemma DoFlush(c: Config, run: seq<Label>, g: Global, e: Event, seqno: nat) returns (run': seq<Label>, g': Global)
    requires Takes(c, run, g) && 0 in g.live && g.unsaved == map[0 := [e]] && e !in g.log && forall s <- g.seqnos :: s < seqno
    ensures Takes(c, run', g') && run <= run'
    ensures g' == g.(unsaved := map[0 := []], log := g.log + [e], seqnos := g.seqnos + [seqno])
  {
    hide Discipline, ChainAccepts, CodeSave, RowInv, Takes;
    assert [e][1..] == [];
    run', g' := Do(c, run, g, PublishUnsaved(0, seqno));
    assert g'.unsaved == map[0 := []];
  }

  const AT_WORK := ONE_OPERATION.(
    row := Some(Underway()), base := map[0 := Some(Underway())], log := [SUBMITTED, WORKING], seqnos := [1, 2],
    accepted := [SUBMITTED, WORKING], sends := ["token"])

  /** The message is sent and the call at work. */
  lemma WorkIsOut(c: Config) returns (run: seq<Label>, g: Global)
    ensures Takes(c, run, g) && g == AT_WORK
  {
    hide Discipline, ChainAccepts, CodeSave, RowInv, Takes, Enabled, Next, First, Prepared, Introduced, Sent, AtWork, Underway, Closing, ClosedRow, Bound, Finishing, Asking, Asked, Pausing, Paused, Waiting, Resuming, Noted;
    Spools();
    Pops();
    run, g := SentCall(c);
    AtWorkGoes();
    assert ChainAccepts(Some(Sent()), AtWork());
    run, g := DoBatch(c, run, g, 0, AtWork(), 2);
    run, g := DoOpen(c, run, g, 0);
    assert g.grants == map[];
  }

  /** The remote task is known. */
  lemma BoundCall(c: Config) returns (run: seq<Label>, g: Global)
    ensures Takes(c, run, g) && g == AT_WORK.(row := Some(Bound()), base := map[0 := Some(Bound())])
  {
    hide Discipline, ChainAccepts, CodeSave, RowInv, Takes, Enabled, Next, First, Prepared, Introduced, Sent, AtWork, Underway, Closing, ClosedRow, Bound, Finishing, Asking, Asked, Pausing, Paused, Waiting, Resuming, Noted;
    Spools();
    run, g := WorkIsOut(c);
    BoundGoes();
    assert ChainAccepts(Some(Underway()), Bound());
    run, g := DoKeep(c, run, g, 0, Bound());
  }

  /** Two overlapping operations both close the call; the first one's replay then finds the
      other's closing fact. */
  lemma TwoClosings(c: Config) returns (run: seq<Label>, g: Global, b: Row)
    requires !c.serial
    ensures Takes(c, run, g) && KnownRow(g, b) && b.pending == [] && !Replays(b, g.log)
  {
    hide Discipline, ChainAccepts, CodeSave, RowInv, Takes, Enabled, Next, First, Prepared, Introduced, Sent, AtWork, Underway, Closing, ClosedRow, Bound, Finishing, Asking, Asked, Pausing, Paused, Waiting, Resuming, Noted;
    Spools();
    run, g := OverlappingOperations(c);
    var one, two := Closing(2).pending[0], Closing(3).pending[0];
    ClosingGoes(2);
    ClosingGoes(3);
    StaleChains(2, 3);
    Pops();
    run, g := DoBatch(c, run, g, 1, Closing(2), 2);
    run, g := DoCommit(c, run, g, 0, Closing(3), 3);
    b := ClosedRow(2);
    assert 1 in g.base && g.base[1] == Some(b);
    LastClosingDecides(b, g.log);
  }

  /** A replay fails when the last fact is a closing one with another descriptor. */
  lemma LastClosingDecides(b: Row, log: seq<Event>)
    requires b.descriptor.Terminal() && log != [] && ClosingFact(log[|log| - 1]) && log[|log| - 1].descriptor != b.descriptor
    ensures !Replays(b, log)
  {
    forall i: nat | LastClosing(log, i) ensures i == |log| - 1 {}
  }

  /** An operation has lost its lease when it saves that the call has completed, and fails; a
      worker that takes over closes the call at another time; the handler of the failure then
      puts the first closing fact behind the second. */
  lemma UnsavedClosing(c: Config) returns (run: seq<Label>, g: Global, b: Row)
    requires !c.failStop
    ensures Takes(c, run, g) && KnownRow(g, b) && g.row == Some(b) && b.pending == [] && !Replays(b, g.log)
  {
    hide Discipline, ChainAccepts, CodeSave, RowInv, Takes, First, Prepared, Introduced, Sent, AtWork, Underway, Closing, ClosedRow, Bound, Finishing, Asking, Asked, Pausing, Paused, Waiting, Resuming, Noted;
    Spools();
    var one, two := Finishing(2).pending[0], Finishing(3).pending[0];
    run, g := TakenOver(c);
    FinishingGoes(3);
    assert ChainAccepts(Some(Bound()), Finishing(3));
    run, g := DoBatch(c, run, g, 1, Finishing(3), 3);
    run, g := DoFlush(c, run, g, one, 4);
    b := Pop(Finishing(3), 3);
    assert 1 in g.base && g.base[1] == Some(b);
    LastClosingDecides(b, g.log);
  }

  lemma TakenOver(c: Config) returns (run: seq<Label>, g: Global)
    requires !c.failStop
    ensures Takes(c, run, g)
    ensures g == AT_WORK.(row := Some(Bound()), base := map[0 := Some(Bound()), 1 := Some(Bound())], holder := Some(1),
                          live := map[0 := 0, 1 := 1], leases := map[0 := 0, 1 := 1], nextOp := 2,
                          unsaved := map[0 := Finishing(2).pending])
  {
    hide Discipline, ChainAccepts, CodeSave, RowInv, Takes, First, Prepared, Introduced, Sent, AtWork, Underway, Closing, ClosedRow, Bound, Finishing, Asking, Asked, Pausing, Paused, Waiting, Resuming, Noted;
    Spools();
    run, g := BoundCall(c);
    FinishingGoes(2);
    run, g := Do(c, run, g, LoseLease);
    run, g := DoFail(c, run, g, Finishing(2));
    run, g := Do(c, run, g, Start(1, 1));
    run, g := Do(c, run, g, Load(1));
  }

  /** The call waits for input, and its operation is over. */
  lemma WaitingCall(c: Config) returns (run: seq<Label>, g: Global)
    ensures Takes(c, run, g)
    ensures g == AT_WORK.(row := Some(Waiting()), base := map[0 := Some(Waiting())],
                          log := [SUBMITTED, WORKING, Asking().pending[0], Pausing().pending[0]], seqnos := [1, 2, 3, 4],
                          accepted := [SUBMITTED, WORKING, Asking().pending[0], Pausing().pending[0]])
  {
    hide Discipline, ChainAccepts, CodeSave, RowInv, Takes, Enabled, Next, First, Prepared, Introduced, Sent, AtWork, Underway, Closing, ClosedRow, Bound, Finishing, Asking, Asked, Pausing, Paused, Waiting, Resuming, Noted;
    Spools();
    Pops();
    run, g := WorkIsOut(c);
    AskingGoes();
    assert ChainAccepts(Some(Underway()), Asking());
    run, g := DoBatch(c, run, g, 0, Asking(), 3);
    PausingGoes();
    assert ChainAccepts(Some(Asked()), Pausing());
    run, g := DoBatch(c, run, g, 0, Pausing(), 4);
    WaitingGoes();
    assert ChainAccepts(Some(Paused()), Waiting());
    run, g := DoKeep(c, run, g, 0, Waiting());
  }

  /** A continuation is kept, approved and bound, its token is noted, and the next await is cut
      short: the last save puts the token on record, and no receipt for it exists. */
  lemma ContinuationIsRecordedUnsent(c: Config) returns (run: seq<Label>, g: Global)
    ensures Takes(c, run, g) && g.row == Some(Noted()) && "more" in g.row.value.tokens && !Used(g, "more")
    ensures g.row.value.descriptor.status == InputRequired && g.row.value.request.token != "more"
  {
    hide Discipline, ChainAccepts, CodeSave, RowInv, Takes, Enabled, Next, First, Prepared, Introduced, Sent, AtWork, Underway, Closing, ClosedRow, Bound, Finishing, Asking, Asked, Pausing, Paused, Waiting, Resuming, Noted;
    Spools();
    run, g := WaitingCall(c);
    ResumingGoes();
    assert ChainAccepts(Some(Waiting()), Resuming());
    run, g := DoKeep(c, run, g, 0, Resuming());
    NotedGoes();
    assert ChainAccepts(Some(Resuming()), Noted());
    run, g := DoKeep(c, run, g, 0, Noted());
  }
}
