/** The public calls of the service: each takes the scope's lease, restores what is saved,
    finishes what an earlier worker left in the spool, acts, saves and lets the lease go. */
module InvocationEntry {
  import opened Basics
  import opened InvocationTypes
  import opened InvocationProtocol
  import opened InvocationSafety
  import opened InvocationSpool
  import opened InvocationTheorems
  import opened InvocationWorld
  import opened InvocationService

  /** The descriptor of a call that is about to be made. */
  function Submission(r: Request, trigger: TriggerRef, version: string, now: int): Descriptor {
    Descriptor(Locator(r.handle.Scope(), r.handle.identity.parentScopeId, trigger, r.spec.bindingId,
                       r.spec.targetAgentId, r.spec.localName, version, now),
               Submitted, None, [], CancelState(UnknownCapability, NoRequest))
  }

  /** Restoring and flushing leave the call as it was, but for the snapshot a closed call lacked. */
  predicate Untroubled(row: Row, r: Row) {
    && r.handle == row.handle && r.descriptor == row.descriptor && r.sendEntered == row.sendEntered
    && r.tokens == row.tokens && (row.snapshot.Some? ==> r.snapshot == row.snapshot)
  }

  /** The snapshot a restored row has. */
  function Restored(row: Row): Option<Snapshot> {
    if row.snapshot.None? && row.descriptor.Terminal() then
      Some(Snapshot(row.handle, Seen(row.descriptor.status), row.source, row.cursor, row.lastEvent, row.refs, None, None))
    else row.snapshot
  }

  /** The call has been sent, may have been, or is finished: invoking it again sends nothing. */
  predicate Taken(row: Option<Row>) {
    row.Some? && (row.value.TerminalSnapshot() || row.value.sendEntered || row.value.handle.remoteTask.Some?)
  }

  /** The snapshot says finished, paused or unknown. */
  predicate Bounded(r: Row) {
    r.snapshot.Some? && (r.snapshot.value.Terminal() || r.snapshot.value.Paused() || r.snapshot.value.status == UnknownOutcome)
  }

  /** The descriptor tells of a cancel request that settled nothing. */
  predicate CancelTold(r: Row) {
    r.descriptor.cancel in {CancelState(UnknownCapability, RequestUnknown), CancelState(Unsupported, RequestUnsupported)}
  }

  class Service {
    const world: World
    const inst: Instance
    const dispatches: bool

    constructor (world: World, inst: Instance, dispatches: bool)
      ensures this.world == world && this.inst == inst && this.dispatches == dispatches
    {
      this.world, this.inst, this.dispatches := world, inst, dispatches;
    }

    ghost predicate Free() reads world { world.Sound() && inst !in world.g.live.Values }

    /** What an opened operation starts from: what was saved, repaired, its spool published. */
    ghost predicate Opened(state: InvocationOperation)
      reads state, world
    {
      && state.world == world && state.Ready() && state.pending == [] && state.seen.None? && !state.muted
      && !state.active && state.delivered == [] && state.wired == [] && (state.descriptor.Terminal() ==> state.snapshot.Some?)
    }

    /** Takes the lease and loads the durable row. */
    method Enter() returns (op: OpId, row: Option<Row>, o: Outcome)
      requires Free()
      modifies world
      ensures world.Sound() && old(world.run) <= world.run
      ensures o.Done? ==> world.Loaded(op) && world.g.base[op] == row == world.g.row
      ensures o.Raised? ==> Free()
      ensures Outside(o)
    {
      hide Exec;
      row := None;
      op, o := world.Acquire(inst);
      if !o.Done? { return; }
      row, o := world.Load(op);
      if o.Raised? || o.Interrupted? { world.Finish(op); }
    }

    /** Restores a loaded row and publishes what an earlier worker left in its spool. */
    method Resume(op: OpId, row: Row) returns (state: InvocationOperation, o: Outcome)
      requires world.Loaded(op) && world.g.base[op] == Some(row)
      modifies world
      ensures world.Sound() && old(world.run) <= world.run && fresh(state) && state.op == op
      ensures state.delivered == [] && state.wired == []
      ensures o.Done? ==> Opened(state) && state.request == row.request
      ensures Outside(o)
      ensures o.Done? ==> Untroubled(row, state.ToRow())
    {
      hide Exec, Fit, Tracked, RowInv, IdentityMatches, Steady;
      state, o := Recall(op, row);
      if o.Done? {
        var published;
        published, o := state.FlushPending();
      }
      if o.Raised? || o.Interrupted? { world.Finish(op); }
    }

    /** The state of a saved row, with the snapshot that a closed call must have. */
    method Recall(op: OpId, row: Row) returns (state: InvocationOperation, o: Outcome)
      requires world.Loaded(op) && world.g.base[op] == Some(row)
      ensures fresh(state) && state.world == world && state.op == op && state.Ready()
      ensures state.seen.None? && !state.muted && !state.active && state.delivered == [] && state.wired == []
      ensures (o.Done? || o.Raised?) && Outside(o)
      ensures state.request == row.request && Untroubled(row, state.ToRow())
      ensures o.Done? && state.descriptor.Terminal() ==> state.snapshot.Some?
    {
      hide Exec, Fit, Tracked, RowInv, IdentityMatches, Steady;
      state := new InvocationOperation.Restore(world, op, dispatches, row);
      o := state.Repair();
    }

    /** Saves the state once more, whatever the operation came to, and lets the lease go. A save
        that fails replaces the outcome. */
    method Leave(state: InvocationOperation, o: Outcome) returns (left: Outcome, ghost saved: bool)
      requires state.world == world && world.Sound() && (!o.Crashed? ==> state.Savable())
      modifies world
      ensures world.Sound() && old(world.run) <= world.run
      ensures if saved then left == o && world.g.row == Some(state.ToRow()) else !left.Done?
      ensures left == o || Outside(left)
    {
      hide Exec, Fit, Tracked;
      left, saved := o, false;
      if o.Crashed? { return; }
      var last := state.SaveState();
      if last.Crashed? { left := Crashed; return; }
      if last.Done? { saved := true; } else { left := last; }
      world.Finish(state.op);
    }

    /** What every call keeps: the durable row follows the one there before, and a scope closed
        before sending stays unsent. */
    ghost predicate GoesOn(run: seq<Label>, row: Option<Row>)
      reads world
    {
      && world.Sound() && run <= world.run && Follows(row, world.g.row)
      && (ClosedUnsent(row) ==> ClosedUnsent(world.g.row) && world.g.sends == [])
    }

    lemma RowsFollow(run: seq<Label>, g: Global)
      requires Reaches(world.config, run, g) && world.Sound() && run <= world.run
      ensures GoesOn(run, g.row) && g.log <= world.g.log && g.sends <= world.g.sends
    {
      hide Exec, Follows;
      assert world.run == run + world.run[|run|..];
      CheckpointChain(world.config, run, g, world.run[|run|..], world.g);
      RecordsOnlyGrow(world.config, run, g, world.run, world.g);
      if ClosedUnsent(g.row) {
        ClosedUnsentNeverSends(world.config, run, g, world.run[|run|..], world.g);
      }
    }

    /** What a successful invocation leaves behind. */
    ghost predicate Invoked(r: Request, sent: seq<string>)
      reads world
    {
      && world.g.row.Some? && world.g.row.value.request == r
      && if sent != [] then r.token in world.g.sends
         else Bounded(world.g.row.value) || (ClosedUnsent(world.g.row) && world.g.sends == [])
    }

    /** Makes a call, or takes up one that was made before. A call taken already is not sent
        again, and the facts of a finished one are all handed out. */
    method Invoke(r: Request, trigger: TriggerRef) returns (delivered: seq<Event>, sent: seq<string>, o: Outcome)
      requires Free() && r.Valid()
      modifies world
      ensures GoesOn(old(world.run), old(world.g.row)) && world.Complete(o)
      ensures sent == [] || sent == [r.token]
      ensures Taken(old(world.g.row)) ==> sent == []
      ensures o.Done? ==> Invoked(r, sent)
      ensures o.Done? && old(world.g.row.Some? && world.g.row.value.TerminalSnapshot()) ==>
                forall e <- old(world.g.log) :: e in delivered
    {
      hide Exec, Fit, Tracked, Invoked, Sendable, RowInv;
      ghost var run, g := world.run, world.g;
      delivered, sent := [], [];
      var op, row, state;
      op, row, o := Enter();
      RowsFollow(run, g);
      if !o.Done? { return; }
      if r.spec.expectedVersion.None? || trigger.scopeId != r.handle.identity.parentScopeId
         || trigger.callId != r.handle.identity.callId {
        o := Raised("A2A_TRIGGER_REF_CONFLICT");
        world.Finish(op);
      } else if row.Some? {
        state, o := Resume(op, row.value);
        RowsFollow(run, g);
        if o.Done? { o := Again(state, r, trigger); }
        delivered, sent := state.delivered, state.wired;
      } else {
        delivered, sent, o := Afresh(op, r, trigger);
      }
      RowsFollow(run, g);
    }

    method Again(state: InvocationOperation, r: Request, trigger: TriggerRef) returns (o: Outcome)
      requires Opened(state)
      modifies world, state
      ensures world.Sound() && old(world.run) <= world.run && world.Complete(o)
      ensures state.wired == [] || state.wired == [r.token]
      ensures old(state.Ended() || state.sendEntered || state.handle.remoteTask.Some?) ==> state.wired == []
      ensures o.Done? ==> Invoked(r, state.wired)
      ensures o.Done? && old(state.Ended()) ==> old(world.g.log) <= state.delivered
    {
      hide Exec, Fit, Tracked;
      o := state.InvokeAgain(r, trigger);
      ghost var run, g := world.run, world.g;
      ghost var saved;
      o, saved := Leave(state, o);
      RowsFollow(run, g);
    }

    /** The state of a call that nobody has made yet. */
    method Begin(op: OpId, r: Request, d: Descriptor) returns (state: InvocationOperation)
      requires world.Loaded(op) && world.g.base[op].None? && r.Valid() && d.Valid()
      requires r.spec.expectedVersion.Some? && d.locator.trigger.callId == r.handle.identity.callId
      requires d == Submission(r, d.locator.trigger, r.spec.expectedVersion.value, d.locator.startedAt)
      ensures fresh(state) && state.world == world && state.request == r && state.delivered == [] && state.Unsent()
      ensures state.wired == []
    {
      hide Exec;
      state := new InvocationOperation.Begin(world, op, dispatches, r, d);
    }

    method Afresh(op: OpId, r: Request, trigger: TriggerRef) returns (delivered: seq<Event>, sent: seq<string>, o: Outcome)
      requires world.Loaded(op) && world.g.base[op].None? && r.Valid() && r.spec.expectedVersion.Some?
      requires trigger.scopeId == r.handle.identity.parentScopeId && trigger.callId == r.handle.identity.callId
      modifies world
      ensures world.Sound() && old(world.run) <= world.run && world.Complete(o)
      ensures sent == [] || sent == [r.token]
      ensures o.Done? ==> Invoked(r, sent)
    {
      hide Exec, Fit, Tracked, RowInv;
      delivered, sent := [], [];
      var now := world.Now();
      var d := Submission(r, trigger, r.spec.expectedVersion.value, now);
      if !d.Valid() {
        o := Raised("A2A_TRIGGER_REF_CONFLICT");
        world.Finish(op);
        return;
      }
      var state := Begin(op, r, d);
      o := AttemptOnce(state);
      delivered, sent := state.delivered, state.wired;
    }

    method AttemptOnce(state: InvocationOperation) returns (o: Outcome)
      requires state.world == world && state.Unsent() && state.wired == []
      modifies world, state
      ensures world.Sound() && old(world.run) <= world.run && world.Complete(o)
      ensures state.wired == [] || state.wired == [old(state.request).token]
      ensures o.Done? ==> Invoked(old(state.request), state.wired)
    {
      hide Exec, Fit, Tracked, RowInv;
      o := state.Attempt();
      ghost var run, g := world.run, world.g;
      ghost var saved;
      o, saved := Leave(state, o);
      RowsFollow(run, g);
    }

    /** What a successful continuation leaves behind: its token is on record, and it was sent just
        now, or the call has reached a boundary, or a cancel request came first. */
    ghost predicate Continued(r: Continuation, sent: seq<string>)
      reads world
    {
      && world.g.row.Some? && r.token in world.g.row.value.tokens
      && if sent != [] then r.token in world.g.sends
         else Bounded(world.g.row.value) || CancelTold(world.g.row.value)
              || (ClosedUnsent(world.g.row) && world.g.sends == [])
    }

    /** What a continuation leaves of its token in the row: nothing new, or the token, sent or not.
        One that did not return is then still kept, and taking it up again sends nothing. */
    predicate Recorded(r: Continuation, found: Row, left: Row, sent: seq<string>, o: Outcome) {
      && (left.tokens == found.tokens || (r.token !in found.tokens && left.tokens == found.tokens[r.token := r.digest]))
      && (sent != [] ==> left.tokens != found.tokens)
      && (left.tokens != found.tokens && !o.Done? ==> left.pendingContinuation == Some(r))
    }

    /** Continues a call. A token on record is never sent again, and it is refused when the
        message it comes with is another. */
    method Continue(r: Continuation)
      returns (delivered: seq<Event>, sent: seq<string>, o: Outcome, ghost found: Option<Row>, ghost saved: bool)
      requires Free() && r.Valid()
      modifies world
      ensures GoesOn(old(world.run), old(world.g.row)) && world.Complete(o)
      ensures sent == [] || sent == [r.token]
      ensures old(world.g.row.Some? && r.token in world.g.row.value.tokens) ==>
                && sent == []
                && (o.Done? ==> old(world.g.row).value.tokens[r.token] == r.digest && Bounded(world.g.row.value))
      ensures o.Done? ==> saved && Continued(r, sent)
      // whether it returned or not: what the last save put on record
      ensures saved ==> Follows(old(world.g.row), found) && found.Some? && world.g.row.Some? && Recorded(r, found.value, world.g.row.value, sent, o)
    {
      hide Exec, Fit, Tracked, Continued, Sendable, RowInv;
      ghost var run, g := world.run, world.g;
      delivered, sent, found, saved := [], [], None, false;
      var op, row, state;
      op, row, o := Enter();
      RowsFollow(run, g);
      if !o.Done? { return; }
      found := row;
      if row.None? {
        o := Raised("A2A_INVOCATION_NOT_FOUND");
        world.Finish(op);
      } else {
        state, o := Resume(op, row.value);
        if o.Done? { o, saved := ContinueHeld(state, r); }
        delivered, sent := state.delivered, state.wired;
      }
      RowsFollow(run, g);
    }

    method ContinueHeld(state: InvocationOperation, r: Continuation) returns (o: Outcome, ghost saved: bool)
      requires Opened(state) && r.Valid()
      modifies world, state
      ensures world.Sound() && old(world.run) <= world.run && world.Complete(o)
      ensures state.wired == [] || state.wired == [r.token]
      ensures r.token in old(state.tokens) ==>
                && state.wired == []
                && (o.Done? ==> old(state.tokens)[r.token] == r.digest && world.g.row.Some? && Bounded(world.g.row.value))
      ensures o.Done? ==> saved && Continued(r, state.wired)
      ensures saved ==> world.g.row.Some? && Recorded(r, old(state.ToRow()), world.g.row.value, state.wired, o)
    {
      hide Exec, Fit, Tracked;
      o := state.Continue(r);
      ghost var run, g := world.run, world.g;
      o, saved := Leave(state, o);
      RowsFollow(run, g);
    }

    method Get(handle: Handle) returns (snapshot: Option<Snapshot>, o: Outcome)
      requires Free()
      modifies world
      ensures GoesOn(old(world.run), old(world.g.row)) && world.Complete(o)
      ensures o.Done? ==> world.g.row.Some? && snapshot == world.g.row.value.snapshot
    {
      hide Exec, Fit, Tracked;
      ghost var run, g := world.run, world.g;
      snapshot := None;
      var op, row, state;
      op, row, o := Enter();
      RowsFollow(run, g);
      if !o.Done? { return; }
      if row.None? {
        o := Raised("A2A_INVOCATION_NOT_FOUND");
        world.Finish(op);
      } else {
        state, o := Resume(op, row.value);
        if o.Done? {
          if HandleConflicts(state.handle, handle) { o := Raised("A2A_HANDLE_CONFLICT"); } else { o := state.GetSnapshot(); }
          ghost var saved;
      o, saved := Leave(state, o);
        }
        snapshot := state.snapshot;
      }
      RowsFollow(run, g);
    }

    /** What each outcome of a cancel is evidence of, whoever interferes; a remote cancellation
        was read back since `from`. */
    ghost predicate Proved(result: CancelResult, from: nat)
      reads world
    {
      && result.Valid()
      && (result.outcome == LocalCancelledBeforeSend ==> ClosedUnsent(world.g.row) && world.g.sends == [])
      && (result.outcome == RemoteCancelled ==> exists op :: WasRead(world.run, from, op, TaskCanceled))
      && (result.outcome == AlreadyTerminal ==> result.snapshot.Some? && result.snapshot.value.Terminal())
    }

    lemma EarlierProved(result: CancelResult, from: nat, from': nat)
      requires Proved(result, from) && from' <= from
      ensures Proved(result, from')
    {
      hide WasRead;
      if result.outcome == RemoteCancelled {
        var op :| WasRead(world.run, from, op, TaskCanceled);
        WasReadLater(world.run, from, world.run, from', op, TaskCanceled);
      }
    }

    /** Cancels a call; while another worker holds its lease, the wish is left for that worker. */
    method Cancel(handle: Handle) returns (result: Option<CancelResult>, o: Outcome)
      requires Free()
      modifies world
      ensures GoesOn(old(world.run), old(world.g.row)) && world.Complete(o)
      ensures o.Done? ==> result.Some? && Proved(result.value, |old(world.run)|)
    {
      hide Exec, Fit, Tracked;
      ghost var run, g := world.run, world.g;
      result := None;
      var op, row, state;
      op, row, o := Enter();
      RowsFollow(run, g);
      if o == Raised(BUSY) {
        result, o := CancelWhileBusy(handle);
      } else if o.Done? && row.None? {
        o := Raised("A2A_INVOCATION_NOT_FOUND");
        world.Finish(op);
      } else if o.Done? {
        state, o := Resume(op, row.value);
        ghost var from := |world.run|;
        if o.Done? { result, o := CancelHeld(state, handle); }
        if o.Done? { EarlierProved(result.value, from, |run|); }
      }
      RowsFollow(run, g);
    }

    method CancelHeld(state: InvocationOperation, handle: Handle) returns (result: Option<CancelResult>, o: Outcome)
      requires Opened(state)
      modifies world, state
      ensures world.Sound() && old(world.run) <= world.run && world.Complete(o)
      ensures o.Done? ==> result.Some? && Proved(result.value, |old(world.run)|)
    {
      hide Exec, Fit, Tracked;
      result := None;
      if HandleConflicts(state.handle, handle) {
        ghost var saved;
        o, saved := Leave(state, Raised("A2A_HANDLE_CONFLICT"));
        return;
      }
      var verdict;
      verdict, o := state.Cancel();
      ghost var run, g := world.run, world.g;
      ghost var saved;
      o, saved := Leave(state, o);
      RowsFollow(run, g);
      result := Some(verdict);
      if o.Done? && verdict.outcome == RemoteCancelled {
        WasReadLater(run, |old(world.run)|, world.run, |old(world.run)|, state.op, TaskCanceled);
      }
    }

    method CancelWhileBusy(handle: Handle) returns (result: Option<CancelResult>, o: Outcome)
      requires Free()
      modifies world
      ensures world.Sound() && old(world.run) <= world.run && world.Complete(o)
      ensures o.Done? ==> result.Some? && Proved(result.value, |old(world.run)|) && world.g.cancelFlag
      ensures o.Done? ==> result.value.outcome in {AlreadyTerminal, RequestedButUnknown}
    {
      hide Exec;
      result := None;
      var row;
      row, o := world.RequestCancel(inst, handle);
      if !o.Done? { return; }
      var snapshot := Restored(row.value);
      if snapshot.Some? && !snapshot.value.Valid() { o := Raised("A2A_SNAPSHOT_INVALID"); return; }
      var ended := snapshot.Some? && snapshot.value.Terminal();
      var verdict := CancelResult(row.value.handle, if ended then AlreadyTerminal else RequestedButUnknown, snapshot);
      if !verdict.Valid() { o := Raised("A2A_CANCEL_RESULT_INVALID"); return; }
      result := Some(verdict);
    }
  }
}
