/** One operation of the invocation service on one scope: the volatile state record and the
    methods that publish, send, observe and cancel. Every method keeps the operation's
    discipline at every await, so that a crash or a final save may happen anywhere. */
module InvocationService {
  import opened Basics
  import opened InvocationTypes
  import opened InvocationProtocol
  import opened InvocationSafety
  import opened InvocationSpool
  import opened InvocationTheorems
  import opened InvocationWorld

  // --------------------------------------------- what keeps a row fit to be saved

  /** The spool in memory is what is left of the spool last saved, or of one whose save has
      failed and of which `lost` is not yet published. */
  predicate Tracked(base: Option<Row>, lost: Option<seq<Event>>, pending: seq<Event>, log: seq<Event>) {
    || (if base.None? then pending == [] else Drained(base.value.pending, pending, log))
    || (lost.Some? && Drained(pending, lost.value, log))
  }

  predicate Fit(base: Option<Row>, r: Row, log: seq<Event>) {
    RowInv(r) && Evolves(base, r, log)
  }

  predicate Steady(base: Option<Row>, lost: Option<seq<Event>>, r: Row, log: seq<Event>) {
    Fit(base, r, log) && Tracked(base, lost, r.pending, log)
  }

  lemma FitRow(base: Option<Row>, r: Row, log: seq<Event>)
    requires Fit(base, r, log)
    ensures RowInv(r)
  {
  }

  lemma DrainedLater(before: seq<Event>, after: seq<Event>, log: seq<Event>, log': seq<Event>)
    requires Drained(before, after, log) && log <= log'
    ensures Drained(before, after, log')
  {
    var k :| 0 <= k <= |before| && Published(before[..k], log) && after == before[k..];
    assert Published(before[..k], log');
  }

  lemma NothingDrained(es: seq<Event>, log: seq<Event>)
    ensures Drained(es, es, log)
  {
    assert es[0..] == es && Published(es[..0], log);
  }

  lemma SteadyLater(base: Option<Row>, lost: Option<seq<Event>>, r: Row, log: seq<Event>, log': seq<Event>)
    requires Steady(base, lost, r, log) && log <= log'
    ensures Steady(base, lost, r, log')
  {
    hide Drained;
    assert Evolves(base, r, log') by { EvolvesLater(base, r, log, log'); }
    if base.Some? && Drained(base.value.pending, r.pending, log) { DrainedLater(base.value.pending, r.pending, log, log'); }
    if lost.Some? && Drained(r.pending, lost.value, log) { DrainedLater(r.pending, lost.value, log, log'); }
  }

  lemma SteadySaved(lost: Option<seq<Event>>, r: Row, log: seq<Event>)
    requires RowInv(r)
    ensures Steady(Some(r), lost, r, log)
  {
    EvolvesSame(r, log);
    NothingDrained(r.pending, log);
  }

  /** A batch whose save has failed is in memory, and wholly lost. */
  lemma SteadyUnsaved(base: Option<Row>, r: Row, log: seq<Event>)
    requires Fit(base, r, log)
    ensures Steady(base, Some(r.pending), r, log)
  {
    NothingDrained(r.pending, log);
  }

  /** The head of a steady spool is due: next of the committed one, published, or first lost. */
  lemma HeadIsDue(base: Option<Row>, lost: Option<seq<Event>>, r: Row, log: seq<Event>)
    requires Steady(base, lost, r, log) && base.Some? && r.pending != []
    ensures NextUp(base.value.pending, log, r.pending[0]) || r.pending[0] in log
         || (lost.Some? && lost.value != [] && lost.value[0] == r.pending[0])
  {
    hide Fit;
    if Drained(base.value.pending, r.pending, log) {
      var k :| 0 <= k <= |base.value.pending| && Published(base.value.pending[..k], log)
               && r.pending == base.value.pending[k..];
      assert base.value.pending[k] == r.pending[0];
    } else {
      var k :| 0 <= k <= |r.pending| && Published(r.pending[..k], log) && lost.value == r.pending[k..];
      if k > 0 { assert r.pending[0] == r.pending[..k][0]; }
    }
  }

  lemma DrainedPop(before: seq<Event>, after: seq<Event>, log: seq<Event>)
    requires Drained(before, after, log) && after != [] && after[0] in log
    ensures Drained(before, after[1..], log)
  {
    var k :| 0 <= k <= |before| && Published(before[..k], log) && after == before[k..];
    assert before[..k + 1] == before[..k] + [after[0]];
    assert after[1..] == before[k + 1..];
  }

  /** What the lost spool is after its head may have been published with the head of the other. */
  predicate LostAfter(lost: Option<seq<Event>>, e: Event, log: seq<Event>, lost': Option<seq<Event>>) {
    || lost' == lost
    || (lost.Some? && lost.value != [] && lost.value[0] == e && lost' == Some(lost.value[1..]) && e in log)
  }

  lemma SteadyPublished(base: Option<Row>, lost: Option<seq<Event>>, r: Row, log: seq<Event>, lost': Option<seq<Event>>)
    requires Steady(base, lost, r, log) && r.pending != [] && LostAfter(lost, r.pending[0], log, lost')
    ensures Steady(base, lost', r, log)
  {
    hide Fit, Drained;
    if lost' != lost && Drained(r.pending, lost.value, log) { DrainedPop(r.pending, lost.value, log); }
  }

  /** A lost spool of which the head is published and popped is what the rest in memory is tracked by. */
  lemma LostPop(pending: seq<Event>, lost: seq<Event>, log: seq<Event>)
    requires Drained(pending, lost, log) && pending != [] && |lost| != |pending|
    ensures Drained(pending[1..], lost, log)
  {
    var k :| 0 <= k <= |pending| && Published(pending[..k], log) && lost == pending[k..];
    assert pending[1..][..k - 1] == pending[1..k] && pending[1..][k - 1..] == lost;
    assert forall e <- pending[1..k] :: e in pending[..k];
  }

  /** The published head may be popped: what tracked the spool tracks the rest. */
  lemma PopSteady(base: Option<Row>, lost: Option<seq<Event>>, r: Row, log: seq<Event>, lost': Option<seq<Event>>)
    requires Steady(base, lost, r, log) && r.pending != [] && r.pending[0] in log
    requires lost' == if lost.Some? && lost.value != [] && lost.value[0] == r.pending[0] then Some(lost.value[1..]) else lost
    ensures Steady(base, lost', r.(pending := r.pending[1..]), log)
  {
    hide Tracked;
    PopFit(base, r, log);
    PopTracked(base, lost, r.pending, log, lost');
  }

  lemma PopFit(base: Option<Row>, r: Row, log: seq<Event>)
    requires Fit(base, r, log) && r.pending != [] && r.pending[0] in log
    ensures Fit(base, r.(pending := r.pending[1..]), log)
  {
    var r' := r.(pending := r.pending[1..]);
    if base.Some? && Drained(base.value.pending, r.pending, log) { DrainedPop(base.value.pending, r.pending, log); }
    assert r.pending == [r.pending[0]] + r'.pending;
    FactsCarry(r, log, r', log);
  }

  lemma PopTracked(base: Option<Row>, lost: Option<seq<Event>>, pending: seq<Event>, log: seq<Event>, lost': Option<seq<Event>>)
    requires Tracked(base, lost, pending, log) && pending != [] && pending[0] in log
    requires lost' == if lost.Some? && lost.value != [] && lost.value[0] == pending[0] then Some(lost.value[1..]) else lost
    ensures Tracked(base, lost', pending[1..], log)
  {
    hide Drained;
    if base.Some? && Drained(base.value.pending, pending, log) {
      DrainedPop(base.value.pending, pending, log);
    } else if |lost.value| == |pending| {
      SameDrained(pending, lost.value, log);
      NothingDrained(pending[1..], log);
    } else {
      LostPop(pending, lost.value, log);
      if lost' != lost { DrainedPop(pending[1..], lost.value, log); }
    }
  }

  lemma SameDrained(before: seq<Event>, after: seq<Event>, log: seq<Event>)
    requires Drained(before, after, log) && |after| == |before|
    ensures before == after
  {
  }

  /** Fields the discipline does not speak of. */
  predicate SameButNotes(r: Row, r': Row) {
    r' == r.(cursor := r'.cursor, lastEvent := r'.lastEvent, source := r'.source, continuationId := r'.continuationId,
             pendingInput := r'.pendingInput, pendingContinuation := r'.pendingContinuation)
  }

  lemma NotesSteady(base: Option<Row>, lost: Option<seq<Event>>, r: Row, r': Row, log: seq<Event>)
    requires Steady(base, lost, r, log) && SameButNotes(r, r')
    ensures Steady(base, lost, r', log)
  {
    FactsCarry(r, log, r', log);
  }

  /** A batch that closes nothing but the current descriptor and completes no item. */
  predicate Plain(batch: seq<Event>, d: Descriptor) {
    forall e <- batch :: !Completion(e) && (ClosingFact(e) ==> e.descriptor == d && d.Terminal())
  }

  lemma PlainBatchFits(base: Option<Row>, lost: Option<seq<Event>>, r: Row, batch: seq<Event>, log: seq<Event>)
    requires Steady(base, lost, r, log) && base.Some? && r.pending == [] && Plain(batch, r.descriptor)
    ensures Fit(base, r.(pending := batch), log)
  {
    var r' := r.(pending := batch);
    EmptySpoolPublished(base.value, r, log);
    FactsCarry(r, log, r', log);
  }

  lemma EmptySpoolPublished(b: Row, r: Row, log: seq<Event>)
    requires Fit(Some(b), r, log) && r.pending == []
    ensures Published(b.pending, log)
  {
    if Drained(b.pending, r.pending, log) {
      var k :| 0 <= k <= |b.pending| && Published(b.pending[..k], log) && r.pending == b.pending[k..];
      assert b.pending[..k] == b.pending;
    }
  }

  /** A descriptor that may replace the row's own. */
  predicate Describes(r: Row, d: Descriptor) {
    && d.Valid() && d.locator == r.descriptor.locator
    && (r.descriptor.Terminal() ==> d == r.descriptor)
    && (d.cancel.requestState == LocalConfirmed ==> !r.sendEntered)
    && (r.Untouched() ==> d.status in {Submitted, Cancelled})
  }

  lemma OpenDescriptorSteady(base: Option<Row>, lost: Option<seq<Event>>, r: Row, d: Descriptor, log: seq<Event>)
    requires Steady(base, lost, r, log) && base.Some? && Describes(r, d)
    requires d.Terminal() ==> d == r.descriptor
    ensures Steady(base, lost, r.(descriptor := d), log)
  {
    FactsCarry(r, log, r.(descriptor := d), log);
  }

  /** Setting a terminal descriptor together with its fact, on an empty spool. */
  lemma ClosingFits(base: Option<Row>, lost: Option<seq<Event>>, r: Row, d: Descriptor, at: nat, log: seq<Event>)
    requires Steady(base, lost, r, log) && base.Some? && Describes(r, d) && d.Terminal() && r.pending == []
    ensures Fit(base, r.(descriptor := d, pending := [ScopeFact(ItemCompleted, d, at)]), log)
  {
    var r' := r.(descriptor := d, pending := [ScopeFact(ItemCompleted, d, at)]);
    EmptySpoolPublished(base.value, r, log);
    FactsCarry(r, log, r', log);
    assert r'.pending[0] in log + r'.pending;
  }

  /** A new descriptor may be set and its fact published: together on an empty spool, behind
      the older spool when the fact closes nothing new. */
  lemma DescriptionPublishable(base: Option<Row>, lost: Option<seq<Event>>, r: Row, d: Descriptor, kind: FactKind, log: seq<Event>)
    requires Steady(base, lost, r, log) && base.Some? && Describes(r, d)
    requires kind == ItemCompleted <==> d.Terminal()
    requires d.Terminal() && !r.descriptor.Terminal() ==> r.pending == []
    ensures var fact := ScopeFact(kind, d, r.cursor);
            if r.pending == [] then Fit(base, r.(descriptor := d, pending := [fact]), log)
            else Steady(base, lost, r.(descriptor := d), log) && Plain([fact], d)
  {
    hide Fit, Tracked;
    if d.Terminal() && r.pending == [] {
      ClosingFits(base, lost, r, d, r.cursor, log);
    } else {
      OpenDescriptorSteady(base, lost, r, d, log);
      if r.pending == [] { PlainBatchFits(base, lost, r.(descriptor := d), [ScopeFact(kind, d, r.cursor)], log); }
    }
  }

  /** What the service checks before it replaces the descriptor makes the new one describe the row. */
  lemma CheckedDescription(base: Option<Row>, lost: Option<seq<Event>>, r: Row, d: Descriptor, log: seq<Event>)
    requires Steady(base, lost, r, log) && d.Valid() && d.locator == r.descriptor.locator
    requires r.descriptor.Terminal() ==> TransitionAllowed(r.descriptor, d)
    requires d.cancel == r.descriptor.cancel || d.cancel.requestState != LocalConfirmed || !r.sendEntered
    requires r.Untouched() ==> d.status in {Submitted, Cancelled}
    ensures Describes(r, d)
  {
  }

  lemma SnapshotSteady(base: Option<Row>, lost: Option<seq<Event>>, r: Row, s: Snapshot, log: seq<Event>)
    requires Steady(base, lost, r, log) && base.Some? && !r.TerminalSnapshot() && s.Valid()
    requires s.Terminal() ==> r.descriptor.Terminal()
    requires r.Untouched() ==> s.status == Seen(Cancelled)
    ensures Steady(base, lost, r.(snapshot := Some(s)), log)
  {
    FactsCarry(r, log, r.(snapshot := Some(s)), log);
  }

  lemma HandleSteady(base: Option<Row>, lost: Option<seq<Event>>, r: Row, h: Handle, log: seq<Event>)
    requires Steady(base, lost, r, log) && base.Some? && h.Valid() && LocatorsKept(r.handle, h)
    ensures Steady(base, lost, r.(handle := h), log)
  {
    FactsCarry(r, log, r.(handle := h), log);
  }

  // ------------------------------------------------------------- mapped batches

  predicate CompletesOnce(events: seq<Event>) {
    forall i :: 0 <= i < |events| && Completion(events[i]) ==>
      forall j :: 0 <= j < i ==> !Completes(events[j], events[i].body.itemId)
  }

  /** What the adapter makes of native reports: every occurrence gets the next number, and an
      item that is already complete is not completed again. */
  function MapEvents(a: Adapter, bodies: seq<Body>): (r: (Adapter, seq<Event>))
    ensures a.completed <= r.0.completed
    ensures forall e <- r.1 :: e.Mapped?
    ensures forall e <- r.1 :: Completion(e) ==> e.body.itemId !in a.completed && e.body.itemId in r.0.completed
    ensures CompletesOnce(r.1)
    decreases |bodies|
  {
    if bodies == [] then (a, [])
    else
      var body := bodies[0];
      if body.ItemDone? && body.itemId in a.completed then MapEvents(a, bodies[1..])
      else
        var a' := Adapter(a.next + 1, if body.ItemDone? then a.completed + {body.itemId} else a.completed);
        var rest := MapEvents(a', bodies[1..]);
        (rest.0, [Mapped(a.next, body)] + rest.1)
  }

  /** A mapped batch, the adapter that made it and the references it adds, on an empty spool. */
  lemma MappedFits(base: Option<Row>, lost: Option<seq<Event>>, r: Row, r': Row, a: Adapter, batch: seq<Event>, log: seq<Event>)
    requires Steady(base, lost, r, log) && base.Some? && r.pending == [] && r.adapter.Some?
    requires r.Done() <= a.completed
    requires SameButNotes(r.(adapter := Some(r.adapter.value.(adapter := a)), refs := r'.refs, pending := batch), r')
    requires CompletesOnce(batch)
    requires forall e <- batch :: e.Mapped?
    requires forall e <- batch :: Completion(e) ==> e.body.itemId !in r.Done() && e.body.itemId in a.completed
    requires forall ref <- r'.refs :: ref in r.refs || exists e <- batch :: Produces(e, r.handle.Scope(), ref)
    ensures Fit(base, r', log)
  {
    EmptySpoolPublished(base.value, r, log);
    FactsCarry(r, log, r', log);
    forall ref | ref in r'.refs && ref !in r.refs ensures CoveredIn(r', log, ref) {
      var e :| e in batch && Produces(e, r.handle.Scope(), ref);
      assert e in log + r'.pending && Covers(e, ref);
    }
    assert FreshBatch(base.value, r');
  }

  /** All but what concerns the remote run itself. */
  function Forwarded(events: seq<Event>): seq<Event> {
    if events == [] then []
    else (if events[0].Mapped? && events[0].body.RunBody? then [] else [events[0]]) + Forwarded(events[1..])
  }

  lemma {:induction false} ForwardedOneMore(events: seq<Event>, e: Event)
    ensures Forwarded(events + [e]) == Forwarded(events) + (if e.Mapped? && e.body.RunBody? then [] else [e])
  {
    if events != [] {
      ForwardedOneMore(events[1..], e);
      assert (events + [e])[1..] == events[1..] + [e];
    }
  }

  lemma {:induction false} ForwardedKeeps(events: seq<Event>)
    requires CompletesOnce(events)
    ensures CompletesOnce(Forwarded(events))
    ensures forall e :: e in Forwarded(events) <==> e in events && !(e.Mapped? && e.body.RunBody?)
  {
    if events != [] {
      var head, rest := events[0], events[1..];
      assert events == [head] + rest;
      assert CompletesOnce(rest) by {
        forall i, j | 0 <= j < i < |rest| && Completion(rest[i]) ensures !Completes(rest[j], rest[i].body.itemId) {
          assert rest[i] == events[i + 1] && rest[j] == events[j + 1];
        }
      }
      ForwardedKeeps(rest);
      var kept := Forwarded(events);
      if !(head.Mapped? && head.body.RunBody?) {
        forall i, j | 0 <= j < i < |kept| && Completion(kept[i]) ensures !Completes(kept[j], kept[i].body.itemId) {
          assert kept[i] == Forwarded(rest)[i - 1] && kept[i] in rest;
          if j > 0 { assert kept[j] == Forwarded(rest)[j - 1]; }
          else {
            var k :| 0 <= k < |rest| && rest[k] == kept[i];
            assert events[k + 1] == kept[i];
          }
        }
      }
    }
  }

  predicate Shown(parts: seq<Part>, id: string) { exists p <- parts :: p.isText && p.partId == id }

  /** The event completes an output item of the scope with the referenced text part. */
  predicate Produces(e: Event, scope: ScopeId, ref: OutputRef) {
    Completes(e, ref.itemId) && e.body.carriesOutput && ref.scopeId == scope && Shown(e.body.parts, ref.partId)
  }

  lemma ContextSteady(base: Option<Row>, lost: Option<seq<Event>>, r: Row, a: Adapter, c: Context, log: seq<Event>)
    requires Steady(base, lost, r, log) && r.Done() == a.completed
    requires base.Some? && r.handle.platformTask.Some?
    ensures Steady(base, lost, r.(adapter := Some(AdapterCheckpoint(a, c))), log)
  {
    FactsCarry(r, log, r.(adapter := Some(AdapterCheckpoint(a, c))), log);
  }

  /** Whatever an operation has in memory once its spool is out, a replay finds its facts. */
  lemma StateReplays(c: Config, run: seq<Label>, g: Global, base: Option<Row>, r: Row)
    requires c.serial && c.failStop && Reaches(c, run, g) && (exists op <- g.base :: g.base[op] == base)
    requires base.Some? && Fit(base, r, g.log) && r.pending == []
    ensures Replays(r, g.log)
  {
    RunKeepsSpool(c, run, g);
    BackedSave(base.value, r, g.log);
    BackedReplays(c, run, g, r);
  }

  lemma StillThere(a: seq<Event>, b: seq<Event>, n: nat)
    requires n <= |a| && a <= b
    ensures forall e <- a[n..] :: e in b[n..]
  {
    assert forall i :: 0 <= i < |a| - n ==> a[n..][i] == b[n..][i];
  }

  /** A row that says it was closed locally was never sent, and never will be. */
  lemma LocallyClosedIsUnsent(c: Config, run: seq<Label>, g: Global, run': seq<Label>, g': Global, d: Descriptor)
    requires c.serial && Reaches(c, run, g) && Reaches(c, run', g') && run <= run'
    requires Closed(d, g.row) && d.cancel.requestState == LocalConfirmed
    ensures ClosedUnsent(g'.row) && g'.sends == []
  {
    RunKeepsSendInv(c, run, g);
    assert run' == run + run'[|run|..];
    ClosedUnsentNeverSends(c, run, g, run'[|run|..], g');
  }

  /** What must hold for `token` to be sent: nothing was sent under it, and the call is open. */
  predicate Sendable(base: Row, r: Row, token: string) {
    && !r.descriptor.Terminal() && r.handle.platformTask.Some? && token in r.tokens
    && (if token == r.request.token then r.Untouched() else token !in base.tokens)
  }

  /** Turning a sendable state into "possibly sent" is a send receipt. */
  lemma ReceiptFits(base: Row, r: Row, token: string, log: seq<Event>)
    requires Fit(Some(base), r, log) && Sendable(base, r, token)
    ensures Discipline(Some(base), r.(sendEntered := true), log, Some(token))
  {
    FactsCarry(r, log, r.(sendEntered := true), log);
  }

  lemma BegunFits(r: Row, log: seq<Event>)
    requires RowInv(r) && FirstRow(r)
    ensures Fit(None, r, log)
  {
  }

  lemma TokensSteady(base: Option<Row>, lost: Option<seq<Event>>, r: Row, token: string, digest: string, log: seq<Event>)
    requires Steady(base, lost, r, log) && base.Some? && (token in r.tokens ==> r.tokens[token] == digest)
    ensures token !in r.tokens ==> token !in base.value.tokens
    ensures Steady(base, lost, r.(tokens := r.tokens[token := digest]), log)
  {
    FactsCarry(r, log, r.(tokens := r.tokens[token := digest]), log);
  }

  /** When a closed row's own status makes a valid snapshot. */
  lemma RepairedSnapshot(r: Row)
    requires RowInv(r) && r.descriptor.Terminal()
    ensures Snapshot(r.handle, Seen(r.descriptor.status), r.source, r.cursor, r.lastEvent, r.refs, None, None).Valid()
       <==> r.descriptor.status != Failed && (r.source == Local || r.handle.remoteTask.Some?)
  {
  }

  /** The durable row carries this closed descriptor. */
  predicate Closed(d: Descriptor, row: Option<Row>) {
    row.Some? && d.Terminal() && row.value.descriptor == d
  }

  /** A closed row stays as it was closed, whoever saves next. */
  lemma ClosedStays(c: Config, run: seq<Label>, g: Global, run': seq<Label>, g': Global, d: Descriptor)
    requires c.serial && Reaches(c, run, g) && Reaches(c, run', g') && run <= run'
    requires Closed(d, g.row)
    ensures Closed(d, g'.row)
  {
    assert run' == run + run'[|run|..];
    CheckpointChain(c, run, g, run'[|run|..], g');
  }

  /** The last closing fact of the scope and, by item, the last completion in a list of facts. */
  method IndexCompletions(facts: seq<Event>) returns (closing: Option<Event>, completed: map<string, nat>)
    ensures closing.Some? ==> exists i: nat :: LastClosing(facts, i) && facts[i] == closing.value
    ensures closing.None? ==> forall e <- facts :: !ClosingFact(e)
    ensures forall e <- facts :: Completion(e) ==> e.body.itemId in completed
    ensures forall item <- completed :: LastCompletion(facts, completed[item], item)
  {
    closing, completed := None, map[];
    ghost var last := 0;
    for i := 0 to |facts|
      invariant closing.Some? ==> last < i && facts[last] == closing.value && ClosingFact(closing.value)
      invariant closing.Some? ==> forall j :: last < j < i ==> !ClosingFact(facts[j])
      invariant closing.None? ==> forall j :: 0 <= j < i ==> !ClosingFact(facts[j])
      invariant forall j :: 0 <= j < i && Completion(facts[j]) ==> facts[j].body.itemId in completed
      invariant forall item <- completed :: completed[item] < i && Completes(facts[completed[item]], item)
      invariant forall item <- completed :: forall j :: completed[item] < j < i ==> !Completes(facts[j], item)
    {
      if ClosingFact(facts[i]) { closing, last := Some(facts[i]), i; }
      if Completion(facts[i]) { completed := completed[facts[i].body.itemId := i]; }
    }
  }

  /** What the receiving loop is handed: a native report, or a cancel request it served. */
  datatype Arrival = Payload(choice: Choice) | Delivery(events: seq<Event>, terminal: bool)

  function TaskOf(native: Native): Option<RemoteTask> {
    if native.NativeTask? || native.NativeStatus? then Some(native.task) else None
  }

  /** The remote task and context that a report names. */
  function Names(native: Native): (Option<string>, Option<string>) {
    match native
    case NativeTask(t) => (t.taskId, t.contextId)
    case NativeStatus(t) => (t.taskId, t.contextId)
    case NativeMessage(t, c) => (t, c)
    case NativeOther(t, c) => (t, c)
    case _ => (None, None)
  }

  lemma RecordsStep(c: Config, g: Global, l: Label)
    ensures g.sends <= Next(c, g, l).sends && g.log <= Next(c, g, l).log
  {
    if !l.Save? && !l.OpenStream? { OnlySavesAndSends(c, g, l); }
  }

  /** What was sent and what was logged stays so. */
  lemma {:induction false} RecordsOnlyGrow(c: Config, run: seq<Label>, g: Global, run': seq<Label>, g': Global)
    requires c.serial && Reaches(c, run, g) && Reaches(c, run', g') && run <= run'
    ensures g.sends <= g'.sends && g.log <= g'.log
    decreases |run'| - |run|
  {
    hide Enabled, Next;
    if run == run' { return; }
    var last := |run'| - 1;
    assert run <= run'[..last];
    var before := Exec(c, run'[..last]).value;
    RecordsOnlyGrow(c, run, g, run'[..last], before);
    RecordsStep(c, before, run'[last]);
  }

  class InvocationOperation {
    const world: World
    const op: OpId
    const dispatches: bool

    var request: Request
    var handle: Handle
    var descriptor: Descriptor
    var adapter: Adapter
    var context: Option<Context>
    var snapshot: Option<Snapshot>
    var sendEntered: bool
    var active: bool
    var tokens: map<string, string>
    var refs: seq<OutputRef>
    var continuationId: Option<string>
    var pendingContinuation: Option<Continuation>
    var pendingInput: Option<Event>
    var source: Source
    var cursor: nat
    var lastEvent: Option<Event>
    var pending: seq<Event>
    var cancelCheckedFor: Option<(Option<string>, Option<string>)>
    var delivered: seq<Event>          // what the generators have yielded
    var seen: Option<set<Event>>       // while a replay is followed, what it has delivered
    var since: nat                     // where in the deliveries that replay began
    var muted: bool                    // a generator runs for its effects only
    var wired: seq<string>            // the tokens it has gone to the wire with

    /** The state a saved row stands for. */
    constructor Restore(world: World, op: OpId, dispatches: bool, row: Row)
      requires world.Loaded(op) && world.g.base[op] == Some(row)
      ensures this.world == world && this.op == op && this.dispatches == dispatches
      ensures ToRow() == row && Ready() && !active && delivered == [] && seen.None? && !muted && wired == []
    {
      this.world, this.op, this.dispatches := world, op, dispatches;
      request, handle, sendEntered, descriptor := row.request, row.handle, row.sendEntered, row.descriptor;
      adapter := if row.adapter.Some? then row.adapter.value.adapter else Adapter(0, {});
      context := if row.adapter.Some? then Some(row.adapter.value.context) else None;
      snapshot, tokens, refs, continuationId := row.snapshot, row.tokens, row.refs, row.continuationId;
      pendingContinuation, pendingInput, source := row.pendingContinuation, row.pendingInput, row.source;
      cursor, lastEvent, pending := row.cursor, row.lastEvent, row.pending;
      active, cancelCheckedFor, delivered, seen, since, muted, wired := false, None, [], None, 0, false, [];
      new;
      RunKeepsSendInv(world.config, world.run, world.g);
      SteadySaved(Missing(), row, world.g.log);
    }

    /** Gives a restored closed call the snapshot it lacks. Restoring is not total: a failed
        call, or one read from a source without a task, has no such snapshot. */
    method Repair() returns (o: Outcome)
      requires Ready()
      modifies `snapshot
      ensures Ready() && (o.Done? || o.Raised?) && Outside(o)
      ensures o.Raised? <==> old(descriptor.Terminal() && snapshot.None?
                                 && (descriptor.status == Failed || (source != Local && handle.remoteTask.None?)))
      ensures o.Done? && descriptor.Terminal() ==> snapshot.Some?
      ensures old(snapshot.Some? || !descriptor.Terminal()) ==> snapshot == old(snapshot)
    {
      hide Tracked, Exec, Fit, Deduped;
      o := Done;
      FitRow(Base(), ToRow(), world.g.log);
      if descriptor.Terminal() { RepairedSnapshot(ToRow()); }
      if descriptor.Terminal() && snapshot.None? { o := TakeSnapshot(Seen(descriptor.status), None); }
    }

    /** The state of a first invocation. */
    constructor Begin(world: World, op: OpId, dispatches: bool, request: Request, descriptor: Descriptor)
      requires world.Loaded(op) && world.g.base[op].None?
      ensures this.world == world && this.op == op && this.dispatches == dispatches
      ensures this.request == request && handle == request.handle && this.descriptor == descriptor
      ensures !sendEntered && snapshot.None? && pending == [] && refs == [] && tokens == map[] && context.None?
      ensures adapter.completed == {} && cursor == 0 && source == Local && !active && delivered == []
      ensures continuationId.None? && seen.None? && !muted && wired == []
    {
      this.world, this.op, this.dispatches := world, op, dispatches;
      this.request, handle, sendEntered, this.descriptor := request, request.handle, false, descriptor;
      adapter, context, snapshot := Adapter(0, {}), None, None;
      tokens, refs, continuationId, pendingContinuation, pendingInput := map[], [], None, None, None;
      source, cursor, lastEvent, pending := Local, 0, None, [];
      active, cancelCheckedFor, delivered, seen, since, muted, wired := false, None, [], None, 0, false, [];
    }

    // ------------------------------------------------ the checkpoint of the state

    /** The row a save writes. */
    function ToRow(): Row
      reads this
    {
      Row(request, handle, sendEntered, descriptor,
          if context.Some? then Some(AdapterCheckpoint(adapter, context.value)) else None,
          snapshot, tokens, refs, continuationId, pendingContinuation, pendingInput, source, cursor, lastEvent, pending)
    }

    ghost function Base(): Option<Row>
      reads world
      requires world.Loaded(op)
    {
      world.g.base[op]
    }

    /** What is not yet published of a spool whose save has failed. */
    ghost function Missing(): Option<seq<Event>>
      reads world
    {
      Lost(world.g, op)
    }

    /** The state is what the operation last saved, and nobody has saved since. */
    ghost predicate Stored()
      reads this, world
      requires world.Loaded(op)
    {
      Base() == Some(ToRow()) && world.g.row == Base()
    }

    /** While repeats are filtered, nothing was delivered twice since the filter was set. */
    ghost predicate Deduped()
      reads `seen, `since, `delivered
    {
      seen.Some? ==>
        && since <= |delivered| && NoRepeats(delivered[since..])
        && forall e :: e in seen.value <==> e in delivered[since..]
    }

    /** What has been handed out since: only more, and nothing while muted. */
    ghost predicate Heard(delivered': seq<Event>, seen': Option<set<Event>>)
      reads `seen, `delivered, `muted
    {
      delivered' <= delivered && seen.Some? == seen'.Some? && (muted ==> delivered == delivered' && seen == seen')
    }

    /** The state may be saved as it is: true at every await, so an abort may save it. */
    ghost predicate Savable()
      reads this, world
    {
      && world.Loaded(op) && Fit(Base(), ToRow(), world.g.log)
      && (context.None? ==> adapter.completed == {}) && Deduped()
    }

    /** Savable, and nothing in memory waits for its first save to be published. */
    ghost predicate Ready()
      reads this, world
    {
      && world.Loaded(op) && Base().Some? && Steady(Base(), Missing(), ToRow(), world.g.log)
      && (context.None? ==> adapter.completed == {}) && Deduped()
    }

    ghost predicate After(o: Outcome)
      reads this, world
    {
      && world.Sound()
      && (o.Done? || o.Raised? ==> Ready())
      && (o.Interrupted? ==> Savable())
    }

    /** The run goes on from where it was: nothing is taken back. */
    ghost predicate Since(run: seq<Label>, log: seq<Event>, left: nat, o: Outcome)
      reads world
    {
      run <= world.run && |world.script| <= left && (!o.Crashed? ==> log <= world.g.log)
    }

    /** The operation's send receipt, if any, is as it was. */
    ghost predicate Sealed(before: Global, o: Outcome)
      reads world
    {
      !o.Crashed? ==>
        && (op in world.g.grants <==> op in before.grants)
        && (op in world.g.grants ==> world.g.grants[op] == before.grants[op])
    }

    predicate Untouched() reads this { !sendEntered && handle.remoteTask.None? }

    predicate Ended() reads `snapshot { snapshot.Some? && snapshot.value.Terminal() }

    lemma EndedIsTerminal()
      requires Ready()
      ensures Ended() ==> descriptor.Terminal()
      ensures descriptor.Terminal() && Untouched() ==> descriptor.status == Cancelled
      ensures Untouched() && snapshot.Some? ==> Ended()
      ensures !Untouched() ==> handle.platformTask.Some?
      ensures request.token in tokens && tokens[request.token] == request.digest
    {
    }

    lemma ReadyIsSound()
      requires Ready()
      ensures world.Sound()
    {
    }

    /** Nothing of the call is saved yet. */
    ghost predicate Unfiled()
      reads this, world
    {
      Savable() && Base().None? && !sendEntered && snapshot.None?
    }

    /** As after any method, but that the first save of all may have failed. */
    ghost predicate AfterFirst(o: Outcome)
      reads this, world
    {
      && world.Sound()
      && (o.Done? ==> Ready())
      && (o.Raised? ==> Ready() || Unfiled())
      && (o.Interrupted? ==> Savable())
    }

    /** Saves the state. A save that fails leaves the operation as able to go on as before. */
    method SaveState() returns (o: Outcome)
      requires Savable()
      modifies world
      ensures Since(old(world.run), old(world.g.log), old(|world.script|), o) && Sealed(old(world.g), o) && Outside(o)
      ensures if old(Base()).Some? then After(o) else world.Sound() && (!o.Crashed? ==> Savable() && (o.Interrupted? || Ready() || Base().None?))
      ensures o.Raised? ==> !world.config.failStop
      ensures o.Done? ==> Ready() && Stored()
    {
      o := world.Save(op, ToRow(), None);
      if o.Crashed? { return; }
      hide Fit, Tracked, Exec;
      SavedIsSteady(old(Base()), old(world.g.log), o);
    }

    /** The state after a save, done or not. */
    lemma SavedIsSteady(base: Option<Row>, log: seq<Event>, o: Outcome)
      requires world.Loaded(op) && Fit(base, ToRow(), log) && log <= world.g.log
      requires Base() in {base, Some(ToRow())} && (o.Done? ==> Base() == Some(ToRow()))
      requires o.Raised? ==> Missing() == Some(pending)
      ensures Fit(Base(), ToRow(), world.g.log)
      ensures o.Done? || o.Raised? ==> Steady(Base(), Missing(), ToRow(), world.g.log)
    {
      EvolvesLater(base, ToRow(), log, world.g.log);
      SteadySaved(Missing(), ToRow(), world.g.log);
      if o.Raised? { SteadyUnsaved(Base(), ToRow(), world.g.log); }
    }

    /** Any await that writes nothing of this operation's. */
    method Pause() returns (c: Choice, o: Outcome)
      requires Ready()
      modifies world
      ensures After(o) && Since(old(world.run), old(world.g.log), old(|world.script|), o)
      ensures Idle(world.run, old(|world.run|), op) && Outside(o)
      ensures !o.Crashed? ==> Ready() && Undisturbed(op, old(world.g), world.g) && |world.script| < old(|world.script|)
    {
      c, o := world.Await(op);
      if !o.Crashed? { SteadyLater(Base(), Missing(), ToRow(), old(world.g.log), world.g.log); }
    }

    /** A generator hands an event to its consumer, who may close it there; an event that a
        replay has delivered already is not handed out again. */
    method Yield(e: Event) returns (o: Outcome)
      requires Ready()
      modifies world, `delivered, `seen
      ensures After(o) && !o.Raised? && Since(old(world.run), old(world.g.log), old(|world.script|), o)
      ensures Idle(world.run, old(|world.run|), op)
      ensures !o.Crashed? ==> Ready() && Undisturbed(op, old(world.g), world.g)
      ensures delivered == old(delivered) + (if muted || (old(seen).Some? && e in old(seen).value) then [] else [e])
      ensures seen == (if old(seen).Some? && !muted then Some(old(seen).value + {e}) else old(seen))
    {
      hide Fit, Tracked, Exec;
      o := Done;
      if muted { return; }
      if seen.Some? {
        if e in seen.value {
          assert seen.value == seen.value + {e};
          return;
        }
        seen := Some(seen.value + {e});
        assert e !in delivered[since..] && (delivered + [e])[since..] == delivered[since..] + [e];
      }
      delivered := delivered + [e];
      var ignored;
      ignored, o := Pause();
      if o.Raised? { o := Interrupted; }
    }

    // ------------------------------------------------------------- publication

    /** The state may be as it is but for the head of its spool. */
    ghost predicate Poppable()
      reads this, world
    {
      world.Loaded(op) && pending != [] && Steady(Base(), Missing(), ToRow().(pending := pending[1..]), world.g.log)
    }

    /** Puts the head of the spool into the log. */
    method PersistHead() returns (seqno: nat, o: Outcome)
      requires Ready() && pending != []
      modifies world
      ensures After(o) && Since(old(world.run), old(world.g.log), old(|world.script|), o) && Sealed(old(world.g), o)
      ensures Outside(o) && (o.Done? ==> pending[0] in world.g.log && Poppable())
    {
      hide Fit, Tracked, Exec;
      HeadIsDue(Base(), Missing(), ToRow(), world.g.log);
      seqno, o := world.PersistOne(op, pending[0]);
      if o.Crashed? { return; }
      SteadyLater(Base(), old(Missing()), ToRow(), old(world.g.log), world.g.log);
      SteadyPublished(Base(), old(Missing()), ToRow(), world.g.log, Missing());
      if o.Done? { PopSteady(Base(), old(Missing()), ToRow(), world.g.log, Missing()); }
    }

    method SetCursor(seqno: nat)
      requires Ready() && Poppable()
      modifies `cursor, `lastEvent
      ensures Ready() && Poppable() && lastEvent == Some(pending[0]) && old(cursor) <= cursor
    {
      hide Fit, Tracked, Exec;
      ghost var before := ToRow();
      cursor := if seqno > cursor then seqno else cursor;
      lastEvent := Some(pending[0]);
      NotesSteady(Base(), Missing(), before, ToRow(), world.g.log);
      NotesSteady(Base(), Missing(), before.(pending := pending[1..]), ToRow().(pending := pending[1..]), world.g.log);
    }

    method PublishOne() returns (o: Outcome)
      requires Ready() && pending != []
      modifies world, `cursor, `lastEvent
      ensures After(o) && Since(old(world.run), old(world.g.log), old(|world.script|), o) && Sealed(old(world.g), o)
      ensures o.Done? ==> pending[0] in world.g.log && lastEvent == Some(pending[0]) && old(cursor) <= cursor && Poppable()
      ensures Outside(o)
    {
      hide Fit, Tracked, Exec, ToRow;
      var seqno;
      seqno, o := PersistHead();
      if !o.Done? { return; }
      SetCursor(seqno);
      if dispatches && handle.platformTask.Some? {
        ghost var log := world.g.log;
        var ignored;
        ignored, o := Pause();
        if o.Done? { SteadyLater(Base(), Missing(), ToRow().(pending := pending[1..]), log, world.g.log); }
      }
    }

    /** Publishes the head of the spool, pops it and saves. */
    method PublishHead() returns (published: Event, o: Outcome)
      requires Ready() && pending != []
      modifies world, `cursor, `lastEvent, `pending
      ensures After(o) && Since(old(world.run), old(world.g.log), old(|world.script|), o) && Sealed(old(world.g), o)
      ensures o.Done? ==> Stored() && [published] + pending == old(pending) && published in world.g.log
      ensures Outside(o)
    {
      hide Fit, Tracked, Exec;
      published := pending[0];
      o := PublishOne();
      if !o.Done? { return; }
      pending := pending[1..];
      o := SaveState();
    }

    method FlushPending() returns (published: seq<Event>, o: Outcome)
      requires Ready()
      modifies world, `cursor, `lastEvent, `pending
      ensures After(o) && Since(old(world.run), old(world.g.log), old(|world.script|), o) && Sealed(old(world.g), o)
      ensures o.Done? ==> pending == [] && published == old(pending)
      ensures o.Done? ==> forall e <- published :: e in world.g.log
      ensures o.Done? && (old(pending) != [] || old(Stored())) ==> Stored()
      ensures Outside(o)
    {
      hide Fit, Tracked, Exec, ToRow;
      published := [];
      o := Done;
      while pending != []
        invariant Ready() && o.Done? && Since(old(world.run), old(world.g.log), old(|world.script|), o)
        invariant Sealed(old(world.g), o)
        invariant published != [] || old(Stored()) ==> Stored()
        invariant published + pending == old(pending)
        invariant forall e <- published :: e in world.g.log
        decreases |pending|
      {
        var e;
        e, o := PublishHead();
        if !o.Done? { return; }
        published := published + [e];
      }
    }

    /** What a batch needs to be published: on an empty spool, to be fit to be saved with the
        state; behind an older spool, to say nothing new about the state. */
    ghost predicate Publishable(batch: seq<Event>)
      reads this, world
    {
      && world.Loaded(op) && Base().Some? && (context.None? ==> adapter.completed == {}) && Deduped()
      && (if pending == [] then Fit(Base(), ToRow().(pending := batch), world.g.log)
          else Steady(Base(), Missing(), ToRow(), world.g.log) && Plain(batch, descriptor))
    }

    method PublishBatch(batch: seq<Event>) returns (published: seq<Event>, o: Outcome)
      requires Publishable(batch)
      modifies world, `cursor, `lastEvent, `pending
      ensures After(o) && Since(old(world.run), old(world.g.log), old(|world.script|), o) && Sealed(old(world.g), o)
      ensures o.Done? ==> pending == [] && published == batch && forall e <- batch :: e in world.g.log
      ensures o.Done? ==> Stored()
      ensures Outside(o)
    {
      hide Fit, Tracked, Exec;
      published := [];
      if pending != [] {
        published, o := FlushPending();
        if !o.Done? { return; }
        PlainBatchFits(Base(), Missing(), ToRow(), batch, world.g.log);
      }
      pending := batch;
      o := SaveState();
      if !o.Done? { return; }
      published, o := FlushPending();
    }

    /** How the log reports a descriptor: the first one, a closing one, or one in between. */
    function FactKindOf(status: ScopeStatus, initial: bool): FactKind {
      if initial then ItemStarted else if TerminalStatus(status) then ItemCompleted else ItemReplaced
    }

    /** The descriptor that a status change asks for, if its validator accepts it. */
    function Described(status: ScopeStatus, cancel: Option<CancelState>, now: int): Descriptor
      reads this
    {
      descriptor.(status := status, outputs := refs,
                  endedAt := if TerminalStatus(status) then Some(now) else descriptor.endedAt,
                  cancel := if cancel.Some? then cancel.value else descriptor.cancel)
    }

    /** Replaces the descriptor and publishes the fact that says so. */
    method Describe(d: Descriptor, kind: FactKind) returns (fact: Event, o: Outcome)
      requires Ready() && Describes(ToRow(), d)
      requires kind == ItemCompleted <==> d.Terminal()
      requires d.Terminal() && !descriptor.Terminal() ==> pending == []
      modifies world, `descriptor, `cursor, `lastEvent, `pending
      ensures After(o) && Since(old(world.run), old(world.g.log), old(|world.script|), o) && Sealed(old(world.g), o)
      ensures o.Done? ==> pending == [] && fact in world.g.log && Stored()
      ensures Outside(o) && descriptor == d && fact == ScopeFact(kind, d, old(cursor))
    {
      hide Tracked, Exec, Fit, Describes;
      DescriptionPublishable(Base(), Missing(), ToRow(), d, kind, world.g.log);
      fact := ScopeFact(kind, d, cursor);
      descriptor := d;
      var published;
      published, o := PublishBatch([fact]);
    }

    method DescriptorEvent(status: ScopeStatus, initial: bool, cancel: Option<CancelState>)
      returns (fact: Event, o: Outcome)
      requires Ready()
      requires TerminalStatus(status) && !descriptor.Terminal() ==> pending == []
      requires initial ==> status == Submitted && !descriptor.Terminal()
      requires Untouched() ==> status in {Submitted, Cancelled}
      requires cancel.Some? && cancel.value.requestState == LocalConfirmed ==> !sendEntered
      modifies world, `descriptor, `cursor, `lastEvent, `pending
      ensures After(o) && Since(old(world.run), old(world.g.log), old(|world.script|), o) && Sealed(old(world.g), o)
      ensures o.Done? ==> descriptor.status == status && pending == [] && fact in world.g.log
      ensures o.Done? ==> Stored()
      ensures Outside(o)
      ensures o.Done? ==> descriptor.cancel == (if cancel.Some? then cancel.value else old(descriptor).cancel)
      ensures o.Done? ==> descriptor.outputs == refs && (!initial ==> TransitionAllowed(old(descriptor), descriptor))
      ensures o.Done? ==> fact.ScopeFact? && fact.kind == FactKindOf(status, initial) && fact.descriptor == descriptor
      ensures o.Done? ==> (ClosingFact(fact) <==> descriptor.Terminal())
      ensures descriptor.locator == old(descriptor).locator
      ensures descriptor == old(descriptor) || descriptor.status == status
    {
      hide Tracked, Exec, Fit;
      fact := OutcomeFailed;
      var now := world.Now();
      var d := Described(status, cancel, now);
      if !d.Valid() || (!initial && !TransitionAllowed(descriptor, d)) {
        o := Raised("A2A_SCOPE_STATUS_TRANSITION_INVALID");
        return;
      }
      CheckedDescription(Base(), Missing(), ToRow(), d, world.g.log);
      fact, o := Describe(d, FactKindOf(status, initial));
    }

    function Selected(status: SnapshotStatus, error: Option<string>): Snapshot
      reads this
    {
      Snapshot(handle, status, source, cursor, lastEvent, refs,
               if status in {Seen(InputRequired), AuthRequired} then continuationId else None, error)
    }

    method TakeSnapshot(status: SnapshotStatus, error: Option<string>) returns (o: Outcome)
      requires Ready() && !Ended()
      requires status == Rejected || (status.Seen? && TerminalStatus(status.status)) ==> descriptor.Terminal()
      requires Untouched() ==> status == Seen(Cancelled)
      modifies `snapshot
      ensures Ready() && (o.Done? || o.Raised?)
      ensures o.Done? ==> snapshot == Some(old(Selected(status, error)))
      ensures o.Done? <==> old(Selected(status, error)).Valid()
      ensures o.Raised? ==> snapshot == old(snapshot) && Outside(o)
    {
      hide Tracked, Exec, Evolves;
      var s := Selected(status, error);
      if !s.Valid() {
        o := Raised("A2A_SNAPSHOT_INVALID");
        return;
      }
      SnapshotSteady(Base(), Missing(), ToRow(), s, world.g.log);
      snapshot := Some(s);
      o := Done;
    }
  
    /** Notes what an event means for the caller: continuation, open question, output parts. */
    method NoteEvent(e: Event)
      requires e.Mapped?
      modifies `continuationId, `pendingInput, `refs
      ensures forall ref :: ref in refs <==> ref in old(refs) || Produces(e, handle.Scope(), ref)
      ensures e.body.ContinuationCreated? ==> continuationId == Some(e.body.continuationId)
      ensures !e.body.ContinuationCreated? ==> continuationId == old(continuationId)
    {
      match e.body
      case ContinuationCreated(id) => continuationId := Some(id);
      case InputRequested(_, needsAnswer) => if needsAnswer { pendingInput := Some(e); }
      case InputResolved(id) =>
        if pendingInput.Some? && pendingInput.value.Mapped? && pendingInput.value.body.InputRequested?
           && pendingInput.value.body.interactionId == id { pendingInput := None; }
      case ContinuationResumed => pendingInput := None;
      case ItemDone(itemId, carriesOutput, parts) =>
        if carriesOutput {
          for i := 0 to |parts|
            modifies `refs
            invariant forall ref :: ref in refs <==>
              (ref in old(refs) || (Shown(parts[..i], ref.partId) && ref.scopeId == handle.Scope() && ref.itemId == itemId))
          {
            assert parts[..i + 1] == parts[..i] + [parts[i]];
            if parts[i].isText {
              var ref := OutputRef(handle.Scope(), itemId, parts[i].partId);
              if ref !in refs { refs := refs + [ref]; }
            }
          }
          assert parts[..|parts|] == parts && e.body.parts == parts;
          forall ref ensures ref in refs <==> ref in old(refs) || Produces(e, handle.Scope(), ref) {
            assert Shown(e.body.parts, ref.partId) == Shown(parts[..|parts|], ref.partId);
          }
        }
      case _ =>
    }

    /** Notes every event and keeps all but the remote run's own lifecycle. */
    method NoteEvents(events: seq<Event>) returns (batch: seq<Event>)
      requires forall e <- events :: e.Mapped?
      modifies `continuationId, `pendingInput, `refs
      ensures batch == Forwarded(events)
      ensures forall ref :: ref in refs <==> ref in old(refs) || exists e <- events :: Produces(e, handle.Scope(), ref)
    {
      batch := [];
      for i := 0 to |events|
        invariant batch == Forwarded(events[..i])
        invariant forall ref :: ref in refs <==> ref in old(refs) || exists e <- events[..i] :: Produces(e, handle.Scope(), ref)
      {
        assert events[..i + 1] == events[..i] + [events[i]];
        ForwardedOneMore(events[..i], events[i]);
        if !events[i].body.RunBody? {
          NoteEvent(events[i]);
          batch := batch + [events[i]];
        }
      }
      assert events[..|events|] == events;
    }

    /** Takes in native reports: the batch that the adapter makes of them, ready to publish. */
    method Absorb(bodies: seq<Body>) returns (batch: seq<Event>)
      requires Ready() && context.Some? && pending == []
      modifies `adapter, `continuationId, `pendingInput, `refs
      ensures Publishable(batch) && batch == Forwarded(MapEvents(old(adapter), bodies).1)
      ensures adapter == MapEvents(old(adapter), bodies).0
    {
      hide Fit, Tracked, Exec, MapEvents, RowInv, IdentityMatches, Undisturbed;
      ghost var before := ToRow();
      var mapping := MapEvents(adapter, bodies);
      FitRow(Base(), before, world.g.log);
      adapter := mapping.0;
      batch := NoteEvents(mapping.1);
      ForwardedKeeps(mapping.1);
      MappedFits(Base(), Missing(), before, ToRow().(pending := batch), adapter, batch, world.g.log);
    }

    /** Publishes what the adapter maps, and yields it. */
    method PublishMapped(bodies: seq<Body>) returns (o: Outcome)
      requires Ready() && context.Some? && pending == []
      modifies world, `adapter, `continuationId, `pendingInput, `refs, `cursor, `lastEvent, `pending, `delivered, `seen
      ensures After(o) && Since(old(world.run), old(world.g.log), old(|world.script|), o)
      ensures o.Done? ==> pending == [] && forall e <- Forwarded(MapEvents(old(adapter), bodies).1) :: e in world.g.log
      ensures o.Done? && seen.None? && !muted ==> delivered == old(delivered) + Forwarded(MapEvents(old(adapter), bodies).1)
      ensures Outside(o) && Heard(old(delivered), old(seen))
    {
      hide Fit, Tracked, Exec, ToRow, MapEvents, Forwarded;
      var batch := Absorb(bodies);
      var published;
      published, o := PublishBatch(batch);
      if o.Done? { o := YieldAll(published); }
    }

    method YieldAll(events: seq<Event>) returns (o: Outcome)
      requires Ready()
      modifies world, `delivered, `seen
      ensures After(o) && Since(old(world.run), old(world.g.log), old(|world.script|), o)
      ensures Idle(world.run, old(|world.run|), op)
      ensures !o.Crashed? ==> Ready() && Undisturbed(op, old(world.g), world.g)
      ensures !o.Raised? && Heard(old(delivered), old(seen))
      ensures o.Done? && seen.None? && !muted ==> delivered == old(delivered) + events
      ensures o.Done? && seen.Some? && !muted ==> forall e <- events :: e in seen.value
    {
      hide Fit, Tracked, Exec, ToRow, Deduped;
      o := Done;
      for i := 0 to |events|
        invariant Ready() && o.Done? && Since(old(world.run), old(world.g.log), old(|world.script|), o)
        invariant Idle(world.run, old(|world.run|), op) && Undisturbed(op, old(world.g), world.g)
        invariant Heard(old(delivered), old(seen))
        invariant seen.None? && !muted ==> delivered == old(delivered) + events[..i]
        invariant seen.Some? && !muted ==> forall e <- events[..i] :: e in seen.value
      {
        assert events[..i + 1] == events[..i] + [events[i]];
        o := Yield(events[i]);
        if !o.Done? { return; }
      }
    }

    /** Takes over a handle made from the current one, or raises what its constructor raised. */
    method Adopt(made: Result<Handle>) returns (o: Outcome)
      requires Ready()
      requires made.Ok? ==> made.value.Valid() && LocatorsKept(handle, made.value)
      modifies `handle
      ensures Ready()
      ensures o == (if made.Ok? then Done else Raised("A2A_BINDING_CONFLICT"))
      ensures handle == (if made.Ok? then made.value else old(handle))
    {
      hide Fit, Tracked, Exec;
      if made.Err? {
        o := Raised("A2A_BINDING_CONFLICT");
      } else {
        HandleSteady(Base(), Missing(), ToRow(), made.value, world.g.log);
        handle := made.value;
        o := Done;
      }
    }

    method SetContext(taskId: Option<string>, contextId: Option<string>)
      requires Ready() && handle.platformTask.Some?
      modifies `context
      ensures Ready() && context.Some?
    {
      hide Fit, Tracked, Exec;
      var next := context;
      if context.None? {
        next := Some(Context(if contextId.Some? then contextId.value else "", taskId));
      } else if taskId.Some? {
        next := Some(Context(if contextId.Some? then contextId.value else context.value.contextId, taskId));
      }
      ContextSteady(Base(), Missing(), ToRow(), adapter, next.value, world.g.log);
      context := next;
    }

    /** Pins the remote task named by a payload, here and in the control plane, and keeps the
        adapter's correlation in step. */
    method Bind(taskId: Option<string>, contextId: Option<string>) returns (o: Outcome)
      requires Ready() && handle.platformTask.Some?
      modifies world, `handle, `context
      ensures After(o) && Since(old(world.run), old(world.g.log), old(|world.script|), o)
      ensures o.Done? ==> context.Some? && LocatorsKept(old(handle), handle)
      ensures o.Done? && taskId.Some? ==> handle.remoteTask == taskId && handle.remoteContext == contextId
      ensures o.Done? && taskId.None? ==> handle == old(handle)
      ensures !o.Done? ==> handle == old(handle)
      ensures Outside(o)
    {
      hide Fit, Tracked, Exec;
      o := Done;
      if taskId.Some? {
        if handle.remoteTask.None? {
          var ignored;
          ignored, o := Pause();
          if !o.Done? { return; }
          FitRow(Base(), ToRow(), world.g.log);
          o := Adopt(handle.BindRemoteTask(taskId.value, contextId));
          if !o.Done? { return; }
        } else if taskId != handle.remoteTask || contextId != handle.remoteContext {
          o := Raised("A2A_REMOTE_BINDING_CONFLICT");
          return;
        }
      }
      SetContext(taskId, contextId);
    }
  
    // ---------------------------------------------------------------- observation

    method Authorize() returns (o: Outcome)
      requires Ready()
      modifies world
      ensures After(o) && Since(old(world.run), old(world.g.log), old(|world.script|), o)
      ensures Idle(world.run, old(|world.run|), op) && Outside(o)
      ensures !o.Crashed? ==> Ready() && Undisturbed(op, old(world.g), world.g)
    {
      var c;
      c, o := Pause();
      if o.Done? && !c.allowed { o := Raised("A2A_APPROVAL_REQUIRED"); }
    }

    /** Prepares an operation on the bound remote task; only this call can find no binding. */
    method PrepareBound() returns (remote: Option<(string, Option<string>)>, o: Outcome)
      requires Ready()
      modifies world, `handle
      ensures After(o) && Since(old(world.run), old(world.g.log), old(|world.script|), o)
      ensures Idle(world.run, old(|world.run|), op) && world.Complete(o)
      ensures !o.Crashed? ==> Ready() && Undisturbed(op, old(world.g), world.g)
      ensures !o.Crashed? ==> handle == old(handle) || handle.remoteTask.Some?
      ensures o.Done? ==> remote.Some? && handle.remoteTask == Some(remote.value.0) && handle.remoteContext == remote.value.1
      ensures o.Done? ==> handle.platformTask.Some?
    {
      hide Fit, Tracked, Exec;
      var c;
      c, o := Pause();
      remote := c.prepared.remote;
      if !o.Done? { return; }
      if !c.prepared.targetMatches || !c.prepared.hosted { o := Raised("A2A_HOSTED_ROUTE_REQUIRED"); return; }
      if remote.None? { o := Raised(BINDING_UNKNOWN); return; }
      FitRow(Base(), ToRow(), world.g.log);
      o := Adopt(handle.BindRemoteTask(remote.value.0, remote.value.1));
      if !o.Done? { return; }
      o := Authorize();
    }

    /** Where the next snapshot will say it comes from. */
    method SetSource(next: Source)
      requires Ready()
      modifies `source
      ensures Ready() && source == next
    {
      NotesSteady(Base(), Missing(), ToRow(), ToRow().(source := next), world.g.log);
      source := next;
    }

    /** Binds what a native report names, then publishes what it maps to. */
    method TakeIn(taskId: Option<string>, contextId: Option<string>, c: Choice) returns (o: Outcome)
      requires Ready() && pending == [] && handle.platformTask.Some?
      modifies world, `handle, `context, `adapter, `continuationId, `pendingInput, `refs, `cursor, `lastEvent,
               `pending, `delivered, `seen
      ensures After(o) && Since(old(world.run), old(world.g.log), old(|world.script|), o)
      ensures Heard(old(delivered), old(seen)) && Outside(o)
      ensures handle == old(handle) || handle.remoteTask.Some?
      ensures o.Done? ==> pending == [] && LocatorsKept(old(handle), handle)
    {
      hide Fit, Tracked, Exec, ToRow, Deduped;
      o := Bind(taskId, contextId);
      if !o.Done? { return; }
      if !c.consistent { o := Raised("A2A_RECONCILIATION_FAILED"); return; }
      o := PublishMapped(c.bodies);
    }

    /** Reads the remote task and publishes what it shows. */
    method FetchTask() returns (state: RemoteState, o: Outcome)
      requires Ready() && pending == []
      modifies world, `handle, `context, `adapter, `continuationId, `pendingInput, `refs, `cursor, `lastEvent,
               `pending, `delivered, `seen, `source
      ensures After(o) && Since(old(world.run), old(world.g.log), old(|world.script|), o)
      ensures Heard(old(delivered), old(seen)) && world.Complete(o)
      ensures !o.Crashed? ==> handle == old(handle) || handle.remoteTask.Some?
      ensures o.Done? ==> pending == [] && handle.remoteTask.Some? && source == GetTask
      ensures o.Done? ==> WasRead(world.run, |old(world.run)|, op, state)
      ensures o.Done? ==> |world.script| < old(|world.script|)
    {
      hide Fit, Tracked, Exec, ToRow, Deduped;
      state := TaskWorking;
      var remote, c;
      remote, o := PrepareBound();
      if !o.Done? { return; }
      c, o := ReadRemote();
      if !o.Done? { return; }
      state := c.task.state;
      o := TakeIn(c.task.taskId, c.task.contextId, c);
      if !o.Done? { return; }
      SetSource(GetTask);
    }

    method ReadRemote() returns (c: Choice, o: Outcome)
      requires Ready()
      modifies world
      ensures After(o) && Since(old(world.run), old(world.g.log), old(|world.script|), o)
      ensures Idle(world.run, old(|world.run|), op) && Outside(o)
      ensures !o.Crashed? ==> Ready() && Undisturbed(op, old(world.g), world.g) && |world.script| < old(|world.script|)
      ensures o.Done? ==> WasRead(world.run, |old(world.run)|, op, c.task.state)
    {
      c, o := world.ReadTask(op);
      if !o.Crashed? { SteadyLater(Base(), Missing(), ToRow(), old(world.g.log), world.g.log); }
    }

    /** The public status a remote task state stands for. */
    function PublicStatus(state: RemoteState): ScopeStatus {
      match state
      case TaskCompleted => Completed
      case TaskFailed => Failed
      case TaskRejected => Failed
      case TaskCanceled => Cancelled
      case TaskInputRequired => InputRequired
      case TaskAuthRequired => InputRequired
      case TaskWorking => Working
    }

    /** Publishes a status and yields the fact. */
    method Announce(status: ScopeStatus, cancel: Option<CancelState>) returns (o: Outcome)
      requires Ready() && pending == []
      requires Untouched() ==> status in {Submitted, Cancelled}
      requires cancel.Some? && cancel.value.requestState == LocalConfirmed ==> !sendEntered
      modifies world, `descriptor, `cursor, `lastEvent, `pending, `delivered, `seen
      ensures After(o) && Since(old(world.run), old(world.g.log), old(|world.script|), o) && Sealed(old(world.g), o)
      ensures o.Done? ==> descriptor.status == status && pending == []
      ensures o.Done? && TerminalStatus(status) ==> Closed(descriptor, world.g.row)
      ensures o.Done? ==> descriptor.cancel == (if cancel.Some? then cancel.value else old(descriptor).cancel)
      ensures Outside(o) && Heard(old(delivered), old(seen))
    {
      hide Fit, Tracked, Exec, Deduped;
      var fact;
      fact, o := DescriptorEvent(status, false, cancel);
      if !o.Done? { return; }
      ghost var run, g := world.run, world.g;
      o := Yield(fact);
      if o.Done? && TerminalStatus(status) { ClosedStays(world.config, run, g, world.run, world.g, descriptor); }
    }

    /** The snapshot reports this status. */
    predicate Shows(status: ScopeStatus) reads `snapshot { snapshot.Some? && snapshot.value.status == Seen(status) }

    /** Brings descriptor and snapshot in line with the task just read. */
    method Project(state: RemoteState) returns (o: Outcome)
      requires Ready() && pending == [] && handle.remoteTask.Some?
      modifies world, `descriptor, `snapshot, `cursor, `lastEvent, `pending, `delivered, `seen
      ensures After(o) && Since(old(world.run), old(world.g.log), old(|world.script|), o)
      ensures o.Done? ==> pending == []
      ensures old(Ended()) || !o.Done? ==> snapshot == old(snapshot)
      ensures o.Done? && old(descriptor).Terminal() ==> descriptor == old(descriptor)
      ensures o.Done? && old(snapshot).Some? && !old(Ended()) ==> Shows(PublicStatus(state))
      ensures o.Done? && !old(descriptor).Terminal() ==> descriptor.status == PublicStatus(state) && Shows(PublicStatus(state))
      ensures o.Done? && snapshot != old(snapshot) ==> Shows(PublicStatus(state))
      // a closed call cannot take in a failure, nor a pause that nothing can continue
      ensures old(descriptor).Terminal() ==> o.Done? || o.Raised?
      ensures old(descriptor).Terminal() ==>
                (o.Raised? <==> old(snapshot.Some? && !Ended()
                                    && (PublicStatus(state) == Failed
                                        || (PublicStatus(state) == InputRequired && continuationId.None?))))
      ensures Outside(o) && Heard(old(delivered), old(seen))
    {
      hide Fit, Tracked, Exec, ToRow, Deduped, RowInv, IdentityMatches, Undisturbed;
      var status := PublicStatus(state);
      o := Done;
      EndedIsTerminal();
      if descriptor.Terminal() {
        o := ProjectClosed(status);
        return;
      }
      var cancel := if status == Cancelled then Some(CancelState(Supported, Confirmed)) else None;
      if status != descriptor.status || cancel.Some? {
        o := Announce(status, cancel);
        if !o.Done? { return; }
      }
      o := TakeSnapshot(Seen(status), if status == Failed then Some("A2A_REMOTE_FAILED") else None);
    }

    /** The public call is closed already: only the private result is brought up to date. */
    method ProjectClosed(status: ScopeStatus) returns (o: Outcome)
      requires Ready() && descriptor.Terminal() && handle.remoteTask.Some?
      modifies `snapshot
      ensures Ready() && (o.Done? || o.Raised?) && Outside(o)
      ensures o.Raised? <==> old(snapshot.Some? && !Ended()
                                 && (status == Failed || (status == InputRequired && continuationId.None?)))
      ensures old(Ended()) || !o.Done? ==> snapshot == old(snapshot)
      ensures o.Done? && old(snapshot.Some? && !Ended()) ==> Shows(status)
      ensures snapshot == old(snapshot) || Shows(status)
    {
      hide Tracked, Exec, Deduped, Evolves;
      o := Done;
      EndedIsTerminal();
      if snapshot.Some? && !Ended() { o := TakeSnapshot(Seen(status), None); }
    }

    method Get() returns (o: Outcome, ghost state: RemoteState)
      requires Ready() && pending == []
      modifies world, `handle, `context, `adapter, `continuationId, `pendingInput, `refs, `cursor, `lastEvent,
               `pending, `delivered, `seen, `source, `descriptor, `snapshot
      ensures After(o) && Since(old(world.run), old(world.g.log), old(|world.script|), o)
      ensures Heard(old(delivered), old(seen)) && world.Complete(o)
      ensures !o.Crashed? ==> handle == old(handle) || handle.remoteTask.Some?
      ensures !o.Crashed? ==> descriptor == old(descriptor) || handle.remoteTask.Some?
      ensures o.Done? ==> pending == [] && handle.remoteTask.Some? && |world.script| < old(|world.script|)
      ensures old(Ended()) || !o.Done? ==> snapshot == old(snapshot)
      ensures o.Done? ==> WasRead(world.run, |old(world.run)|, op, state)
      ensures o.Done? ==> snapshot == old(snapshot) || Shows(PublicStatus(state))
      ensures o.Done? ==> if old(descriptor).Terminal() then descriptor == old(descriptor)
                          else descriptor.status == PublicStatus(state) && Shows(PublicStatus(state))
      // a call that failed locally is never reconciled with a remote failure
      ensures old(descriptor.Terminal() && snapshot.Some? && !Ended()) && o.Done? ==> PublicStatus(state) != Failed
    {
      hide Fit, Tracked, Exec, Ready, Savable;
      var read;
      read, o := FetchTask();
      state := read;
      if !o.Done? { return; }
      o := Project(read);
    }

    /** Runs an observation for its effects, handing nothing out. */
    method GetQuietly() returns (o: Outcome, ghost state: RemoteState)
      requires Ready() && pending == []
      modifies world, `handle, `context, `adapter, `continuationId, `pendingInput, `refs, `cursor, `lastEvent,
               `pending, `delivered, `seen, `source, `descriptor, `snapshot, `muted
      ensures After(o) && Since(old(world.run), old(world.g.log), old(|world.script|), o)
      ensures delivered == old(delivered) && seen == old(seen) && muted == old(muted) && world.Complete(o)
      ensures !o.Crashed? ==> handle == old(handle) || handle.remoteTask.Some?
      ensures o.Done? ==> pending == [] && handle.remoteTask.Some?
      ensures old(Ended()) || !o.Done? ==> snapshot == old(snapshot)
      ensures o.Done? ==> WasRead(world.run, |old(world.run)|, op, state)
      ensures o.Done? ==> snapshot == old(snapshot) || Shows(PublicStatus(state))
    {
      hide Fit, Tracked, Exec, Deduped;
      var before := muted;
      muted := true;
      o, state := Get();
      muted := before;
    }

    // --------------------------------------------------------------------- cancel

    method CancelFlag() returns (requested: bool, o: Outcome)
      requires Ready()
      modifies world
      ensures After(o) && Since(old(world.run), old(world.g.log), old(|world.script|), o)
      ensures Idle(world.run, old(|world.run|), op) && Outside(o)
      ensures !o.Crashed? ==> Ready() && Undisturbed(op, old(world.g), world.g) && |world.script| < old(|world.script|)
      ensures o.Done? ==> FlagWas(world.config, world.run, |old(world.run)|, requested)
    {
      hide Fit, Tracked, Exec;
      requested, o := world.CancelRequested(op);
      FlagWasNow(world.config, world.run, world.g, |old(world.run)|);
      if !o.Crashed? { SteadyLater(Base(), Missing(), ToRow(), old(world.g.log), world.g.log); }
    }

    /** Closes a call that was never sent; from here on no run ever sends it. */
    method CloseUnsent() returns (o: Outcome)
      requires Ready() && pending == [] && !sendEntered && descriptor.status == Submitted
      modifies world, `descriptor, `cursor, `lastEvent, `pending
      ensures After(o) && Since(old(world.run), old(world.g.log), old(|world.script|), o)
      ensures o.Done? ==> pending == [] && descriptor.status == Cancelled && ClosedUnsent(world.g.row)
      ensures Outside(o)
    {
      hide Fit, Tracked, Exec, Deduped;
      var ignored;
      if cursor == 0 {
        ignored, o := DescriptorEvent(Submitted, true, None);
        if !o.Done? { return; }
      }
      ignored, o := DescriptorEvent(Cancelled, false, Some(CancelState(UnknownCapability, LocalConfirmed)));
    }

    method CancelUnsent() returns (o: Outcome)
      requires Ready() && pending == [] && Untouched() && !Ended()
      requires descriptor.Terminal() ==> snapshot.Some?
      modifies world, `descriptor, `snapshot, `cursor, `lastEvent, `pending
      ensures After(o) && Since(old(world.run), old(world.g.log), old(|world.script|), o)
      ensures o.Done? ==> pending == [] && snapshot.Some? && snapshot.value.status == Seen(Cancelled)
      ensures o.Done? ==> ClosedUnsent(world.g.row)
      ensures Outside(o)
    {
      hide Fit, Tracked, Exec, Deduped;
      FitRow(Base(), ToRow(), world.g.log);
      o := CloseUnsent();
      if o.Done? { o := TakeSnapshot(Seen(Cancelled), None); }
    }

    /** Asks the remote side to cancel and reads back what came of it. */
    method CancelAttempt() returns (outcome: CancelOutcome, o: Outcome)
      requires Ready() && pending == [] && !Ended()
      modifies world, `handle, `context, `adapter, `continuationId, `pendingInput, `refs, `cursor, `lastEvent,
               `pending, `delivered, `seen, `source, `descriptor, `snapshot, `muted
      ensures After(o) && Since(old(world.run), old(world.g.log), old(|world.script|), o)
      ensures delivered == old(delivered) && seen == old(seen) && muted == old(muted)
      ensures !o.Crashed? ==> handle == old(handle) || handle.remoteTask.Some?
      ensures outcome in {RequestedButUnknown, RemoteCancelled, AlreadyTerminal}
      ensures !o.Done? ==> outcome == RequestedButUnknown && snapshot == old(snapshot)
      ensures o.Done? ==> pending == []
      ensures outcome == RemoteCancelled ==> WasRead(world.run, |old(world.run)|, op, TaskCanceled)
    {
      hide Fit, Tracked, Exec, ToRow, Deduped, RowInv, IdentityMatches, Undisturbed;
      outcome := RequestedButUnknown;
      var remote, c;
      remote, o := PrepareBound();
      if !o.Done? { return; }
      c, o := Pause();
      if !o.Done? || c.task.state !in {TaskCanceled, TaskCompleted, TaskFailed, TaskRejected} { return; }
      ghost var state;
      o, state := GetQuietly();
      if !o.Done? { return; }
      if c.task.state != TaskCanceled { outcome := AlreadyTerminal; }
      else if snapshot.Some? && snapshot.value.status == Seen(Cancelled) { outcome := RemoteCancelled; }
    }

    /** The public descriptor says what became of a request that settled nothing. */
    predicate Noted(outcome: CancelOutcome) reads `descriptor {
      descriptor.cancel == if outcome == RequestedButUnsupported then CancelState(Unsupported, RequestUnsupported)
                           else CancelState(UnknownCapability, RequestUnknown)
    }

    /** A cancel request was carried out: the call has ended, or its descriptor tells of it. */
    predicate CarriedOut() reads `descriptor, `snapshot { Ended() || Noted(RequestedButUnknown) || Noted(RequestedButUnsupported) }

    /** Records on the public descriptor that a cancel was asked for. */
    method NoteRequest(unsupported: bool) returns (o: Outcome)
      requires Ready()
      modifies world, `descriptor, `cursor, `lastEvent, `pending
      ensures After(o) && Since(old(world.run), old(world.g.log), old(|world.script|), o)
      ensures Outside(o) && (o.Done? ==> pending == [] && descriptor.status == old(descriptor).status)
      ensures o.Done? ==> descriptor.cancel == if unsupported then CancelState(Unsupported, RequestUnsupported)
                                               else CancelState(UnknownCapability, RequestUnknown)
    {
      hide Fit, Tracked, Exec, Deduped;
      FitRow(Base(), ToRow(), world.g.log);
      var ignored;
      ignored, o := DescriptorEvent(descriptor.status, false,
        Some(CancelState(if unsupported then Unsupported else UnknownCapability,
                         if unsupported then RequestUnsupported else RequestUnknown)));
    }

    method CancelRemote() returns (outcome: CancelOutcome, o: Outcome)
      requires Ready() && pending == [] && !Ended()
      modifies world, `handle, `context, `adapter, `continuationId, `pendingInput, `refs, `cursor, `lastEvent,
               `pending, `delivered, `seen, `source, `descriptor, `snapshot, `muted
      ensures After(o) && Since(old(world.run), old(world.g.log), old(|world.script|), o)
      ensures delivered == old(delivered) && seen == old(seen) && muted == old(muted) && Outside(o)
      ensures !o.Crashed? ==> handle == old(handle) || handle.remoteTask.Some?
      ensures o.Done? ==> pending == [] && outcome != LocalCancelledBeforeSend
      ensures o.Done? && outcome == RemoteCancelled ==> WasRead(world.run, |old(world.run)|, op, TaskCanceled)
      ensures o.Done? && outcome in {RequestedButUnknown, RequestedButUnsupported} ==> Noted(outcome)
    {
      hide Fit, Tracked, Exec, ToRow, Deduped;
      outcome, o := CancelAttempt();
      if o.Raised? {
        if o.code in {"TaskNotCancelableError", "UnsupportedOperationError"} { outcome := RequestedButUnsupported; }
        o := Done;
      }
      if o.Done? && outcome in {RequestedButUnknown, RequestedButUnsupported} {
        o := NoteRequest(outcome == RequestedButUnsupported);
      }
    }

    /** The cancel request was cleared since then. */
    ghost predicate Cleared(from: nat)
      reads world
    {
      exists i :: from <= i < |world.run| && world.run[i] == ClearCancel(op)
    }

    method ClearFlag() returns (o: Outcome)
      requires Ready()
      modifies world
      ensures After(o) && Since(old(world.run), old(world.g.log), old(|world.script|), o)
      ensures Idle(world.run, old(|world.run|), op) && Outside(o)
      ensures o.Done? ==> Cleared(old(|world.run|))
      ensures !o.Crashed? ==> Ready() && Undisturbed(op, old(world.g), world.g)
    {
      hide Fit, Tracked, Exec;
      o := world.ClearCancel(op);
      if !o.Crashed? { SteadyLater(Base(), Missing(), ToRow(), old(world.g.log), world.g.log); }
    }

    /** Clears a settled request and states the result, which its own validator may turn down. */
    method CancelVerdict(outcome: CancelOutcome) returns (result: CancelResult, o: Outcome)
      requires Ready()
      modifies world
      ensures After(o) && Since(old(world.run), old(world.g.log), old(|world.script|), o)
      ensures Idle(world.run, old(|world.run|), op) && Outside(o)
      ensures if outcome == RequestedButUnknown then world.run == old(world.run) else o.Done? ==> Cleared(old(|world.run|))
      ensures result == CancelResult(handle, outcome, snapshot) && (o.Done? ==> result.Valid())
    {
      hide Fit, Tracked, Exec, ToRow, Deduped;
      result := CancelResult(handle, outcome, snapshot);
      o := Done;
      if outcome != RequestedButUnknown {
        o := ClearFlag();
        if !o.Done? { return; }
      }
      if !result.Valid() { o := Raised("A2A_CANCEL_RESULT_INVALID"); }
    }

    /** The evidence each cancel outcome stands for. */
    ghost predicate Evidence(outcome: CancelOutcome, from: nat, unsent: bool, ended: bool)
      reads this, world
    {
      match outcome
      case LocalCancelledBeforeSend => unsent && ClosedUnsent(world.g.row) && world.g.sends == []
      case RemoteCancelled => WasRead(world.run, from, op, TaskCanceled) && !ended
      case AlreadyTerminal => Ended()
      case _ => !ended && Noted(outcome)
    }

    /** Carries out a cancel: nothing to do, closing an unsent call, or asking the remote side. */
    method CarryOut() returns (outcome: CancelOutcome, o: Outcome)
      requires Ready() && pending == []
      requires Untouched() && descriptor.Terminal() ==> snapshot.Some?
      modifies world, `handle, `context, `adapter, `continuationId, `pendingInput, `refs, `cursor, `lastEvent,
               `pending, `delivered, `seen, `source, `descriptor, `snapshot, `muted
      ensures After(o) && Since(old(world.run), old(world.g.log), old(|world.script|), o)
      ensures delivered == old(delivered) && seen == old(seen) && muted == old(muted) && Outside(o)
      ensures !o.Crashed? ==> handle == old(handle) || handle.remoteTask.Some?
      ensures o.Done? ==> pending == []
      ensures if old(Ended()) then o.Done? && outcome == AlreadyTerminal && world.run == old(world.run)
                                   && snapshot == old(snapshot) && handle == old(handle)
              else o.Done? ==>
                match outcome
                case LocalCancelledBeforeSend => old(Untouched()) && ClosedUnsent(world.g.row)
                case RemoteCancelled => WasRead(world.run, |old(world.run)|, op, TaskCanceled)
                case AlreadyTerminal => true
                case _ => Noted(outcome)
    {
      hide Fit, Tracked, Exec, ToRow, Deduped, Savable;
      outcome, o := AlreadyTerminal, Done;
      if Ended() {
        ReadyIsSound();
      } else if !sendEntered && handle.remoteTask.None? && !active {
        outcome := LocalCancelledBeforeSend;
        o := CancelUnsent();
      } else {
        outcome, o := CancelRemote();
      }
    }

    method Cancel() returns (result: CancelResult, o: Outcome)
      requires Ready() && pending == []
      requires Untouched() && descriptor.Terminal() ==> snapshot.Some?
      modifies world, `handle, `context, `adapter, `continuationId, `pendingInput, `refs, `cursor, `lastEvent,
               `pending, `delivered, `seen, `source, `descriptor, `snapshot, `muted
      ensures After(o) && Since(old(world.run), old(world.g.log), old(|world.script|), o)
      ensures delivered == old(delivered) && seen == old(seen) && muted == old(muted) && Outside(o)
      ensures !o.Crashed? ==> handle == old(handle) || handle.remoteTask.Some?
      ensures o.Done? ==> pending == [] && result.Valid() && result.handle == handle && result.snapshot == snapshot
      ensures o.Done? && result.outcome != RequestedButUnknown ==> Cleared(old(|world.run|))
      ensures o.Done? ==> Evidence(result.outcome, |old(world.run)|, old(Untouched()), old(Ended())) && CarriedOut()
      ensures old(Ended()) ==> Idle(world.run, old(|world.run|), op) && snapshot == old(snapshot) && handle == old(handle)
    {
      hide Fit, Tracked, Exec, ToRow, Deduped, Ready, Savable;
      var outcome;
      outcome, o := CarryOut();
      result := CancelResult(handle, outcome, snapshot);
      if !o.Done? { return; }
      ghost var run, g := world.run, world.g;
      result, o := CancelVerdict(outcome);
      if o.Done? && outcome == LocalCancelledBeforeSend {
        assert world.run == run + world.run[|run|..];
        ClosedUnsentNeverSends(world.config, run, g, world.run[|run|..], world.g);
      }
    }

    method ReadFacts() returns (facts: seq<Event>, numbers: seq<nat>, o: Outcome)
      requires Ready()
      modifies world
      ensures After(o) && Since(old(world.run), old(world.g.log), old(|world.script|), o)
      ensures Idle(world.run, old(|world.run|), op) && Outside(o)
      ensures !o.Crashed? ==> Ready() && Undisturbed(op, old(world.g), world.g)
      ensures o.Done? ==> facts == world.g.log && |numbers| == |facts|
    {
      hide Fit, Tracked, Exec;
      facts, numbers, o := world.Facts(op);
      if !o.Crashed? { SteadyLater(Base(), Missing(), ToRow(), old(world.g.log), world.g.log); }
    }

    /** Carries out a cancel request that arrived meanwhile; reports what it published. */
    method CancelDelivery() returns (events: seq<Event>, terminal: bool, o: Outcome)
      requires Ready() && pending == []
      requires Untouched() && descriptor.Terminal() ==> snapshot.Some?
      modifies world, `handle, `context, `adapter, `continuationId, `pendingInput, `refs, `cursor, `lastEvent,
               `pending, `delivered, `seen, `source, `descriptor, `snapshot, `muted
      ensures After(o) && Since(old(world.run), old(world.g.log), old(|world.script|), o)
      ensures delivered == old(delivered) && seen == old(seen) && muted == old(muted) && Outside(o)
      ensures !o.Crashed? ==> handle == old(handle) || handle.remoteTask.Some?
      ensures o.Done? ==> pending == [] && terminal == Ended() && CarriedOut() && forall e <- events :: e in world.g.log
    {
      hide Fit, Tracked, Exec, ToRow, Deduped;
      var before := cursor;
      events, terminal := [], false;
      var result, facts, numbers;
      result, o := Cancel();
      if !o.Done? { return; }
      facts, numbers, o := ReadFacts();
      if !o.Done? { return; }
      for i := 0 to |facts|
        invariant forall e <- events :: e in facts
      {
        if numbers[i] > before { events := events + [facts[i]]; }
      }
      terminal := result.snapshot.Some? && result.snapshot.value.Terminal();
    }

    // ------------------------------------------------------------------- recovery

    predicate Stopped() reads `snapshot { snapshot.Some? && (snapshot.value.Terminal() || snapshot.value.Paused()) }

    /** Carries out a cancel request if there is one, and yields what it published. */
    method ServeCancel() returns (stopped: bool, o: Outcome)
      requires Ready() && pending == [] && !Untouched()
      modifies world, `handle, `context, `adapter, `continuationId, `pendingInput, `refs, `cursor, `lastEvent,
               `pending, `delivered, `seen, `source, `descriptor, `snapshot, `muted
      ensures After(o) && Since(old(world.run), old(world.g.log), old(|world.script|), o)
      ensures Heard(old(delivered), old(seen)) && muted == old(muted) && Outside(o)
      ensures !o.Crashed? ==> !Untouched()
      ensures o.Done? ==> pending == [] && |world.script| < old(|world.script|) && (stopped ==> Stopped())
      ensures o.Done? && !stopped && !old(Ended()) ==> !Ended()
    {
      hide Fit, Tracked, Exec, ToRow, Deduped;
      stopped := false;
      var flagged, events;
      flagged, o := CancelFlag();
      if !o.Done? || !flagged { return; }
      events, stopped, o := CancelDelivery();
      if !o.Done? { return; }
      o := YieldAll(events);
    }

    /** One round of observation; says whether it stopped at a boundary. */
    method ObserveOnce() returns (stopped: bool, o: Outcome)
      requires Ready() && pending == [] && !Untouched()
      modifies world, `handle, `context, `adapter, `continuationId, `pendingInput, `refs, `cursor, `lastEvent,
               `pending, `delivered, `seen, `source, `descriptor, `snapshot, `muted
      ensures After(o) && Since(old(world.run), old(world.g.log), old(|world.script|), o)
      ensures Heard(old(delivered), old(seen)) && muted == old(muted) && world.Complete(o)
      ensures !o.Crashed? ==> !Untouched()
      ensures o.Done? ==> pending == [] && |world.script| < old(|world.script|) && (stopped ==> Stopped())
      ensures o.Done? && !stopped ==> !Ended()
      ensures o == Raised(BINDING_UNKNOWN) && !old(Ended()) ==> !Ended()
    {
      hide Fit, Tracked, Exec, ToRow, Deduped, Ready, Savable, RowInv, IdentityMatches, Undisturbed;
      stopped, o := ServeCancel();
      if !o.Done? || stopped { return; }
      ghost var state;
      o, state := Get();
      if !o.Done? { return; }
      stopped := Stopped();
      if !stopped {
        var ignored;
        ignored, o := Pause();
      }
    }

    /** Observes the bound task until it ends or waits for the caller. */
    method ObserveBound() returns (o: Outcome)
      requires Ready() && pending == [] && !Untouched()
      modifies world, `handle, `context, `adapter, `continuationId, `pendingInput, `refs, `cursor, `lastEvent,
               `pending, `delivered, `seen, `source, `descriptor, `snapshot, `muted
      ensures After(o) && Since(old(world.run), old(world.g.log), old(|world.script|), o)
      ensures Heard(old(delivered), old(seen)) && muted == old(muted) && world.Complete(o)
      ensures !o.Crashed? ==> !Untouched()
      ensures o.Done? ==> pending == [] && Stopped()
      ensures o == Raised(BINDING_UNKNOWN) && !old(Ended()) ==> !Ended()
    {
      hide Fit, Tracked, Exec, ToRow, Deduped;
      var stopped := false;
      o := Done;
      while !stopped
        invariant Ready() && pending == [] && !Untouched() && o.Done? && (stopped ==> Stopped())
        invariant Since(old(world.run), old(world.g.log), old(|world.script|), o)
        invariant Heard(old(delivered), old(seen)) && muted == old(muted)
        invariant !stopped && !old(Ended()) ==> !Ended()
        decreases |world.script|, !stopped
      {
        stopped, o := ObserveOnce();
        if !o.Done? { return; }
      }
    }

    /** Looks through a replay for the descriptor's closing fact and the referenced outputs. */
    method ReplayComplete(facts: seq<Event>) returns (complete: bool)
      requires descriptor.Terminal()
      ensures complete <==> Replays(ToRow(), facts)
    {
      var closing, completed := IndexCompletions(facts);
      if closing.None? || closing.value.descriptor != descriptor { return false; }
      for i := 0 to |refs|
        invariant forall ref <- refs[..i] :: exists k: nat :: LastCompletion(facts, k, ref.itemId) && Covers(facts[k], ref)
      {
        assert refs[..i + 1] == refs[..i] + [refs[i]];
        if refs[i].itemId !in completed { return false; }
        var k := completed[refs[i].itemId];
        if !Covers(facts[k], refs[i]) { return false; }
      }
      complete := true;
    }

    /** The facts of a closed call. The check fails exactly when one is missing, and never where
        operations stop at a failed save. */
    method TerminalReplay() returns (facts: seq<Event>, o: Outcome)
      requires Ready() && pending == [] && descriptor.Terminal()
      modifies world
      ensures After(o) && Since(old(world.run), old(world.g.log), old(|world.script|), o)
      ensures Idle(world.run, old(|world.run|), op) && world.Complete(o) && o != Raised(BINDING_UNKNOWN)
      ensures !o.Crashed? ==> Ready() && Undisturbed(op, old(world.g), world.g)
      ensures o.Done? ==> facts == world.g.log && Replays(ToRow(), facts)
      ensures o == Raised(FACT_REQUIRED) ==> !Replays(ToRow(), world.g.log)
    {
      hide Fit, Tracked, Exec, Deduped, Replays;
      var numbers;
      facts, numbers, o := ReadFacts();
      if !o.Done? { return; }
      if world.config.failStop { StateReplays(world.config, world.run, world.g, Base(), ToRow()); }
      var complete := ReplayComplete(facts);
      if !complete { o := Raised(FACT_REQUIRED); }
    }

    /** Hands out the facts published so far, once each, then what is observed from here. */
    method RecoverBound() returns (o: Outcome)
      requires Ready() && pending == [] && !Untouched() && !Ended() && seen.None? && !muted
      modifies world, `handle, `context, `adapter, `continuationId, `pendingInput, `refs, `cursor, `lastEvent,
               `pending, `delivered, `seen, `source, `descriptor, `snapshot, `muted, `since
      ensures After(o) && Since(old(world.run), old(world.g.log), old(|world.script|), o)
      ensures old(delivered) <= delivered && seen.None? && !muted
      ensures !o.Crashed? ==> !Untouched()
      ensures !o.Crashed? ==> NoRepeats(delivered[|old(delivered)|..])
      ensures world.Complete(o)
      ensures o.Done? ==> pending == [] && Stopped() && forall e <- old(world.g.log) :: e in delivered[|old(delivered)|..]
      ensures o == Raised(BINDING_UNKNOWN) ==> !Ended()
    {
      hide Fit, Tracked, Exec, ToRow, Deduped;
      o := Authorize();
      if !o.Done? { return; }
      OpenFilter();
      o := FollowReplay();
      CloseFilter(o);
    }

    /** From here on an event is handed out only once. */
    method OpenFilter()
      requires Ready()
      modifies `seen, `since
      ensures Ready() && seen == Some({}) && since == |delivered|
    {
      hide Fit, Tracked, Exec;
      seen, since := Some({}), |delivered|;
    }

    method CloseFilter(ghost o: Outcome)
      requires After(o) && seen.Some? && (!o.Crashed? ==> Deduped())
      modifies `seen
      ensures After(o) && seen.None? && (!o.Crashed? ==> since <= |delivered| && NoRepeats(delivered[since..]))
    {
      hide Fit, Tracked, Exec;
      seen := None;
    }

    method FollowReplay() returns (o: Outcome)
      requires Ready() && pending == [] && !Untouched() && !Ended() && seen == Some({}) && since == |delivered| && !muted
      modifies world, `handle, `context, `adapter, `continuationId, `pendingInput, `refs, `cursor, `lastEvent,
               `pending, `delivered, `seen, `source, `descriptor, `snapshot, `muted
      ensures After(o) && Since(old(world.run), old(world.g.log), old(|world.script|), o)
      ensures old(delivered) <= delivered && seen.Some? && !muted && (!o.Crashed? ==> Deduped())
      ensures !o.Crashed? ==> !Untouched()
      ensures world.Complete(o)
      ensures o.Done? ==> pending == [] && Stopped() && forall e <- old(world.g.log) :: e in delivered[|old(delivered)|..]
      ensures o == Raised(BINDING_UNKNOWN) ==> !Ended()
    {
      hide Fit, Tracked, Exec, ToRow, Deduped;
      o := HandOutFacts();
      if !o.Done? { return; }
      ghost var handed := delivered;
      o := ObserveBound();
      if !o.Done? { return; }
      StillThere(handed, delivered, since);
      EndedIsTerminal();
      if Ended() {
        var ignored;
        ignored, o := TerminalReplay();
      }
    }

    method HandOutFacts() returns (o: Outcome)
      requires Ready() && pending == [] && seen == Some({}) && since == |delivered| && !muted
      modifies world, `delivered, `seen
      ensures After(o) && Since(old(world.run), old(world.g.log), old(|world.script|), o)
      ensures Outside(o) && old(delivered) <= delivered && seen.Some?
      ensures o.Done? ==> forall e <- old(world.g.log) :: e in delivered[|old(delivered)|..]
    {
      hide Fit, Tracked, Exec, ToRow;
      var facts, numbers;
      facts, numbers, o := ReadFacts();
      if !o.Done? { return; }
      o := YieldAll(facts);
    }

    // ------------------------------------------------------------------- sending

    /** Saves the send receipt, before anything reaches the wire. */
    method EnterSend(token: string) returns (o: Outcome)
      requires Ready() && Sendable(Base().value, ToRow(), token)
      modifies world, `sendEntered
      ensures After(o) && Since(old(world.run), old(world.g.log), old(|world.script|), o)
      ensures Outside(o) && (o.Raised? ==> !world.config.failStop) && sendEntered
      ensures o.Done? ==> Stored() && op in world.g.grants && world.g.grants[op] == token
    {
      ReceiptFits(Base().value, ToRow(), token, world.g.log);
      sendEntered := true;
      hide Tracked, Exec;
      o := world.Save(op, ToRow(), Some(token));
      if o.Crashed? { return; }
      SavedIsSteady(old(Base()), old(world.g.log), o);
    }

    method OpenWire(token: string) returns (o: Outcome)
      requires Ready() && op in world.g.grants && world.g.grants[op] == token
      modifies world, `wired
      ensures After(o) && Since(old(world.run), old(world.g.log), old(|world.script|), o)
      ensures Outside(o) && (o.Done? ==> token in world.g.sends)
      ensures wired == old(wired) + [token]
    {
      hide Fit, Tracked, Exec;
      wired := wired + [token];
      o := world.OpenStream(op, token);
      if !o.Crashed? { SteadyLater(Base(), Missing(), ToRow(), old(world.g.log), world.g.log); }
    }

    /** Opens the message stream under a receipt that is durable by then. */
    method OpenMessage(token: string) returns (o: Outcome)
      requires Ready() && pending == [] && Sendable(Base().value, ToRow(), token)
      modifies world, `sendEntered, `wired, `descriptor, `cursor, `lastEvent, `pending, `delivered, `seen
      ensures After(o) && Since(old(world.run), old(world.g.log), old(|world.script|), o)
      ensures sendEntered && Outside(o) && Heard(old(delivered), old(seen))
      ensures o.Done? ==> pending == [] && token in world.g.sends && wired == old(wired) + [token]
      ensures wired == old(wired) || wired == old(wired) + [token]
    {
      hide Fit, Tracked, Exec, ToRow, Deduped;
      o := EnterSend(token);
      if !o.Done? { return; }
      if descriptor.status != Working {
        o := Announce(Working, None);
        if !o.Done? { return; }
      }
      o := OpenWire(token);
    }

    /** Closes an unsent call for a cancel request found before the send. */
    method CloseBeforeSend() returns (o: Outcome)
      requires Ready() && pending == [] && !Ended() && !sendEntered
      modifies world, `descriptor, `snapshot, `cursor, `lastEvent, `pending, `delivered, `seen
      ensures After(o) && Since(old(world.run), old(world.g.log), old(|world.script|), o)
      ensures Heard(old(delivered), old(seen)) && Outside(o)
      ensures o.Done? ==> Cleared(old(|world.run|))
      ensures o.Done? ==> pending == [] && ClosedUnsent(world.g.row) && world.g.sends == []
    {
      hide Fit, Tracked, Exec, ToRow, Deduped;
      o := Announce(Cancelled, Some(CancelState(UnknownCapability, LocalConfirmed)));
      if !o.Done? { return; }
      o := TakeSnapshot(Seen(Cancelled), None);
      if !o.Done? { return; }
      ghost var run, g := world.run, world.g;
      o := ClearFlag();
      LocallyClosedIsUnsent(world.config, run, g, world.run, world.g, descriptor);
    }

    /** A cancel request found before the send: closes an unsent call, or asks the remote side. */
    method CancelInsteadOfSend() returns (o: Outcome)
      requires Ready() && pending == [] && !Ended()
      modifies world, `handle, `context, `adapter, `continuationId, `pendingInput, `refs, `cursor, `lastEvent,
               `pending, `delivered, `seen, `source, `descriptor, `snapshot, `muted
      ensures After(o) && Since(old(world.run), old(world.g.log), old(|world.script|), o)
      ensures Heard(old(delivered), old(seen)) && muted == old(muted) && Outside(o)
      ensures o.Done? ==> pending == [] && if sendEntered then CarriedOut() else ClosedUnsent(world.g.row) && world.g.sends == []
    {
      hide Fit, Tracked, Exec, ToRow, Deduped;
      if sendEntered { o := DeliverCancel(); } else { o := CloseBeforeSend(); }
    }

    /** Carries out a cancel request and yields what it published. */
    method DeliverCancel() returns (o: Outcome)
      requires Ready() && pending == [] && !Untouched()
      modifies world, `handle, `context, `adapter, `continuationId, `pendingInput, `refs, `cursor, `lastEvent,
               `pending, `delivered, `seen, `source, `descriptor, `snapshot, `muted
      ensures After(o) && Since(old(world.run), old(world.g.log), old(|world.script|), o)
      ensures Heard(old(delivered), old(seen)) && muted == old(muted) && Outside(o)
      ensures !o.Crashed? ==> !Untouched()
      ensures o.Done? ==> pending == [] && CarriedOut()
    {
      hide Fit, Tracked, Exec, ToRow, Deduped;
      var events, terminal;
      events, terminal, o := CancelDelivery();
      if o.Done? { o := YieldAll(events); }
    }

    /** What a cancel request was checked for: the task locators known by then. */
    function Located(): Option<(Option<string>, Option<string>)> reads `handle { Some((handle.platformTask, handle.remoteTask)) }

    /** Looks for a cancel request, unless one was served for these locators already. */
    method CheckFlag() returns (flagged: bool, o: Outcome)
      requires Ready()
      modifies world
      ensures After(o) && Since(old(world.run), old(world.g.log), old(|world.script|), o) && Outside(o)
      ensures o.Done? && flagged ==> |world.script| < old(|world.script|)
      ensures o.Done? && cancelCheckedFor == Located() ==> !flagged
      ensures o.Done? && cancelCheckedFor != Located() ==> FlagWas(world.config, world.run, |old(world.run)|, flagged)
    {
      hide Fit, Tracked, Exec, FlagWas;
      flagged, o := false, Done;
      if cancelCheckedFor != Located() { flagged, o := CancelFlag(); }
    }

    /** The next thing the stream brings, or a cancel request carried out meanwhile. */
    method NextNative() returns (next: Arrival, o: Outcome)
      requires Ready() && pending == [] && sendEntered && !Ended()
      modifies world, `handle, `context, `adapter, `continuationId, `pendingInput, `refs, `cursor, `lastEvent,
               `pending, `delivered, `seen, `source, `descriptor, `snapshot, `muted, `cancelCheckedFor
      ensures After(o) && Since(old(world.run), old(world.g.log), old(|world.script|), o)
      ensures Heard(old(delivered), old(seen)) && muted == old(muted) && Outside(o)
      ensures o.Done? ==> pending == [] && |world.script| < old(|world.script|)
      ensures o.Done? ==> (if next.Payload? then !Ended() && next.choice.native != NothingYet else next.terminal == Ended())
      // a request is served once for the locators known, and only when the flag was found set
      ensures o.Done? && next.Delivery? ==> old(cancelCheckedFor != Located()) && cancelCheckedFor == old(Located())
      ensures o.Done? && next.Delivery? ==> FlagWas(world.config, world.run, |old(world.run)|, true)
      ensures o.Done? && next.Payload? ==> cancelCheckedFor == old(cancelCheckedFor)
      ensures o.Done? && next.Payload? && old(cancelCheckedFor != Located()) ==> FlagWas(world.config, world.run, |old(world.run)|, false)
    {
      hide Fit, Tracked, Exec, ToRow, Deduped, FlagWas;
      next, o := Delivery([], false), Done;
      var waiting := true;
      while waiting
        invariant Ready() && pending == [] && !Ended() && o.Done?
        invariant Since(old(world.run), old(world.g.log), old(|world.script|), o)
        invariant Heard(old(delivered), old(seen)) && muted == old(muted) && handle == old(handle)
        invariant !waiting ==> next.Payload? && next.choice.native != NothingYet && |world.script| < old(|world.script|)
        invariant cancelCheckedFor == old(cancelCheckedFor)
        invariant !waiting && cancelCheckedFor != Located() ==> FlagWas(world.config, world.run, |old(world.run)|, false)
        decreases |world.script|, waiting
      {
        ghost var from := |world.run|;
        var flagged;
        flagged, o := CheckFlag();
        if !o.Done? { return; }
        ghost var run := world.run;
        if flagged {
          next, o := DeliverNext();
          FlagWasLater(world.config, run, from, world.run, |old(world.run)|, true);
          return;
        }
        var c;
        c, o := Pause();
        if !o.Done? { return; }
        if cancelCheckedFor != Located() { FlagWasLater(world.config, run, from, world.run, |old(world.run)|, false); }
        if c.native != NothingYet { next, waiting := Payload(c), false; }
      }
    }

    method DeliverNext() returns (next: Arrival, o: Outcome)
      requires Ready() && pending == [] && sendEntered && !Ended()
      modifies world, `handle, `context, `adapter, `continuationId, `pendingInput, `refs, `cursor, `lastEvent,
               `pending, `delivered, `seen, `source, `descriptor, `snapshot, `muted, `cancelCheckedFor
      ensures After(o) && Since(old(world.run), old(world.g.log), old(|world.script|), o)
      ensures Heard(old(delivered), old(seen)) && muted == old(muted) && Outside(o)
      ensures next.Delivery? && (o.Done? ==> pending == [] && next.terminal == Ended())
      ensures cancelCheckedFor == old(Located())
    {
      hide Fit, Tracked, Exec, Deduped;
      cancelCheckedFor := Located();
      var events, terminal;
      events, terminal, o := CancelDelivery();
      next := Delivery(events, terminal);
    }

    /** Publishes a pause of the remote task and records it for the caller. */
    method PauseCall(state: RemoteState) returns (o: Outcome)
      requires Ready() && pending == [] && sendEntered && !Ended() && state in {TaskInputRequired, TaskAuthRequired}
      modifies world, `source, `descriptor, `snapshot, `cursor, `lastEvent, `pending, `delivered, `seen
      ensures After(o) && Since(old(world.run), old(world.g.log), old(|world.script|), o)
      ensures Heard(old(delivered), old(seen)) && Outside(o)
      ensures o.Done? ==> pending == [] && !Ended() && descriptor.status == InputRequired && snapshot.Some?
      ensures o.Done? ==> snapshot.value.status == (if state == TaskAuthRequired then AuthRequired else Seen(InputRequired))
    {
      hide Fit, Tracked, Exec, ToRow, Deduped;
      SetSource(Stream);
      o := Announce(InputRequired, None);
      if !o.Done? { return; }
      o := TakeSnapshot(if state == TaskAuthRequired then AuthRequired else Seen(InputRequired), None);
    }

    /** Takes in one report of the stream; says whether it ends the task, or is a direct answer. */
    method TakeNative(c: Choice) returns (terminal: bool, direct: bool, o: Outcome)
      requires Ready() && pending == [] && sendEntered && !Ended() && c.native != EndOfStream && c.native != NothingYet
      modifies world, `handle, `context, `adapter, `continuationId, `pendingInput, `refs, `cursor, `lastEvent,
               `pending, `delivered, `seen, `source, `descriptor, `snapshot
      ensures After(o) && Since(old(world.run), old(world.g.log), old(|world.script|), o)
      ensures Heard(old(delivered), old(seen)) && Outside(o)
      ensures o.Done? ==> pending == [] && !Ended()
      ensures o.Done? ==> (terminal <==> TaskOf(c.native).Some?
                                         && TaskOf(c.native).value.state in {TaskCompleted, TaskFailed, TaskCanceled, TaskRejected})
      ensures o.Done? ==> (direct <==> c.native.NativeMessage? && handle.remoteTask.None?)
      ensures o.Done? && TaskOf(c.native).Some? && TaskOf(c.native).value.state in {TaskInputRequired, TaskAuthRequired} ==>
                descriptor.status == InputRequired && Stopped()
    {
      hide Fit, Tracked, Exec, ToRow, Deduped;
      terminal, direct := false, false;
      EndedIsTerminal();
      var named := Names(c.native);
      o := TakeIn(named.0, named.1, c);
      if !o.Done? { return; }
      direct := c.native.NativeMessage? && handle.remoteTask.None?;
      var task := TaskOf(c.native);
      if task.Some? {
        terminal := task.value.state in {TaskCompleted, TaskFailed, TaskCanceled, TaskRejected};
        if task.value.state in {TaskInputRequired, TaskAuthRequired} { o := PauseCall(task.value.state); }
      }
    }

    /** Takes in the next arrival; `more` unless the stream or the call has ended. */
    method ReceiveOnce() returns (more: bool, settled: bool, ends: bool, answers: bool, o: Outcome)
      requires Ready() && pending == [] && sendEntered && !Ended()
      modifies world, `handle, `context, `adapter, `continuationId, `pendingInput, `refs, `cursor, `lastEvent,
               `pending, `delivered, `seen, `source, `descriptor, `snapshot, `muted, `cancelCheckedFor
      ensures After(o) && Since(old(world.run), old(world.g.log), old(|world.script|), o)
      ensures Heard(old(delivered), old(seen)) && muted == old(muted) && Outside(o)
      ensures o.Done? ==> pending == [] && |world.script| < old(|world.script|)
      ensures o.Done? ==> (settled <==> Ended()) && (settled ==> !more)
    {
      hide Fit, Tracked, Exec, ToRow, Deduped;
      more, settled, ends, answers := true, false, false, false;
      var next;
      next, o := NextNative();
      if !o.Done? { return; }
      match next
      case Delivery(events, ended) =>
        o := YieldAll(events);
        more, settled := !ended, ended;
      case Payload(c) =>
        if c.native == EndOfStream { more := false; } else { ends, answers, o := TakeNative(c); }
    }

    /** Follows the stream to its end; `settled` when a cancel request ended the call first. */
    method Receive() returns (settled: bool, terminal: bool, direct: bool, o: Outcome)
      requires Ready() && pending == [] && sendEntered && !Ended()
      modifies world, `handle, `context, `adapter, `continuationId, `pendingInput, `refs, `cursor, `lastEvent,
               `pending, `delivered, `seen, `source, `descriptor, `snapshot, `muted, `cancelCheckedFor
      ensures After(o) && Since(old(world.run), old(world.g.log), old(|world.script|), o)
      ensures Heard(old(delivered), old(seen)) && muted == old(muted) && Outside(o)
      ensures o.Done? ==> pending == [] && (settled <==> Ended())
    {
      hide Fit, Tracked, Exec, ToRow, Deduped;
      settled, terminal, direct, o := false, false, false, Done;
      var more := true;
      while more
        invariant Ready() && pending == [] && o.Done? && (settled <==> Ended()) && (settled ==> !more)
        invariant Since(old(world.run), old(world.g.log), old(|world.script|), o)
        invariant Heard(old(delivered), old(seen)) && muted == old(muted)
        decreases |world.script|, more
      {
        var ends, answers;
        more, settled, ends, answers, o := ReceiveOnce();
        if !o.Done? { return; }
        terminal, direct := terminal || ends, direct || answers;
      }
    }

    /** Brings a call whose stream has ended to its result. */
    method Conclude(terminal: bool, direct: bool) returns (o: Outcome)
      requires Ready() && pending == [] && sendEntered && !Ended()
      modifies world, `handle, `context, `adapter, `continuationId, `pendingInput, `refs, `cursor, `lastEvent,
               `pending, `delivered, `seen, `source, `descriptor, `snapshot, `muted
      ensures After(o) && Since(old(world.run), old(world.g.log), old(|world.script|), o)
      ensures Heard(old(delivered), old(seen)) && muted == old(muted) && world.Complete(o)
      ensures o.Done? ==> pending == []
      ensures o.Done? && old(handle.remoteTask.Some? && (terminal || descriptor.status != InputRequired)) ==> Stopped()
      ensures o.Done? && old(handle.remoteTask.None?) && direct ==> Ended() && Shows(Completed) && descriptor.status == Completed
      ensures o.Done? && old(handle.remoteTask.None? && descriptor.status != InputRequired) && !direct ==>
                snapshot.Some? && snapshot.value.status == UnknownOutcome && descriptor == old(descriptor)
    {
      hide Fit, Tracked, Exec, ToRow, Deduped;
      o := Done;
      if handle.remoteTask.Some? && (terminal || descriptor.status != InputRequired) {
        o := ObserveBound();
      } else if direct {
        o := Announce(Completed, None);
        if !o.Done? { return; }
        o := TakeSnapshot(Seen(descriptor.status), None);
      } else if descriptor.status != InputRequired {
        o := TakeSnapshot(UnknownOutcome, Some("A2A_REMOTE_BINDING_UNKNOWN"));
      }
    }

    /** Opens the stream for a message, follows it and brings the call to its result. */
    method Converse(token: string) returns (o: Outcome)
      requires Ready() && pending == [] && !Ended() && Sendable(Base().value, ToRow(), token)
      modifies world, `handle, `context, `adapter, `continuationId, `pendingInput, `refs, `cursor, `lastEvent,
               `pending, `delivered, `seen, `source, `descriptor, `snapshot, `muted, `cancelCheckedFor, `sendEntered, `wired
      ensures After(o) && Since(old(world.run), old(world.g.log), old(|world.script|), o)
      ensures Heard(old(delivered), old(seen)) && muted == old(muted) && world.Complete(o)
      ensures sendEntered && (o.Done? ==> pending == [] && token in world.g.sends && wired == old(wired) + [token])
      ensures wired == old(wired) || wired == old(wired) + [token]
    {
      hide Fit, Tracked, Exec, ToRow, Deduped;
      o := OpenMessage(token);
      if !o.Done? { return; }
      ghost var run, g := world.run, world.g;
      var settled, terminal, direct;
      settled, terminal, direct, o := Receive();
      if o.Done? && !settled { o := Conclude(terminal, direct); }
      RecordsOnlyGrow(world.config, run, g, world.run, world.g);
    }

    /** Sends one message under its idempotency token, unless a cancel request came first. */
    method Send(token: string) returns (o: Outcome)
      requires Ready() && pending == [] && !Ended() && Sendable(Base().value, ToRow(), token)
      modifies world, `handle, `context, `adapter, `continuationId, `pendingInput, `refs, `cursor, `lastEvent,
               `pending, `delivered, `seen, `source, `descriptor, `snapshot, `muted, `cancelCheckedFor, `sendEntered, `wired
      ensures After(o) && Since(old(world.run), old(world.g.log), old(|world.script|), o)
      ensures Heard(old(delivered), old(seen)) && muted == old(muted) && world.Complete(o)
      ensures o.Done? ==> pending == []
      ensures wired == old(wired) || wired == old(wired) + [token]
      ensures o.Done? ==> if wired == old(wired) then Withheld(|old(world.run)|, old(sendEntered)) else Delivered(|old(world.run)|, token)
    {
      hide Fit, Tracked, Exec, Deduped;
      var flagged;
      flagged, o := CancelFlag();
      if !o.Done? { return; }
      ghost var run := world.run;
      if flagged { o := CancelInsteadOfSend(); } else { o := Converse(token); }
      FlagWasLater(world.config, run, |old(world.run)|, world.run, |old(world.run)|, flagged);
    }

    /** The message was not sent, because the cancel flag was found set: the request was carried
        out on the remote side, or the call closed unsent. */
    ghost predicate Withheld(from: nat, sentBefore: bool)
      reads `descriptor, `snapshot, world
    {
      && FlagWas(world.config, world.run, from, true)
      && if sentBefore then CarriedOut() else ClosedUnsent(world.g.row) && world.g.sends == []
    }

    lemma EarlierWithheld(from: nat, from': nat, sentBefore: bool)
      requires Withheld(from, sentBefore) && from' <= from
      ensures Withheld(from', sentBefore)
    {
      FlagWasLater(world.config, world.run, from, world.run, from', true);
    }

    lemma EarlierDelivered(from: nat, from': nat, token: string)
      requires Delivered(from, token) && from' <= from
      ensures Delivered(from', token)
    {
      FlagWasLater(world.config, world.run, from, world.run, from', false);
    }

    /** The message was sent, after the cancel flag was found clear. */
    ghost predicate Delivered(from: nat, token: string)
      reads world
    {
      FlagWas(world.config, world.run, from, false) && token in world.g.sends
    }

    // ----------------------------------------------------------------- invocation

    /** A call that has not been sent: restored as such, or just begun. */
    ghost predicate Unsent()
      reads this, world
    {
      && pending == [] && Untouched() && !Ended() && !descriptor.Terminal() && Deduped() && seen.None? && !muted
      && (Ready() || (world.Loaded(op) && Base().None? && context.None? && adapter.completed == {}
                      && RowInv(Started()) && FirstRow(Started())))
    }

    /** The state with the first message's token noted. */
    function Started(): Row reads this { ToRow().(tokens := tokens[request.token := request.digest]) }

    method NoteRequestToken()
      requires Unsent()
      modifies `tokens, `active
      ensures Savable() && request.token in tokens && active
    {
      hide Exec, Deduped, RowInv, Evolves, Tracked;
      assert Base().Some? ==> Steady(Base(), Missing(), ToRow(), world.g.log);
      if Base().None? { BegunFits(Started(), world.g.log); }
      if Base().Some? {
        EndedIsTerminal();
        TokensSteady(Base(), Missing(), ToRow(), request.token, request.digest, world.g.log);
      }
      tokens, active := tokens[request.token := request.digest], true;
      assert ToRow() == old(Started());
    }

    /** Saves the request and the explicit "not sent" before anything is asked of anybody. */
    method SaveRequest() returns (o: Outcome)
      requires Unsent()
      modifies world, `tokens, `active
      ensures AfterFirst(o) && Since(old(world.run), old(world.g.log), old(|world.script|), o)
      ensures (old(Ready()) ==> After(o)) && Outside(o) && (o.Done? ==> Stored() && request.token in tokens)
    {
      hide Exec, Fit, Tracked, Deduped, RowInv;
      NoteRequestToken();
      o := SaveState();
    }

    /** Pins the platform task, and the remote task if the control plane knows one. */
    method Pin(prepared: Prepared) returns (o: Outcome)
      requires Ready() && Untouched()
      modifies `handle
      ensures Ready() && Outside(o) && (o.Done? || o.Raised?)
      ensures o.Done? ==> handle.platformTask.Some? && (prepared.remote.Some? <==> handle.remoteTask.Some?)
    {
      hide Fit, Tracked, Exec, Deduped;
      FitRow(Base(), ToRow(), world.g.log);
      o := Adopt(handle.WithPlatformTask(prepared.platformTask));
      if !o.Done? || prepared.remote.None? { return; }
      o := Adopt(handle.BindRemoteTask(prepared.remote.value.0, prepared.remote.value.1));
    }

    /** Prepares the call with the control plane and pins what it names. */
    method Prepare() returns (remote: bool, o: Outcome)
      requires Ready() && Untouched()
      modifies world, `handle
      ensures After(o) && Since(old(world.run), old(world.g.log), old(|world.script|), o)
      ensures Outside(o)
      ensures o.Done? ==> handle.platformTask.Some? && (remote <==> handle.remoteTask.Some?)
    {
      hide Fit, Tracked, Exec, ToRow, Deduped;
      remote := false;
      var c;
      o := Authorize();
      if !o.Done? { return; }
      c, o := Pause();
      if !o.Done? { return; }
      if !c.prepared.targetMatches || !c.prepared.hosted { o := Raised("A2A_HOSTED_ROUTE_REQUIRED"); return; }
      o := Authorize();
      if !o.Done? { return; }
      o := Pin(c.prepared);
      remote := c.prepared.remote.Some?;
    }

    /** Publishes the first descriptor fact unless the log has one, and yields it when nothing
        remote is known yet. */
    method Introduce(remote: bool) returns (o: Outcome)
      requires Ready() && pending == [] && !descriptor.Terminal()
      modifies world, `descriptor, `cursor, `lastEvent, `pending, `delivered, `seen
      ensures After(o) && Since(old(world.run), old(world.g.log), old(|world.script|), o)
      ensures Outside(o) && Heard(old(delivered), old(seen))
      ensures o.Done? ==> pending == [] && !descriptor.Terminal() && exists e <- world.g.log :: e.ScopeFact?
    {
      hide Fit, Tracked, Exec, Deduped;
      var facts, numbers;
      facts, numbers, o := ReadFacts();
      if !o.Done? || exists e <- facts :: e.ScopeFact? { return; }
      var submitted;
      submitted, o := DescriptorEvent(Submitted, true, None);
      if o.Done? && !remote { o := Yield(submitted); }
    }

    /** What a call has come to: its message was sent just now, or it has reached a boundary,
        or its outcome is unknown, or it is closed and never will be sent. */
    ghost predicate Resolved(sent: bool)
      reads `request, `snapshot, world
    {
      if sent then request.token in world.g.sends
      else Stopped() || Uncertain() || (ClosedUnsent(world.g.row) && world.g.sends == [])
    }

    predicate Uncertain() reads `snapshot { snapshot.Some? && snapshot.value.status == UnknownOutcome }

    /** Recovers a call the control plane already bound, or sends it. */
    method Dispatch(remote: bool) returns (o: Outcome)
      requires Ready() && pending == [] && !descriptor.Terminal() && !Ended() && !sendEntered && seen.None? && !muted
      requires handle.platformTask.Some? && (remote <==> handle.remoteTask.Some?)
      modifies world, `handle, `context, `adapter, `continuationId, `pendingInput, `refs, `cursor, `lastEvent,
               `pending, `delivered, `seen, `source, `descriptor, `snapshot,
               `muted, `since, `cancelCheckedFor, `sendEntered, `wired
      ensures After(o) && Since(old(world.run), old(world.g.log), old(|world.script|), o)
      ensures seen.None? && !muted && world.Complete(o) && old(delivered) <= delivered
      ensures o.Done? ==> pending == []
      ensures o.Done? && remote ==> Stopped() && sendEntered == old(sendEntered)
      ensures wired == old(wired) || (!remote && wired == old(wired) + [request.token])
      ensures o.Done? && !remote && wired == old(wired) ==> ClosedUnsent(world.g.row) && world.g.sends == []
      ensures o.Done? ==> Resolved(wired != old(wired))
    {
      hide Fit, Tracked, Exec, Deduped, Ready, Savable, RowInv, IdentityMatches, Undisturbed;
      o := Introduce(remote);
      if !o.Done? { return; }
      EndedIsTerminal();
      if remote { o := RecoverBound(); } else { o := Send(request.token); }
    }

    method AttemptBody() returns (o: Outcome)
      requires Unsent()
      modifies world, `handle, `context, `adapter, `continuationId, `pendingInput, `refs, `cursor, `lastEvent,
               `pending, `delivered, `seen, `source, `descriptor, `snapshot,
               `muted, `since, `tokens, `cancelCheckedFor, `sendEntered, `wired, `active
      ensures AfterFirst(o) && (old(Ready()) ==> After(o)) && Since(old(world.run), old(world.g.log), old(|world.script|), o)
      ensures seen.None? && !muted && world.Complete(o) && old(delivered) <= delivered
      ensures o.Done? ==> pending == [] && Resolved(wired != old(wired))
      ensures wired == old(wired) || wired == old(wired) + [request.token]
    {
      hide Fit, Tracked, Exec, ToRow, Started, Deduped, Ready, Savable, Resolved, RowInv, FirstRow, IdentityMatches;
      var remote;
      o := SaveRequest();
      if !o.Done? { return; }
      remote, o := Prepare();
      if o.Done? { o := Dispatch(remote); }
    }

    /** Publishes an event that says nothing new about the state, and yields it. */
    method Tell(e: Event) returns (o: Outcome)
      requires Ready() && !Completion(e) && !ClosingFact(e)
      modifies world, `cursor, `lastEvent, `pending, `delivered, `seen
      ensures After(o) && Since(old(world.run), old(world.g.log), old(|world.script|), o)
      ensures Outside(o) && Heard(old(delivered), old(seen)) && (o.Done? ==> pending == [] && e in world.g.log)
      ensures seen.None? && !muted && o.Done? ==> delivered == old(delivered) + [e]
    {
      hide Fit, Tracked, Exec, Deduped;
      var published;
      if pending == [] { PlainBatchFits(Base(), Missing(), ToRow(), [e], world.g.log); }
      published, o := PublishBatch([e]);
      assert e in [e];
      if o.Done? { o := Yield(e); }
    }

    /** Publishes that the local call failed while its outcome stays unknown. */
    method TellUnknown() returns (o: Outcome)
      requires Ready() && !Untouched()
      modifies world, `descriptor, `cursor, `lastEvent, `pending, `delivered, `seen
      ensures After(o) && Since(old(world.run), old(world.g.log), old(|world.script|), o)
      ensures Heard(old(delivered), old(seen)) && Outside(o)
      ensures o.Done? ==> descriptor.status == Failed && OutcomeStarted in world.g.log && OutcomeFailed in world.g.log
      ensures o.Done? && seen.None? && !muted ==> old(delivered) + [OutcomeStarted, OutcomeFailed] <= delivered
    {
      hide Fit, Tracked, Exec, ToRow, Deduped, Ready, Savable;
      o := Tell(OutcomeStarted);
      if !o.Done? { return; }
      o := Tell(OutcomeFailed);
      if !o.Done? { return; }
      o := Announce(Failed, None);
    }

    /** Tells the caller about a failed call whose outcome is unknown, then fails as it did. */
    method Explain(failure: Outcome) returns (o: Outcome, ghost told: bool)
      requires (Ready() || Unfiled()) && failure.Raised?
      modifies world, `snapshot, `descriptor, `cursor, `lastEvent, `pending, `delivered, `seen
      ensures AfterFirst(o) && (old(Ready()) ==> After(o)) && Since(old(world.run), old(world.g.log), old(|world.script|), o)
      ensures Heard(old(delivered), old(seen)) && !o.Done? && (world.Complete(failure) ==> world.Complete(o))
      ensures snapshot == old(snapshot) || (sendEntered && snapshot.Some? && snapshot.value.status == UnknownOutcome)
      ensures told ==> o == failure && (sendEntered ==> snapshot.Some?)
      ensures told && snapshot.Some? && snapshot.value.status == UnknownOutcome ==> descriptor.status == Failed
    {
      hide Fit, Tracked, Exec, ToRow, Deduped;
      o, told := Done, false;
      if !sendEntered && snapshot.None? {
        o, told := failure, true;
        return;
      }
      EndedIsTerminal();
      if sendEntered && snapshot.None? {
        o := TakeSnapshot(UnknownOutcome, Some("A2A_SEND_OUTCOME_UNKNOWN"));
        if !o.Done? { return; }
      }
      if snapshot.Some? && snapshot.value.status == UnknownOutcome {
        o := TellUnknown();
        if !o.Done? { return; }
      }
      o, told := failure, true;
    }

    method SetActive()
      requires Ready()
      modifies `active
      ensures Ready() && active
    {
      hide Fit, Tracked, Exec, Deduped;
      active := true;
    }

    method SetInactive(ghost o: Outcome)
      requires AfterFirst(o)
      modifies `active
      ensures AfterFirst(o) && (old(After(o)) ==> After(o)) && !active
    {
      hide Fit, Tracked, Exec, Deduped;
      active := false;
    }

    /** One attempt at a call that has not been sent. */
    method Attempt() returns (o: Outcome)
      requires Unsent()
      modifies world, `handle, `context, `adapter, `continuationId, `pendingInput, `refs, `cursor, `lastEvent,
               `pending, `delivered, `seen, `source, `descriptor, `snapshot,
               `muted, `since, `tokens, `cancelCheckedFor, `sendEntered, `wired, `active
      ensures AfterFirst(o) && (old(Ready()) ==> After(o)) && Since(old(world.run), old(world.g.log), old(|world.script|), o)
      ensures seen.None? && !muted && world.Complete(o) && old(delivered) <= delivered && !active
      ensures o.Done? ==> pending == [] && Resolved(wired != old(wired))
      ensures wired == old(wired) || wired == old(wired) + [request.token]
    {
      hide Fit, Tracked, Exec, ToRow, Deduped, Unsent;
      o := AttemptBody();
      if o.Raised? {
        ghost var told;
        o, told := Explain(o);
      }
      SetInactive(o);
    }

    /** Invokes a call that this scope already knows. */
    method InvokeAgain(r: Request, trigger: TriggerRef) returns (o: Outcome)
      requires Ready() && pending == [] && seen.None? && !muted && (descriptor.Terminal() ==> snapshot.Some?)
      modifies world, `handle, `context, `adapter, `continuationId, `pendingInput, `refs, `cursor, `lastEvent,
               `pending, `delivered, `seen, `source, `descriptor, `snapshot,
               `muted, `since, `tokens, `cancelCheckedFor, `sendEntered, `wired, `active
      ensures After(o) && Since(old(world.run), old(world.g.log), old(|world.script|), o)
      ensures world.Complete(o) && old(delivered) <= delivered
      ensures o.Done? ==> request == r
      // a finished call is replayed: nothing saved, published or sent, and every fact handed out
      ensures old(Ended()) ==> Idle(world.run, old(|world.run|), op) && snapshot == old(snapshot)
      ensures old(Ended()) && o.Done? ==> old(delivered + world.g.log) <= delivered
      ensures o.Done? ==> Resolved(wired != old(wired))
      ensures wired == old(wired) || wired == old(wired) + [r.token]
      // a call that may have been sent is only observed
      ensures old(Ended() || sendEntered || handle.remoteTask.Some?) ==> wired == old(wired)
    {
      hide Fit, Tracked, Exec, Deduped;
      o := Done;
      if request != r || descriptor.locator.trigger != trigger {
        o := Raised("A2A_INVOCATION_IDENTITY_CONFLICT");
        return;
      }
      EndedIsTerminal();
      if Ended() {
        var facts;
        facts, o := TerminalReplay();
        if o.Done? { o := YieldAll(facts); }
      } else if sendEntered || handle.remoteTask.Some? {
        if handle.platformTask.Some? { o := RecoverKnown(); }
      } else {
        o := Attempt();
      }
    }

    /** Recovers a call that may have been sent; without any binding its outcome is unknown. */
    method RecoverKnown() returns (o: Outcome)
      requires Ready() && pending == [] && !Untouched() && !Ended() && seen.None? && !muted
      modifies world, `handle, `context, `adapter, `continuationId, `pendingInput, `refs, `cursor, `lastEvent,
               `pending, `delivered, `seen, `source, `descriptor, `snapshot, `muted, `since
      ensures After(o) && Since(old(world.run), old(world.g.log), old(|world.script|), o)
      ensures old(delivered) <= delivered && seen.None? && !muted
      ensures world.Complete(o) && o != Raised(BINDING_UNKNOWN)
      ensures o.Done? ==> Stopped() || Uncertain()
    {
      hide Fit, Tracked, Exec, ToRow, Deduped;
      o := RecoverBound();
      if o == Raised(BINDING_UNKNOWN) {
        o := TakeSnapshot(UnknownOutcome, Some("A2A_SEND_OUTCOME_UNKNOWN"));
      }
    }

    // --------------------------------------------------------------- continuation

    method SetContinuation(next: Option<Continuation>)
      requires Ready()
      modifies `pendingContinuation
      ensures Ready() && pendingContinuation == next
    {
      hide Exec, Deduped;
      NotesSteady(Base(), Missing(), ToRow(), ToRow().(pendingContinuation := next), world.g.log);
      pendingContinuation := next;
    }

    method NoteToken(token: string, digest: string)
      requires Ready() && token !in tokens
      modifies `tokens
      ensures Ready() && tokens == old(tokens)[token := digest] && token !in Base().value.tokens
    {
      hide Fit, Tracked, Exec, Deduped;
      TokensSteady(Base(), Missing(), ToRow(), token, digest, world.g.log);
      tokens := tokens[token := digest];
    }

    /** A continuation sent before: its result is recovered, never sent again. */
    method ContinueAgain(r: Continuation) returns (o: Outcome)
      requires Ready() && pending == [] && seen.None? && !muted && !Untouched()
      modifies world, `handle, `context, `adapter, `continuationId, `pendingInput, `refs, `cursor, `lastEvent,
               `pending, `delivered, `seen, `source, `descriptor, `snapshot, `muted, `since, `pendingContinuation
      ensures After(o) && Since(old(world.run), old(world.g.log), old(|world.script|), o)
      ensures world.Complete(o) && old(delivered) <= delivered
      ensures old(Ended()) ==> Idle(world.run, old(|world.run|), op) && snapshot == old(snapshot)
      ensures o.Done? ==> pendingContinuation.None? && Stopped()
    {
      hide Fit, Tracked, Exec, ToRow, Deduped;
      EndedIsTerminal();
      o := Authorize();
      if !o.Done? { return; }
      if Ended() {
        var facts;
        facts, o := TerminalReplay();
        if o.Done? { o := YieldAll(facts); }
      } else {
        o := RecoverBound();
      }
      if o.Done? { SetContinuation(None); }
    }

    /** Keeps the continuation before it is approved, so that a pause can resume it as it is. */
    method KeepContinuation(r: Continuation) returns (o: Outcome)
      requires Ready()
      modifies world, `pendingContinuation
      ensures After(o) && Since(old(world.run), old(world.g.log), old(|world.script|), o)
      ensures o.Done? ==> pendingContinuation == Some(r) && Base() == Some(ToRow())
      ensures Outside(o)
    {
      hide Fit, Tracked, Exec, Deduped;
      if pendingContinuation.Some? && pendingContinuation != Some(r) {
        o := Raised("A2A_PENDING_CONTINUATION_CONFLICT");
        return;
      }
      SetContinuation(Some(r));
      o := SaveState();
      if o.Done? { o := Authorize(); }
    }

    /** Checks with the control plane that the task the caller names is still the bound one. */
    method BindContinuation(r: Continuation) returns (o: Outcome)
      requires Ready() && r.token !in tokens
      modifies world, `handle
      ensures After(o) && Since(old(world.run), old(world.g.log), old(|world.script|), o)
      ensures world.Complete(o)
      ensures o.Done? ==> handle.platformTask.Some? && handle.remoteTask.Some?
      ensures o.Done? ==> handle.remoteTask == r.handle.remoteTask && handle.remoteContext == r.handle.remoteContext
    {
      hide Fit, Tracked, Exec, ToRow, Deduped;
      var bound, prepared;
      bound, o := PrepareBound();
      if !o.Done? { return; }
      if r.handle.remoteTask != handle.remoteTask || r.handle.remoteContext != handle.remoteContext {
        o := Raised("A2A_REMOTE_BINDING_CONFLICT");
        return;
      }
      prepared, o := PrepareBound();
      if o.Done? && prepared != bound { o := Raised("A2A_REMOTE_BINDING_CONFLICT"); }
    }

    lemma NewTokenIsSendable(token: string)
      requires Ready() && token in tokens && token !in Base().value.tokens && token != request.token
      requires !descriptor.Terminal() && handle.platformTask.Some?
      ensures Sendable(Base().value, ToRow(), token)
    {
    }

    /** What a continuation has done to the tokens, however it ended. A new token may be on record
        although nothing was sent under it; then the continuation is still kept. */
    predicate LeavesToken(r: Continuation, before: map<string, string>, wiredBefore: seq<string>,
                          kept: Option<Continuation>, o: Outcome)
      reads `tokens, `wired, `pendingContinuation
    {
      && (tokens == before || (r.token !in before && tokens == before[r.token := r.digest]))
      && (wired != wiredBefore ==> tokens != before)
      && (tokens != before && !o.Done? ==> pendingContinuation == kept)
    }

    method ContinueBody(r: Continuation) returns (o: Outcome)
      requires Ready() && pending == [] && descriptor.status == InputRequired && r.token !in tokens && seen.None? && !muted
      modifies world, `handle, `context, `adapter, `continuationId, `pendingInput, `refs, `cursor, `lastEvent,
               `pending, `delivered, `seen, `source, `descriptor, `snapshot,
               `muted, `tokens, `cancelCheckedFor, `sendEntered, `wired, `pendingContinuation
      ensures After(o) && Since(old(world.run), old(world.g.log), old(|world.script|), o)
      ensures world.Complete(o) && old(delivered) <= delivered
      ensures o.Done? ==> pending == [] && pendingContinuation.None? && r.token in tokens
      ensures wired == old(wired) || wired == old(wired) + [r.token]
      ensures LeavesToken(r, old(tokens), old(wired), old(pendingContinuation), o)
      ensures o.Done? ==> if wired == old(wired) then Withheld(|old(world.run)|, old(sendEntered)) else Delivered(|old(world.run)|, r.token)
    {
      hide Fit, Tracked, Exec, ToRow, Deduped, Withheld, Delivered, Sendable;
      o := BindContinuation(r);
      if !o.Done? { return; }
      EndedIsTerminal();
      NoteToken(r.token, r.digest);
      ghost var from := |world.run|;
      o := SendContinuation(r.token);
      if !o.Done? { return; }
      if wired == old(wired) { EarlierWithheld(from, |old(world.run)|, old(sendEntered)); }
      else { EarlierDelivered(from, |old(world.run)|, r.token); }
    }

    /** Sends the message of a noted token; then the continuation is no longer kept. */
    method SendContinuation(token: string) returns (o: Outcome)
      requires Ready() && pending == [] && seen.None? && !muted && !Ended() && !descriptor.Terminal() && handle.platformTask.Some?
      requires token in tokens && token !in Base().value.tokens && token != request.token
      modifies world, `handle, `context, `adapter, `continuationId, `pendingInput, `refs, `cursor, `lastEvent,
               `pending, `delivered, `seen, `source, `descriptor, `snapshot,
               `muted, `cancelCheckedFor, `sendEntered, `wired, `pendingContinuation
      ensures After(o) && Since(old(world.run), old(world.g.log), old(|world.script|), o)
      ensures world.Complete(o) && old(delivered) <= delivered
      ensures if o.Done? then pending == [] && pendingContinuation.None? else pendingContinuation == old(pendingContinuation)
      ensures wired == old(wired) || wired == old(wired) + [token]
      ensures o.Done? ==> if wired == old(wired) then Withheld(|old(world.run)|, old(sendEntered)) else Delivered(|old(world.run)|, token)
    {
      hide Fit, Tracked, Exec, ToRow, Deduped, Withheld, Delivered, Sendable;
      NewTokenIsSendable(token);
      o := Send(token);
      if o.Done? { SetContinuation(None); }
    }

    /** A supplemental message for a call that waits for one. */
    method Continue(r: Continuation) returns (o: Outcome)
      requires Ready() && pending == [] && seen.None? && !muted && r.Valid()
      modifies world, `handle, `context, `adapter, `continuationId, `pendingInput, `refs, `cursor, `lastEvent,
               `pending, `delivered, `seen, `source, `descriptor, `snapshot,
               `muted, `since, `tokens, `cancelCheckedFor, `sendEntered, `wired, `pendingContinuation, `active
      ensures After(o) && Since(old(world.run), old(world.g.log), old(|world.script|), o)
      ensures world.Complete(o) && old(delivered) <= delivered
      // a token used before is never sent again, whatever it is used with
      ensures r.token in old(tokens) ==> tokens == old(tokens) && sendEntered == old(sendEntered) && wired == old(wired)
      ensures r.token in old(tokens) && old(tokens)[r.token] != r.digest ==> o.Raised? && Idle(world.run, old(|world.run|), op)
      ensures old(Ended()) ==> Idle(world.run, old(|world.run|), op) && snapshot == old(snapshot)
      ensures o.Done? ==> r.token in tokens && pendingContinuation.None?
      ensures wired == old(wired) || wired == old(wired) + [r.token]
      ensures LeavesToken(r, old(tokens), old(wired), Some(r), o)
      ensures o.Done? ==> if r.token in old(tokens) then Stopped()
                          else if wired == old(wired) then Withheld(|old(world.run)|, old(sendEntered))
                          else Delivered(|old(world.run)|, r.token)
    {
      hide Fit, Tracked, Exec, ToRow, Deduped, Ready, Savable, Withheld, Delivered;
      o := Raised("A2A_HANDLE_CONFLICT");
      EndedIsTerminal();
      ReadyIsSound();
      if HandleConflicts(handle, r.handle) { return; }
      if active { o := Raised("A2A_INVOCATION_BUSY"); return; }
      if r.spec != request.spec { o := Raised("A2A_TARGET_MISMATCH"); return; }
      if r.token in tokens {
        if tokens[r.token] != r.digest { o := Raised("A2A_IDEMPOTENCY_CONFLICT"); return; }
        o := ContinueAgain(r);
      } else if descriptor.status != InputRequired {
        o := Raised("A2A_CONTINUATION_NOT_ALLOWED");
      } else {
        o := ContinueAfresh(r);
      }
    }

    /** Keeps the continuation, then sends it. */
    method ContinueAfresh(r: Continuation) returns (o: Outcome)
      requires Ready() && pending == [] && descriptor.status == InputRequired && r.token !in tokens && seen.None? && !muted
      modifies world, `handle, `context, `adapter, `continuationId, `pendingInput, `refs, `cursor, `lastEvent,
               `pending, `delivered, `seen, `source, `descriptor, `snapshot,
               `muted, `tokens, `cancelCheckedFor, `sendEntered, `wired, `pendingContinuation, `active
      ensures After(o) && Since(old(world.run), old(world.g.log), old(|world.script|), o)
      ensures world.Complete(o) && old(delivered) <= delivered
      ensures o.Done? ==> r.token in tokens && pendingContinuation.None?
      ensures wired == old(wired) || wired == old(wired) + [r.token]
      ensures LeavesToken(r, old(tokens), old(wired), Some(r), o)
      ensures o.Done? ==> if wired == old(wired) then Withheld(|old(world.run)|, old(sendEntered))
                          else Delivered(|old(world.run)|, r.token)
    {
      hide Fit, Tracked, Exec, ToRow, Deduped, Ready, Savable, Withheld, Delivered;
      o := KeepContinuation(r);
      if !o.Done? { return; }
      SetActive();
      ghost var from := |world.run|;
      o := ContinueBody(r);
      SetInactive(o);
      if !o.Done? { return; }
      if wired == old(wired) { EarlierWithheld(from, |old(world.run)|, old(sendEntered)); }
      else { EarlierDelivered(from, |old(world.run)|, r.token); }
    }

    // ------------------------------------------------------------------ snapshots

    method GetSnapshot() returns (o: Outcome)
      requires Ready() && pending == [] && (descriptor.Terminal() ==> snapshot.Some?)
      modifies world, `handle, `context, `adapter, `continuationId, `pendingInput, `refs, `cursor, `lastEvent,
               `pending, `delivered, `seen, `source, `descriptor, `snapshot, `muted
      ensures After(o) && Since(old(world.run), old(world.g.log), old(|world.script|), o)
      ensures delivered == old(delivered) && world.Complete(o)
      ensures old(Ended()) ==> snapshot == old(snapshot)
      ensures old(Ended() && !sendEntered) ==> o.Done? && world.run == old(world.run)
    {
      hide Fit, Tracked, Exec, ToRow, Deduped;
      o := Done;
      if Ended() && !sendEntered { return; }
      var flagged;
      flagged, o := CancelFlag();
      if !o.Done? { return; }
      if flagged && !Ended() {
        var result;
        result, o := Cancel();
        if !o.Done? || Ended() { return; }
      }
      ghost var state;
      o, state := GetQuietly();
    }
  }
}
