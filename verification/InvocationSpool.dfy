/** The write-ahead spool: the log never loses, repeats or reorders a committed event, and
    a row's closing fact and output references are always backed by committed events. */
module InvocationSpool {
  import opened Basics
  import opened InvocationTypes
  import opened InvocationProtocol
  import opened InvocationSafety

  function Spool(row: Option<Row>): seq<Event> { if row.Some? then row.value.pending else [] }

  /** The log followed by what the durable spool still has to publish is exactly the
      committed events in commit order; a stale operation's spool is either published or
      agrees with the durable one on what comes next. */
  ghost predicate SpoolInv(g: Global) {
    && g.unsaved == map[]
    && g.accepted == g.log + Fresh(Spool(g.row), g.log)
    && NoRepeats(g.log)
    && (forall op <- g.base ::
          Fresh(Spool(g.base[op]), g.log) == [] || Fresh(Spool(g.base[op]), g.log) == Fresh(Spool(g.row), g.log))
  }

  // ------------------------------------------------------------ about Fresh

  lemma {:induction false} FreshPrefix(es: seq<Event>, k: nat, seen: seq<Event>)
    requires k <= |es| && Published(es[..k], seen)
    ensures Fresh(es, seen) == Fresh(es[k..], seen)
  {
    if k > 0 {
      assert es[0] in es[..k];
      assert es[1..][..k - 1] == es[..k][1..] && es[1..][k - 1..] == es[k..];
      FreshPrefix(es[1..], k - 1, seen);
    } else {
      assert es[0..] == es;
    }
  }

  lemma {:induction false} FreshEmpty(es: seq<Event>, seen: seq<Event>)
    ensures Fresh(es, seen) == [] <==> Published(es, seen)
  {
    if es != [] {
      assert es == [es[0]] + es[1..];
      FreshEmpty(es[1..], seen);
    }
  }

  lemma {:induction false} FreshCovers(es: seq<Event>, seen: seq<Event>)
    ensures forall e :: e in es ==> e in seen || e in Fresh(es, seen)
    ensures forall e :: e in Fresh(es, seen) ==> e in es && e !in seen
    ensures NoRepeats(Fresh(es, seen))
  {
    if es != [] {
      assert es == [es[0]] + es[1..];
      FreshCovers(es[1..], seen);
      FreshCovers(es[1..], seen + [es[0]]);
    }
  }

  /** Publishing the next event leaves the rest of the spool fresh. */
  lemma {:induction false} FreshAfter(es: seq<Event>, seen: seq<Event>, e: Event)
    requires Fresh(es, seen) != [] && Fresh(es, seen)[0] == e
    ensures Fresh(es, seen + [e]) == Fresh(es, seen)[1..]
  {
    if es[0] in seen { FreshAfter(es[1..], seen, e); }
  }

  /** Two fresh events come from the spool in the same order. */
  lemma {:induction false} FreshOrder(es: seq<Event>, seen: seq<Event>, i: nat, j: nat) returns (p: nat, q: nat)
    requires i < j < |Fresh(es, seen)|
    ensures p < q < |es| && es[p] == Fresh(es, seen)[i] && es[q] == Fresh(es, seen)[j]
  {
    if es[0] in seen {
      p, q := FreshOrder(es[1..], seen, i, j);
      p, q := p + 1, q + 1;
    } else if i > 0 {
      p, q := FreshOrder(es[1..], seen + [es[0]], i - 1, j - 1);
      p, q := p + 1, q + 1;
    } else {
      var rest := Fresh(es[1..], seen + [es[0]]);
      FreshCovers(es[1..], seen + [es[0]]);
      assert rest[j - 1] in rest;
      q :| 0 <= q < |es[1..]| && es[1..][q] == rest[j - 1];
      p, q := 0, q + 1;
    }
  }

  lemma NextUpIsFresh(spool: seq<Event>, log: seq<Event>, e: Event)
    requires NextUp(spool, log, e)
    ensures e in log || (Fresh(spool, log) != [] && Fresh(spool, log)[0] == e)
  {
    var k :| 0 <= k < |spool| && spool[k] == e && Published(spool[..k], log);
    FreshPrefix(spool, k, log);
  }

  lemma DrainedIsFresh(before: seq<Event>, after: seq<Event>, log: seq<Event>)
    requires Drained(before, after, log)
    ensures Fresh(after, log) == Fresh(before, log)
    ensures forall e <- after :: e in before
  {
    var k :| 0 <= k <= |before| && Published(before[..k], log) && after == before[k..];
    FreshPrefix(before, k, log);
  }

  // ------------------------------------------------------------- preservation

  /** A save either keeps what is left to publish, or starts a new batch on a published one. */
  lemma SpoolSave(b: seq<Event>, r: seq<Event>, log: seq<Event>, accepted: seq<Event>)
    requires accepted == log + Fresh(b, log)
    requires Drained(b, r, log) || Published(b, log)
    ensures accepted + Fresh(r, accepted) == log + Fresh(r, log)
    ensures Drained(b, r, log) ==> Fresh(r, accepted) == []
    ensures !Drained(b, r, log) ==> accepted == log
  {
    if Drained(b, r, log) {
      DrainedIsFresh(b, r, log);
      FreshCovers(b, log);
      assert Published(r, accepted);
      FreshEmpty(r, accepted);
    } else {
      FreshEmpty(b, log);
      assert accepted == log;
    }
  }

  lemma SpoolInvSave(c: Config, g: Global, op: OpId, r: Row, receipt: Option<string>)
    requires c.serial && Owned(g) && SpoolInv(g) && Enabled(c, g, Save(op, r, receipt))
    ensures SpoolInv(Next(c, g, Save(op, r, receipt)))
  {
    OwnedSave(c, g, op, r, receipt);
    var b := Spool(g.row);
    if g.row.None? {
      assert r.pending == [];
      assert Drained(b, r.pending, g.log) by { assert b[0..] == []; assert Published(b[..0], g.log); }
    }
    SpoolSave(b, r.pending, g.log, g.accepted);
    FreshEmpty(b, g.log);
    if Drained(b, r.pending, g.log) { DrainedIsFresh(b, r.pending, g.log); }
  }

  /** A spool of which nothing is left, or what is left of the committed one, stays so when
      the next event is published. */
  lemma SpoolAfterPublish(spool: seq<Event>, committed: seq<Event>, log: seq<Event>, e: Event)
    requires e !in log && Fresh(committed, log) != [] && Fresh(committed, log)[0] == e
    requires Fresh(spool, log) in {[], Fresh(committed, log)}
    ensures Fresh(spool, log + [e]) in {[], Fresh(committed, log)[1..]}
  {
    if Fresh(spool, log) == [] {
      FreshEmpty(spool, log);
      FreshEmpty(spool, log + [e]);
    } else {
      FreshAfter(spool, log, e);
    }
  }

  lemma SpoolInvPublish(g: Global, op: OpId, e: Event, seqno: nat)
    requires SpoolInv(g) && op in g.base && NextUp(Spool(g.base[op]), g.log, e)
    ensures SpoolInv(Append(g, e, seqno))
  {
    hide NextUp, Fresh, Spool;
    NextUpIsFresh(Spool(g.base[op]), g.log, e);
    if e !in g.log {
      FreshAfter(Spool(g.row), g.log, e);
      assert g.log + Fresh(Spool(g.row), g.log) == g.log + [e] + Fresh(Spool(g.row), g.log)[1..];
      forall other | other in g.base
        ensures Fresh(Spool(g.base[other]), g.log + [e]) in {[], Fresh(Spool(g.row), g.log)[1..]}
      {
        SpoolAfterPublish(Spool(g.base[other]), Spool(g.row), g.log, e);
      }
    }
  }

  lemma SpoolInvStep(c: Config, g: Global, l: Label)
    requires c.serial && c.failStop && Owned(g) && SpoolInv(g) && Enabled(c, g, l)
    ensures SpoolInv(Next(c, g, l))
  {
    if l.Save? { SpoolInvSave(c, g, l.op, l.row, l.receipt); }
    else if l.Publish? { SpoolInvPublish(g, l.op, l.event, l.seqno); }
    else { OnlySavesAndPublications(c, g, l); }
  }

  /** Only saves and publications change the row, the log or what is committed; an operation
      never knows a row other than those it knew and the durable one. */
  lemma OnlySavesAndPublications(c: Config, g: Global, l: Label)
    requires c.failStop && g.unsaved == map[] && Enabled(c, g, l) && !l.Save? && !l.Publish?
    ensures var g' := Next(c, g, l);
            && g'.log == g.log && g'.row == g.row && g'.accepted == g.accepted && g'.unsaved == map[]
            && (forall op <- g'.base :: (op in g.base && g'.base[op] == g.base[op]) || g'.base[op] == g.row)
  {
  }

  // -------------------------------------------------- what committed events say

  ghost predicate CompletedOnce(done: set<string>, facts: seq<Event>) {
    && (forall i, item :: 0 <= i < |facts| && Completes(facts[i], item) ==> item in done)
    && (forall i, j, item :: 0 <= i < j < |facts| && Completes(facts[j], item) ==> !Completes(facts[i], item))
  }

  ghost predicate ClosedAs(facts: seq<Event>, d: Descriptor) {
    forall e <- facts :: ClosingFact(e) ==> e.descriptor == d && d.Terminal()
  }

  ghost predicate FactInv(g: Global) {
    match g.row
    case None => g.accepted == []
    case Some(row) => ClosedAs(g.accepted, row.descriptor) && CompletedOnce(row.Done(), g.accepted)
  }

  lemma ClosedAsSave(b: Row, r: Row, accepted: seq<Event>)
    requires ClosedAs(accepted, b.descriptor) && FreshBatch(b, r)
    requires b.descriptor.Terminal() ==> r.descriptor == b.descriptor
    ensures ClosedAs(accepted + Fresh(r.pending, accepted), r.descriptor)
  {
    FreshCovers(r.pending, accepted);
  }

  lemma CompletedOnceSave(b: Row, r: Row, accepted: seq<Event>)
    requires CompletedOnce(b.Done(), accepted) && FreshBatch(b, r) && b.Done() <= r.Done()
    ensures CompletedOnce(r.Done(), accepted + Fresh(r.pending, accepted))
  {
    var added := Fresh(r.pending, accepted);
    var facts := accepted + added;
    FreshCovers(r.pending, accepted);
    forall i, item | 0 <= i < |facts| && Completes(facts[i], item)
      ensures item in r.Done()
      ensures i >= |accepted| ==> item !in b.Done()
    {
      if i >= |accepted| {
        assert added[i - |accepted|] in added;
        var p :| 0 <= p < |r.pending| && r.pending[p] == facts[i];
      }
    }
    forall i, j, item | 0 <= i < j < |facts| && Completes(facts[j], item) ensures !Completes(facts[i], item) {
      if i >= |accepted| {
        var p, q := FreshOrder(r.pending, accepted, i - |accepted|, j - |accepted|);
        assert r.pending[p] == facts[i] && r.pending[q] == facts[j];
        assert Completes(r.pending[q], item);
        assert forall k :: 0 <= k < q ==> !Completes(r.pending[k], item);
        assert !Completes(r.pending[p], item);
      } else if j >= |accepted| {
        assert item !in b.Done();
        assert Completes(accepted[i], item) ==> item in b.Done();
        assert !Completes(facts[i], item);
      } else {
        assert facts[i] == accepted[i] && facts[j] == accepted[j];
        assert !Completes(facts[i], item);
      }
    }
  }

  lemma FactInvSave(c: Config, g: Global, op: OpId, r: Row, receipt: Option<string>)
    requires c.serial && Owned(g) && SpoolInv(g) && FactInv(g) && Enabled(c, g, Save(op, r, receipt))
    ensures FactInv(Next(c, g, Save(op, r, receipt)))
  {
    OwnedSave(c, g, op, r, receipt);
    if g.row.Some? {
      var b := g.row.value;
      SpoolSave(b.pending, r.pending, g.log, g.accepted);
      if Drained(b.pending, r.pending, g.log) {
        assert g.accepted + Fresh(r.pending, g.accepted) == g.accepted;
      } else {
        ClosedAsSave(b, r, g.accepted);
        CompletedOnceSave(b, r, g.accepted);
      }
    }
  }

  lemma FactInvStep(c: Config, g: Global, l: Label)
    requires c.serial && c.failStop && Owned(g) && SpoolInv(g) && FactInv(g) && Enabled(c, g, l)
    ensures FactInv(Next(c, g, l))
  {
    if l.Save? { FactInvSave(c, g, l.op, l.row, l.receipt); }
    else if !l.Publish? { OnlySavesAndPublications(c, g, l); }
  }

  // --------------------------------------------------------- rows and their facts

  /** What never changes, and what only grows, from one committed row to a later one. */
  ghost predicate Follows(a: Option<Row>, b: Option<Row>) {
    a.Some? ==>
      && b.Some?
      && b.value.request == a.value.request
      && b.value.handle.Scope() == a.value.handle.Scope()
      && LocatorsKept(a.value.handle, b.value.handle)
      && (a.value.sendEntered ==> b.value.sendEntered)
      && (forall t <- a.value.tokens :: t in b.value.tokens && b.value.tokens[t] == a.value.tokens[t])
      && (a.value.descriptor.Terminal() ==> b.value.descriptor == a.value.descriptor)
      && (a.value.TerminalSnapshot() ==> b.value.snapshot == a.value.snapshot)
  }

  lemma EvolvesFollows(base: Option<Row>, r: Row, log: seq<Event>)
    requires Evolves(base, r, log)
    ensures Follows(base, Some(r))
  {
  }

  lemma FollowsStep(c: Config, g: Global, l: Label)
    requires c.serial && Owned(g) && Enabled(c, g, l)
    ensures Follows(g.row, Next(c, g, l).row)
  {
    if l.Save? {
      OwnedSave(c, g, l.op, l.row, l.receipt);
      EvolvesFollows(g.row, l.row, g.log);
    } else if !l.OpenStream? {
      OnlySavesAndSends(c, g, l);
    }
  }

  lemma FollowsTransitive(a: Option<Row>, b: Option<Row>, d: Option<Row>)
    requires Follows(a, b) && Follows(b, d)
    ensures Follows(a, d)
  {
  }

  /** A closed descriptor has its fact, and every output reference its completed item, in
      the log or in the row's own spool. */
  ghost predicate Backed(r: Row, log: seq<Event>) {
    && (r.descriptor.Terminal() ==> ClosedIn(r, log))
    && (forall ref <- r.refs :: CoveredIn(r, log, ref))
  }

  /** Every row an operation knows is backed and is linked to the durable one. */
  ghost predicate KnownInv(g: Global) {
    && (g.row.Some? ==> Backed(g.row.value, g.log))
    && (forall op <- g.base :: Follows(g.base[op], g.row))
    && (forall op <- g.base :: g.base[op].Some? ==> Backed(g.base[op].value, g.log))
  }

  /** Whatever was backed stays backed where no fact was dropped. */
  lemma FactsCarry(r: Row, log: seq<Event>, r': Row, log': seq<Event>)
    requires forall e <- log + r.pending :: e in log' + r'.pending
    ensures r'.descriptor == r.descriptor && ClosedIn(r, log) ==> ClosedIn(r', log')
    ensures forall ref :: CoveredIn(r, log, ref) ==> CoveredIn(r', log', ref)
  {
    if ClosedIn(r, log) { var e :| e in log + r.pending && ClosingFact(e) && e.descriptor == r.descriptor; }
    forall ref | CoveredIn(r, log, ref) ensures CoveredIn(r', log', ref) {
      var e :| e in log + r.pending && Covers(e, ref);
    }
  }

  lemma BackedLater(r: Row, log: seq<Event>, log': seq<Event>)
    requires Backed(r, log) && log <= log'
    ensures Backed(r, log')
  {
    FactsCarry(r, log, r, log');
  }

  lemma BackedSave(b: Row, r: Row, log: seq<Event>)
    requires Backed(b, log) && Evolves(Some(b), r, log)
    ensures Backed(r, log)
  {
    forall e | e in log + b.pending ensures e in log + r.pending {
      if Drained(b.pending, r.pending, log) {
        var k :| 0 <= k <= |b.pending| && Published(b.pending[..k], log) && r.pending == b.pending[k..];
        assert b.pending == b.pending[..k] + b.pending[k..];
      }
    }
    FactsCarry(b, log, r, log);
  }

  lemma KnownInvSave(g: Global, g': Global, op: OpId, r: Row)
    requires KnownInv(g) && Evolves(g.row, r, g.log)
    requires g'.row == Some(r) && g'.log == g.log && g'.base == g.base[op := Some(r)]
    ensures KnownInv(g')
  {
    EvolvesFollows(g.row, r, g.log);
    if g.row.Some? { BackedSave(g.row.value, r, g.log); }
    forall other | other in g.base ensures Follows(g.base[other], g'.row) {
      FollowsTransitive(g.base[other], g.row, g'.row);
    }
  }

  lemma KnownInvPublish(g: Global, e: Event, seqno: nat)
    requires KnownInv(g)
    ensures KnownInv(Append(g, e, seqno))
  {
    var log' := Append(g, e, seqno).log;
    if g.row.Some? { BackedLater(g.row.value, g.log, log'); }
    forall op | op in g.base && g.base[op].Some? ensures Backed(g.base[op].value, log') {
      BackedLater(g.base[op].value, g.log, log');
    }
  }

  lemma KnownInvStep(c: Config, g: Global, l: Label)
    requires c.serial && c.failStop && Owned(g) && SpoolInv(g) && KnownInv(g) && Enabled(c, g, l)
    ensures KnownInv(Next(c, g, l))
  {
    hide Discipline, Evolves, Backed, Owned;
    if l.Save? {
      OwnedSave(c, g, l.op, l.row, l.receipt);
      KnownInvSave(g, Next(c, g, l), l.op, l.row);
    }
    else if l.Publish? { KnownInvPublish(g, l.event, l.seqno); }
    else { OnlySavesAndPublications(c, g, l); }
  }
}
