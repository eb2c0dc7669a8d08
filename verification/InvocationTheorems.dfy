/** The guarantees of the invocation protocol over whole runs. Which disciplines of its
    callers they need, exactly, is the subject of InvocationExactness. */
module InvocationTheorems {
  import opened Basics
  import opened InvocationTypes
  import opened InvocationProtocol
  import opened InvocationSafety
  import opened InvocationSpool

  // ----------------------------------------------------------- invariants of runs

  lemma {:induction false} RunKeepsSendInv(c: Config, run: seq<Label>, g: Global)
    requires c.serial && Reaches(c, run, g)
    ensures SendInv(g)
  {
    if run != [] {
      var before := Exec(c, run[..|run| - 1]).value;
      RunKeepsSendInv(c, run[..|run| - 1], before);
      SendInvStep(c, before, run[|run| - 1]);
    }
  }

  lemma {:induction false} RunKeepsNumbers(c: Config, run: seq<Label>, g: Global)
    requires Reaches(c, run, g)
    ensures Numbered(g)
  {
    if run != [] {
      var before := Exec(c, run[..|run| - 1]).value;
      RunKeepsNumbers(c, run[..|run| - 1], before);
      NumberedStep(c, before, run[|run| - 1]);
    }
  }

  lemma {:induction false} RunKeepsSpool(c: Config, run: seq<Label>, g: Global)
    requires c.serial && c.failStop && Reaches(c, run, g)
    ensures SpoolInv(g) && FactInv(g) && KnownInv(g)
  {
    if run != [] {
      var before := Exec(c, run[..|run| - 1]).value;
      RunKeepsSpool(c, run[..|run| - 1], before);
      RunKeepsSendInv(c, run[..|run| - 1], before);
      SpoolInvStep(c, before, run[|run| - 1]);
      FactInvStep(c, before, run[|run| - 1]);
      KnownInvStep(c, before, run[|run| - 1]);
    }
  }

  lemma {:induction false} RunExtends(c: Config, run: seq<Label>, more: seq<Label>)
    requires Exec(c, run + more).Some?
    ensures Exec(c, run).Some?
  {
    if more == [] {
      assert run + more == run;
    } else {
      assert (run + more)[..|run + more| - 1] == run + more[..|more| - 1];
      RunExtends(c, run, more[..|more| - 1]);
    }
  }

  // ------------------------------------------------------------ at most one send

  /** Once "possibly sent" is durable and nobody still holds the receipt, no continuation of
      the run ever sends the first message, however many workers retry. */
  lemma {:induction false} UnknownOutcomeIsNeverResent(c: Config, run: seq<Label>, g: Global, more: seq<Label>, g': Global)
    requires c.serial && Reaches(c, run, g) && Reaches(c, run + more, g')
    requires g.row.Some? && g.row.value.sendEntered
    requires g.row.value.request.token !in g.grants.Values
    ensures g'.row.Some? && g'.row.value.request == g.row.value.request && g'.row.value.sendEntered
    ensures g.row.value.request.token !in g'.grants.Values
    ensures g.sends <= g'.sends && g.row.value.request.token !in g'.sends[|g.sends|..]
  {
    if more == [] {
      assert run + more == run;
    } else {
      var l := more[|more| - 1];
      assert (run + more)[..|run + more| - 1] == run + more[..|more| - 1];
      var before := Exec(c, run + more[..|more| - 1]).value;
      UnknownOutcomeIsNeverResent(c, run, g, more[..|more| - 1], before);
      RunKeepsSendInv(c, run + more[..|more| - 1], before);
      ReceiptStaysUsed(c, before, l);
      assert g'.sends == before.sends || (l.OpenStream? && g'.sends == before.sends + [before.grants[l.op]]);
    }
  }

  lemma ReceiptStaysUsed(c: Config, g: Global, l: Label)
    requires c.serial && SendInv(g) && Enabled(c, g, l)
    requires g.row.Some? && g.row.value.sendEntered && g.row.value.request.token !in g.grants.Values
    ensures Next(c, g, l).row.Some? && Next(c, g, l).row.value.sendEntered
    ensures Next(c, g, l).row.value.request == g.row.value.request
    ensures g.row.value.request.token !in Next(c, g, l).grants.Values
    ensures Next(c, g, l).sends == g.sends
         || (l.OpenStream? && Next(c, g, l).sends == g.sends + [g.grants[l.op]])
  {
    if l.Save? { OwnedSave(c, g, l.op, l.row, l.receipt); }
    else if l.OpenStream? {}
    else { OnlySavesAndSends(c, g, l); }
  }

  /** A token other than the first message's that is on record without a receipt stays without
      one: whoever retries it takes it for used. */
  lemma {:induction false} RecordedTokenStaysUnsent(c: Config, run: seq<Label>, g: Global, more: seq<Label>, g': Global, t: string)
    requires c.serial && Reaches(c, run, g) && Reaches(c, run + more, g')
    requires g.row.Some? && t in g.row.value.tokens && t != g.row.value.request.token && !Used(g, t)
    ensures g'.row.Some? && t in g'.row.value.tokens && t != g'.row.value.request.token && !Used(g', t)
  {
    if more == [] {
      assert run + more == run;
    } else {
      assert (run + more)[..|run + more| - 1] == run + more[..|more| - 1];
      var before := Exec(c, run + more[..|more| - 1]).value;
      RecordedTokenStaysUnsent(c, run, g, more[..|more| - 1], before, t);
      RunKeepsSendInv(c, run + more[..|more| - 1], before);
      RecordedTokenStep(c, before, more[|more| - 1], t);
    }
  }

  lemma RecordedTokenStep(c: Config, g: Global, l: Label, t: string)
    requires c.serial && SendInv(g) && Enabled(c, g, l)
    requires g.row.Some? && t in g.row.value.tokens && t != g.row.value.request.token && !Used(g, t)
    ensures var g' := Next(c, g, l);
            g'.row.Some? && t in g'.row.value.tokens && t != g'.row.value.request.token && !Used(g', t)
  {
    hide RowInv, Evolves;
    var g' := Next(c, g, l);
    if l.Save? {
      OwnedSave(c, g, l.op, l.row, l.receipt);
      assert l.receipt != Some(t);
    } else if !l.OpenStream? {
      OnlySavesAndSends(c, g, l);
    }
    assert Used(g', t) ==> Used(g, t);
  }

  // ------------------------------------------------------- cancel before sending

  /** The durable row says: closed, and nothing was ever sent. */
  predicate ClosedUnsent(row: Option<Row>) {
    row.Some? && row.value.descriptor.Terminal() && !row.value.sendEntered
  }

  /** A scope closed before sending was never sent and never will be, in any continuation:
      retries, crashes before the snapshot and stale workers included. */
  lemma {:induction false} ClosedUnsentNeverSends(c: Config, run: seq<Label>, g: Global, more: seq<Label>, g': Global)
    requires c.serial && Reaches(c, run, g) && Reaches(c, run + more, g')
    requires ClosedUnsent(g.row)
    ensures ClosedUnsent(g'.row) && g'.sends == [] && g'.grants == map[]
  {
    RunKeepsSendInv(c, run + more, g');
    if more == [] {
      assert run + more == run;
    } else {
      assert (run + more)[..|run + more| - 1] == run + more[..|more| - 1];
      var before := Exec(c, run + more[..|more| - 1]).value;
      ClosedUnsentNeverSends(c, run, g, more[..|more| - 1], before);
      RunKeepsSendInv(c, run + more[..|more| - 1], before);
      var l := more[|more| - 1];
      if l.Save? { OwnedSave(c, before, l.op, l.row, l.receipt); }
      else if !l.OpenStream? { OnlySavesAndSends(c, before, l); }
    }
    forall t | Used(g', t) ensures false {}
    assert g'.sends == [] by { if g'.sends != [] { assert Used(g', g'.sends[0]); } }
    assert g'.grants == map[] by { if op :| op in g'.grants { assert Used(g', g'.grants[op]); } }
  }

  // -------------------------------------------------------------- checkpoint chain

  /** What no accepted save ever changes, whoever saves. */
  predicate Linked(a: Option<Row>, b: Option<Row>) {
    a.Some? ==>
      && b.Some?
      && b.value.request == a.value.request && b.value.handle.Scope() == a.value.handle.Scope()
      && LocatorsKept(a.value.handle, b.value.handle) && (a.value.sendEntered ==> b.value.sendEntered)
  }

  predicate OwnIdentity(row: Option<Row>) {
    row.Some? ==> row.value.request.handle.identity == row.value.handle.identity
  }

  lemma LinkedStep(c: Config, g: Global, l: Label)
    requires Enabled(c, g, l) && OwnIdentity(g.row)
    ensures Linked(g.row, Next(c, g, l).row) && OwnIdentity(Next(c, g, l).row)
  {
    hide Discipline;
    if !l.Save? && !l.OpenStream? { OnlySavesAndSends(c, g, l); }
  }

  lemma {:induction false} RowsKeepIdentity(c: Config, run: seq<Label>, g: Global)
    requires Reaches(c, run, g)
    ensures OwnIdentity(g.row)
  {
    hide Enabled, Next;
    if run != [] {
      var before := Exec(c, run[..|run| - 1]).value;
      RowsKeepIdentity(c, run[..|run| - 1], before);
      LinkedStep(c, before, run[|run| - 1]);
    }
  }

  /** Any two rows of a run, in the order they were durable, are linked, in every configuration.
      With serial instances the later one also keeps tokens, a closed descriptor and a terminal
      snapshot. */
  lemma {:induction false} CheckpointChain(c: Config, run: seq<Label>, g: Global, more: seq<Label>, g': Global)
    requires Reaches(c, run, g) && Reaches(c, run + more, g')
    ensures Linked(g.row, g'.row)
    ensures c.serial ==> Follows(g.row, g'.row)
  {
    hide Enabled, Next, Follows;
    if more == [] {
      assert run + more == run;
      FollowsSelf(g.row);
    } else {
      assert (run + more)[..|run + more| - 1] == run + more[..|more| - 1];
      var before := Exec(c, run + more[..|more| - 1]).value;
      CheckpointChain(c, run, g, more[..|more| - 1], before);
      RowsKeepIdentity(c, run + more[..|more| - 1], before);
      LinkedStep(c, before, more[|more| - 1]);
      if c.serial {
        RunKeepsSendInv(c, run + more[..|more| - 1], before);
        FollowsStep(c, before, more[|more| - 1]);
        FollowsTransitive(g.row, before.row, g'.row);
      }
    }
  }

  lemma FollowsSelf(row: Option<Row>)
    ensures Follows(row, row)
  {
  }

  /** The lease never turns down a save of the operation that owns it. */
  lemma SaveIsNeverRejected(c: Config, run: seq<Label>, g: Global, op: OpId, r: Row, receipt: Option<string>)
    requires c.serial && Reaches(c, run, g)
    requires g.holder == Some(op) && op in g.base && Discipline(g.base[op], r, g.log, receipt)
    ensures op in g.live && LeaseActive(g, op) && ChainAccepts(g.row, r) && Enabled(c, g, Save(op, r, receipt))
  {
    RunKeepsSendInv(c, run, g);
  }

  // -------------------------------------------------------------------- replay

  ghost predicate LastCompletion(log: seq<Event>, i: nat, item: string) {
    && i < |log| && Completes(log[i], item)
    && (forall j :: i < j < |log| ==> !Completes(log[j], item))
  }

  /** Some operation, stale ones included, last loaded or saved this row. */
  ghost predicate KnownRow(g: Global, b: Row) { exists op <- g.base :: g.base[op] == Some(b) }

  /** The closing fact that a replay looks at: the last one. */
  predicate LastClosing(log: seq<Event>, i: nat) {
    && i < |log| && ClosingFact(log[i])
    && (forall j :: i < j < |log| ==> !ClosingFact(log[j]))
  }

  lemma {:induction false} SomeLastClosing(log: seq<Event>) returns (i: nat)
    requires exists e <- log :: ClosingFact(e)
    ensures LastClosing(log, i)
  {
    i := |log| - 1;
    if !ClosingFact(log[i]) {
      assert log == log[..i] + [log[i]];
      var k := SomeLastClosing(log[..i]);
      i := k;
    }
  }

  /** A replay for this row finds all it looks for: the last closing fact carries the row's
      descriptor, and the last completion of each referenced item has the part. */
  ghost predicate Replays(r: Row, log: seq<Event>) {
    && (r.descriptor.Terminal() ==> exists i: nat :: LastClosing(log, i) && log[i].descriptor == r.descriptor)
    && (forall ref <- r.refs :: exists i: nat :: LastCompletion(log, i, ref.itemId) && Covers(log[i], ref))
  }

  /** Every closing fact says the same: the row's closed descriptor. */
  ghost predicate ClosedAlike(r: Row, log: seq<Event>) {
    r.descriptor.Terminal() ==> forall e <- log :: ClosingFact(e) ==> e.descriptor == r.descriptor
  }

  lemma BackedReplays(c: Config, run: seq<Label>, g: Global, r: Row)
    requires c.serial && c.failStop && Reaches(c, run, g)
    requires Backed(r, g.log) && Published(r.pending, g.log)
    ensures Replays(r, g.log) && ClosedAlike(r, g.log)
  {
    RunKeepsSpool(c, run, g);
    if r.descriptor.Terminal() {
      var e :| e in g.log + r.pending && ClosingFact(e) && e.descriptor == r.descriptor;
      forall f | f in g.log && ClosingFact(f) ensures f.descriptor == r.descriptor {
        assert e in g.accepted && f in g.accepted;
      }
      var last := SomeLastClosing(g.log);
      assert g.log[last] in g.log;
    }
    forall ref | ref in r.refs
      ensures exists i: nat :: LastCompletion(g.log, i, ref.itemId) && Covers(g.log[i], ref)
    {
      assert CoveredIn(r, g.log, ref);
      var e :| e in g.log + r.pending && Covers(e, ref);
      var i: nat :| i < |g.log| && g.log[i] == e;
      forall j | i < j < |g.log| ensures !Completes(g.log[j], ref.itemId) {
        assert g.accepted[i] == g.log[i] && g.accepted[j] == g.log[j];
      }
      assert LastCompletion(g.log, i, ref.itemId);
    }
  }

  /** Once an operation has seen the spool of the row it loaded published, a replay from that
      row never misses a fact. */
  lemma ReplayFindsEveryFact(c: Config, run: seq<Label>, g: Global, b: Row)
    requires c.serial && c.failStop && Reaches(c, run, g)
    requires KnownRow(g, b) && Published(b.pending, g.log)
    ensures Replays(b, g.log) && ClosedAlike(b, g.log)
  {
    RunKeepsSpool(c, run, g);
    BackedReplays(c, run, g, b);
  }
}
