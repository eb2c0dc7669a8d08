/** What holds in every run of the protocol, whatever is interleaved, lost or crashed. */
module InvocationSafety {
  import opened Basics
  import opened InvocationTypes
  import opened InvocationProtocol

  // ------------------------------------------- ownership and the send receipt

  /** Every running operation owns its instance's lease entry, so saves go through its own
      lease, and whoever holds the lock knows the row as it is. */
  ghost predicate Owned(g: Global) {
    && (forall op <- g.live :: op < g.nextOp && g.live[op] in g.leases && g.leases[g.live[op]] == op)
    && (g.holder.Some? ==> g.holder.value in g.live)
    && g.base.Keys <= g.live.Keys && g.grants.Keys <= g.base.Keys
    && (g.holder.Some? && g.holder.value in g.base ==> g.base[g.holder.value] == g.row)
    && (forall op <- g.base :: g.base[op].Some? ==> RowInv(g.base[op].value))
    && (g.row.Some? ==> RowInv(g.row.value))
  }

  ghost predicate Used(g: Global, token: string) {
    token in g.sends || exists op :: op in g.grants && g.grants[op] == token
  }

  ghost predicate SendsOnce(g: Global) {
    && NoRepeats(g.sends)
    && (forall op <- g.grants :: g.grants[op] !in g.sends)
    && (forall a, b :: a in g.grants && b in g.grants && g.grants[a] == g.grants[b] ==> a == b)
    && (forall t :: Used(g, t) ==> g.row.Some? && g.row.value.sendEntered && t in g.row.value.tokens)
  }

  ghost predicate SendInv(g: Global) { Owned(g) && SendsOnce(g) }

  lemma OwnedEnded(g: Global, inst: Instance)
    requires Owned(g)
    ensures Owned(Ended(g, OpsOf(g, inst), inst))
  {
  }

  lemma OneOperationPerInstance(g: Global, op: OpId)
    requires Owned(g) && op in g.live
    ensures OpsOf(g, g.live[op]) == {op}
  {
    forall other | other in g.live && g.live[other] == g.live[op] ensures other == op {
      assert g.leases[g.live[other]] == other;
    }
  }

  lemma OwnedSave(c: Config, g: Global, op: OpId, r: Row, receipt: Option<string>)
    requires c.serial && Owned(g) && Enabled(c, g, Save(op, r, receipt))
    ensures g.holder == Some(op) && op in g.base && g.base[op] == g.row && Evolves(g.row, r, g.log)
    ensures var g' := Next(c, g, Save(op, r, receipt));
            && g'.row == Some(r) && g'.log == g.log && g'.base == g.base[op := Some(r)]
            && g'.accepted == g.accepted + Fresh(r.pending, g.accepted) && g'.unsaved == g.unsaved
    ensures Owned(Next(c, g, Save(op, r, receipt)))
  {
    assert g.leases[g.live[op]] == op;
  }

  lemma OwnedStart(c: Config, g: Global, op: OpId, inst: Instance)
    requires c.serial && Owned(g) && Enabled(c, g, Start(op, inst))
    ensures Owned(Next(c, g, Start(op, inst)))
  {
    assert forall other <- g.live :: g.live[other] != inst;
  }

  lemma OwnedQuiet(c: Config, g: Global, l: Label)
    requires Owned(g) && Enabled(c, g, l)
    requires !l.Start? && !l.Save? && !l.SaveFails? && !l.Finish? && !l.Crash?
    ensures Owned(Next(c, g, l))
  {
    hide RowInv, Discipline;
  }

  lemma OwnedStep(c: Config, g: Global, l: Label)
    requires c.serial && Owned(g) && Enabled(c, g, l)
    ensures Owned(Next(c, g, l))
  {
    hide RowInv, Discipline;
    if l.Start? { OwnedStart(c, g, l.op, l.inst); }
    else if l.Save? { OwnedSave(c, g, l.op, l.row, l.receipt); }
    else if l.SaveFails? || l.Finish? {
      OneOperationPerInstance(g, l.op);
      OwnedEnded(g, g.live[l.op]);
    }
    else if l.Crash? { OwnedEnded(g, l.inst); }
    else { OwnedQuiet(c, g, l); }
  }

  lemma SendsOnceSave(c: Config, g: Global, op: OpId, r: Row, receipt: Option<string>)
    requires c.serial && SendInv(g) && Enabled(c, g, Save(op, r, receipt))
    ensures SendsOnce(Next(c, g, Save(op, r, receipt)))
  {
    hide RowInv, IdentityMatches, Evolves, ChainAccepts;
    OwnedSave(c, g, op, r, receipt);
    var g' := Next(c, g, Save(op, r, receipt));
    forall t | Used(g, t) ensures r.sendEntered && t in r.tokens && receipt != Some(t) { UsedStaysUsed(g, r, receipt, t); }
    forall t | Used(g', t) ensures r.sendEntered && t in r.tokens {
      if !Used(g, t) { assert receipt == Some(t); }
    }
  }

  /** A save carries a used token on and gives no second receipt for it. */
  lemma UsedStaysUsed(g: Global, r: Row, receipt: Option<string>, t: string)
    requires SendsOnce(g) && Used(g, t) && Discipline(g.row, r, g.log, receipt)
    ensures r.sendEntered && t in r.tokens && receipt != Some(t)
  {
  }

  lemma SendsOnceOpen(c: Config, g: Global, op: OpId)
    requires SendInv(g) && Enabled(c, g, OpenStream(op))
    ensures SendsOnce(Next(c, g, OpenStream(op)))
  {
    var g' := Next(c, g, OpenStream(op));
    forall t | Used(g', t) ensures Used(g, t) {}
  }

  /** No other step writes the row, sends or adds a receipt. */
  lemma OnlySavesAndSends(c: Config, g: Global, l: Label)
    requires !l.Save? && !l.OpenStream?
    ensures Next(c, g, l).sends == g.sends && Next(c, g, l).row == g.row
    ensures forall op <- Next(c, g, l).grants :: op in g.grants && Next(c, g, l).grants[op] == g.grants[op]
  {
  }

  lemma SendsOnceRest(c: Config, g: Global, l: Label)
    requires SendInv(g) && Enabled(c, g, l) && !l.Save? && !l.OpenStream?
    ensures SendsOnce(Next(c, g, l))
  {
    var g' := Next(c, g, l);
    OnlySavesAndSends(c, g, l);
    forall t | Used(g', t) ensures Used(g, t) {}
  }

  /** The store numbers the events of a session in the order it keeps them. */
  ghost predicate Numbered(g: Global) {
    && |g.log| == |g.seqnos|
    && (forall i, j :: 0 <= i < j < |g.seqnos| ==> g.seqnos[i] < g.seqnos[j])
  }

  lemma NumberedStep(c: Config, g: Global, l: Label)
    requires Numbered(g) && Enabled(c, g, l)
    ensures Numbered(Next(c, g, l))
  {
    hide Discipline;
    assert forall i :: 0 <= i < |g.seqnos| ==> g.seqnos[i] in g.seqnos;
  }

  lemma SendInvStep(c: Config, g: Global, l: Label)
    requires c.serial && SendInv(g) && Enabled(c, g, l)
    ensures SendInv(Next(c, g, l))
  {
    hide RowInv, Discipline, Owned, SendsOnce;
    OwnedStep(c, g, l);
    if l.Save? { SendsOnceSave(c, g, l.op, l.row, l.receipt); }
    else if l.OpenStream? { SendsOnceOpen(c, g, l.op); }
    else { SendsOnceRest(c, g, l); }
  }
}
