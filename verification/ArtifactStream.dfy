/** Batching of streamed artifact text. What a reader gets by replaying the wire is what it
    would get from the unbatched updates, in fewer updates, with every artifact closed. */
module ArtifactStream {
  import opened Basics

  datatype Kind = Text | Thinking

  /** An artifact: one kind of output of one item. */
  datatype Key = Key(kind: Kind, scope: string, item: string)

  /** An update as the runtime produces it: `replace` makes it the whole text so far. */
  datatype Source = Source(key: Key, text: string, replace: bool)

  /** An update on the wire. `flagged` marks an authoritative snapshot. */
  datatype Wire = Wire(key: Key, text: string, flagged: bool, append: bool, last: bool)

  datatype Pending = Pending(key: Key, text: string, replace: bool, started: real)

  datatype Emitter = Emitter(emitted: map<Key, nat>, pending: Option<Pending>)

  const INITIAL := Emitter(map[], None)

  const FLUSH_INTERVAL := 0.5

  const MAX_PENDING := 512

  // -------------------------------------------------------------------- the emitter

  function Count(e: Emitter, key: Key): nat { if key in e.emitted then e.emitted[key] else 0 }

  function Emission(e: Emitter, p: Pending, last: bool): Wire {
    Wire(p.key, p.text, p.replace && p.key.kind == Text, if p.replace then false else Count(e, p.key) + 1 > 1, last)
  }

  function Flush(e: Emitter, last: bool): (Emitter, seq<Wire>) {
    match e.pending
    case None => (e, [])
    case Some(p) => (Emitter(e.emitted[p.key := Count(e, p.key) + 1], None), [Emission(e, p, last)])
  }

  /** Why a pending update is not held back any longer. */
  predicate MustFlush(e: Emitter, p: Pending, s: Source, now: real) {
    || p.key != s.key
    || p.key !in e.emitted
    || p.replace || s.replace
    || |p.text| + |s.text| >= MAX_PENDING
    || now - p.started >= FLUSH_INTERVAL
  }

  function Accept(e: Emitter, s: Source, now: real): (Emitter, seq<Wire>) {
    match e.pending
    case None => (e.(pending := Some(Pending(s.key, s.text, s.replace, now))), [])
    case Some(p) =>
      if MustFlush(e, p, s, now) then
        var flushed := Flush(e, p.key != s.key);
        (flushed.0.(pending := Some(Pending(s.key, s.text, s.replace, now))), flushed.1)
      else
        (e.(pending := Some(Pending(s.key, p.text + s.text, false, p.started))), [])
  }

  /** An update and the clock reading it is pushed at. */
  datatype Pushed = Pushed(source: Source, now: real)

  function Run(e: Emitter, pushes: seq<Pushed>): (Emitter, seq<Wire>)
    decreases |pushes|
  {
    if pushes == [] then (e, [])
    else
      var head := Accept(e, pushes[0].source, pushes[0].now);
      var rest := Run(head.0, pushes[1..]);
      (rest.0, head.1 + rest.1)
  }

  /** All that goes over the wire, the closing flush included. */
  function WireOf(e: Emitter, pushes: seq<Pushed>): seq<Wire> {
    Run(e, pushes).1 + Flush(Run(e, pushes).0, true).1
  }

  // ------------------------------------------------------------- what readers see

  type Texts = map<Key, string>

  function At(m: Texts, key: Key): string { if key in m then m[key] else "" }

  /** Section 4.2.2 of the A2A Protocol Specification 1.0: an appended chunk extends the
      artifact, any other replaces it. */
  function Replay(m: Texts, wire: seq<Wire>): Texts
    decreases |wire|
  {
    if wire == [] then m
    else
      var w := wire[0];
      Replay(m[w.key := if w.append then At(m, w.key) + w.text else w.text], wire[1..])
  }

  function Direct(m: Texts, pushes: seq<Pushed>): Texts
    decreases |pushes|
  {
    if pushes == [] then m else Direct(Applied(m, pushes[0].source.key, pushes[0].source.text, pushes[0].source.replace), pushes[1..])
  }

  function Applied(m: Texts, key: Key, text: string, replace: bool): Texts {
    m[key := if replace then text else At(m, key) + text]
  }

  function WithPending(m: Texts, e: Emitter): Texts {
    match e.pending
    case None => m
    case Some(p) => Applied(m, p.key, p.text, p.replace)
  }

  lemma {:induction false} ReplayConcat(m: Texts, a: seq<Wire>, b: seq<Wire>)
    ensures Replay(m, a + b) == Replay(Replay(m, a), b)
    decreases |a|
  {
    if a == [] {
      assert a + b == b;
    } else {
      assert (a + b)[1..] == a[1..] + b;
      ReplayConcat(m[a[0].key := if a[0].append then At(m, a[0].key) + a[0].text else a[0].text], a[1..], b);
    }
  }

  lemma FlushReplays(m: Texts, e: Emitter, last: bool)
    requires m.Keys == e.emitted.Keys && forall k <- e.emitted :: e.emitted[k] >= 1
    ensures Replay(m, Flush(e, last).1) == WithPending(m, e)
    ensures Replay(m, Flush(e, last).1).Keys == Flush(e, last).0.emitted.Keys
    ensures forall k <- Flush(e, last).0.emitted :: Flush(e, last).0.emitted[k] >= 1
  {
    if e.pending.Some? {
      var w := Emission(e, e.pending.value, last);
      assert [w][1..] == [] && "" + w.text == w.text;
      assert w.append <==> !e.pending.value.replace && e.pending.value.key in m;
      assert Replay(m, [w]) == m[w.key := if w.append then At(m, w.key) + w.text else w.text];
    }
  }

  lemma PushReplays(m: Texts, e: Emitter, s: Source, now: real)
    requires m.Keys == e.emitted.Keys && forall k <- e.emitted :: e.emitted[k] >= 1
    ensures var r := Accept(e, s, now);
            var m' := Replay(m, r.1);
            && WithPending(m', r.0) == Applied(WithPending(m, e), s.key, s.text, s.replace)
            && m'.Keys == r.0.emitted.Keys && (forall k <- r.0.emitted :: r.0.emitted[k] >= 1)
  {
    if e.pending.Some? {
      var p := e.pending.value;
      if MustFlush(e, p, s, now) {
        FlushReplays(m, e, p.key != s.key);
      } else {
        assert At(m, s.key) + (p.text + s.text) == At(m, s.key) + p.text + s.text;
      }
    }
  }

  lemma {:induction false} RunReplays(m: Texts, e: Emitter, pushes: seq<Pushed>)
    requires m.Keys == e.emitted.Keys && forall k <- e.emitted :: e.emitted[k] >= 1
    ensures Replay(m, WireOf(e, pushes)) == Direct(WithPending(m, e), pushes)
    decreases |pushes|
  {
    if pushes == [] {
      FlushReplays(m, e, true);
      assert [] + Flush(e, true).1 == Flush(e, true).1;
    } else {
      hide Accept, Flush, WithPending, Replay;
      var head := Accept(e, pushes[0].source, pushes[0].now);
      PushReplays(m, e, pushes[0].source, pushes[0].now);
      RunReplays(Replay(m, head.1), head.0, pushes[1..]);
      ReplayConcat(m, head.1, WireOf(head.0, pushes[1..]));
      assert WireOf(e, pushes) == head.1 + WireOf(head.0, pushes[1..]);
    }
  }

  /** Whatever the updates and the clock, a reader of the closed stream has for every artifact
      the text that the updates give when applied one by one. */
  lemma CoalescingIsFaithful(pushes: seq<Pushed>)
    ensures Replay(map[], WireOf(INITIAL, pushes)) == Direct(map[], pushes)
  {
    RunReplays(map[], INITIAL, pushes);
  }

  // ------------------------------------------------------------------------ volume

  lemma {:induction false} NeverMoreUpdates(e: Emitter, pushes: seq<Pushed>)
    ensures |WireOf(e, pushes)| <= |pushes| + (if e.pending.Some? then 1 else 0)
    decreases |pushes|
  {
    if pushes != [] {
      var head := Accept(e, pushes[0].source, pushes[0].now);
      NeverMoreUpdates(head.0, pushes[1..]);
      assert WireOf(e, pushes) == head.1 + WireOf(head.0, pushes[1..]);
    }
  }

  /** A stretch of additions to one artifact, none of them held back for the interval. */
  predicate Stretch(e: Emitter, key: Key, pushes: seq<Pushed>)
    decreases |pushes|
  {
    pushes != [] ==>
      && pushes[0].source.key == key && !pushes[0].source.replace
      && (e.pending.Some? && e.pending.value.key == key ==> pushes[0].now - e.pending.value.started < FLUSH_INTERVAL)
      && Stretch(Accept(e, pushes[0].source, pushes[0].now).0, key, pushes[1..])
  }

  function Characters(pushes: seq<Pushed>): nat {
    if pushes == [] then 0 else |pushes[0].source.text| + Characters(pushes[1..])
  }

  /** `n` updates of the artifact have gone out for `t` characters, those pending included:
      every second size-triggered update has another MAX_PENDING characters behind it. */
  predicate Paid(n: nat, t: nat, held: nat) {
    && held <= t
    && (n > 0 && n % 2 == 0 ==> t >= MAX_PENDING * (n / 2))
    && (n % 2 == 1 ==> t >= MAX_PENDING * ((n - 1) / 2) + held)
  }

  /** What an emitter in a stretch has sent and holds. */
  predicate InStretch(e: Emitter, key: Key, n: nat, t: nat) {
    match e.pending
    case None => n == 0 && t == 0
    case Some(p) => p.key == key && !p.replace && Paid(n, t, |p.text|) && (n > 0 ==> key in e.emitted)
  }

  lemma AcceptIsPaid(e: Emitter, key: Key, s: Source, now: real, n: nat, t: nat)
    requires InStretch(e, key, n, t) && s.key == key && !s.replace
    requires e.pending.Some? ==> now - e.pending.value.started < FLUSH_INTERVAL
    ensures InStretch(Accept(e, s, now).0, key, n + |Accept(e, s, now).1|, t + |s.text|)
  {
  }

  lemma {:induction false} StretchIsPaid(e: Emitter, key: Key, pushes: seq<Pushed>, n: nat, t: nat)
    requires Stretch(e, key, pushes) && InStretch(e, key, n, t)
    ensures n + |WireOf(e, pushes)| <= 2 * ((t + Characters(pushes)) / MAX_PENDING) + 2
    decreases |pushes|
  {
    hide Accept, Paid;
    if pushes == [] {
      PaidBound(e, key, n, t);
    } else {
      var s := pushes[0].source;
      var head := Accept(e, s, pushes[0].now);
      AcceptIsPaid(e, key, s, pushes[0].now, n, t);
      StretchIsPaid(head.0, key, pushes[1..], n + |head.1|, t + |s.text|);
      assert WireOf(e, pushes) == head.1 + WireOf(head.0, pushes[1..]);
    }
  }

  lemma PaidBound(e: Emitter, key: Key, n: nat, t: nat)
    requires InStretch(e, key, n, t)
    ensures n + |Flush(e, true).1| <= 2 * (t / MAX_PENDING) + 2
  {
  }

  /** On such a stretch, T characters take at most 2 * floor(T / 512) + 2 updates. */
  lemma StretchVolume(e: Emitter, key: Key, pushes: seq<Pushed>)
    requires e.pending.None? && Stretch(e, key, pushes)
    ensures |WireOf(e, pushes)| <= 2 * (Characters(pushes) / MAX_PENDING) + 2
  {
    StretchIsPaid(e, key, pushes, 0, 0);
  }

  /** In the middle of a run the update still pending for another artifact comes on top. */
  lemma StretchVolumeAfterAnother(e: Emitter, key: Key, pushes: seq<Pushed>)
    requires e.pending.Some? && e.pending.value.key != key && Stretch(e, key, pushes)
    ensures |WireOf(e, pushes)| <= 1 + 2 * (Characters(pushes) / MAX_PENDING) + 2
  {
    if pushes != [] {
      var head := Accept(e, pushes[0].source, pushes[0].now);
      StretchIsPaid(head.0, key, pushes[1..], 0, |pushes[0].source.text|);
      assert WireOf(e, pushes) == head.1 + WireOf(head.0, pushes[1..]);
    }
  }

  // ----------------------------------------------------------------------- closure

  /** No later update of the same artifact follows. */
  predicate FinalFor(wire: seq<Wire>, i: nat) {
    i < |wire| && forall j :: i < j < |wire| ==> wire[j].key != wire[i].key
  }

  /** Every artifact's last update is marked, except the one still pending. */
  ghost predicate Settled(wire: seq<Wire>, pending: Option<Pending>) {
    forall i: nat :: FinalFor(wire, i) && !wire[i].last ==> pending.Some? && pending.value.key == wire[i].key
  }

  lemma SettledFlush(wire: seq<Wire>, e: Emitter, last: bool, next: Option<Pending>)
    requires Settled(wire, e.pending)
    requires last || (e.pending.Some? ==> next.Some? && next.value.key == e.pending.value.key)
    ensures Settled(wire + Flush(e, last).1, next)
  {
    var out := wire + Flush(e, last).1;
    forall i: nat | FinalFor(out, i) && !out[i].last ensures next.Some? && next.value.key == out[i].key {
      if i < |wire| {
        assert FinalFor(wire, i) by { assert forall j :: i < j < |wire| ==> wire[j] == out[j]; }
        if e.pending.Some? { assert out[|wire|].key == e.pending.value.key; }
      }
    }
  }

  lemma AcceptSettles(wire: seq<Wire>, e: Emitter, s: Source, now: real)
    requires Settled(wire, e.pending)
    ensures Settled(wire + Accept(e, s, now).1, Accept(e, s, now).0.pending)
  {
    hide FinalFor;
    if e.pending.Some? && MustFlush(e, e.pending.value, s, now) {
      SettledFlush(wire, e, e.pending.value.key != s.key, Accept(e, s, now).0.pending);
    } else {
      assert wire + [] == wire;
    }
  }

  lemma {:induction false} RunSettles(wire: seq<Wire>, e: Emitter, pushes: seq<Pushed>)
    requires Settled(wire, e.pending)
    ensures Settled(wire + WireOf(e, pushes), None)
    decreases |pushes|
  {
    hide Settled, Accept, Flush;
    if pushes == [] {
      SettledFlush(wire, e, true, None);
      assert WireOf(e, pushes) == Flush(e, true).1;
    } else {
      var head := Accept(e, pushes[0].source, pushes[0].now);
      AcceptSettles(wire, e, pushes[0].source, pushes[0].now);
      RunSettles(wire + head.1, head.0, pushes[1..]);
      assert wire + WireOf(e, pushes) == wire + head.1 + WireOf(head.0, pushes[1..]);
    }
  }

  /** After closing, the last update of every artifact says that it is the last. */
  lemma EveryArtifactIsClosed(pushes: seq<Pushed>, i: nat)
    requires FinalFor(WireOf(INITIAL, pushes), i)
    ensures WireOf(INITIAL, pushes)[i].last
  {
    RunSettles([], INITIAL, pushes);
    assert [] + WireOf(INITIAL, pushes) == WireOf(INITIAL, pushes);
  }

  // --------------------------------------------------------------- the emitter object

  class ArtifactStreamEmitter {
    var emitted: map<Key, nat>
    var pending: Option<Pending>
    var sourceUpdates: nat
    var wireUpdates: nat
    var wire: seq<Wire>                // what the updater has been given

    function View(): Emitter reads this { Emitter(emitted, pending) }

    ghost predicate Counted() reads this { wireUpdates == |wire| }

    constructor ()
      ensures View() == INITIAL && wire == [] && sourceUpdates == 0 && Counted()
    {
      emitted, pending, sourceUpdates, wireUpdates, wire := map[], None, 0, 0, [];
    }

    method Emit(p: Pending, last: bool)
      requires Counted()
      modifies `emitted, `wire, `wireUpdates
      ensures Counted() && wire == old(wire) + [Emission(old(View()), p, last)]
      ensures emitted == old(emitted)[p.key := Count(old(View()), p.key) + 1]
    {
      emitted := emitted[p.key := (if p.key in emitted then emitted[p.key] else 0) + 1];
      var append := if p.replace then false else emitted[p.key] > 1;
      wire := wire + [Wire(p.key, p.text, p.replace && p.key.kind == Text, append, last)];
      wireUpdates := wireUpdates + 1;
    }

    method FlushPending(last: bool)
      requires Counted()
      modifies this
      ensures Counted() && View() == Flush(old(View()), last).0 && wire == old(wire) + Flush(old(View()), last).1
      ensures sourceUpdates == old(sourceUpdates)
    {
      var p := pending;
      pending := None;
      if p.Some? { Emit(p.value, last); }
    }

    /** Takes in one update; `now` is the clock reading. */
    method Push(kind: Kind, text: string, replace: bool, scope: string, item: string, now: real)
      requires Counted()
      modifies this
      ensures var r := Accept(old(View()), Source(Key(kind, scope, item), text, replace), now);
              View() == r.0 && wire == old(wire) + r.1
      ensures Counted() && sourceUpdates == old(sourceUpdates) + 1
    {
      var key := Key(kind, scope, item);
      sourceUpdates := sourceUpdates + 1;
      if pending.None? {
        pending := Some(Pending(key, text, replace, now));
        return;
      }
      var p := pending.value;
      var switched := p.key != key;
      if switched || p.key !in emitted || p.replace || replace
         || |p.text| + |text| >= MAX_PENDING || now - p.started >= FLUSH_INTERVAL {
        FlushPending(switched);
        pending := Some(Pending(key, text, replace, now));
      } else {
        pending := Some(Pending(key, p.text + text, false, p.started));
      }
    }

    method Close()
      requires Counted()
      modifies this
      ensures Counted() && pending.None? && wire == old(wire) + Flush(old(View()), true).1
      ensures View() == Flush(old(View()), true).0 && sourceUpdates == old(sourceUpdates)
    {
      FlushPending(true);
    }
  }
}
