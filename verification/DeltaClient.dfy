/** The reader's side of the artifact stream: accumulated snapshots and appended chunks are
    turned into typed deltas, which a writer folds back into one text. */
module DeltaClient {
  import opened Basics
  import opened ArtifactStream
  import opened ArtifactFeeder

  // ------------------------------------------------------------------ one artifact

  /** A part of an artifact: `flagged` when its metadata marks an authoritative snapshot. */
  datatype WirePart = WirePart(kind: Kind, text: string, flagged: bool)

  datatype Group = Group(kind: Kind, text: string, flagged: bool)

  /** Neighbouring nonempty parts of one kind, joined. */
  function Grouped(grouped: seq<Group>, parts: seq<WirePart>): seq<Group>
    decreases |parts|
  {
    if parts == [] then grouped else Grouped(GroupMore(grouped, parts[0]), parts[1..])
  }

  function GroupMore(grouped: seq<Group>, part: WirePart): seq<Group> {
    if part.text == "" then grouped
    else if grouped != [] && grouped[|grouped| - 1].kind == part.kind then
      var last := grouped[|grouped| - 1];
      grouped[..|grouped| - 1] + [Group(part.kind, last.text + part.text, last.flagged || part.flagged)]
    else grouped + [Group(part.kind, part.text, part.flagged)]
  }

  datatype StreamEvent = StreamEvent(kind: Kind, delta: string, replace: bool)

  datatype SnapshotKey = SnapshotKey(artifact: string, kind: Kind)

  type Snapshots = map<SnapshotKey, string>

  function Known(snapshots: Snapshots, key: SnapshotKey): string { if key in snapshots then snapshots[key] else "" }

  /** The event that one group of an update leads to, given the text known so far. */
  function EventOf(known: string, g: Group, append: bool): seq<StreamEvent> {
    if append then if g.text == "" then [] else [StreamEvent(g.kind, g.text, false)]
    else
      var goesOn := known <= g.text;
      var delta := if goesOn then g.text[|known|..] else g.text;
      if delta == "" then [] else [StreamEvent(g.kind, delta, g.flagged || (known != "" && !goesOn))]
  }

  function KnownAfter(known: string, g: Group, append: bool): string { if append then known + g.text else g.text }

  function EventsOf(snapshots: Snapshots, artifact: string, groups: seq<Group>, append: bool): (Snapshots, seq<StreamEvent>)
    decreases |groups|
  {
    if groups == [] then (snapshots, [])
    else
      var key := SnapshotKey(artifact, groups[0].kind);
      var known := Known(snapshots, key);
      var rest := EventsOf(snapshots[key := KnownAfter(known, groups[0], append)], artifact, groups[1..], append);
      (rest.0, EventOf(known, groups[0], append) + rest.1)
  }

  class Reader {
    var snapshots: Snapshots

    constructor ()
      ensures snapshots == map[]
    {
      snapshots := map[];
    }

    /** Parses one artifact update. */
    method EventsFromArtifact(artifact: string, parts: seq<WirePart>, append: bool) returns (result: seq<StreamEvent>)
      modifies this
      ensures var r := EventsOf(old(snapshots), artifact, Grouped([], parts), append);
              snapshots == r.0 && result == r.1
    {
      hide EventsOf, Grouped;
      var grouped := Collect(parts);
      result := Convert(artifact, grouped, append);
    }

    method Collect(parts: seq<WirePart>) returns (grouped: seq<Group>)
      ensures grouped == Grouped([], parts)
    {
      grouped := [];
      assert parts[0..] == parts;
      for i := 0 to |parts|
        invariant Grouped([], parts) == Grouped(grouped, parts[i..])
      {
        assert parts[i..][1..] == parts[i + 1..];
        var part := parts[i];
        if part.text == "" { continue; }
        if grouped != [] && grouped[|grouped| - 1].kind == part.kind {
          var last := grouped[|grouped| - 1];
          grouped := grouped[..|grouped| - 1] + [Group(part.kind, last.text + part.text, last.flagged || part.flagged)];
        } else {
          grouped := grouped + [Group(part.kind, part.text, part.flagged)];
        }
      }
      assert parts[|parts|..] == [];
    }

    method ConvertOne(key: SnapshotKey, g: Group, append: bool) returns (events: seq<StreamEvent>)
      modifies this
      ensures snapshots == old(snapshots)[key := KnownAfter(Known(old(snapshots), key), g, append)]
      ensures events == EventOf(Known(old(snapshots), key), g, append)
    {
      var known := if key in snapshots then snapshots[key] else "";
      var delta, replace := g.text, false;
      if append {
        snapshots := snapshots[key := known + g.text];
      } else {
        if known <= g.text { delta := g.text[|known|..]; }
        snapshots := snapshots[key := g.text];
        replace := g.flagged || (known != "" && !(known <= g.text));
      }
      events := if delta != "" then [StreamEvent(g.kind, delta, replace)] else [];
    }

    method Convert(artifact: string, groups: seq<Group>, append: bool) returns (result: seq<StreamEvent>)
      modifies this
      ensures var r := EventsOf(old(snapshots), artifact, groups, append);
              snapshots == r.0 && result == r.1
    {
      hide EventsOf;
      result := [];
      ghost var left := groups;
      for i := 0 to |groups|
        invariant left == groups[i..]
        invariant EventsOf(old(snapshots), artifact, groups, append).0 == EventsOf(snapshots, artifact, left, append).0
        invariant EventsOf(old(snapshots), artifact, groups, append).1 == result + EventsOf(snapshots, artifact, left, append).1
      {
        NextGroup(snapshots, artifact, left, append);
        var more := ConvertOne(SnapshotKey(artifact, groups[i].kind), groups[i], append);
        result := result + more;
        left := left[1..];
      }
      NoGroup(snapshots, artifact, append);
    }
  }

  lemma NextGroup(snapshots: Snapshots, artifact: string, groups: seq<Group>, append: bool)
    requires groups != []
    ensures var key := SnapshotKey(artifact, groups[0].kind);
            var known := Known(snapshots, key);
            var rest := EventsOf(snapshots[key := KnownAfter(known, groups[0], append)], artifact, groups[1..], append);
            && EventsOf(snapshots, artifact, groups, append).0 == rest.0
            && EventsOf(snapshots, artifact, groups, append).1 == EventOf(known, groups[0], append) + rest.1
  {
  }

  lemma NoGroup(snapshots: Snapshots, artifact: string, append: bool)
    ensures EventsOf(snapshots, artifact, [], append) == (snapshots, [])
  {
  }

  // ------------------------------------------------------------------- the writer

  /** What the writer has after some events: a replacement starts over. */
  function Written(output: string, events: seq<StreamEvent>): string
    decreases |events|
  {
    if events == [] then output
    else if events[0].kind != Text then Written(output, events[1..])
    else Written(if events[0].replace then events[0].delta else output + events[0].delta, events[1..])
  }

  // --------------------------------------------------- one artifact of one part type

  /** An update of the artifact: a chunk to append, or the whole text so far. */
  datatype Update = Update(text: string, flagged: bool, append: bool)

  function GroupOf(u: Update): Group { Group(Text, u.text, u.flagged) }

  /** The text the artifact has after the updates. */
  function Accumulated(known: string, updates: seq<Update>): string
    decreases |updates|
  {
    if updates == [] then known
    else Accumulated(KnownAfter(known, GroupOf(updates[0]), updates[0].append), updates[1..])
  }

  /** What the writer makes of the events for the same updates. */
  function Folded(output: string, known: string, updates: seq<Update>): string
    decreases |updates|
  {
    if updates == [] then output
    else
      var u := updates[0];
      Folded(Written(output, EventOf(known, GroupOf(u), u.append)), KnownAfter(known, GroupOf(u), u.append), updates[1..])
  }

  /** The update the client gets wrong: a flagged snapshot that goes on from the text known so
      far. Its event carries only the rest of the text, yet asks the writer to start over. */
  predicate Misread(known: string, u: Update) {
    !u.append && u.flagged && known != "" && known <= u.text && known != u.text
  }

  predicate NoneMisread(known: string, updates: seq<Update>)
    decreases |updates|
  {
    updates != [] ==>
      && !Misread(known, updates[0])
      && NoneMisread(KnownAfter(known, GroupOf(updates[0]), updates[0].append), updates[1..])
  }

  /** The parser skips empty parts, so every update has a text. */
  predicate Nonempty(updates: seq<Update>) { forall u <- updates :: u.text != "" }

  /** Exactly those updates leave the writer with something else than the artifact's text. */
  lemma OneUpdate(known: string, u: Update)
    requires u.text != ""
    ensures Written(known, EventOf(known, GroupOf(u), u.append)) == KnownAfter(known, GroupOf(u), u.append)
       <==> !Misread(known, u)
  {
    var events := EventOf(known, GroupOf(u), u.append);
    if events == [] {
      assert !u.append && u.text == known + u.text[|known|..];
    } else {
      assert events[1..] == [];
      assert Written(known, events) == if events[0].replace then events[0].delta else known + events[0].delta;
      if !u.append && known <= u.text { assert u.text == known + u.text[|known|..]; }
    }
  }

  lemma {:induction false} NoneMisreadIsFaithful(known: string, updates: seq<Update>)
    requires NoneMisread(known, updates) && Nonempty(updates)
    ensures Folded(known, known, updates) == Accumulated(known, updates)
    decreases |updates|
  {
    if updates != [] {
      assert updates[0] in updates;
      OneUpdate(known, updates[0]);
      NoneMisreadIsFaithful(KnownAfter(known, GroupOf(updates[0]), updates[0].append), updates[1..]);
    }
  }

  lemma {:induction false} NoneMisreadPrefix(known: string, updates: seq<Update>, n: nat)
    requires NoneMisread(known, updates) && n <= |updates|
    ensures NoneMisread(known, updates[..n])
    decreases |updates|
  {
    if n > 0 {
      assert updates[..n][1..] == updates[1..][..n - 1];
      NoneMisreadPrefix(KnownAfter(known, GroupOf(updates[0]), updates[0].append), updates[1..], n - 1);
    }
  }

  /** At every update the writer has the artifact's text. */
  predicate Faithful(known: string, updates: seq<Update>) {
    forall n :: 0 <= n <= |updates| ==> Folded(known, known, updates[..n]) == Accumulated(known, updates[..n])
  }

  lemma {:induction false} FaithfulPrefixes(known: string, updates: seq<Update>)
    requires Nonempty(updates)
    requires Faithful(known, updates)
    ensures NoneMisread(known, updates)
    decreases |updates|
  {
    if updates != [] {
      var u := updates[0];
      assert u in updates;
      var next := KnownAfter(known, GroupOf(u), u.append);
      assert updates[..1] == [u] && [u][1..] == [];
      assert Folded(known, known, updates[..1]) == Accumulated(known, updates[..1]);
      var written := Written(known, EventOf(known, GroupOf(u), u.append));
      assert Folded(known, known, [u]) == Folded(written, next, []) == written;
      assert Accumulated(known, [u]) == Accumulated(next, []) == next;
      OneUpdate(known, u);
      forall n | 0 <= n <= |updates[1..]|
        ensures Folded(next, next, updates[1..][..n]) == Accumulated(next, updates[1..][..n])
      {
        assert updates[..n + 1][1..] == updates[1..][..n];
        assert Folded(known, known, updates[..n + 1]) == Accumulated(known, updates[..n + 1]);
      }
      FaithfulPrefixes(next, updates[1..]);
    }
  }

  /** The written text follows the artifact at every update, if and only if no flagged snapshot
      properly goes on from a nonempty text. */
  lemma DeltasInvertSnapshotsExactly(updates: seq<Update>)
    requires Nonempty(updates)
    ensures Faithful("", updates) <==> NoneMisread("", updates)
  {
    if NoneMisread("", updates) {
      forall n | 0 <= n <= |updates| ensures Folded("", "", updates[..n]) == Accumulated("", updates[..n]) {
        NoneMisreadPrefix("", updates, n);
        NoneMisreadIsFaithful("", updates[..n]);
      }
    } else if Faithful("", updates) {
      FaithfulPrefixes("", updates);
    }
  }

  // --------------------------------------------- the parser on such an artifact

  /** The updates as they arrive: each one part of nonempty text. */
  function PartsOfUpdate(u: Update): seq<WirePart> { [WirePart(Text, u.text, u.flagged)] }

  /** Reads the updates of one artifact and writes what comes out. */
  method ReadAll(artifact: string, updates: seq<Update>) returns (output: string)
    requires Nonempty(updates)
    ensures output == Folded("", "", updates)
    ensures NoneMisread("", updates) ==> output == Accumulated("", updates)
  {
    var reader := new Reader();
    var key := SnapshotKey(artifact, Text);
    output := "";
    assert updates[0..] == updates;
    for i := 0 to |updates|
      invariant fresh(reader)
      invariant Folded(output, Known(reader.snapshots, key), updates[i..]) == Folded("", "", updates)
    {
      assert updates[i..][1..] == updates[i + 1..];
      var u := updates[i];
      OneGroup(reader.snapshots, artifact, u);
      var events := reader.EventsFromArtifact(artifact, PartsOfUpdate(u), u.append);
      output := Written(output, events);
    }
    assert updates[|updates|..] == [];
    if NoneMisread("", updates) { NoneMisreadIsFaithful("", updates); }
  }

  lemma OneGroup(snapshots: Snapshots, artifact: string, u: Update)
    requires u.text != ""
    ensures var r := EventsOf(snapshots, artifact, Grouped([], PartsOfUpdate(u)), u.append);
            var known := Known(snapshots, SnapshotKey(artifact, Text));
            && r.1 == EventOf(known, GroupOf(u), u.append)
            && Known(r.0, SnapshotKey(artifact, Text)) == KnownAfter(known, GroupOf(u), u.append)
  {
    var parts := PartsOfUpdate(u);
    assert parts[1..] == [] && Grouped([], parts) == [GroupOf(u)] && [GroupOf(u)][1..] == [];
    var known := Known(snapshots, SnapshotKey(artifact, Text));
    assert EventOf(known, GroupOf(u), u.append) + [] == EventOf(known, GroupOf(u), u.append);
  }

  // ----------------------------------------------------------- across both modules

  /** An emitted update as the client sees it. */
  function Received(w: Wire): Update { Update(w.text, w.flagged, w.append) }

  function ReceivedAll(wire: seq<Wire>): seq<Update> {
    if wire == [] then [] else [Received(wire[0])] + ReceivedAll(wire[1..])
  }

  lemma {:induction false} ReplayIsAccumulated(m: Texts, key: Key, wire: seq<Wire>)
    requires forall w <- wire :: w.key == key
    ensures At(Replay(m, wire), key) == Accumulated(At(m, key), ReceivedAll(wire))
    decreases |wire|
  {
    if wire != [] {
      var w := wire[0];
      assert w in wire && ReceivedAll(wire)[1..] == ReceivedAll(wire[1..]);
      ReplayIsAccumulated(m[key := if w.append then At(m, key) + w.text else w.text], key, wire[1..]);
    }
  }

  /** From event to writer: for one message item, and as long as no update is misread, the
      writer ends with the item's parts in first-seen order. */
  lemma ItemReachesTheWriter(reasoning: bool, timed: seq<Timed>, item: ItemKey)
    requires item in ItemRun(map[], Events(timed))
    requires var wire := WireOf(INITIAL, FedAll(map[], reasoning, timed));
             && (forall w <- wire :: w.key == TextKey(item))
             && Nonempty(ReceivedAll(wire)) && NoneMisread("", ReceivedAll(wire))
    ensures Folded("", "", ReceivedAll(WireOf(INITIAL, FedAll(map[], reasoning, timed))))
         == Joined(ItemRun(map[], Events(timed))[item])
  {
    var wire := WireOf(INITIAL, FedAll(map[], reasoning, timed));
    ReadersHaveEveryItem(reasoning, timed);
    ReplayIsAccumulated(map[], TextKey(item), wire);
    NoneMisreadIsFaithful("", ReceivedAll(wire));
  }

  const EXAMPLE_ITEM := ItemKey("s", "m")

  const STREAMED := Timed(Updated(Message, EXAMPLE_ITEM, "p", Some("a"), false), 0.0)

  const COMPLETED := Timed(Snapshot(Message, EXAMPLE_ITEM, [Part("p", "ab")], ""), 1.0)

  /** What the two events do, one by one. */
  lemma ExampleSteps()
    ensures var items := ItemStep(map[], STREAMED.event);
            && items == map[EXAMPLE_ITEM := [Part("p", "a")]]
            && ItemStep(items, COMPLETED.event) == map[EXAMPLE_ITEM := [Part("p", "ab")]]
            && Fed(map[], false, STREAMED.event) == Some(Source(TextKey(EXAMPLE_ITEM), "a", false))
            && Fed(items, false, COMPLETED.event) == Some(Source(TextKey(EXAMPLE_ITEM), "ab", true))
  {
    assert "" + "a" == "a" && [Part("p", "ab")][1..] == [] && [Part("p", "a")][1..] == [];
    assert PartsOf(map[], EXAMPLE_ITEM) == [] && Assign([], "p", "a") == [Part("p", "a")];
    assert AssignAll([], [Part("p", "ab")]) == [Part("p", "ab")];
    assert "ab" + "" == "ab" && Joined([Part("p", "ab")]) == "ab";
  }

  lemma ExampleIsFed()
    ensures FedAll(map[], false, [STREAMED, COMPLETED]) ==
            [Pushed(Source(TextKey(EXAMPLE_ITEM), "a", false), 0.0), Pushed(Source(TextKey(EXAMPLE_ITEM), "ab", true), 1.0)]
    ensures ItemRun(map[], Events([STREAMED, COMPLETED])) == map[EXAMPLE_ITEM := [Part("p", "ab")]]
  {
    hide Fed, ItemStep;
    ExampleSteps();
    var items := ItemStep(map[], STREAMED.event);
    var timed := [STREAMED, COMPLETED];
    assert timed[1..] == [COMPLETED] && timed[1..][1..] == [];
    assert FedAll(items, false, [COMPLETED]) == [Pushed(Source(TextKey(EXAMPLE_ITEM), "ab", true), 1.0)] by {
      assert [COMPLETED][1..] == [];
    }
    var events := [STREAMED.event, COMPLETED.event];
    assert Events([COMPLETED]) == [COMPLETED.event] by { assert [COMPLETED][1..] == []; }
    assert ItemRun(items, [COMPLETED.event]) == ItemStep(items, COMPLETED.event) by {
      assert [COMPLETED.event][1..] == [];
      assert ItemRun(ItemStep(items, COMPLETED.event), []) == ItemStep(items, COMPLETED.event);
    }
    assert Events(timed) == events && events[1..] == [COMPLETED.event] && events[1..][1..] == [];
  }

  lemma ExampleOnTheWire()
    ensures WireOf(INITIAL, [Pushed(Source(TextKey(EXAMPLE_ITEM), "a", false), 0.0),
                             Pushed(Source(TextKey(EXAMPLE_ITEM), "ab", true), 1.0)]) ==
            [Wire(TextKey(EXAMPLE_ITEM), "a", false, false, false), Wire(TextKey(EXAMPLE_ITEM), "ab", true, false, true)]
  {
    var a, b := Pushed(Source(TextKey(EXAMPLE_ITEM), "a", false), 0.0), Pushed(Source(TextKey(EXAMPLE_ITEM), "ab", true), 1.0);
    assert [a, b][1..] == [b] && [b][1..] == [];
    var e1 := Accept(INITIAL, a.source, a.now).0;
    var r2 := Accept(e1, b.source, b.now);
    assert r2.1 == [Wire(TextKey(EXAMPLE_ITEM), "a", false, false, false)];
    assert Run(e1, [b]) == (r2.0, r2.1) by { assert Run(r2.0, []) == (r2.0, []); assert r2.1 + [] == r2.1; }
    assert Run(INITIAL, [a, b]) == (r2.0, r2.1) by { assert [] + r2.1 == r2.1; }
  }

  lemma ExampleIsRead()
    ensures var updates := [Update("a", false, false), Update("ab", true, false)];
            Accumulated("", updates) == "ab" && Folded("", "", updates) == "b"
  {
    var first, second := Update("a", false, false), Update("ab", true, false);
    assert [first, second][1..] == [second] && [second][1..] == [];
    assert "a"[0..] == "a" && "ab"[1..] == "b" && "" + "a" == "a";
    assert EventOf("", GroupOf(first), false) == [StreamEvent(Text, "a", false)];
    assert EventOf("a", GroupOf(second), false) == [StreamEvent(Text, "b", true)];
    assert [StreamEvent(Text, "a", false)][1..] == [] && [StreamEvent(Text, "b", true)][1..] == [];
    assert Written("", [StreamEvent(Text, "a", false)]) == "a";
    assert Written("a", [StreamEvent(Text, "b", true)]) == "b";
    assert Folded("a", "a", [second]) == "b" by { assert Folded("b", "ab", []) == "b"; }
    assert Accumulated("a", [second]) == "ab" by { assert Accumulated("ab", []) == "ab"; }
  }

  /** The emitter itself produces the misread update: a message that is streamed and then
      completed with a longer text reaches the writer without its beginning. */
  lemma CompletedTextLosesItsBeginning()
    ensures var timed := [STREAMED, COMPLETED];
            var updates := ReceivedAll(WireOf(INITIAL, FedAll(map[], false, timed)));
            && ItemRun(map[], Events(timed)) == map[EXAMPLE_ITEM := [Part("p", "ab")]]
            && Accumulated("", updates) == "ab" && Folded("", "", updates) == "b"
  {
    hide FedAll, WireOf, ItemRun, Events, Accumulated, Folded;
    ExampleIsFed();
    ExampleOnTheWire();
    ExampleIsRead();
    var wire := [Wire(TextKey(EXAMPLE_ITEM), "a", false, false, false), Wire(TextKey(EXAMPLE_ITEM), "ab", true, false, true)];
    assert wire[1..] == [wire[1]] && wire[1..][1..] == [];
    assert ReceivedAll([wire[1]]) == [Update("ab", true, false)] by { assert [wire[1]][1..] == []; }
    assert ReceivedAll(wire) == [Update("a", false, false), Update("ab", true, false)];
  }
}
