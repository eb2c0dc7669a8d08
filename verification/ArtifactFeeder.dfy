/** Items of several parts as one artifact text each: most updates carry only what a part
    gained, the others the whole text so far. Readers always have the parts in order. */
module ArtifactFeeder {
  import opened Basics
  import opened ArtifactStream

  datatype ItemKind = Reasoning | Message | OtherItem

  datatype ItemKey = ItemKey(scope: string, item: string)

  datatype Part = Part(id: string, text: string)

  /** A runtime event, as far as output text is concerned. `text` is None for an update that is
      no text; a snapshot lists its text parts and the text the reasoning view takes from it. */
  datatype Event =
    | Updated(kind: ItemKind, key: ItemKey, partId: string, text: Option<string>, replace: bool)
    | Snapshot(kind: ItemKind, key: ItemKey, parts: seq<Part>, whole: string)
    | OtherEvent

  /** Parts in the order they were first seen. */
  type Parts = seq<Part>

  predicate Distinct(parts: Parts) {
    forall i, j :: 0 <= i < j < |parts| ==> parts[i].id != parts[j].id
  }

  function IndexOf(parts: Parts, id: string): (k: nat)
    ensures k <= |parts| && (k < |parts| ==> parts[k].id == id) && forall i :: 0 <= i < k ==> parts[i].id != id
  {
    if parts == [] || parts[0].id == id then 0 else 1 + IndexOf(parts[1..], id)
  }

  function Lookup(parts: Parts, id: string): string {
    var k := IndexOf(parts, id);
    if k < |parts| then parts[k].text else ""
  }

  /** Assigning a part keeps its place, or puts it last when it is new. */
  function Assign(parts: Parts, id: string, text: string): (r: Parts)
    ensures r != [] && Lookup(r, id) == text && IndexOf(r, id) == IndexOf(parts, id)
    ensures Distinct(parts) ==> Distinct(r)
  {
    var k := IndexOf(parts, id);
    if k < |parts| then
      var r := parts[k := Part(id, text)];
      IndexIs(r, id, k);
      r
    else
      IndexIs(parts + [Part(id, text)], id, k);
      parts + [Part(id, text)]
  }

  lemma {:induction false} IndexIs(parts: Parts, id: string, k: nat)
    requires k < |parts| && parts[k].id == id && forall i :: 0 <= i < k ==> parts[i].id != id
    ensures IndexOf(parts, id) == k
  {
  }

  function AssignAll(parts: Parts, more: seq<Part>): (r: Parts)
    ensures Distinct(parts) ==> Distinct(r)
    decreases |more|
  {
    if more == [] then parts else AssignAll(Assign(parts, more[0].id, more[0].text), more[1..])
  }

  function Joined(parts: Parts): string {
    if parts == [] then "" else parts[0].text + Joined(parts[1..])
  }

  lemma {:induction false} JoinedConcat(a: Parts, b: Parts)
    ensures Joined(a + b) == Joined(a) + Joined(b)
  {
    if a == [] {
      assert a + b == b;
    } else {
      assert (a + b)[1..] == a[1..] + b;
      JoinedConcat(a[1..], b);
    }
  }

  lemma JoinedLast(parts: Parts, last: Part)
    ensures Joined(parts + [last]) == Joined(parts) + last.text
  {
    JoinedConcat(parts, [last]);
    assert [last][1..] == [] && last.text + "" == last.text;
  }

  /** Extending the last part extends the text by the same. */
  lemma ExtendingTheLast(parts: Parts, id: string, text: string)
    requires IndexOf(parts, id) + 1 >= |parts|
    ensures Joined(Assign(parts, id, Lookup(parts, id) + text)) == Joined(parts) + text
  {
    hide Joined;
    var k := IndexOf(parts, id);
    if k < |parts| {
      var before := parts[..k];
      assert parts == before + [parts[k]];
      assert parts[k := Part(id, parts[k].text + text)] == before + [Part(id, parts[k].text + text)];
      JoinedLast(before, parts[k]);
      JoinedLast(before, Part(id, parts[k].text + text));
    } else {
      assert "" + text == text;
      JoinedLast(parts, Part(id, text));
    }
  }

  // ---------------------------------------------------------------------- meaning

  type Items = map<ItemKey, Parts>

  function PartsOf(items: Items, key: ItemKey): Parts { if key in items then items[key] else [] }

  /** What an event does to the message items themselves. */
  function ItemStep(items: Items, e: Event): Items {
    match e
    case Updated(Message, key, id, Some(text), replace) =>
      if text == "" && !replace then items
      else
        var parts := PartsOf(items, key);
        items[key := Assign(parts, id, if replace then text else Lookup(parts, id) + text)]
    case Snapshot(Message, key, parts, _) =>
      if parts == [] && key !in items then items else items[key := AssignAll([], parts)]
    case _ => items
  }

  function ItemRun(items: Items, events: seq<Event>): Items
    decreases |events|
  {
    if events == [] then items else ItemRun(ItemStep(items, events[0]), events[1..])
  }

  // ---------------------------------------------------------------------- feeding

  function TextKey(key: ItemKey): Key { Key(Text, key.scope, key.item) }

  function ThinkingKey(key: ItemKey): Key { Key(Thinking, key.scope, key.item) }

  /** The update that an event is turned into, if any. */
  function Fed(items: Items, reasoning: bool, e: Event): Option<Source> {
    match e
    case Updated(Reasoning, key, _, Some(text), replace) =>
      if reasoning && text != "" then Some(Source(ThinkingKey(key), text, replace)) else None
    case Updated(Message, key, id, Some(text), replace) =>
      if text == "" && !replace then None
      else
        var parts := PartsOf(ItemStep(items, e), key);
        var whole := replace || parts[|parts| - 1].id != id;
        Some(Source(TextKey(key), if whole then Joined(parts) else text, whole))
    case Snapshot(Reasoning, key, _, whole) =>
      if reasoning && whole != "" then Some(Source(ThinkingKey(key), whole, true)) else None
    case Snapshot(Message, key, parts, _) =>
      if parts == [] && key !in items then None
      else Some(Source(TextKey(key), Joined(AssignAll([], parts)), true))
    case _ => None
  }

  /** An event and the clock reading at which it is fed. */
  datatype Timed = Timed(event: Event, now: real)

  function Events(timed: seq<Timed>): seq<Event> {
    if timed == [] then [] else [timed[0].event] + Events(timed[1..])
  }

  function FedAll(items: Items, reasoning: bool, timed: seq<Timed>): seq<Pushed>
    decreases |timed|
  {
    if timed == [] then []
    else
      var s := Fed(items, reasoning, timed[0].event);
      (if s.Some? then [Pushed(s.value, timed[0].now)] else [])
      + FedAll(ItemStep(items, timed[0].event), reasoning, timed[1..])
  }

  /** The texts show exactly the message items, each with its parts in order. */
  ghost predicate Shows(m: Texts, items: Items) {
    && (forall key :: key in items <==> TextKey(key) in m)
    && (forall key <- items :: Distinct(items[key]) && m[TextKey(key)] == Joined(items[key]))
  }

  lemma StepShows(m: Texts, items: Items, reasoning: bool, e: Event)
    requires Shows(m, items)
    ensures var s := Fed(items, reasoning, e);
            Shows(if s.Some? then Applied(m, s.value.key, s.value.text, s.value.replace) else m, ItemStep(items, e))
  {
    match e
    case Updated(Message, key, id, Some(text), replace) =>
      var parts := PartsOf(items, key);
      if !replace && text != "" && IndexOf(parts, id) + 1 >= |parts| { ExtendingTheLast(parts, id, text); }
      if !replace && text != "" {
        var grown := Assign(parts, id, Lookup(parts, id) + text);
        assert grown[|grown| - 1].id == id ==> IndexOf(grown, id) == |grown| - 1;
      }
    case _ =>
  }

  lemma {:induction false} FeedingShows(m: Texts, items: Items, reasoning: bool, timed: seq<Timed>)
    requires Shows(m, items)
    ensures Shows(Direct(m, FedAll(items, reasoning, timed)), ItemRun(items, Events(timed)))
    decreases |timed|
  {
    if timed != [] {
      var e := timed[0].event;
      var s := Fed(items, reasoning, e);
      StepShows(m, items, reasoning, e);
      var m' := if s.Some? then Applied(m, s.value.key, s.value.text, s.value.replace) else m;
      FeedingShows(m', ItemStep(items, e), reasoning, timed[1..]);
      var rest := FedAll(ItemStep(items, e), reasoning, timed[1..]);
      if s.Some? { assert ([Pushed(s.value, timed[0].now)] + rest)[1..] == rest; } else { assert [] + rest == rest; }
      assert Events(timed)[1..] == Events(timed[1..]);
    }
  }

  /** For every interleaving of additions, replacements, completions and snapshots over any
      items and parts, and every clock, a reader of the closed stream has each message item as
      its parts in first-seen order, and no other message item. */
  lemma ReadersHaveEveryItem(reasoning: bool, timed: seq<Timed>)
    ensures Shows(Replay(map[], WireOf(INITIAL, FedAll(map[], reasoning, timed))), ItemRun(map[], Events(timed)))
  {
    FeedingShows(map[], map[], reasoning, timed);
    CoalescingIsFaithful(FedAll(map[], reasoning, timed));
  }

  // --------------------------------------------------------------- the message branches

  lemma OthersFeedNothing(items: Items, includeReasoning: bool)
    ensures Fed(items, includeReasoning, OtherEvent).None? && ItemStep(items, OtherEvent) == items
  {
  }

  class Feeder {
    const artifacts: ArtifactStreamEmitter
    const includeReasoning: bool
    var outputItems: Items

    constructor (includeReasoning: bool)
      ensures this.includeReasoning == includeReasoning && outputItems == map[]
      ensures fresh(artifacts) && artifacts.View() == INITIAL && artifacts.wire == [] && artifacts.Counted()
    {
      artifacts := new ArtifactStreamEmitter();
      this.includeReasoning, outputItems := includeReasoning, map[];
    }

    /** Turns one event into at most one pushed update. */
    method OnEvent(e: Event, now: real)
      requires artifacts.Counted()
      modifies this, artifacts
      ensures artifacts.Counted() && outputItems == ItemStep(old(outputItems), e)
      ensures var s := Fed(old(outputItems), includeReasoning, e);
              if s.None? then artifacts.View() == old(artifacts.View()) && artifacts.wire == old(artifacts.wire)
              else
                var r := Accept(old(artifacts.View()), s.value, now);
                artifacts.View() == r.0 && artifacts.wire == old(artifacts.wire) + r.1
    {
      hide Accept, Assign, AssignAll, Joined, Fed, ItemStep;
      match e
      case Updated(_, _, _, _, _) => OnUpdate(e, now);
      case Snapshot(_, _, _, _) => OnSnapshot(e, now);
      case OtherEvent => OthersFeedNothing(outputItems, includeReasoning);
    }

    method OnUpdate(e: Event, now: real)
      requires artifacts.Counted() && e.Updated?
      modifies this, artifacts
      ensures artifacts.Counted() && outputItems == ItemStep(old(outputItems), e)
      ensures var s := Fed(old(outputItems), includeReasoning, e);
              if s.None? then artifacts.View() == old(artifacts.View()) && artifacts.wire == old(artifacts.wire)
              else
                var r := Accept(old(artifacts.View()), s.value, now);
                artifacts.View() == r.0 && artifacts.wire == old(artifacts.wire) + r.1
    {
      hide Accept, Assign, Joined;
      var Updated(kind, key, id, update, replace) := e;
      if kind == Reasoning {
        if !includeReasoning || update.None? || update.value == "" { return; }
        artifacts.Push(Thinking, update.value, replace, key.scope, key.item, now);
      } else if kind == Message {
        if update.None? || (update.value == "" && !replace) { return; }
        var parts := if key in outputItems then outputItems[key] else [];
        parts := Assign(parts, id, if replace then update.value else Lookup(parts, id) + update.value);
        outputItems := outputItems[key := parts];
        var whole := replace || parts[|parts| - 1].id != id;
        artifacts.Push(Text, if whole then Joined(parts) else update.value, whole, key.scope, key.item, now);
      }
    }

    method OnSnapshot(e: Event, now: real)
      requires artifacts.Counted() && e.Snapshot?
      modifies this, artifacts
      ensures artifacts.Counted() && outputItems == ItemStep(old(outputItems), e)
      ensures var s := Fed(old(outputItems), includeReasoning, e);
              if s.None? then artifacts.View() == old(artifacts.View()) && artifacts.wire == old(artifacts.wire)
              else
                var r := Accept(old(artifacts.View()), s.value, now);
                artifacts.View() == r.0 && artifacts.wire == old(artifacts.wire) + r.1
    {
      hide Accept, AssignAll, Joined;
      var Snapshot(kind, key, texts, whole) := e;
      if kind == Reasoning {
        if !includeReasoning || whole == "" { return; }
        artifacts.Push(Thinking, whole, true, key.scope, key.item, now);
      } else if kind == Message {
        if texts == [] && key !in outputItems { return; }
        var parts := AssignAll([], texts);
        outputItems := outputItems[key := parts];
        artifacts.Push(Text, Joined(parts), true, key.scope, key.item, now);
      }
    }

    /** Feeds a whole run and closes it. */
    method Drain(timed: seq<Timed>)
      requires outputItems == map[] && artifacts.View() == INITIAL && artifacts.wire == [] && artifacts.Counted()
      modifies this, artifacts
      ensures outputItems == ItemRun(map[], Events(timed))
      ensures artifacts.wire == WireOf(INITIAL, FedAll(map[], includeReasoning, timed))
      ensures Shows(Replay(map[], artifacts.wire), outputItems)
      ensures artifacts.wireUpdates == |artifacts.wire|
    {
      hide Accept, Fed, ItemStep, Flush, Run, FedAll, ItemRun, Replay, Shows, Events;
      ghost var all := FedAll(map[], includeReasoning, timed);
      ghost var left := timed;
      for i := 0 to |timed|
        invariant artifacts.Counted() && left == timed[i..]
        invariant ItemRun(outputItems, Events(left)) == ItemRun(map[], Events(timed))
        invariant Run(INITIAL, all).0 == Run(artifacts.View(), FedAll(outputItems, includeReasoning, left)).0
        invariant Run(INITIAL, all).1 == artifacts.wire + Run(artifacts.View(), FedAll(outputItems, includeReasoning, left)).1
      {
        RunFed(artifacts.View(), outputItems, includeReasoning, left);
        OnEvent(timed[i].event, timed[i].now);
        left := left[1..];
      }
      NothingFed(artifacts.View(), outputItems, includeReasoning);
      artifacts.Close();
      ReadersHaveEveryItem(includeReasoning, timed);
    }
  }

  lemma RunFed(e: Emitter, items: Items, reasoning: bool, timed: seq<Timed>)
    requires timed != []
    ensures ItemRun(items, Events(timed)) == ItemRun(ItemStep(items, timed[0].event), Events(timed[1..]))
    ensures var s := Fed(items, reasoning, timed[0].event);
            var rest := FedAll(ItemStep(items, timed[0].event), reasoning, timed[1..]);
            var run := Run(e, FedAll(items, reasoning, timed));
            if s.None? then run == Run(e, rest)
            else
              var head := Accept(e, s.value, timed[0].now);
              run.0 == Run(head.0, rest).0 && run.1 == head.1 + Run(head.0, rest).1
  {
    hide Accept, Fed, ItemStep;
    assert Events(timed)[1..] == Events(timed[1..]);
    var s := Fed(items, reasoning, timed[0].event);
    var rest := FedAll(ItemStep(items, timed[0].event), reasoning, timed[1..]);
    if s.Some? { assert ([Pushed(s.value, timed[0].now)] + rest)[1..] == rest; } else { assert [] + rest == rest; }
  }

  lemma NothingFed(e: Emitter, items: Items, reasoning: bool)
    ensures Run(e, FedAll(items, reasoning, [])) == (e, []) && ItemRun(items, Events([])) == items
  {
  }
}
