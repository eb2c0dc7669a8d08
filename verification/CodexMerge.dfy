/** The merge of native Codex events and expert calls: several producers meet one consumer over
    a one-slot queue with acknowledgements. Every step below happens between two awaits, and
    steps of different tasks interleave in any order. */
module CodexMerge {
  import opened Basics

  /** A call is identified by the native item that asked for it. */
  type Key = string

  /** `trigger` names the call for which the event is the persisted trigger item. */
  datatype Event = Event(id: nat, trigger: Option<Key>)

  datatype Producer = Pump | Call(key: Key)

  datatype Message = Emitted(producer: Producer, event: Event) | Failure(reason: string) | End

  /** A call task: waiting for its trigger, at work, putting an event, waiting for its
      acknowledgement, putting a failure, or over. */
  datatype Task = Waiting | Working | Putting(event: Event) | Acking(event: Event) | Posting(reason: string) | Finished

  datatype PumpState =
    | Recovering
    | Pulling
    | PumpPutting(event: Event)
    | PumpAcking(event: Event)
    | Noting(key: Key)
    | PumpPosting(failure: Option<string>)
    | Stopped

  datatype Consumer = Idle | Holding(producer: Producer, event: Event) | Over(ended: bool)

  /** What the native stream hands out. */
  datatype Native = Item(event: Event) | ToolCall(key: Key) | ToolCancel | Invalid | NativeEnd | NativeFailure

  type Log = seq<(Producer, Event)>

  datatype State = State(
    slot: Option<Message>, consumer: Consumer, pump: PumpState,
    calls: map<Key, Task>, recovery: set<Key>, triggers: set<Key>,
    acked: set<Producer>,          // producers whose awaited acknowledgement is set
    native: Option<Key>,           // the call whose result the native side waits for
    issued: Log,                   // events in the order in which `emit` was called
    consumed: Log,                 // events whose consumer has come back for more
    returned: Log,                 // events whose `emit` has returned
    created: seq<Key>,             // call tasks in the order in which they were created
    begun: seq<Key>,               // expert calls in the order in which they were started
    pulls: nat, items: seq<Event>) // how often the native stream was pulled, and what it gave

  function Init(recovery: set<Key>): State {
    State(None, Idle, Recovering, map k | k in recovery :: Working, recovery, {}, {}, None, [], [], [], [], [], 0, [])
  }

  datatype Label =
    | FinishRecovery
    | RecoveryFails(key: Key)
    | Pull(native: Native, waitsFor: Option<Key>)
    | PumpPuts
    | PumpReturns
    | Notes
    | PumpPosts
    | Wakes(key: Key)
    | Emits(key: Key, event: Event)
    | Puts(key: Key)
    | Returns(key: Key)
    | Fails(key: Key, reason: string)
    | Posts(key: Key)
    | Finishes(key: Key)
    | CancelExperts
    | Get
    | Resume
    | Close

  predicate Is(s: State, key: Key, task: Task) { key in s.calls && s.calls[key] == task }

  predicate IsPutting(s: State, key: Key) { key in s.calls && s.calls[key].Putting? }

  predicate IsAcking(s: State, key: Key) { key in s.calls && s.calls[key].Acking? }

  /** Trigger items that the native stream has handed out. */
  predicate Triggered(s: State, key: Key) { exists e <- s.items :: e.trigger == Some(key) }

  predicate Enabled(s: State, l: Label) {
    !s.consumer.Over? &&
    match l
    case FinishRecovery => s.pump == Recovering && forall k <- s.calls :: s.calls[k] == Finished
    case RecoveryFails(key) => key in s.recovery && Is(s, key, Working)
    case Pull(native, waitsFor) =>
      // the native side may wait for a call whose trigger item it has handed out
      && s.pump == Pulling && (s.native.Some? ==> Is(s, s.native.value, Finished))
      && (waitsFor.Some? ==> waitsFor.value in s.calls && Triggered(s, waitsFor.value))
    case PumpPuts => s.pump.PumpPutting? && s.slot.None?
    case PumpReturns => s.pump.PumpAcking? && Pump in s.acked
    case Notes => s.pump.Noting?
    case PumpPosts => s.pump.PumpPosting? && s.slot.None?
    case Wakes(key) => Is(s, key, Waiting) && key in s.triggers
    case Emits(key, _) => Is(s, key, Working)
    case Puts(key) => IsPutting(s, key) && s.slot.None?
    case Returns(key) => IsAcking(s, key) && Call(key) in s.acked
    case Fails(key, _) => Is(s, key, Working) && key !in s.recovery
    case Posts(key) => key in s.calls && s.calls[key].Posting? && s.slot.None?
    case Finishes(key) => Is(s, key, Working)
    case CancelExperts => true
    case Get => s.consumer == Idle && s.slot.Some?
    case Resume => s.consumer.Holding?
    case Close => true
  }

  function Cancelled(calls: map<Key, Task>): map<Key, Task> { map k | k in calls :: Finished }

  function Pulled(s: State, native: Native): State {
    match native
    case Item(e) => s.(pump := PumpPutting(e), issued := s.issued + [(Pump, e)], items := s.items + [e])
    case ToolCall(key) =>
      if key in s.calls then s else s.(calls := s.calls[key := Waiting], created := s.created + [key])
    case ToolCancel => s.(calls := Cancelled(s.calls), pump := PumpPosting(Some("A2A_CODEX_EXPERT_TIMEOUT")))
    case Invalid => s.(pump := PumpPosting(Some("A2A_CODEX_INTERNAL_EVENT_INVALID")))
    case NativeEnd => s.(pump := PumpPosting(None))
    case NativeFailure => s.(pump := PumpPosting(Some("native")))
  }

  function Next(s: State, l: Label): State
    requires Enabled(s, l)
  {
    match l
    case FinishRecovery => s.(pump := Pulling)
    case RecoveryFails(key) =>
      s.(calls := s.calls[key := Finished],
         pump := if s.pump == Recovering then PumpPosting(Some("recovery")) else s.pump)
    case Pull(native, waitsFor) => Pulled(s.(pulls := s.pulls + 1, native := waitsFor), native)
    case PumpPuts => s.(slot := Some(Emitted(Pump, s.pump.event)), pump := PumpAcking(s.pump.event))
    case PumpReturns =>
      s.(acked := s.acked - {Pump}, returned := s.returned + [(Pump, s.pump.event)],
         pump := if s.pump.event.trigger.Some? then Noting(s.pump.event.trigger.value) else Pulling)
    case Notes => s.(triggers := s.triggers + {s.pump.key}, pump := Pulling)
    case PumpPosts =>
      s.(slot := Some(if s.pump.failure.Some? then Failure(s.pump.failure.value) else End), pump := Stopped)
    case Wakes(key) => s.(calls := s.calls[key := Working], begun := s.begun + [key])
    case Emits(key, e) => s.(calls := s.calls[key := Putting(e)], issued := s.issued + [(Call(key), e)])
    case Puts(key) =>
      s.(slot := Some(Emitted(Call(key), s.calls[key].event)), calls := s.calls[key := Acking(s.calls[key].event)])
    case Returns(key) =>
      s.(acked := s.acked - {Call(key)}, returned := s.returned + [(Call(key), s.calls[key].event)],
         calls := s.calls[key := Working])
    case Fails(key, reason) => s.(calls := s.calls[key := Posting(reason)])
    case Posts(key) => s.(slot := Some(Failure(s.calls[key].reason)), calls := s.calls[key := Finished])
    case Finishes(key) => s.(calls := s.calls[key := Finished])
    case CancelExperts =>
      s.(calls := Cancelled(s.calls),
         pump := if s.pump == Recovering && exists k <- s.calls :: s.calls[k] != Finished then PumpPosting(Some("CodexRecoveryCancelled")) else s.pump)
    case Get =>
      (match s.slot.value
       case Emitted(p, e) => s.(slot := None, consumer := Holding(p, e))
       case Failure(_) => s.(slot := None, consumer := Over(false))
       case End => s.(slot := None, consumer := Over(true)))
    case Resume =>
      s.(consumer := Idle, acked := s.acked + {s.consumer.producer},
         consumed := s.consumed + [(s.consumer.producer, s.consumer.event)])
    case Close => s.(slot := None, consumer := Over(false), pump := Stopped, calls := Cancelled(s.calls))
  }

  /** The state after a run, or None when some step was not enabled. */
  ghost function Exec(recovery: set<Key>, run: seq<Label>): Option<State> {
    if run == [] then Some(Init(recovery))
    else
      var before := Exec(recovery, run[..|run| - 1]);
      var l := run[|run| - 1];
      if before.Some? && Enabled(before.value, l) then Some(Next(before.value, l)) else None
  }

  ghost predicate Reaches(recovery: set<Key>, run: seq<Label>, s: State) { Exec(recovery, run) == Some(s) }

  // ----------------------------------------------------------- order of one producer

  function Of(log: Log, p: Producer): seq<Event> {
    if log == [] then []
    else Of(log[..|log| - 1], p) + (if log[|log| - 1].0 == p then [log[|log| - 1].1] else [])
  }

  lemma OfMore(log: Log, q: Producer, e: Event, p: Producer)
    ensures Of(log + [(q, e)], p) == Of(log, p) + (if q == p then [e] else [])
  {
    assert (log + [(q, e)])[..|log|] == log;
  }

  lemma {:induction false} OfMember(log: Log, p: Producer, e: Event)
    ensures e in Of(log, p) <==> (p, e) in log
  {
    if log != [] {
      assert log == log[..|log| - 1] + [log[|log| - 1]];
      OfMember(log[..|log| - 1], p, e);
    }
  }

  /** The producer's events that are in the queue or with the consumer. */
  function InFlight(s: State, p: Producer): seq<Event> {
    (if s.consumer.Holding? && s.consumer.producer == p then [s.consumer.event] else [])
    + (if s.slot.Some? && s.slot.value.Emitted? && s.slot.value.producer == p then [s.slot.value.event] else [])
  }

  /** The task has ended or was cancelled. */
  predicate Gone(s: State, p: Producer) { if p.Pump? then s.pump == Stopped else Is(s, p.key, Finished) }

  /** The task does not exist yet. */
  predicate Unborn(s: State, p: Producer) { p.Call? && p.key !in s.calls }

  function Wanted(s: State, p: Producer): seq<Event> {
    match p
    case Pump => if s.pump.PumpPutting? then [s.pump.event] else []
    case Call(key) => if IsPutting(s, key) then [s.calls[key].event] else []
  }

  function Awaited(s: State, p: Producer): Option<Event> {
    match p
    case Pump => if s.pump.PumpAcking? then Some(s.pump.event) else None
    case Call(key) => if IsAcking(s, key) then Some(s.calls[key].event) else None
  }

  /** Events of one producer are consumed in the order in which it emitted them, and its
      `emit` returns exactly when its event has been consumed. */
  predicate Ordered(s: State, p: Producer) {
    var issued, consumed, returned := Of(s.issued, p), Of(s.consumed, p), Of(s.returned, p);
    if Unborn(s, p) then
      issued == consumed == returned == [] && InFlight(s, p) == [] && p !in s.acked
    else if Gone(s, p) then
      consumed + InFlight(s, p) <= issued && returned <= consumed
    else
      && issued == consumed + InFlight(s, p) + Wanted(s, p)
      && (match Awaited(s, p)
          case None => InFlight(s, p) == [] && p !in s.acked && returned == consumed
          case Some(e) =>
            if p in s.acked then InFlight(s, p) == [] && consumed == returned + [e]
            else InFlight(s, p) == [e] && consumed == returned)
  }

  lemma OrderedGet(s: State, p: Producer)
    requires Ordered(s, p) && Enabled(s, Get)
    ensures Ordered(Next(s, Get), p)
  {
    hide Of;
    if s.slot.value.Emitted? && s.slot.value.producer == p { assert [] + [s.slot.value.event] == [s.slot.value.event] + []; }
    assert InFlight(Next(s, Get), p) == InFlight(s, p);
  }

  lemma OrderedResume(s: State, p: Producer)
    requires Ordered(s, p) && Enabled(s, Resume)
    ensures Ordered(Next(s, Resume), p)
  {
    hide Of;
    var q, e := s.consumer.producer, s.consumer.event;
    var s' := Next(s, Resume);
    OfMore(s.consumed, q, e, p);
    if q == p {
      assert InFlight(s, p) == [e] + InFlight(s', p);
      assert Of(s.consumed, p) + InFlight(s, p) == Of(s'.consumed, p) + InFlight(s', p);
      assert Of(s.consumed, p) <= Of(s'.consumed, p);
    } else {
      assert InFlight(s, p) == InFlight(s', p);
    }
  }

  /** Putting, emitting and returning, for the producer that does it. */
  lemma OrderedOwn(s: State, l: Label, p: Producer)
    requires Ordered(s, p) && Enabled(s, l)
    requires match p
             case Pump => l.PumpPuts? || l.PumpReturns? || (l.Pull? && l.native.Item?)
             case Call(key) => (l.Emits? || l.Puts? || l.Returns?) && l.key == key
    ensures Ordered(Next(s, l), p)
  {
    hide Of, Ordered;
    if p.Pump? { OrderedPump(s, l); } else { OrderedCall(s, l, p.key); }
  }

  lemma OrderedPump(s: State, l: Label)
    requires Ordered(s, Pump) && Enabled(s, l) && (l.PumpPuts? || l.PumpReturns? || (l.Pull? && l.native.Item?))
    ensures Ordered(Next(s, l), Pump)
  {
    hide Of;
    if l.Pull? { OfMore(s.issued, Pump, l.native.event, Pump); }
    if l.PumpReturns? { OfMore(s.returned, Pump, s.pump.event, Pump); }
    assert Of(s.consumed, Pump) + InFlight(s, Pump) + Wanted(s, Pump) == Of(s.consumed, Pump) + (InFlight(s, Pump) + Wanted(s, Pump));
  }

  lemma OrderedCall(s: State, l: Label, key: Key)
    requires Ordered(s, Call(key)) && Enabled(s, l) && (l.Emits? || l.Puts? || l.Returns?) && l.key == key
    ensures Ordered(Next(s, l), Call(key))
  {
    hide Of;
    var p := Call(key);
    if l.Emits? { OfMore(s.issued, p, l.event, p); }
    if l.Returns? { OfMore(s.returned, p, s.calls[key].event, p); }
    assert Of(s.consumed, p) + InFlight(s, p) + Wanted(s, p) == Of(s.consumed, p) + (InFlight(s, p) + Wanted(s, p));
  }

  predicate SameLogs(s: State, s': State, p: Producer) {
    Of(s'.issued, p) == Of(s.issued, p) && Of(s'.consumed, p) == Of(s.consumed, p) && Of(s'.returned, p) == Of(s.returned, p)
  }

  lemma OrderedEnds(s: State, s': State, p: Producer)
    requires Ordered(s, p) && !Unborn(s, p) && Gone(s', p) && SameLogs(s, s', p) && InFlight(s', p) <= InFlight(s, p)
    ensures Ordered(s', p)
  {
    hide Of;
    var flying, consumed := InFlight(s, p), Of(s.consumed, p);
    assert flying == InFlight(s', p) + flying[|InFlight(s', p)|..];
    assert consumed + flying == consumed + InFlight(s', p) + flying[|InFlight(s', p)|..];
  }

  lemma OrderedSame(s: State, s': State, p: Producer)
    requires Ordered(s, p) && SameLogs(s, s', p) && InFlight(s', p) == InFlight(s, p)
    requires Wanted(s', p) == Wanted(s, p) && Awaited(s', p) == Awaited(s, p) && (p in s'.acked <==> p in s.acked)
    requires Gone(s', p) == Gone(s, p) && (Unborn(s', p) ==> Unborn(s, p))
    ensures Ordered(s', p)
  {
    hide Of;
    if Unborn(s, p) && !Unborn(s', p) { assert Of(s.consumed, p) + InFlight(s, p) + Wanted(s, p) == []; }
  }

  lemma SameLogsRest(s: State, l: Label, p: Producer)
    requires Apart(s, l, p)
    ensures SameLogs(s, Next(s, l), p)
  {
    hide Of;
    if l.Pull? && l.native.Item? { OfMore(s.issued, Pump, l.native.event, p); }
    if l.Emits? { OfMore(s.issued, Call(l.key), l.event, p); }
    if l.PumpReturns? { OfMore(s.returned, Pump, s.pump.event, p); }
    if l.Returns? { OfMore(s.returned, Call(l.key), s.calls[l.key].event, p); }
  }

  predicate Ends(s: State, l: Label, p: Producer) {
    || l.Close?
    || (p.Pump? && l.PumpPosts?)
    || (p.Call? && (l.CancelExperts? || (l.Pull? && l.native.ToolCancel?)
                    || ((l.Finishes? || l.Posts? || l.RecoveryFails?) && l.key == p.key)))
  }

  /** The step is neither the producer's own nor the consumer's. */
  predicate Apart(s: State, l: Label, p: Producer) {
    && Enabled(s, l) && !l.Get? && !l.Resume?
    && match p
       case Pump => !l.PumpPuts? && !l.PumpReturns? && !(l.Pull? && l.native.Item?)
       case Call(key) => !((l.Emits? || l.Puts? || l.Returns?) && l.key == key)
  }

  lemma ApartKeeps(s: State, l: Label, p: Producer)
    requires Apart(s, l, p) && !Ends(s, l, p)
    ensures var s' := Next(s, l);
            && InFlight(s', p) == InFlight(s, p) && Wanted(s', p) == Wanted(s, p) && Awaited(s', p) == Awaited(s, p)
            && (p in s'.acked <==> p in s.acked) && Gone(s', p) == Gone(s, p) && (Unborn(s', p) ==> Unborn(s, p))
  {
    if p.Pump? { PumpKeeps(s, l); } else { CallKeeps(s, l, p); }
  }

  lemma PumpKeeps(s: State, l: Label)
    requires Apart(s, l, Pump) && !Ends(s, l, Pump)
    ensures var s' := Next(s, l);
            && InFlight(s', Pump) == InFlight(s, Pump) && Wanted(s', Pump) == Wanted(s, Pump) && Awaited(s', Pump) == Awaited(s, Pump)
            && (Pump in s'.acked <==> Pump in s.acked) && Gone(s', Pump) == Gone(s, Pump)
  {
  }

  lemma CallKeeps(s: State, l: Label, p: Producer)
    requires p.Call? && Apart(s, l, p) && !Ends(s, l, p)
    ensures var s' := Next(s, l);
            && InFlight(s', p) == InFlight(s, p) && Wanted(s', p) == Wanted(s, p) && Awaited(s', p) == Awaited(s, p)
            && (p in s'.acked <==> p in s.acked) && Gone(s', p) == Gone(s, p) && (Unborn(s', p) ==> Unborn(s, p))
  {
    hide Next, InFlight, Wanted, Awaited, Apart, Ends;
    CallKeepsQueue(s, l, p);
    CallKeepsTask(s, l, p);
  }

  lemma CallKeepsQueue(s: State, l: Label, p: Producer)
    requires p.Call? && Apart(s, l, p) && !Ends(s, l, p)
    ensures InFlight(Next(s, l), p) == InFlight(s, p) && (p in Next(s, l).acked <==> p in s.acked)
  {
  }

  lemma CallKeepsTask(s: State, l: Label, p: Producer)
    requires p.Call? && Apart(s, l, p) && !Ends(s, l, p)
    ensures var s' := Next(s, l);
            && Wanted(s', p) == Wanted(s, p) && Awaited(s', p) == Awaited(s, p)
            && Gone(s', p) == Gone(s, p) && (Unborn(s', p) ==> Unborn(s, p))
  {
  }

  lemma ApartEnds(s: State, l: Label, p: Producer)
    requires Apart(s, l, p) && Ends(s, l, p)
    ensures var s' := Next(s, l);
            && (Gone(s', p) || Unborn(s', p)) && (Unborn(s', p) <==> Unborn(s, p))
            && (InFlight(s', p) == InFlight(s, p) || InFlight(s', p) == []) && s'.acked == s.acked
  {
  }

  /** Every other step leaves the producer's events alone, or ends it. */
  lemma OrderedRest(s: State, l: Label, p: Producer)
    requires Ordered(s, p) && Apart(s, l, p)
    ensures Ordered(Next(s, l), p)
  {
    hide Of, Ordered, Next, InFlight, Wanted, Awaited;
    var s' := Next(s, l);
    SameLogsRest(s, l, p);
    if Ends(s, l, p) {
      ApartEnds(s, l, p);
      if Unborn(s', p) { UnbornStays(s, s', p); } else { OrderedEnds(s, s', p); }
    } else {
      ApartKeeps(s, l, p);
      OrderedSame(s, s', p);
    }
  }

  lemma UnbornStays(s: State, s': State, p: Producer)
    requires Ordered(s, p) && Unborn(s, p) && Unborn(s', p) && SameLogs(s, s', p)
    requires InFlight(s', p) <= InFlight(s, p) && s'.acked == s.acked
    ensures Ordered(s', p)
  {
    hide Of;
  }

  lemma OrderedStep(s: State, l: Label, p: Producer)
    requires Ordered(s, p) && Enabled(s, l)
    ensures Ordered(Next(s, l), p)
  {
    hide Of, Ordered, Enabled, Next;
    if l.Get? { OrderedGet(s, p); }
    else if l.Resume? { OrderedResume(s, p); }
    else if match p
            case Pump => l.PumpPuts? || l.PumpReturns? || (l.Pull? && l.native.Item?)
            case Call(key) => (l.Emits? || l.Puts? || l.Returns?) && l.key == key { OrderedOwn(s, l, p); }
    else { OrderedRest(s, l, p); }
  }

  // ------------------------------------------------------------ triggers and tasks

  /** The consumer has come back from the event that triggers the call. */
  predicate TriggerConsumed(s: State, key: Key) { exists e <- Of(s.consumed, Pump) :: e.trigger == Some(key) }

  /** What is noted as a trigger was consumed, and only such calls have started. */
  predicate Triggers(s: State) {
    && (forall k <- s.triggers :: TriggerConsumed(s, k))
    && (s.pump.Noting? ==> TriggerConsumed(s, s.pump.key))
    && (forall k <- s.begun :: TriggerConsumed(s, k))
  }

  /** Every call key has one task; a task that is no recovery waits until it is started. */
  predicate Tasks(s: State) {
    && NoRepeats(s.created) && (forall k <- s.created :: k in s.calls && k !in s.recovery)
    && (forall k <- s.calls :: k in s.recovery || k in s.created) && s.recovery <= s.calls.Keys
    && NoRepeats(s.begun) && (forall k <- s.begun :: k in s.created && s.calls[k] != Waiting)
    && (forall k <- s.calls :: k in s.recovery || k in s.begun || s.calls[k] in {Waiting, Finished})
    && (forall k <- s.recovery :: s.calls[k] != Waiting)
  }

  predicate Staged(s: State) {
    && (s.pump == Recovering ==> s.pulls == 0 && s.created == [])
    && (s.pulls > 0 || s.pump in {Pulling} || s.pump.PumpPutting? || s.pump.PumpAcking? || s.pump.Noting? ==>
          forall k <- s.recovery :: Is(s, k, Finished))
    && (s.pump == Stopped ==> s.consumer.Over? || (s.slot.Some? && !s.slot.value.Emitted?))
    && Of(s.issued, Pump) == s.items
    && (s.slot == Some(End) ==> s.pump == Stopped && !(s.consumer.Holding? && s.consumer.producer == Pump))
    && (s.slot == Some(End) || s.consumer == Over(true) ==> Of(s.consumed, Pump) == s.items)
  }

  /** A trigger item the native stream has handed out is on its way to the waiting call. */
  predicate OnItsWay(s: State, key: Key) {
    || key in s.triggers
    || ((s.pump.PumpPutting? || s.pump.PumpAcking?) && s.pump.event.trigger == Some(key))
    || s.pump == Noting(key) || s.pump.PumpPosting? || s.pump == Stopped
  }

  ghost predicate Awake(s: State) {
    && (forall k :: Triggered(s, k) ==> OnItsWay(s, k))
    && (s.native.Some? ==> s.native.value in s.calls && Triggered(s, s.native.value))
  }

  ghost predicate Inv(s: State) {
    (forall p :: Ordered(s, p)) && Triggers(s) && Tasks(s) && Staged(s) && Awake(s)
  }

  lemma ConsumedGrows(s: State, l: Label, key: Key)
    requires Enabled(s, l) && TriggerConsumed(s, key)
    ensures TriggerConsumed(Next(s, l), key)
  {
    hide Of;
    var e :| e in Of(s.consumed, Pump) && e.trigger == Some(key);
    if l.Resume? { OfMore(s.consumed, s.consumer.producer, s.consumer.event, Pump); }
    assert e in Of(Next(s, l).consumed, Pump);
  }

  /** The pump notes a trigger only after its event was consumed. */
  lemma NotingIsConsumed(s: State)
    requires Ordered(s, Pump) && Enabled(s, PumpReturns) && s.pump.event.trigger.Some?
    ensures TriggerConsumed(s, s.pump.event.trigger.value)
  {
    hide Of;
    assert Of(s.consumed, Pump) == Of(s.returned, Pump) + [s.pump.event];
    assert s.pump.event in Of(s.consumed, Pump);
  }

  lemma TriggersStep(s: State, l: Label)
    requires Ordered(s, Pump) && Triggers(s) && Enabled(s, l)
    ensures Triggers(Next(s, l))
  {
    hide Of, TriggerConsumed, Ordered;
    var s' := Next(s, l);
    forall k | TriggerConsumed(s, k) ensures TriggerConsumed(s', k) { ConsumedGrows(s, l, k); }
    if l.PumpReturns? && s.pump.event.trigger.Some? { NotingIsConsumed(s); }
  }

  lemma TasksStep(s: State, l: Label)
    requires Tasks(s) && Enabled(s, l)
    ensures Tasks(Next(s, l))
  {
    if l.Wakes? { TasksWake(s, l.key); }
    else if l.Pull? && l.native.ToolCall? { TasksCreate(s, l); }
    else if l.CancelExperts? || l.Close? || (l.Pull? && l.native.ToolCancel?) { TasksCancel(s, l); }
    else { TasksRest(s, l); }
  }

  lemma TasksWake(s: State, key: Key)
    requires Tasks(s) && Enabled(s, Wakes(key))
    ensures Tasks(Next(s, Wakes(key)))
  {
    assert key !in s.begun;
  }

  lemma TasksCreate(s: State, l: Label)
    requires Tasks(s) && Enabled(s, l) && l.Pull? && l.native.ToolCall?
    ensures Tasks(Next(s, l))
  {
  }

  lemma TasksCancel(s: State, l: Label)
    requires Tasks(s) && Enabled(s, l) && (l.CancelExperts? || l.Close? || (l.Pull? && l.native.ToolCancel?))
    ensures Tasks(Next(s, l))
  {
  }

  lemma TasksRest(s: State, l: Label)
    requires Tasks(s) && Enabled(s, l) && !l.Wakes? && !l.CancelExperts? && !l.Close?
    requires l.Pull? ==> !l.native.ToolCall? && !l.native.ToolCancel?
    ensures Tasks(Next(s, l))
  {
    var s' := Next(s, l);
    assert s'.created == s.created && s'.begun == s.begun && s'.recovery == s.recovery && s'.calls.Keys == s.calls.Keys;
    assert forall k <- s.calls :: s'.calls[k] == s.calls[k] || (s.calls[k] !in {Waiting, Finished} && s'.calls[k] != Waiting);
  }

  lemma StagedStep(s: State, l: Label)
    requires Ordered(s, Pump) && Tasks(s) && Staged(s) && Enabled(s, l)
    ensures Staged(Next(s, l))
  {
    hide Of, Tasks, Ordered;
    if l.Pull? && l.native.Item? { OfMore(s.issued, Pump, l.native.event, Pump); }
    if l.Emits? { OfMore(s.issued, Call(l.key), l.event, Pump); }
    if l.PumpPosts? { AllConsumed(s); }
    if l.Resume? { OfMore(s.consumed, s.consumer.producer, s.consumer.event, Pump); }
    RecoveredStay(s, l);
    RecoveryHasTasks(s);
  }

  lemma RecoveryHasTasks(s: State)
    requires Tasks(s)
    ensures s.recovery <= s.calls.Keys
  {
  }

  /** Finished calls stay finished. */
  lemma RecoveredStay(s: State, l: Label)
    requires Enabled(s, l)
    ensures forall k :: Is(s, k, Finished) ==> Is(Next(s, l), k, Finished)
  {
  }

  /** Before its last message the pump has nothing under way. */
  lemma AllConsumed(s: State)
    requires Ordered(s, Pump) && s.pump.PumpPosting?
    ensures Of(s.consumed, Pump) == Of(s.issued, Pump) && InFlight(s, Pump) == []
  {
    hide Of;
    assert Of(s.consumed, Pump) + [] + [] == Of(s.consumed, Pump);
  }

  lemma AwakeStep(s: State, l: Label)
    requires Awake(s) && Enabled(s, l)
    ensures Awake(Next(s, l))
  {
    var s' := Next(s, l);
    forall k | Triggered(s', k) ensures OnItsWay(s', k) {
      if Triggered(s, k) { assert OnItsWay(s, k); }
    }
    if l.Pull? && l.waitsFor.Some? {
      var e :| e in s.items && e.trigger == l.waitsFor;
      assert e in s'.items;
    } else if s'.native.Some? {
      var e :| e in s.items && e.trigger == s.native;
      assert e in s'.items;
    }
  }

  lemma InitIsFine(recovery: set<Key>)
    ensures Inv(Init(recovery))
  {
  }

  lemma {:induction false} RunKeepsInv(recovery: set<Key>, run: seq<Label>, s: State)
    requires Reaches(recovery, run, s)
    ensures Inv(s)
  {
    hide Ordered, Triggers, Tasks, Staged, Awake, Enabled, Next;
    if run == [] {
      InitIsFine(recovery);
    } else {
      var before := Exec(recovery, run[..|run| - 1]).value;
      var l := run[|run| - 1];
      RunKeepsInv(recovery, run[..|run| - 1], before);
      forall p ensures Ordered(s, p) { OrderedStep(before, l, p); }
      TriggersStep(before, l);
      TasksStep(before, l);
      StagedStep(before, l);
      AwakeStep(before, l);
    }
  }

  // ----------------------------------------------------------------- the guarantees

  /** In every interleaving: each `emit` that has returned had its event consumed, and the
      events of one producer are consumed in the order it emitted them. */
  lemma EmitsReturnInOrder(recovery: set<Key>, run: seq<Label>, s: State, p: Producer)
    requires Reaches(recovery, run, s)
    ensures Of(s.returned, p) <= Of(s.consumed, p) <= Of(s.issued, p)
    ensures |Of(s.consumed, p)| <= |Of(s.returned, p)| + 1 || Gone(s, p)
  {
    hide Of;
    RunKeepsInv(recovery, run, s);
    assert Ordered(s, p);
    var consumed, flying, wanted := Of(s.consumed, p), InFlight(s, p), Wanted(s, p);
    assert consumed + flying + wanted == consumed + (flying + wanted);
    assert consumed <= consumed + (flying + wanted);
    assert consumed <= consumed + flying;
  }

  /** No expert call starts before its trigger event was consumed, and none starts twice. */
  lemma CallsStartBehindTheirTriggers(recovery: set<Key>, run: seq<Label>, s: State)
    requires Reaches(recovery, run, s)
    ensures forall k <- s.begun :: exists e :: (Pump, e) in s.consumed && e.trigger == Some(k)
    ensures NoRepeats(s.begun) && NoRepeats(s.created)
    ensures forall k <- s.created :: k !in recovery
  {
    RunKeepsInv(recovery, run, s);
    RecoveryStays(recovery, run, s);
    forall k | k in s.begun ensures exists e :: (Pump, e) in s.consumed && e.trigger == Some(k) {
      assert TriggerConsumed(s, k);
      var e :| e in Of(s.consumed, Pump) && e.trigger == Some(k);
      OfMember(s.consumed, Pump, e);
      assert (Pump, e) in s.consumed;
    }
  }

  lemma {:induction false} RecoveryStays(recovery: set<Key>, run: seq<Label>, s: State)
    requires Reaches(recovery, run, s)
    ensures s.recovery == recovery
  {
    hide Enabled;
    if run != [] { RecoveryStays(recovery, run[..|run| - 1], Exec(recovery, run[..|run| - 1]).value); }
  }

  /** Only recovered calls and calls that have started ever emit. */
  lemma {:induction false} OnlyStartedCallsEmit(recovery: set<Key>, run: seq<Label>, s: State, key: Key)
    requires Reaches(recovery, run, s) && Of(s.issued, Call(key)) != []
    ensures key in recovery || key in s.begun
  {
    hide Of;
    if run == [] {
      assert s.issued == [];
      NothingIn(Call(key));
    } else {
      var before := Exec(recovery, run[..|run| - 1]).value;
      var l := run[|run| - 1];
      if l.Emits? && l.key == key {
        RunKeepsInv(recovery, run[..|run| - 1], before);
        RecoveryStays(recovery, run[..|run| - 1], before);
      } else {
        if l.Emits? { OfMore(before.issued, Call(l.key), l.event, Call(key)); }
        if l.Pull? && l.native.Item? { OfMore(before.issued, Pump, l.native.event, Call(key)); }
        OnlyStartedCallsEmit(recovery, run[..|run| - 1], before, key);
        if key !in recovery { BegunGrows(before, l, key); }
      }
    }
  }

  lemma NothingIn(p: Producer)
    ensures Of([], p) == []
  {
  }

  lemma BegunGrows(s: State, l: Label, key: Key)
    requires Enabled(s, l) && key in s.begun
    ensures key in Next(s, l).begun
  {
  }

  /** The native stream is not pulled until every recovered call is over. */
  lemma RecoveryComesFirst(recovery: set<Key>, run: seq<Label>, s: State)
    requires Reaches(recovery, run, s) && s.pulls > 0
    ensures forall k <- recovery :: Is(s, k, Finished)
  {
    RunKeepsInv(recovery, run, s);
    RecoveryStays(recovery, run, s);
  }

  /** A stream that ends normally has handed on every native event, in native order. */
  lemma EndMeansEverythingNative(recovery: set<Key>, run: seq<Label>, s: State)
    requires Reaches(recovery, run, s) && s.consumer == Over(true)
    ensures Of(s.consumed, Pump) == s.items
  {
    RunKeepsInv(recovery, run, s);
  }

  // ---------------------------------------------------------------------- progress

  /** A task's own next step. */
  function StepOf(s: State, key: Key): Label
    requires key in s.calls
  {
    match s.calls[key]
    case Waiting => Wakes(key)
    case Working => Finishes(key)
    case Putting(_) => Puts(key)
    case Acking(_) => Returns(key)
    case Posting(_) => Posts(key)
    case Finished => Finishes(key)
  }

  lemma CallCanStep(s: State, key: Key)
    requires Ordered(s, Call(key)) && key in s.calls && s.calls[key] != Finished
    requires s.slot.None? && s.consumer == Idle && (s.calls[key] == Waiting ==> key in s.triggers)
    ensures Enabled(s, StepOf(s, key))
  {
    hide Of;
    if s.calls[key].Acking? { assert InFlight(s, Call(key)) == []; }
  }

  /** Until the stream is over somebody can always go on: the consumer, the pump, or a task
      that the pump or the native side waits for. No cancellation and no closing is needed. */
  lemma NeverStuck(recovery: set<Key>, run: seq<Label>, s: State) returns (l: Label)
    requires Reaches(recovery, run, s) && !s.consumer.Over?
    ensures Enabled(s, l) && !l.CancelExperts? && !l.Close?
  {
    hide Of;
    RunKeepsInv(recovery, run, s);
    if s.consumer.Holding? { return Resume; }
    if s.slot.Some? { return Get; }
    match s.pump
    case Recovering =>
      if k :| k in s.calls && s.calls[k] != Finished {
        assert Ordered(s, Call(k));
        CallCanStep(s, k);
        l := StepOf(s, k);
      } else {
        l := FinishRecovery;
      }
    case Pulling =>
      if s.native.Some? && s.calls[s.native.value] != Finished {
        var k := s.native.value;
        assert OnItsWay(s, k) && Ordered(s, Call(k));
        CallCanStep(s, k);
        l := StepOf(s, k);
      } else {
        l := Pull(NativeEnd, None);
      }
    case PumpPutting(_) => l := PumpPuts;
    case PumpAcking(_) =>
      assert Ordered(s, Pump) && InFlight(s, Pump) == [];
      l := PumpReturns;
    case Noting(_) => l := Notes;
    case PumpPosting(_) => l := PumpPosts;
    case Stopped => l := Get;
  }
}
