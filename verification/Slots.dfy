/** The concurrency limit: the poller and the handler goroutines share a semaphore, and
    every act of theirs interleaves freely with the others and with the rest of the world. */
module Slots {
  import opened Wrappers
  import opened ZSets
  import opened Scripts
  import opened Runs

  /** Asking: the poller holds a slot and its dequeue is under way. */
  datatype Poller = Between | Asking | Stopped

  /** A goroutine in processJob, and one that has given its slot back but not yet signalled
      the wait group. */
  datatype Phase = Processing | Released
  datatype Handler = Handler(q: QName, id: Id, phase: Phase)

  /** sem: messages in the channel. waiting: the wait group's count of handlers. handed: all
      jobs ever given to a handler. */
  datatype World = World(
    s: Store, sem: nat, poller: Poller, handlers: map<nat, Handler>, waiting: nat, handed: seq<(QName, Id)>)

  datatype Act =
    | Acquire
    | Ask(q: QName, now: int)
    | AskFails
    | Quit
    | Return(h: nat)
    | Signal(h: nat)
    | Others(e: Event)

  /** A send blocks while the channel is full. */
  predicate Ready(capacity: nat, w: World, a: Act) {
    match a
    case Acquire => w.poller.Between? && w.sem < capacity
    case Ask(_, _) => w.poller.Asking?
    case AskFails => w.poller.Asking?
    case Quit => w.poller.Between?
    case Return(h) => h in w.handlers && w.handlers[h].phase.Processing?
    case Signal(h) => h in w.handlers && w.handlers[h].phase.Released?
    case Others(_) => true
  }

  /** A receive takes one message out. */
  function Drained(sem: nat): nat {
    if sem == 0 then 0 else sem - 1
  }

  function Step(w: World, a: Act): World {
    match a
    case Acquire => w.(sem := w.sem + 1, poller := Asking)
    case Ask(q, now) =>
      (match Head(w.s, q)
       case None => w.(sem := Drained(w.sem), poller := Between)
       case Some(id) =>
         w.(s := Dequeue(w.s, q, now), poller := Between, waiting := w.waiting + 1, handed := w.handed + [(q, id)],
            handlers := w.handlers[|w.handed| := Handler(q, id, Processing)]))
    case AskFails => w.(sem := Drained(w.sem), poller := Between)
    case Quit => w.(poller := Stopped)
    case Return(h) =>
      if h !in w.handlers then w
      else w.(sem := Drained(w.sem), handlers := w.handlers[h := w.handlers[h].(phase := Released)])
    case Signal(h) => w.(waiting := if w.waiting == 0 then 0 else w.waiting - 1, handlers := w.handlers - {h})
    case Others(e) => w.(s := Apply(w.s, e))
  }

  function After(capacity: nat, w: World, acts: seq<Act>): World {
    if acts == [] then w
    else
      var u, a := After(capacity, w, acts[..|acts| - 1]), acts[|acts| - 1];
      if Ready(capacity, u, a) then Step(u, a) else u
  }

  function Start(s: Store): World {
    World(s, 0, Between, map[], 0, [])
  }

  /** The handlers in processJob. */
  function Busy(w: World): set<nat> {
    BusyIn(w.handlers)
  }

  function BusyIn(handlers: map<nat, Handler>): set<nat> {
    set h | h in handlers && handlers[h].phase.Processing?
  }

  function PollersSlot(w: World): nat {
    if w.poller.Asking? then 1 else 0
  }

  ghost predicate Inv(capacity: nat, w: World) {
    && w.sem == |Busy(w)| + PollersSlot(w) && w.sem <= capacity
    && w.waiting == |w.handlers|
    && (forall h | h in w.handlers :: h < |w.handed| && w.handed[h] == (w.handlers[h].q, w.handlers[h].id))
  }

  lemma SpawnInv(capacity: nat, w: World, q: QName, now: int)
    requires Inv(capacity, w) && w.poller.Asking? && Head(w.s, q).Some?
    ensures Inv(capacity, Step(w, Ask(q, now)))
  {
    SpawnSizes(w, q, now);
    var v := Step(w, Ask(q, now));
    forall h | h in v.handlers ensures h < |v.handed| && v.handed[h] == (v.handlers[h].q, v.handlers[h].id) {
      assert h == |w.handed| || h in w.handlers;
    }
  }

  lemma SpawnSizes(w: World, q: QName, now: int)
    requires Head(w.s, q).Some? && forall h | h in w.handlers :: h < |w.handed|
    ensures var v := Step(w, Ask(q, now)); |Busy(v)| == |Busy(w)| + 1 && |v.handlers| == |w.handlers| + 1
  {
    OneMoreBusy(w.handlers, |w.handed|, Handler(q, Head(w.s, q).value, Processing));
  }

  lemma OneMoreBusy(handlers: map<nat, Handler>, n: nat, h: Handler)
    requires n !in handlers && h.phase.Processing?
    ensures |BusyIn(handlers[n := h])| == |BusyIn(handlers)| + 1 && |handlers[n := h]| == |handlers| + 1
  {
    assert BusyIn(handlers[n := h]) == BusyIn(handlers) + {n};
    assert handlers[n := h].Keys == handlers.Keys + {n};
  }

  lemma ReturnInv(capacity: nat, w: World, h: nat)
    requires Inv(capacity, w) && Ready(capacity, w, Return(h))
    ensures Inv(capacity, Step(w, Return(h)))
    ensures Busy(Step(w, Return(h))) == Busy(w) - {h}
  {
    var v := Step(w, Return(h));
    assert h in Busy(w) && Busy(v) == Busy(w) - {h};
    assert v.handlers.Keys == w.handlers.Keys;
  }

  lemma SignalInv(capacity: nat, w: World, h: nat)
    requires Inv(capacity, w) && Ready(capacity, w, Signal(h))
    ensures Inv(capacity, Step(w, Signal(h)))
  {
    var v := Step(w, Signal(h));
    assert Busy(v) == Busy(w);
    assert v.handlers.Keys == w.handlers.Keys - {h} && h in w.handlers.Keys;
  }

  lemma StepInv(capacity: nat, w: World, a: Act)
    requires Inv(capacity, w) && Ready(capacity, w, a)
    ensures Inv(capacity, Step(w, a))
  {
    match a
    case Ask(q, now) =>
      if Head(w.s, q).Some? { SpawnInv(capacity, w, q, now); } else { assert Busy(Step(w, a)) == Busy(w); }
    case Return(h) => ReturnInv(capacity, w, h);
    case Signal(h) => SignalInv(capacity, w, h);
    case Acquire => assert Busy(Step(w, a)) == Busy(w);
    case AskFails => assert Busy(Step(w, a)) == Busy(w);
    case Quit => assert Busy(Step(w, a)) == Busy(w);
    case Others(_) => assert Busy(Step(w, a)) == Busy(w);
  }

  lemma {:induction false} RunInv(capacity: nat, s: Store, acts: seq<Act>)
    ensures Inv(capacity, After(capacity, Start(s), acts))
  {
    if acts == [] {
      assert Busy(Start(s)) == {};
    } else {
      RunInv(capacity, s, acts[..|acts| - 1]);
      var u, a := After(capacity, Start(s), acts[..|acts| - 1]), acts[|acts| - 1];
      if Ready(capacity, u, a) { StepInv(capacity, u, a); }
    }
  }

  /** Main result: under any interleaving the slots taken are those of the busy handlers and
      the poller's own, so no more handlers than the concurrency are ever busy; a poller that
      wants a slot waits exactly while that many are; and the wait group counts the handlers
      that have not signalled. */
  lemma SlotsAreExact(capacity: nat, s: Store, acts: seq<Act>)
    ensures var w := After(capacity, Start(s), acts);
            && w.sem == |Busy(w)| + PollersSlot(w)
            && |Busy(w)| + PollersSlot(w) <= capacity
            && (w.poller.Between? ==> (Ready(capacity, w, Acquire) <==> |Busy(w)| < capacity))
            && w.waiting == |w.handlers|
            && forall h | h in w.handlers :: h < |w.handed| && w.handed[h] == (w.handlers[h].q, w.handlers[h].id)
  {
    RunInv(capacity, s, acts);
  }

  /** Main result: no slot leaks: while the poller holds none, as many returns as there are
      busy handlers empty the channel. */
  lemma {:induction false} SlotsComeBack(capacity: nat, s: Store, acts: seq<Act>) returns (more: seq<Act>)
    requires !After(capacity, Start(s), acts).poller.Asking?
    ensures var w := After(capacity, Start(s), acts);
            && |more| == |acts| + |Busy(w)| && acts <= more && (forall i | |acts| <= i < |more| :: more[i].Return?)
            && After(capacity, Start(s), more).sem == 0 && Busy(After(capacity, Start(s), more)) == {}
    decreases |Busy(After(capacity, Start(s), acts))|
  {
    var w := After(capacity, Start(s), acts);
    RunInv(capacity, s, acts);
    if Busy(w) == {} {
      more := acts;
    } else {
      var h :| h in Busy(w);
      ReturnInv(capacity, w, h);
      var next := acts + [Return(h)];
      assert next[..|acts|] == acts;
      more := SlotsComeBack(capacity, s, next);
    }
  }
}
