/** The worker pool of threadpool/c_threadpool.cxx: one message list, one mutex, one condition variable, any
    number of workers and producers.  One event is one critical section or one access outside it. */
module WorkerPool {
  import opened Common

  /** Messages are named by their position in the order in which they were put into the list. */
  datatype Item = Null | Message

  datatype WorkerPc =
    | Entering             // before the lock at the head of the loop, or woken and waiting for the lock
    | Waiting              // in pthread_cond_wait
    | Holding(k: nat)      // has taken message k, before m_iRunningThread is counted up
    | Running(k: nat)      // in ThreadRecvProc

  datatype State = State(
    workers: seq<WorkerPc>,
    queue: seq<nat>,          // m_msgqueue
    size: int,                // m_msgqueue_size
    running: int,             // m_iRunningThread
    signals: nat,             // producers that have not signalled yet
    pushed: seq<Item>,        // history: everything that was put into the list
    taken: seq<nat>,          // history: in the order of taking
    handled: set<nat>)        // history

  datatype Event =
    | Push(item: Item)        // InMsgRecv under the mutex
    | Signal(w: nat)          // Call; wakes w if a worker waits
    | Spurious(w: nat)        // a wait may end by itself
    | Enter(w: nat)           // from the lock to the next wait or unlock
    | Start(w: nat)
    | Finish(w: nat)

  predicate SomeWaiting(s: State) {
    exists w :: 0 <= w < |s.workers| && s.workers[w] == Waiting
  }

  predicate IsAt(s: State, w: nat, pc: WorkerPc) {
    w < |s.workers| && s.workers[w] == pc
  }

  ghost predicate WellFormed(s: State) {
    forall k | k in s.queue :: k < |s.pushed|
  }

  function PushStep(s: State, item: Item): State {
    s.(queue := s.queue + [|s.pushed|], size := s.size + 1, pushed := s.pushed + [item], signals := s.signals + 1)
  }

  /** pthread_cond_signal wakes a waiting thread, and is forgotten if there is none. */
  ghost function SignalStep(s: State, w: nat): State {
    if s.signals == 0 then s
    else if !SomeWaiting(s) then s.(signals := s.signals - 1)
    else if IsAt(s, w, Waiting) then s.(signals := s.signals - 1, workers := s.workers[w := Entering])
    else s
  }

  function SpuriousStep(s: State, w: nat): State {
    if IsAt(s, w, Waiting) then s.(workers := s.workers[w := Entering]) else s
  }

  /** The loop of ThreadFunc from the lock: wait while the list is empty, else get_msg_item. */
  function EnterStep(s: State, w: nat): State
    requires WellFormed(s)
  {
    if !IsAt(s, w, Entering) then s
    else if s.queue == [] then s.(workers := s.workers[w := Waiting])
    else
      var k := s.queue[0];
      assert k in s.queue;
      s.(queue := s.queue[1..], size := s.size - 1, taken := s.taken + [k],
         workers := s.workers[w := if s.pushed[k].Null? then Entering else Holding(k)])
  }

  function StartStep(s: State, w: nat): State {
    if w < |s.workers| && s.workers[w].Holding? then
      s.(running := s.running + 1, workers := s.workers[w := Running(s.workers[w].k)])
    else s
  }

  function FinishStep(s: State, w: nat): State {
    if w < |s.workers| && s.workers[w].Running? then
      s.(running := s.running - 1, handled := s.handled + {s.workers[w].k}, workers := s.workers[w := Entering])
    else s
  }

  ghost function Apply(s: State, ev: Event): State
    requires WellFormed(s)
  {
    match ev
    case Push(item) => PushStep(s, item)
    case Signal(w) => SignalStep(s, w)
    case Spurious(w) => SpuriousStep(s, w)
    case Enter(w) => EnterStep(s, w)
    case Start(w) => StartStep(s, w)
    case Finish(w) => FinishStep(s, w)
  }

  ghost function Run(s: State, evs: seq<Event>): State
    decreases |evs|
  {
    if evs == [] || !WellFormed(s) then s else Run(Apply(s, evs[0]), evs[1..])
  }

  function Initial(n: nat): State {
    State(seq(n, _ => Entering), [], 0, 0, 0, [], [], {})
  }

  // ---------- Invariant ----------

  datatype Kind = Awake | Busy

  predicate IsOf(pc: WorkerPc, kind: Kind) {
    if kind.Awake? then pc != Waiting else pc.Running?
  }

  /** The number of workers that are not waiting, or that are in ThreadRecvProc. */
  function Number(workers: seq<WorkerPc>, kind: Kind): nat {
    if workers == [] then 0 else (if IsOf(workers[0], kind) then 1 else 0) + Number(workers[1..], kind)
  }

  predicate Holds(s: State, w: nat, k: nat) {
    w < |s.workers| && (s.workers[w] == Holding(k) || s.workers[w] == Running(k))
  }

  /** Taken and queued messages, in this order, are the messages that were put into the list, in order. */
  predicate Fifo(s: State) {
    && |s.taken| + |s.queue| == |s.pushed| && s.size == |s.queue|
    && (forall k | 0 <= k < |s.taken| :: s.taken[k] == k)
    && (forall k | 0 <= k < |s.queue| :: s.queue[k] == |s.taken| + k)
  }

  /** A message that was taken is with exactly one worker or has been handled. */
  ghost predicate Kept(s: State) {
    && (forall k | k in s.handled :: k < |s.taken| <= |s.pushed| && s.pushed[k] == Message)
    && (forall w: nat, k: nat | Holds(s, w, k) ::
          k < |s.taken| <= |s.pushed| && s.pushed[k] == Message && k !in s.handled)
    && (forall v: nat, w: nat, k: nat | Holds(s, v, k) && Holds(s, w, k) :: v == w)
    && (forall k: nat | k < |s.taken| <= |s.pushed| && s.pushed[k] == Message && k !in s.handled ::
          exists w: nat :: Holds(s, w, k))
  }

  /** There are enough workers awake, or about to be woken, for the messages in the list. */
  ghost predicate Woken(s: State) {
    && Number(s.workers, Awake) + s.signals >= Min(|s.queue|, |s.workers|)
    && Number(s.workers, Busy) == s.running
  }

  ghost predicate Inv(s: State) {
    WellFormed(s) && Fifo(s) && Kept(s) && Woken(s)
  }

  // ---------- Numbers of workers ----------

  lemma {:induction false} NumberAfter(workers: seq<WorkerPc>, kind: Kind, w: nat, pc: WorkerPc)
    requires w < |workers|
    ensures Number(workers[w := pc], kind)
         == Number(workers, kind) - (if IsOf(workers[w], kind) then 1 else 0) + (if IsOf(pc, kind) then 1 else 0)
    decreases |workers|
  {
    if w == 0 {
      assert workers[0 := pc][1..] == workers[1..];
    } else {
      assert workers[w := pc][1..] == workers[1..][w - 1 := pc];
      NumberAfter(workers[1..], kind, w - 1, pc);
    }
  }

  lemma {:induction false} AllAwake(workers: seq<WorkerPc>)
    requires forall w | 0 <= w < |workers| :: workers[w] != Waiting
    ensures Number(workers, Awake) == |workers|
    decreases |workers|
  {
    if workers != [] {
      AllAwake(workers[1..]);
    }
  }

  lemma {:induction false} NoneOfThem(workers: seq<WorkerPc>, kind: Kind)
    requires forall w | 0 <= w < |workers| :: !IsOf(workers[w], kind)
    ensures Number(workers, kind) == 0
    decreases |workers|
  {
    if workers != [] {
      NoneOfThem(workers[1..], kind);
    }
  }

  // ---------- Preservation ----------

  lemma EventKeepsFifo(s: State, ev: Event)
    requires WellFormed(s) && Fifo(s)
    ensures WellFormed(Apply(s, ev)) && Fifo(Apply(s, ev))
  {
  }

  lemma EventKeepsWoken(s: State, ev: Event)
    requires WellFormed(s) && Woken(s)
    ensures Woken(Apply(s, ev))
  {
    match ev
    case Push(_) =>
    case Signal(w) =>
      if !SomeWaiting(s) {
        AllAwake(s.workers);
      } else if IsAt(s, w, Waiting) {
        NumberAfter(s.workers, Awake, w, Entering);
        NumberAfter(s.workers, Busy, w, Entering);
      }
    case Spurious(w) =>
      if w < |s.workers| {
        NumberAfter(s.workers, Awake, w, Entering);
        NumberAfter(s.workers, Busy, w, Entering);
      }
    case Enter(w) =>
      var t := EnterStep(s, w);
      if IsAt(s, w, Entering) {
        NumberAfter(s.workers, Awake, w, t.workers[w]);
        NumberAfter(s.workers, Busy, w, t.workers[w]);
      }
    case Start(w) =>
      if w < |s.workers| && s.workers[w].Holding? {
        NumberAfter(s.workers, Awake, w, Running(s.workers[w].k));
        NumberAfter(s.workers, Busy, w, Running(s.workers[w].k));
      }
    case Finish(w) =>
      if w < |s.workers| {
        NumberAfter(s.workers, Awake, w, Entering);
        NumberAfter(s.workers, Busy, w, Entering);
      }
  }

  /** Only the new owner of a message changes. */
  lemma EnterKeepsKept(s: State, w: nat)
    requires WellFormed(s) && Fifo(s) && Kept(s)
    ensures Kept(EnterStep(s, w))
  {
    var t := EnterStep(s, w);
    forall v: nat, k: nat | v != w ensures Holds(t, v, k) <==> Holds(s, v, k) {}
    forall k: nat | k < |t.taken| <= |t.pushed| && t.pushed[k] == Message && k !in t.handled
      ensures exists v: nat :: Holds(t, v, k)
    {
      if k < |s.taken| {
        var v: nat :| Holds(s, v, k);
        assert Holds(t, v, k);
      } else {
        assert Holds(t, w, k);
      }
    }
  }

  lemma FinishKeepsKept(s: State, w: nat)
    requires Kept(s)
    ensures Kept(FinishStep(s, w))
  {
    var t := FinishStep(s, w);
    if w < |s.workers| && s.workers[w].Running? {
      assert Holds(s, w, s.workers[w].k);
    }
    forall v: nat, k: nat | v != w ensures Holds(t, v, k) <==> Holds(s, v, k) {}
    forall k: nat | k < |t.taken| <= |t.pushed| && t.pushed[k] == Message && k !in t.handled
      ensures exists v: nat :: Holds(t, v, k)
    {
      var v: nat :| Holds(s, v, k);
      assert Holds(t, v, k);
    }
  }

  /** No message changes hands. */
  lemma SameOwners(s: State, t: State)
    requires Kept(s) && t.handled == s.handled && t.taken == s.taken && s.pushed <= t.pushed && |s.taken| <= |s.pushed|
    requires forall w: nat, k: nat :: Holds(t, w, k) <==> Holds(s, w, k)
    ensures Kept(t)
  {
    forall k: nat | k < |t.taken| <= |t.pushed| && t.pushed[k] == Message && k !in t.handled
      ensures exists v: nat :: Holds(t, v, k)
    {
      var v: nat :| Holds(s, v, k);
      assert Holds(t, v, k);
    }
  }

  lemma EventKeepsKept(s: State, ev: Event)
    requires WellFormed(s) && Fifo(s) && Kept(s)
    ensures Kept(Apply(s, ev))
  {
    match ev
    case Enter(w) => EnterKeepsKept(s, w);
    case Finish(w) => FinishKeepsKept(s, w);
    case _ => SameOwners(s, Apply(s, ev));
  }

  lemma InitialInv(n: nat)
    ensures Inv(Initial(n))
  {
    AllAwake(Initial(n).workers);
    NoneOfThem(Initial(n).workers, Busy);
  }

  lemma {:induction false} RunKeepsInv(s: State, evs: seq<Event>)
    requires Inv(s)
    ensures Inv(Run(s, evs))
    decreases |evs|
  {
    if evs != [] {
      EventKeepsInv(s, evs[0]);
      RunKeepsInv(Apply(s, evs[0]), evs[1..]);
    }
  }

  // ---------- In every run ----------

  ghost predicate Reachable(n: nat, s: State) {
    exists evs: seq<Event> :: Run(Initial(n), evs) == s
  }

  lemma ReachableInv(n: nat, s: State)
    requires Reachable(n, s)
    ensures Inv(s)
  {
    var evs :| Run(Initial(n), evs) == s;
    InitialInv(n);
    RunKeepsInv(Initial(n), evs);
  }

  /** Messages are taken in the order in which they were put into the list, and the counters are right. */
  lemma TakenInOrder(n: nat, s: State)
    requires Reachable(n, s)
    ensures s.taken + s.queue == seq(|s.pushed|, k => k)
    ensures s.size == |s.queue| && s.running == Number(s.workers, Busy)
  {
    ReachableInv(n, s);
  }

  /** Conservation: a message is in the list, or with exactly one worker, or handled, and only one of these;
      null messages are dropped. */
  lemma EachMessageIsInOnePlace(n: nat, s: State, k: nat)
    requires Reachable(n, s) && k < |s.pushed|
    ensures s.pushed[k] == Message ==> k in s.queue || k in s.handled || exists w: nat :: Holds(s, w, k)
    ensures k in s.queue ==> k !in s.handled && forall w: nat :: !Holds(s, w, k)
    ensures k in s.handled ==> forall w: nat :: !Holds(s, w, k)
    ensures forall v: nat, w: nat | Holds(s, v, k) && Holds(s, w, k) :: v == w
    ensures s.pushed[k] == Null ==> k !in s.handled && forall w: nat :: !Holds(s, w, k)
  {
    ReachableInv(n, s);
    if k >= |s.taken| {
      assert s.queue[k - |s.taken|] == k;
    }
  }

  /** No lost wake-up: while there are messages, either some worker is not waiting or a producer still has
      to signal; more exactly, the workers awake and the signals to come suffice for the messages. */
  lemma NoLostWakeUp(n: nat, s: State)
    requires Reachable(n, s)
    ensures Number(s.workers, Awake) + s.signals >= Min(|s.queue|, n)
    ensures n > 0 && s.queue != [] ==> s.signals > 0 || exists w :: 0 <= w < |s.workers| && s.workers[w] != Waiting
  {
    ReachableInv(n, s);
    SameNumber(n, s);
    if s.signals == 0 && n > 0 && s.queue != [] && forall w | 0 <= w < |s.workers| :: s.workers[w] == Waiting {
      NoneOfThem(s.workers, Awake);
    }
  }

  lemma SameNumber(n: nat, s: State)
    requires Reachable(n, s)
    ensures |s.workers| == n
  {
    var evs :| Run(Initial(n), evs) == s;
    RunSameNumber(Initial(n), evs);
  }

  lemma {:induction false} RunSameNumber(s: State, evs: seq<Event>)
    ensures |Run(s, evs).workers| == |s.workers|
    decreases |evs|
  {
    if evs != [] && WellFormed(s) {
      RunSameNumber(Apply(s, evs[0]), evs[1..]);
    }
  }

  // ---------- A worker that runs gets through the list ----------

  lemma RunCons(s: State, ev: Event, evs: seq<Event>)
    requires WellFormed(s)
    ensures Run(s, [ev] + evs) == Run(Apply(s, ev), evs)
  {
    assert ([ev] + evs)[1..] == evs;
  }

  /** Worker w handles the message that it has taken, and is counted as running meanwhile. */
  lemma MessageHandled(s: State, w: nat, k: nat)
    requires Inv(s) && IsAt(s, w, Holding(k))
    ensures var r := StartStep(s, w);
      && r.running == s.running + 1 && Inv(r)
      && var t := FinishStep(r, w);
        && Inv(t) && t.handled == s.handled + {k} && t.running == s.running && IsAt(t, w, Entering)
        && t.queue == s.queue && t.pushed == s.pushed
  {
    EventKeepsInv(s, Start(w));
    EventKeepsInv(StartStep(s, w), Finish(w));
  }

  lemma EventKeepsInv(s: State, ev: Event)
    requires Inv(s)
    ensures Inv(Apply(s, ev))
  {
    EventKeepsFifo(s, ev);
    EventKeepsKept(s, ev);
    EventKeepsWoken(s, ev);
  }

  /** Worker w takes the first message. */
  lemma MessageTaken(s: State, w: nat)
    requires Inv(s) && IsAt(s, w, Entering) && s.queue != []
    ensures var t, k := EnterStep(s, w), s.queue[0];
      && Inv(t) && t.queue == s.queue[1..] && t.pushed == s.pushed && t.handled == s.handled && k < |s.pushed|
      && IsAt(t, w, if s.pushed[k].Null? then Entering else Holding(k))
  {
    EventKeepsInv(s, Enter(w));
  }

  /** One turn of the loop of ThreadFunc, and what follows. */
  ghost function Turn(s: State, w: nat): seq<Event>
    requires WellFormed(s) && s.queue != []
  {
    assert s.queue[0] in s.queue;
    if s.pushed[s.queue[0]].Null? then [Enter(w)] else [Enter(w), Start(w), Finish(w)]
  }

  ghost function AfterTurn(s: State, w: nat): State
    requires WellFormed(s) && s.queue != []
  {
    assert s.queue[0] in s.queue;
    if s.pushed[s.queue[0]].Null? then EnterStep(s, w) else FinishStep(StartStep(EnterStep(s, w), w), w)
  }

  lemma TurnTaken(s: State, w: nat)
    requires Inv(s) && IsAt(s, w, Entering) && s.queue != []
    ensures s.queue[0] < |s.pushed|
    ensures var t := AfterTurn(s, w);
      && Inv(t) && IsAt(t, w, Entering) && t.queue == s.queue[1..] && t.pushed == s.pushed
      && t.handled == if s.pushed[s.queue[0]].Null? then s.handled else s.handled + {s.queue[0]}
  {
    MessageTaken(s, w);
    if !s.pushed[s.queue[0]].Null? {
      MessageHandled(EnterStep(s, w), w, s.queue[0]);
    }
  }

  lemma TurnRuns(s: State, w: nat, later: seq<Event>)
    requires Inv(s) && IsAt(s, w, Entering) && s.queue != []
    ensures Run(s, Turn(s, w) + later) == Run(AfterTurn(s, w), later)
  {
    MessageTaken(s, w);
    var r := EnterStep(s, w);
    if s.pushed[s.queue[0]].Null? {
      RunCons(s, Enter(w), later);
    } else {
      MessageHandled(r, w, s.queue[0]);
      RunCons(StartStep(r, w), Finish(w), later);
      RunCons(r, Start(w), [Finish(w)] + later);
      RunCons(s, Enter(w), [Start(w)] + ([Finish(w)] + later));
      assert Turn(s, w) + later == [Enter(w)] + ([Start(w)] + ([Finish(w)] + later));
    }
  }

  /** From any state of any run, one worker at the head of its loop can handle all messages in the list. */
  lemma {:induction false} DrainsTheList(s: State, w: nat) returns (evs: seq<Event>)
    requires Inv(s) && IsAt(s, w, Entering)
    ensures var t := Run(s, evs);
      && Inv(t) && t.queue == [] && t.pushed == s.pushed && s.handled <= t.handled
      && forall k | k in s.queue && k < |s.pushed| && s.pushed[k] == Message :: k in t.handled
    decreases |s.queue|
  {
    if s.queue == [] {
      evs := [];
    } else {
      TurnTaken(s, w);
      evs := DrainsTheList(AfterTurn(s, w), w);
      TurnRuns(s, w, evs);
      evs := Turn(s, w) + evs;
      assert s.queue == [s.queue[0]] + s.queue[1..];
    }
  }

  // ---------- The code ----------

  /** The numbers from `first` on. */
  function From(first: nat, count: nat): seq<nat> {
    seq(count, k => first + k)
  }

  /** The shared part of the pool.  Each method is one critical section. */
  class CThreadPool {
    var m_msgqueue: seq<Item>
    var m_msgqueue_size: int
    ghost var pushed: seq<Item>
    ghost var taken: nat

    ghost predicate Valid()
      reads this
    {
      taken <= |pushed| && m_msgqueue == pushed[taken..] && m_msgqueue_size == |m_msgqueue|
    }

    /** The pool, as seen by one worker about to enter. */
    ghost function View(): State
      reads this
    {
      State([Entering], From(taken, |m_msgqueue|), m_msgqueue_size, 0, 0, pushed, From(0, taken), {})
    }

    constructor ()
      ensures Valid() && View() == Initial(1)
    {
      m_msgqueue, m_msgqueue_size, pushed, taken := [], 0, [], 0;
      new;
      assert View().queue == [] && View().taken == [];
    }

    /** InMsgRecv up to the call of Call. */
    method InMsgRecv(msg: Item)
      requires Valid()
      modifies this
      ensures Valid() && View().(signals := 1) == PushStep(old(View()), msg)
    {
      m_msgqueue := m_msgqueue + [msg];
      m_msgqueue_size := m_msgqueue_size + 1;
      pushed := pushed + [msg];
      assert View().queue == old(View()).queue + [|old(pushed)|];
    }

    method GetMsgItem() returns (msg: Option<Item>)
      requires Valid()
      modifies this
      ensures Valid()
      ensures old(m_msgqueue) == [] ==> msg == None && View() == old(View())
      ensures old(m_msgqueue) != [] ==>
        msg == Some(old(pushed)[old(taken)]) && pushed == old(pushed) && taken == old(taken) + 1
    {
      if m_msgqueue == [] {
        return None;
      }
      msg := Some(m_msgqueue[0]);
      m_msgqueue := m_msgqueue[1..];
      m_msgqueue_size := m_msgqueue_size - 1;
      taken := taken + 1;
    }

    /** ThreadFunc from the lock to the wait or the unlock; a null message is dropped. */
    method ThreadTurn() returns (waits: bool, msg: Option<Item>)
      requires Valid()
      modifies this
      ensures Valid() && WellFormed(old(View()))
      ensures var pc := if waits then Waiting else if msg == None then Entering else Holding(old(taken));
        View().(workers := [pc]) == EnterStep(old(View()), 0)
      ensures msg.Some? ==> msg == Some(Message) && !waits
    {
      ghost var before := View();
      if |m_msgqueue| == 0 {
        return true, None;
      }
      msg := GetMsgItem();
      assert View().queue == before.queue[1..] && View().taken == before.taken + [old(taken)];
      assert before.queue[0] == old(taken) && old(m_msgqueue)[0] == pushed[old(taken)];
      if msg == None || msg == Some(Null) {
        return false, None;
      }
      waits := false;
    }
  }
}
