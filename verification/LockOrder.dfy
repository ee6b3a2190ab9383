/** The mutexes of the server.  Every operation of a thread is the list of the locks that it takes and gives
    back; any number of threads, each doing any operations one after the other. */
module LockOrder {
  import opened Common

  datatype Lock =
    | Timer            // m_timer_mutex
    | Conn(c: nat)     // conn_mutex of a connection
    | Send             // m_sendmutex
    | Recycle          // m_recymutex
    | Pool             // m_socketmutex
    | Workers          // m_pthreadMutex
  {
    /** The order in which locks are taken. */
    function Rank(): nat {
      match this
      case Timer => 0
      case Conn(_) => 1
      case Send => 2
      case Recycle => 3
      case Pool => 4
      case Workers => 5
    }
  }

  datatype Action = Take(l: Lock) | Give(l: Lock)

  // ---------- What the code does ----------

  datatype Check = Check(c: nat, kick: bool, ignored: bool)

  datatype Operation =
    | CloseAccepted(c: nat, ignored: bool)      // close_accepted_connection; ignored if already closed or marked
    | CloseConnection(c: nat)
    | GetItem                                   // get_connection_item
    | AddToTimer
    | RecyclerPass(frees: nat)
    | TimerPass(checks: seq<Check>)             // from GetOverTime to the unlock
    | SenderScan(mismatch: bool)
    | QueueMessage(overflow: bool)              // MsgSendInQueue
    | HandlePing(c: nat, overflow: bool)
    | HandleRegister(c: nat, overflow: bool)    // and _HandleLogin
    | WorkerQueue                               // InMsgRecv, or ThreadFunc between two waits

  function Close(c: nat, ignored: bool): seq<Action> {
    [Take(Conn(c))] + (if ignored then [] else [Take(Recycle), Give(Recycle)]) + [Give(Conn(c))]
  }

  /** On an overflow or a mismatch the function returns without unlocking. */
  function SendLocked(returnsEarly: bool): seq<Action> {
    if returnsEarly then [Take(Send)] else [Take(Send), Give(Send)]
  }

  /** free_connection_item for each recycled entry. */
  function Frees(n: nat): seq<Action> {
    if n == 0 then [] else [Take(Pool), Give(Pool)] + Frees(n - 1)
  }

  /** TimeCheckingProc, with TimeOutProc if the connection is kicked. */
  function CheckOne(k: Check): seq<Action> {
    [Take(Conn(k.c)), Give(Conn(k.c))] + if k.kick then Close(k.c, k.ignored) else []
  }

  function Checks(checks: seq<Check>): seq<Action> {
    if checks == [] then [] else CheckOne(checks[0]) + Checks(checks[1..])
  }

  function Actions(op: Operation): seq<Action> {
    match op
    case CloseAccepted(c, ignored) => Close(c, ignored)
    case CloseConnection(c) => [Take(Conn(c)), Take(Pool), Give(Pool), Give(Conn(c))]
    case GetItem => [Take(Pool), Give(Pool)]
    case AddToTimer => [Take(Timer), Give(Timer)]
    case RecyclerPass(frees) => [Take(Recycle)] + Frees(frees) + [Give(Recycle)]
    case TimerPass(checks) => [Take(Timer)] + Checks(checks) + [Give(Timer)]
    case SenderScan(mismatch) => SendLocked(mismatch)
    case QueueMessage(overflow) => SendLocked(overflow)
    case HandlePing(c, overflow) => [Take(Conn(c))] + SendLocked(overflow) + [Give(Conn(c))]
    case HandleRegister(c, overflow) => [Take(Conn(c)), Give(Conn(c))] + SendLocked(overflow)
    case WorkerQueue => [Take(Workers), Give(Workers)]
  }

  /** The operation takes m_sendmutex and returns without giving it back. */
  predicate ReturnsEarly(op: Operation) {
    match op
    case SenderScan(mismatch) => mismatch
    case QueueMessage(overflow) => overflow
    case HandlePing(_, overflow) => overflow
    case HandleRegister(_, overflow) => overflow
    case _ => false
  }

  // ---------- Steps ----------

  /** What a thread holds, what it has still to do, and the operation that it is in or did last. */
  datatype Thread = Thread(held: set<Lock>, todo: seq<Action>, op: Option<Operation>)

  datatype Event = Begin(t: nat, op: Operation) | Step(t: nat)

  predicate Taken(s: seq<Thread>, l: Lock) {
    exists t :: 0 <= t < |s| && l in s[t].held
  }

  /** A mutex is not recursive: a thread that holds it waits for itself. */
  predicate CanStep(s: seq<Thread>, t: nat) {
    t < |s| && s[t].todo != [] && (s[t].todo[0].Take? ==> !Taken(s, s[t].todo[0].l))
  }

  function After(th: Thread): Thread
    requires th.todo != []
  {
    var a := th.todo[0];
    th.(held := if a.Take? then th.held + {a.l} else th.held - {a.l}, todo := th.todo[1..])
  }

  function Apply(s: seq<Thread>, ev: Event): seq<Thread> {
    match ev
    case Begin(t, op) => if t < |s| && s[t].todo == [] then s[t := s[t].(todo := Actions(op), op := Some(op))] else s
    case Step(t) => if CanStep(s, t) then s[t := After(s[t])] else s
  }

  function Run(s: seq<Thread>, evs: seq<Event>): seq<Thread>
    decreases |evs|
  {
    if evs == [] then s else Run(Apply(s, evs[0]), evs[1..])
  }

  function Initial(n: nat): seq<Thread> {
    seq(n, _ => Thread({}, [], None))
  }

  // ---------- The order ----------

  predicate Above(held: set<Lock>, l: Lock) {
    forall h | h in held :: h.Rank() < l.Rank()
  }

  /** The actions take locks upwards only and give back what is held; at most m_sendmutex stays behind. */
  predicate Ordered(held: set<Lock>, todo: seq<Action>)
    decreases |todo|
  {
    if todo == [] then held <= {Send}
    else if todo[0].Take? then Above(held, todo[0].l) && Ordered(held + {todo[0].l}, todo[1..])
    else todo[0].l in held && Ordered(held - {todo[0].l}, todo[1..])
  }

  lemma {:induction false} FreesOrdered(n: nat, rest: seq<Action>)
    requires Ordered({Recycle}, rest)
    ensures Ordered({Recycle}, Frees(n) + rest)
  {
    if n == 0 {
      assert Frees(0) + rest == rest;
    } else {
      FreesOrdered(n - 1, rest);
      PairOrdered({Recycle}, Pool, Frees(n - 1) + rest);
      Regroup([Take(Pool), Give(Pool)], Frees(n - 1), rest);
    }
  }

  lemma PairOrdered(held: set<Lock>, l: Lock, rest: seq<Action>)
    requires Above(held, l) && Ordered(held, rest)
    ensures Ordered(held, [Take(l), Give(l)] + rest)
  {
    assert l !in held;
    assert held + {l} - {l} == held;
    assert ([Take(l), Give(l)] + rest)[1..] == [Give(l)] + rest && ([Give(l)] + rest)[1..] == rest;
  }

  lemma CloseOrdered(held: set<Lock>, c: nat, ignored: bool, rest: seq<Action>)
    requires held <= {Timer} && Ordered(held, rest)
    ensures Ordered(held, Close(c, ignored) + rest)
  {
    var l := Conn(c);
    assert held + {l} - {l} == held;
    var tail := [Give(l)] + rest;
    assert tail[1..] == rest;
    if ignored {
      assert Close(c, ignored) + rest == [Take(l)] + tail && ([Take(l)] + tail)[1..] == tail;
    } else {
      PairOrdered(held + {l}, Recycle, tail);
      var inner := [Take(Recycle), Give(Recycle)] + tail;
      assert Close(c, ignored) + rest == [Take(l)] + inner && ([Take(l)] + inner)[1..] == inner;
    }
  }

  lemma Regroup(a: seq<Action>, b: seq<Action>, c: seq<Action>)
    ensures a + b + c == a + (b + c)
  {
  }

  lemma CheckOrdered(k: Check, rest: seq<Action>)
    requires Ordered({Timer}, rest)
    ensures Ordered({Timer}, CheckOne(k) + rest)
  {
    var pair, close := [Take(Conn(k.c)), Give(Conn(k.c))], if k.kick then Close(k.c, k.ignored) else [];
    if k.kick {
      CloseOrdered({Timer}, k.c, k.ignored, rest);
    } else {
      assert close + rest == rest;
    }
    PairOrdered({Timer}, Conn(k.c), close + rest);
    Regroup(pair, close, rest);
  }

  lemma {:induction false} ChecksOrdered(checks: seq<Check>, rest: seq<Action>)
    requires Ordered({Timer}, rest)
    ensures Ordered({Timer}, Checks(checks) + rest)
    decreases |checks|
  {
    if checks == [] {
      assert Checks(checks) + rest == rest;
    } else {
      ChecksOrdered(checks[1..], rest);
      CheckOrdered(checks[0], Checks(checks[1..]) + rest);
      Regroup(CheckOne(checks[0]), Checks(checks[1..]), rest);
    }
  }

  lemma PingOrdered(c: nat, overflow: bool)
    ensures Ordered({}, Actions(HandlePing(c, overflow)))
  {
    var l := Conn(c);
    assert {} + {l} == {l};
    if overflow {
      assert Actions(HandlePing(c, true)) == [Take(l), Take(Send), Give(l)];
      assert {l} + {Send} - {l} == {Send};
      assert Ordered({l} + {Send}, [Give(l)]);
      assert Ordered({l}, [Take(Send), Give(l)]);
    } else {
      assert Actions(HandlePing(c, false)) == [Take(l)] + ([Take(Send), Give(Send)] + [Give(l)]);
      assert {l} - {l} == {};
      PairOrdered({l}, Send, [Give(l)]);
    }
  }

  /** Each operation takes locks upwards only. */
  lemma OperationsAreOrdered(op: Operation)
    ensures Ordered({}, Actions(op))
  {
    match op
    case CloseAccepted(c, ignored) =>
      CloseOrdered({}, c, ignored, []);
      assert Close(c, ignored) + [] == Close(c, ignored);
    case CloseConnection(c) =>
      assert {} + {Conn(c)} == {Conn(c)} && {Conn(c)} - {Conn(c)} == {};
      PairOrdered({Conn(c)}, Pool, [Give(Conn(c))]);
      assert Actions(op) == [Take(Conn(c))] + ([Take(Pool), Give(Pool)] + [Give(Conn(c))]);
    case RecyclerPass(frees) =>
      assert {} + {Recycle} == {Recycle} && {Recycle} - {Recycle} == {};
      FreesOrdered(frees, [Give(Recycle)]);
      assert Actions(op)[1..] == Frees(frees) + [Give(Recycle)];
    case TimerPass(checks) =>
      assert {} + {Timer} == {Timer} && {Timer} - {Timer} == {};
      ChecksOrdered(checks, [Give(Timer)]);
      assert Actions(op)[1..] == Checks(checks) + [Give(Timer)];
    case HandlePing(c, overflow) => PingOrdered(c, overflow);
    case HandleRegister(c, overflow) =>
      assert Ordered({}, SendLocked(overflow)) by { SimpleOrdered(Send, overflow); }
      PairOrdered({}, Conn(c), SendLocked(overflow));
    case GetItem => SimpleOrdered(Pool, false);
    case AddToTimer => SimpleOrdered(Timer, false);
    case SenderScan(mismatch) => SimpleOrdered(Send, mismatch);
    case QueueMessage(overflow) => SimpleOrdered(Send, overflow);
    case WorkerQueue => SimpleOrdered(Workers, false);
  }

  lemma SimpleOrdered(l: Lock, kept: bool)
    requires kept ==> l == Send
    ensures Ordered({}, if kept then [Take(l)] else [Take(l), Give(l)])
  {
    assert {} + {l} == {l} && {l} - {l} == {};
    assert Ordered({l}, if kept then [] else [Give(l)]);
  }

  // ---------- The lost mutex ----------

  /** m_sendmutex is taken again before it is given back. */
  predicate TakesFirst(todo: seq<Action>)
    decreases |todo|
  {
    todo == [] || todo[0] == Take(Send) || (todo[0] != Give(Send) && TakesFirst(todo[1..]))
  }

  /** A thread has m_sendmutex and will not give it back. */
  predicate Keeps(th: Thread) {
    Send in th.held && TakesFirst(th.todo)
  }

  predicate Lost(s: seq<Thread>) {
    exists t :: 0 <= t < |s| && Keeps(s[t])
  }

  predicate NoSend(todo: seq<Action>) {
    forall a | a in todo :: a.l != Send
  }

  lemma {:induction false} FreesNoSend(n: nat)
    ensures NoSend(Frees(n))
  {
    if n > 0 {
      FreesNoSend(n - 1);
    }
  }

  lemma {:induction false} ChecksNoSend(checks: seq<Check>)
    ensures NoSend(Checks(checks))
    decreases |checks|
  {
    if checks != [] {
      ChecksNoSend(checks[1..]);
    }
  }

  /** m_sendmutex is given back after it has been taken, unless the operation returns early. */
  predicate SendGoesBack(early: bool, todo: seq<Action>)
    decreases |todo|
  {
    todo != [] ==>
      && (todo[0] == Take(Send) ==> (early <==> TakesFirst(todo[1..])))
      && SendGoesBack(early, todo[1..])
  }

  lemma {:induction false} NoSendGoesBack(early: bool, todo: seq<Action>)
    requires NoSend(todo)
    ensures TakesFirst(todo) && SendGoesBack(early, todo)
    decreases |todo|
  {
    if todo != [] {
      assert todo[0] in todo && forall a | a in todo[1..] :: a in todo;
      NoSendGoesBack(early, todo[1..]);
    }
  }

  lemma SendLockedGoesBack(early: bool, rest: seq<Action>)
    requires NoSend(rest)
    ensures TakesFirst(SendLocked(early) + rest) && SendGoesBack(early, SendLocked(early) + rest)
  {
    NoSendGoesBack(early, rest);
    var todo := SendLocked(early) + rest;
    if early {
      assert todo[1..] == rest;
    } else {
      assert todo[1..][0] == Give(Send) && todo[1..][1..] == rest;
    }
  }

  lemma OneBefore(early: bool, a: Action, todo: seq<Action>)
    requires a.l != Send && TakesFirst(todo) && SendGoesBack(early, todo)
    ensures TakesFirst([a] + todo) && SendGoesBack(early, [a] + todo)
  {
    assert ([a] + todo)[1..] == todo;
  }

  /** Every operation takes m_sendmutex before it gives it back, and gives it back unless it returns early. */
  lemma OperationsGiveBack(op: Operation)
    ensures TakesFirst(Actions(op)) && SendGoesBack(ReturnsEarly(op), Actions(op))
  {
    match op
    case HandlePing(c, overflow) =>
      SendLockedGoesBack(overflow, [Give(Conn(c))]);
      OneBefore(overflow, Take(Conn(c)), SendLocked(overflow) + [Give(Conn(c))]);
      Regroup([Take(Conn(c))], SendLocked(overflow), [Give(Conn(c))]);
    case HandleRegister(c, overflow) =>
      SendLockedGoesBack(overflow, []);
      assert SendLocked(overflow) + [] == SendLocked(overflow);
      OneBefore(overflow, Give(Conn(c)), SendLocked(overflow));
      OneBefore(overflow, Take(Conn(c)), [Give(Conn(c))] + SendLocked(overflow));
      Regroup([Take(Conn(c))], [Give(Conn(c))], SendLocked(overflow));
    case SenderScan(early) =>
      SendLockedGoesBack(early, []);
      assert SendLocked(early) + [] == SendLocked(early);
    case QueueMessage(early) =>
      SendLockedGoesBack(early, []);
      assert SendLocked(early) + [] == SendLocked(early);
    case _ =>
      OthersNoSend(op);
      NoSendGoesBack(false, Actions(op));
  }

  lemma OthersNoSend(op: Operation)
    requires !op.HandlePing? && !op.HandleRegister? && !op.SenderScan? && !op.QueueMessage?
    ensures NoSend(Actions(op))
  {
    if op.RecyclerPass? {
      FreesNoSend(op.frees);
    } else if op.TimerPass? {
      ChecksNoSend(op.checks);
    }
  }

  /** Once lost, m_sendmutex stays with the same thread, and no other thread ever takes it. */
  lemma {:induction false} LostForGood(s: seq<Thread>, t: nat, evs: seq<Event>)
    requires t < |s| && Keeps(s[t])
    ensures |Run(s, evs)| == |s| && Keeps(Run(s, evs)[t])
    ensures forall u: nat | u < |s| && Send !in s[u].held :: Send !in Run(s, evs)[u].held
    decreases |evs|
  {
    if evs != [] {
      if evs[0].Begin? {
        OperationsGiveBack(evs[0].op);
      }
      LostForGood(Apply(s, evs[0]), t, evs[1..]);
    }
  }

  // ---------- Deadlock freedom ----------

  ghost predicate Inv(s: seq<Thread>) {
    && (forall t, u | 0 <= t < u < |s| :: s[t].held !! s[u].held)
    && (Lost(s) || forall t | 0 <= t < |s| :: Ordered(s[t].held, s[t].todo))
    && (forall t | 0 <= t < |s| :: Doing(s[t]))
  }

  /** What is left to do treats m_sendmutex as the operation does. */
  predicate Doing(th: Thread) {
    if th.op.None? then th.todo == [] else SendGoesBack(ReturnsEarly(th.op.value), th.todo)
  }

  lemma EventKeepsDoing(s: seq<Thread>, ev: Event)
    requires forall t | 0 <= t < |s| :: Doing(s[t])
    ensures |Apply(s, ev)| == |s| && forall t | 0 <= t < |s| :: Doing(Apply(s, ev)[t])
  {
    if ev.Begin? {
      OperationsGiveBack(ev.op);
    } else if CanStep(s, ev.t) {
      assert Doing(s[ev.t]);
    }
  }

  lemma EventKeepsInv(s: seq<Thread>, ev: Event)
    requires Inv(s)
    ensures Inv(Apply(s, ev))
  {
    var t := Apply(s, ev);
    EventKeepsDoing(s, ev);
    if Lost(s) {
      var k :| 0 <= k < |s| && Keeps(s[k]);
      LostForGood(s, k, [ev]);
      assert Run(s, [ev]) == t by { assert Run(t, [ev][1..]) == t; }
      assert Keeps(t[k]);
    } else if ev.Begin? && ev.t < |s| && s[ev.t].todo == [] {
      OperationsAreOrdered(ev.op);
      assert Send !in s[ev.t].held by {
        assert !Keeps(s[ev.t]);
      }
      assert s[ev.t].held == {};
    }
  }

  lemma {:induction false} RunKeepsInv(s: seq<Thread>, evs: seq<Event>)
    requires Inv(s)
    ensures Inv(Run(s, evs))
    decreases |evs|
  {
    if evs != [] {
      EventKeepsInv(s, evs[0]);
      RunKeepsInv(Apply(s, evs[0]), evs[1..]);
    }
  }

  /** From a blocked thread, through the holder of the lock that it waits for, to one that can go on. */
  lemma {:induction false} FollowTheHolders(s: seq<Thread>, t: nat) returns (free: nat)
    requires Inv(s) && !Lost(s) && t < |s| && s[t].todo != []
    ensures CanStep(s, free)
    decreases if s[t].todo[0].Take? then 6 - s[t].todo[0].l.Rank() else 0
  {
    if CanStep(s, t) {
      free := t;
    } else {
      var l := s[t].todo[0].l;
      var holder :| 0 <= holder < |s| && l in s[holder].held;
      assert Ordered(s[t].held, s[t].todo) && Ordered(s[holder].held, s[holder].todo);
      if s[holder].todo == [] {
        assert Keeps(s[holder]);
        assert false;
      }
      free := FollowTheHolders(s, holder);
    }
  }

  /** Deadlock freedom: in every run, while neither early return has left m_sendmutex locked, if some
      thread is in the middle of an operation then some such thread can go on. */
  lemma NoDeadlock(n: nat, evs: seq<Event>, t: nat)
    requires var s := Run(Initial(n), evs); !Lost(s) && t < |s| && s[t].todo != []
    ensures exists free: nat :: CanStep(Run(Initial(n), evs), free)
  {
    RunKeepsInv(Initial(n), evs);
    var free := FollowTheHolders(Run(Initial(n), evs), t);
  }

  // ---------- When the mutex is lost ----------

  /** A thread takes m_sendmutex in an operation that returns early. */
  predicate EarlyTake(s: seq<Thread>, ev: Event) {
    && ev.Step? && CanStep(s, ev.t) && s[ev.t].todo[0] == Take(Send)
    && s[ev.t].op.Some? && ReturnsEarly(s[ev.t].op.value)
  }

  /** One step loses the mutex exactly if it takes it for MsgSendInQueue on a full list, for a scan that meets
      a wrong length, or for a handler that calls MsgSendInQueue on a full list. */
  lemma LosesIff(s: seq<Thread>, ev: Event)
    requires !Lost(s) && Inv(s)
    ensures Lost(Apply(s, ev)) <==> EarlyTake(s, ev)
  {
    var t := Apply(s, ev);
    assert forall k: nat | k < |s| :: !Keeps(s[k]);
    if ev.Step? && CanStep(s, ev.t) {
      assert Doing(s[ev.t]) && t[ev.t] == After(s[ev.t]);
      assert Keeps(t[ev.t]) <==> s[ev.t].todo[0] == Take(Send) && TakesFirst(s[ev.t].todo[1..]);
      assert forall k: nat | k < |s| && k != ev.t :: t[k] == s[k];
    } else {
      assert forall k: nat | k < |s| :: t[k].held == s[k].held && (t[k] == s[k] || s[k].todo == []);
      assert forall k: nat | k < |s| :: !Keeps(t[k]);
    }
  }

  lemma {:induction false} RunOneMore(s: seq<Thread>, evs: seq<Event>, ev: Event)
    ensures Run(s, evs + [ev]) == Apply(Run(s, evs), ev)
    decreases |evs|
  {
    if evs == [] {
      assert [] + [ev] == [ev] && Run(Apply(s, ev), [ev][1..]) == Apply(s, ev);
    } else {
      RunOneMore(Apply(s, evs[0]), evs[1..], ev);
      assert (evs + [ev])[0] == evs[0] && (evs + [ev])[1..] == evs[1..] + [ev];
    }
  }

  lemma LostStays(s: seq<Thread>, ev: Event)
    requires Lost(s)
    ensures Lost(Apply(s, ev))
  {
    var k :| 0 <= k < |s| && Keeps(s[k]);
    LostForGood(s, k, [ev]);
    RunOneMore(s, [], ev);
    assert [] + [ev] == [ev] && Keeps(Apply(s, ev)[k]);
  }

  /** Event k of the run is such a step. */
  predicate EarlyTakeAt(n: nat, evs: seq<Event>, k: nat)
    requires k < |evs|
  {
    EarlyTake(Run(Initial(n), evs[..k]), evs[k])
  }

  /** In a whole run the mutex is lost if and only if some step took it in an operation that returns early. */
  lemma {:induction false} LostIffTakenEarly(n: nat, evs: seq<Event>)
    ensures Lost(Run(Initial(n), evs)) <==> exists k: nat | k < |evs| :: EarlyTakeAt(n, evs, k)
    decreases |evs|
  {
    if evs != [] {
      var before, last := evs[..|evs| - 1], |evs| - 1;
      LostIffTakenEarly(n, before);
      RunKeepsInv(Initial(n), before);
      assert evs == before + [evs[last]];
      RunOneMore(Initial(n), before, evs[last]);
      forall k: nat | k < last ensures EarlyTakeAt(n, evs, k) == EarlyTakeAt(n, before, k) {
        assert before[..k] == evs[..k];
      }
      assert EarlyTakeAt(n, evs, last) == EarlyTake(Run(Initial(n), before), evs[last]);
      if Lost(Run(Initial(n), before)) {
        LostStays(Run(Initial(n), before), evs[last]);
      } else {
        LosesIff(Run(Initial(n), before), evs[last]);
      }
    }
  }

  /** No operation of the run returns early. */
  predicate NoneReturnsEarly(evs: seq<Event>) {
    forall ev | ev in evs && ev.Begin? :: !ReturnsEarly(ev.op)
  }

  lemma {:induction false} NoneEarlyInRun(s: seq<Thread>, evs: seq<Event>)
    requires NoneReturnsEarly(evs) && forall t | 0 <= t < |s| && s[t].op.Some? :: !ReturnsEarly(s[t].op.value)
    ensures forall t | 0 <= t < |Run(s, evs)| && Run(s, evs)[t].op.Some? :: !ReturnsEarly(Run(s, evs)[t].op.value)
    decreases |evs|
  {
    if evs != [] {
      assert evs[0] in evs && forall ev | ev in evs[1..] :: ev in evs;
      NoneEarlyInRun(Apply(s, evs[0]), evs[1..]);
    }
  }

  /** So when the early returns are not taken there is no deadlock: the mutex is never lost, and if some thread
      is in the middle of an operation then some such thread can go on. */
  lemma NoDeadlockWithoutEarlyReturns(n: nat, evs: seq<Event>)
    requires NoneReturnsEarly(evs)
    ensures !Lost(Run(Initial(n), evs))
    ensures forall t: nat | t < |Run(Initial(n), evs)| && Run(Initial(n), evs)[t].todo != [] ::
              exists free: nat :: CanStep(Run(Initial(n), evs), free)
  {
    forall k: nat | k < |evs| ensures !EarlyTakeAt(n, evs, k) {
      assert forall ev | ev in evs[..k] :: ev in evs;
      NoneEarlyInRun(Initial(n), evs[..k]);
    }
    LostIffTakenEarly(n, evs);
    forall t: nat | t < |Run(Initial(n), evs)| && Run(Initial(n), evs)[t].todo != []
      ensures exists free: nat :: CanStep(Run(Initial(n), evs), free)
    {
      NoDeadlock(n, evs, t);
    }
  }

  /** Then everything may stop: a worker that handles a ping waits for m_sendmutex with the connection's
      lock, and the timer thread waits for that lock with m_timer_mutex. */
  lemma LossDeadlocks() returns (evs: seq<Event>)
    ensures var s := Run(Initial(3), evs);
      && Lost(s) && |s| == 3 && s[1].todo != [] && s[2].todo != [] && forall t: nat :: !CanStep(s, t)
  {
    var s0 := Initial(3);
    var q, p := [Take(Send)], Actions(HandlePing(7, false));
    var s1 := Apply(s0, Begin(0, QueueMessage(true)));
    var s2 := Apply(s1, Step(0));
    assert {} + {Send} == {Send} && q[1..] == [] && s2[0] == Thread({Send}, [], Some(QueueMessage(true)));
    var s3 := Apply(s2, Begin(1, HandlePing(7, false)));
    var s4 := Apply(s3, Step(1));
    assert {} + {Conn(7)} == {Conn(7)} && s4[1].held == {Conn(7)} && s4[1].todo == p[1..] && p[1..][0] == Take(Send);
    var s5 := Apply(s4, Begin(2, TimerPass([Check(7, false, false)])));
    assert s5[2].todo[0] == Take(Timer) && s5[2].todo[1] == Take(Conn(7));
    var s6 := Apply(s5, Step(2));
    assert s6[2].todo[0] == Take(Conn(7)) && s6[0] == s2[0] && s6[1] == s4[1];
    assert Keeps(s6[0]);
    evs := [];
    assert Run(s6, evs) == s6;
    evs := RunCons(s5, Step(2), evs);
    evs := RunCons(s4, Begin(2, TimerPass([Check(7, false, false)])), evs);
    evs := RunCons(s3, Step(1), evs);
    evs := RunCons(s2, Begin(1, HandlePing(7, false)), evs);
    evs := RunCons(s1, Step(0), evs);
    evs := RunCons(s0, Begin(0, QueueMessage(true)), evs);
  }

  lemma RunCons(s: seq<Thread>, ev: Event, evs: seq<Event>) returns (more: seq<Event>)
    ensures Run(s, more) == Run(Apply(s, ev), evs)
  {
    more := [ev] + evs;
    assert more[1..] == evs;
  }
}
