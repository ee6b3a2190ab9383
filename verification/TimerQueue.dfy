/** The heartbeat timer's multimap of net/socket_time.cxx: due times to (connection, sequence number)
    pairs. */
module TimerQueue {
  import opened Common

  /** One element: the due time and the message header. */
  datatype Entry = Entry(key: int, conn: nat, sequence: nat) {
    function Pair(): (nat, nat) {
      (conn, sequence)
    }
  }

  /** A std::multimap in iteration order. */
  ghost predicate Sorted(q: seq<Entry>) {
    forall i, j | 0 <= i < j < |q| :: q[i].key <= q[j].key
  }

  /** Insertion goes behind the elements with the same key. */
  function Insert(q: seq<Entry>, e: Entry): (r: seq<Entry>)
    ensures |r| == |q| + 1
  {
    if q == [] || e.key < q[0].key then [e] + q else [q[0]] + Insert(q[1..], e)
  }

  function InsertAll(q: seq<Entry>, es: seq<Entry>): (r: seq<Entry>)
    ensures |r| == |q| + |es|
    decreases |es|
  {
    if es == [] then q else InsertAll(Insert(q, es[0]), es[1..])
  }

  function Delete(q: seq<Entry>, pair: (nat, nat)): (r: seq<Entry>)
    ensures |r| <= |q|
  {
    if q == [] then []
    else if q[0].Pair() == pair then Delete(q[1..], pair)
    else [q[0]] + Delete(q[1..], pair)
  }

  function Rekey(es: seq<Entry>, key: int): (r: seq<Entry>)
    ensures |r| == |es|
  {
    seq(|es|, k requires 0 <= k < |es| => es[k].(key := key))
  }

  /** The number of leading elements that are due. */
  function DueCount(q: seq<Entry>, now: int): (n: nat)
    ensures n <= |q|
    ensures forall i | 0 <= i < n :: q[i].key <= now
    ensures n < |q| ==> q[n].key > now
  {
    if q == [] || q[0].key > now then 0 else 1 + DueCount(q[1..], now)
  }

  function Due(q: seq<Entry>, now: int): seq<Entry> {
    q[..DueCount(q, now)]
  }

  /** The map after every due element has been taken out and put back with a new due time. */
  function Drained(q: seq<Entry>, now: int, wait: int): seq<Entry> {
    InsertAll(q[DueCount(q, now)..], Rekey(Due(q, now), now + wait))
  }

  function Pairs(q: seq<Entry>): multiset<(nat, nat)> {
    if q == [] then multiset{} else multiset{q[0].Pair()} + Pairs(q[1..])
  }

  // ---------- Laws ----------

  lemma SortedCons(e: Entry, q: seq<Entry>)
    requires Sorted(q) && forall x | x in q :: e.key <= x.key
    ensures Sorted([e] + q)
  {
  }

  lemma SortedHead(q: seq<Entry>)
    requires Sorted(q) && q != []
    ensures Sorted(q[1..]) && forall x | x in q :: q[0].key <= x.key
  {
  }

  lemma {:induction false} InsertMembers(q: seq<Entry>, e: Entry)
    ensures forall x :: x in Insert(q, e) <==> x in q || x == e
    decreases |q|
  {
    if q != [] && q[0].key <= e.key {
      InsertMembers(q[1..], e);
      assert q == [q[0]] + q[1..];
    }
  }

  lemma {:induction false} InsertSorted(q: seq<Entry>, e: Entry)
    requires Sorted(q)
    ensures Sorted(Insert(q, e))
    decreases |q|
  {
    if q != [] {
      SortedHead(q);
    }
    if q == [] || e.key < q[0].key {
      SortedCons(e, q);
    } else {
      InsertSorted(q[1..], e);
      InsertMembers(q[1..], e);
      SortedCons(q[0], Insert(q[1..], e));
    }
  }

  lemma {:induction false} InsertPairs(q: seq<Entry>, e: Entry)
    ensures Pairs(Insert(q, e)) == Pairs(q) + multiset{e.Pair()}
    decreases |q|
  {
    if q == [] || e.key < q[0].key {
      assert ([e] + q)[1..] == q;
    } else {
      InsertPairs(q[1..], e);
      assert ([q[0]] + Insert(q[1..], e))[1..] == Insert(q[1..], e);
    }
  }

  lemma BehindHead(q: seq<Entry>, n: nat, e: Entry)
    requires n < |q|
    ensures [q[0]] + (q[1..][..n] + [e] + q[1..][n..]) == q[..n + 1] + [e] + q[n + 1..]
  {
    assert q[1..][n..] == q[n + 1..];
    assert [q[0]] + q[1..][..n] == q[..n + 1];
  }

  /** A new entry goes behind all that are due no later. */
  lemma {:induction false} InsertBehind(q: seq<Entry>, e: Entry)
    requires Sorted(q)
    ensures var n := DueCount(q, e.key); Insert(q, e) == q[..n] + [e] + q[n..]
    decreases |q|
  {
    if q != [] && e.key >= q[0].key {
      InsertBehind(q[1..], e);
      BehindHead(q, DueCount(q[1..], e.key), e);
    } else {
      assert DueCount(q, e.key) == 0;
      assert q[..0] + [e] + q[0..] == [e] + q;
    }
  }

  lemma {:induction false} InsertAllSorted(q: seq<Entry>, es: seq<Entry>)
    requires Sorted(q)
    ensures Sorted(InsertAll(q, es))
    decreases |es|
  {
    if es != [] {
      InsertSorted(q, es[0]);
      InsertAllSorted(Insert(q, es[0]), es[1..]);
    }
  }

  lemma {:induction false} InsertAllMembers(q: seq<Entry>, es: seq<Entry>, x: Entry)
    ensures x in InsertAll(q, es) <==> x in q || x in es
    decreases |es|
  {
    if es != [] {
      InsertMembers(q, es[0]);
      InsertAllMembers(Insert(q, es[0]), es[1..], x);
      assert es == [es[0]] + es[1..];
    }
  }

  lemma {:induction false} InsertAllPairs(q: seq<Entry>, es: seq<Entry>)
    ensures Pairs(InsertAll(q, es)) == Pairs(q) + Pairs(es)
    decreases |es|
  {
    if es != [] {
      InsertPairs(q, es[0]);
      InsertAllPairs(Insert(q, es[0]), es[1..]);
    }
  }

  lemma {:induction false} InsertAllAppend(q: seq<Entry>, es: seq<Entry>, e: Entry)
    ensures InsertAll(q, es + [e]) == Insert(InsertAll(q, es), e)
    decreases |es|
  {
    if es == [] {
      assert [] + [e] == [e] && [e][1..] == [];
    } else {
      assert (es + [e])[1..] == es[1..] + [e];
      InsertAllAppend(Insert(q, es[0]), es[1..], e);
    }
  }

  /** Later elements do not disturb the first one. */
  lemma {:induction false} InsertAllFirst(q: seq<Entry>, es: seq<Entry>)
    requires q != [] && forall e | e in es :: q[0].key <= e.key
    ensures InsertAll(q, es)[0] == q[0]
    ensures InsertAll(q, es)[1..] == InsertAll(q[1..], es)
    decreases |es|
  {
    if es != [] {
      var r := Insert(q, es[0]);
      assert r[1..] == Insert(q[1..], es[0]);
      InsertAllFirst(r, es[1..]);
    }
  }

  lemma {:induction false} PairsConcat(a: seq<Entry>, b: seq<Entry>)
    ensures Pairs(a + b) == Pairs(a) + Pairs(b)
    decreases |a|
  {
    if a == [] {
      assert a + b == b;
    } else {
      assert (a + b)[1..] == a[1..] + b;
      PairsConcat(a[1..], b);
    }
  }

  lemma {:induction false} PairsRekey(es: seq<Entry>, key: int)
    ensures Pairs(Rekey(es, key)) == Pairs(es)
    decreases |es|
  {
    if es != [] {
      assert Rekey(es, key)[1..] == Rekey(es[1..], key);
      PairsRekey(es[1..], key);
    }
  }

  lemma {:induction false} PairsMember(q: seq<Entry>, pair: (nat, nat))
    ensures pair in Pairs(q) <==> exists e | e in q :: e.Pair() == pair
    decreases |q|
  {
    if q != [] {
      PairsMember(q[1..], pair);
      assert q == [q[0]] + q[1..];
    }
  }

  lemma {:induction false} DeleteMembers(q: seq<Entry>, pair: (nat, nat))
    ensures forall e :: e in Delete(q, pair) <==> e in q && e.Pair() != pair
    decreases |q|
  {
    if q != [] {
      DeleteMembers(q[1..], pair);
      assert q == [q[0]] + q[1..];
    }
  }

  lemma {:induction false} DeleteKeepsSorted(q: seq<Entry>, pair: (nat, nat))
    requires Sorted(q)
    ensures Sorted(Delete(q, pair))
    decreases |q|
  {
    if q != [] {
      SortedHead(q);
      DeleteKeepsSorted(q[1..], pair);
      DeleteMembers(q[1..], pair);
      if q[0].Pair() != pair {
        SortedCons(q[0], Delete(q[1..], pair));
      }
    }
  }

  lemma {:induction false} DeletePairs(q: seq<Entry>, pair: (nat, nat))
    ensures Pairs(Delete(q, pair)) == Pairs(q)[pair := 0]
    decreases |q|
  {
    if q != [] {
      DeletePairs(q[1..], pair);
      var r := Delete(q[1..], pair);
      assert ([q[0]] + r)[1..] == r;
    }
  }

  lemma MembersSplit(q: seq<Entry>, n: nat, e: Entry)
    requires n <= |q|
    ensures e in q <==> e in q[..n] || e in q[n..]
  {
    assert q == q[..n] + q[n..];
  }

  lemma FrontIsDue(q: seq<Entry>, now: int, e: Entry)
    requires e in Due(q, now)
    ensures e.key <= now
  {
    var i :| 0 <= i < DueCount(q, now) && Due(q, now)[i] == e;
    assert q[i] == e;
  }

  lemma BackIsNotDue(q: seq<Entry>, now: int, e: Entry)
    requires Sorted(q) && e in q[DueCount(q, now)..]
    ensures e.key > now
  {
    var n := DueCount(q, now);
    var i :| 0 <= i < |q| - n && q[n..][i] == e;
    assert q[n + i] == e;
    assert q[n].key <= q[n + i].key;
  }

  /** The due elements of a sorted map are all elements whose time has come. */
  lemma DueIsAllDue(q: seq<Entry>, now: int)
    requires Sorted(q)
    ensures forall e :: e in Due(q, now) <==> e in q && e.key <= now
    ensures forall e :: e in q[DueCount(q, now)..] <==> e in q && e.key > now
  {
    forall e ensures (e in Due(q, now) <==> e in q && e.key <= now)
                  && (e in q[DueCount(q, now)..] <==> e in q && e.key > now)
    {
      MembersSplit(q, DueCount(q, now), e);
      if e in Due(q, now) {
        FrontIsDue(q, now, e);
      }
      if e in q[DueCount(q, now)..] {
        BackIsNotDue(q, now, e);
      }
    }
  }

  lemma RekeyMembers(es: seq<Entry>, key: int)
    ensures forall e :: e in Rekey(es, key) <==> e.key == key && exists d | d in es :: d.Pair() == e.Pair()
  {
    forall e | e in Rekey(es, key) ensures exists d | d in es :: d.Pair() == e.Pair() {
      var k :| 0 <= k < |es| && Rekey(es, key)[k] == e;
      assert es[k].Pair() == e.Pair();
    }
    forall e: Entry, d | e.key == key && d in es && d.Pair() == e.Pair() ensures e in Rekey(es, key) {
      var k :| 0 <= k < |es| && es[k] == d;
      assert Rekey(es, key)[k] == e;
    }
  }

  lemma PutBackPairs(due: seq<Entry>, rest: seq<Entry>, key: int)
    requires Sorted(rest)
    ensures Sorted(InsertAll(rest, Rekey(due, key)))
    ensures Pairs(InsertAll(rest, Rekey(due, key))) == Pairs(due + rest)
  {
    InsertAllSorted(rest, Rekey(due, key));
    InsertAllPairs(rest, Rekey(due, key));
    PairsConcat(due, rest);
    PairsRekey(due, key);
  }

  /** A drain keeps the order and all the pairs ... */
  lemma DrainKeepsPairs(q: seq<Entry>, now: int, wait: int)
    requires Sorted(q)
    ensures Sorted(Drained(q, now, wait))
    ensures Pairs(Drained(q, now, wait)) == Pairs(q)
  {
    var due, rest := Due(q, now), q[DueCount(q, now)..];
    PutBackPairs(due, rest, now + wait);
    assert q == due + rest;
  }

  lemma DuePairs(q: seq<Entry>, now: int)
    ensures Pairs(Due(q, now)) <= Pairs(q)
  {
    PairsConcat(Due(q, now), q[DueCount(q, now)..]);
    assert q == Due(q, now) + q[DueCount(q, now)..];
  }

  lemma PutBackMembers(due: seq<Entry>, rest: seq<Entry>, key: int, e: Entry)
    ensures e in InsertAll(rest, Rekey(due, key)) <==>
              e in rest || (e.key == key && exists d | d in due :: d.Pair() == e.Pair())
  {
    InsertAllMembers(rest, Rekey(due, key), e);
    RekeyMembers(due, key);
  }

  /** ... and puts exactly the due elements back with their new time. */
  lemma DrainMembers(q: seq<Entry>, now: int, wait: int, e: Entry)
    requires Sorted(q)
    ensures e in Drained(q, now, wait) <==>
              (e in q && e.key > now) || (e.key == now + wait && exists d | d in Due(q, now) :: d.Pair() == e.Pair())
  {
    PutBackMembers(Due(q, now), q[DueCount(q, now)..], now + wait, e);
    DueIsAllDue(q, now);
  }

  /** The map after `k` turns of the collecting loop. */
  function Collected(q: seq<Entry>, k: nat, now: int, wait: int): seq<Entry>
    requires k <= |q|
  {
    InsertAll(q[k..], Rekey(q[..k], now + wait))
  }

  lemma CollectStart(q: seq<Entry>, now: int, wait: int)
    ensures Collected(q, 0, now, wait) == q
  {
    assert q[0..] == q && Rekey(q[..0], now + wait) == [];
  }

  lemma CollectTurn(q: seq<Entry>, k: nat, now: int, wait: int)
    requires Sorted(q) && wait > 0 && k < DueCount(q, now)
    ensures var m := Collected(q, k, now, wait);
            m != [] && m[0] == q[k] && Insert(m[1..], q[k].(key := now + wait)) == Collected(q, k + 1, now, wait)
  {
    var again := Rekey(q[..k], now + wait);
    InsertAllFirst(q[k..], again);
    assert q[k..][1..] == q[k + 1..];
    assert Rekey(q[..k + 1], now + wait) == again + [q[k].(key := now + wait)];
    InsertAllAppend(q[k + 1..], again, q[k].(key := now + wait));
  }

  lemma CollectEnd(q: seq<Entry>, now: int, wait: int)
    requires Sorted(q) && wait > 0
    ensures var m := Collected(q, DueCount(q, now), now, wait);
            m == Drained(q, now, wait) && (m != [] ==> m[0].key > now)
  {
    var m := Drained(q, now, wait);
    if m != [] {
      DrainMembers(q, now, wait, m[0]);
    }
  }

  /** What GetOverTime does to the map `m`, which becomes `m2`. */
  ghost predicate Taken(m: seq<Entry>, now: int, wait: int, due: Option<Entry>, m2: seq<Entry>) {
    if m == [] || m[0].key > now then due == None && m2 == m
    else due == Some(m[0]) && m2 == Insert(m[1..], m[0].(key := now + wait))
  }

  /** The collecting loop has put `taken` on its list and holds `due`; the map is `m`. */
  ghost predicate Collecting(q: seq<Entry>, now: int, wait: int, taken: seq<Entry>, due: Option<Entry>, m: seq<Entry>) {
    var k, n := |taken|, DueCount(q, now);
    && k <= n && taken == q[..k]
    && if k < n then due == Some(q[k]) && m == Collected(q, k + 1, now, wait)
       else due == None && m == Drained(q, now, wait)
  }

  lemma CollectNext(q: seq<Entry>, now: int, wait: int, taken: seq<Entry>, due: Option<Entry>, m2: seq<Entry>)
    requires Sorted(q) && wait > 0 && |taken| <= DueCount(q, now) && taken == q[..|taken|]
    requires Taken(Collected(q, |taken|, now, wait), now, wait, due, m2)
    ensures Collecting(q, now, wait, taken, due, m2)
  {
    if |taken| < DueCount(q, now) {
      CollectTurn(q, |taken|, now, wait);
    } else {
      CollectEnd(q, now, wait);
    }
  }

  lemma CollectMore(q: seq<Entry>, now: int, wait: int, taken: seq<Entry>, due: Option<Entry>, m: seq<Entry>)
    requires Collecting(q, now, wait, taken, due, m) && due.Some?
    ensures var more := taken + [due.value];
      |more| <= DueCount(q, now) && more == q[..|more|] && m == Collected(q, |more|, now, wait)
  {
  }

  /** One turn of the erasing loop at `it`, behind the elements that are kept. */
  lemma DeleteTurn(m: seq<Entry>, it: nat, pair: (nat, nat))
    requires it < |m|
    ensures m[it].Pair() == pair ==>
              (m[..it] + m[it + 1..])[..it] == m[..it] &&
              Delete((m[..it] + m[it + 1..])[it..], pair) == Delete(m[it..], pair)
    ensures m[it].Pair() != pair ==> m[..it + 1] + Delete(m[it + 1..], pair) == m[..it] + Delete(m[it..], pair)
  {
    assert m[it..][1..] == m[it + 1..];
    if m[it].Pair() == pair {
      assert (m[..it] + m[it + 1..])[it..] == m[it + 1..];
    } else {
      assert m[..it + 1] == m[..it] + [m[it]];
    }
  }

  // ---------- The code ----------

  class Timer {
    var m_timermap: seq<Entry>
    var m_timermap_size: nat
    var m_timer_value: int
    const m_waittime: int

    ghost predicate Valid()
      reads this
    {
      && m_waittime >= 5
      && Sorted(m_timermap)
      && m_timermap_size == |m_timermap|
      && (m_timermap != [] ==> m_timer_value == m_timermap[0].key)
    }

    /** With the heartbeat enabled, ReadConf raises a configured waiting time to at least 5. */
    constructor (configured: int)
      ensures Valid() && m_timermap == []
      ensures m_waittime == if configured > 5 then configured else 5
    {
      m_waittime := if configured > 5 then configured else 5;
      m_timermap, m_timermap_size, m_timer_value := [], 0, 0;
    }

    /** The new value of the connection's ping_update_time is returned. */
    method AddToTimerQueue(conn: nat, sequence: nat, curTime: int) returns (pingUpdateTime: int)
      requires Valid()
      modifies this
      ensures Valid()
      ensures m_timermap == Insert(old(m_timermap), Entry(curTime + m_waittime, conn, sequence))
      ensures pingUpdateTime == curTime
    {
      pingUpdateTime := curTime;
      InsertSorted(m_timermap, Entry(curTime + m_waittime, conn, sequence));
      m_timermap := Insert(m_timermap, Entry(curTime + m_waittime, conn, sequence));
      m_timer_value := m_timermap[0].key;
      m_timermap_size := m_timermap_size + 1;
    }

    method RemoveTimerFirst() returns (first: Entry)
      requires Valid() && m_timermap != []
      modifies this
      ensures Valid()
      ensures first == old(m_timermap)[0] && m_timermap == old(m_timermap)[1..]
    {
      first := m_timermap[0];
      m_timermap := m_timermap[1..];
      m_timermap_size := m_timermap_size - 1;
      if m_timermap_size > 0 {
        m_timer_value := m_timermap[0].key;
      }
    }

    /** Takes the first element if it is due, and puts it back with a new due time. */
    method GetOverTime(time: int) returns (due: Option<Entry>)
      requires Valid()
      modifies this
      ensures Valid()
      ensures Taken(old(m_timermap), time, m_waittime, due, m_timermap)
    {
      if m_timermap_size == 0 || m_timermap == [] {
        return None;
      }
      var firstTime := m_timermap[0].key;
      if firstTime <= time {
        var first := RemoveTimerFirst();
        InsertSorted(m_timermap, first.(key := time + m_waittime));
        m_timermap := Insert(m_timermap, first.(key := time + m_waittime));
        m_timermap_size := m_timermap_size + 1;
        due := Some(first);
      } else {
        return None;
      }
      if m_timermap_size > 0 {
        m_timer_value := m_timermap[0].key;
      }
    }

    /** The loop of the timer thread that collects what is to be examined. */
    method CollectDue(curTime: int) returns (toExamine: seq<Entry>)
      requires Valid()
      modifies this
      ensures Valid()
      ensures toExamine == Due(old(m_timermap), curTime)
      ensures m_timermap == Drained(old(m_timermap), curTime, m_waittime)
    {
      ghost var q := m_timermap;
      toExamine := [];
      CollectStart(q, curTime, m_waittime);
      var due := GetOverTime(curTime);
      CollectNext(q, curTime, m_waittime, toExamine, due, m_timermap);
      while due.Some?
        invariant Valid() && Collecting(q, curTime, m_waittime, toExamine, due, m_timermap)
        decreases DueCount(q, curTime) - |toExamine|
      {
        CollectMore(q, curTime, m_waittime, toExamine, due, m_timermap);
        toExamine := toExamine + [due.value];
        due := GetOverTime(curTime);
        CollectNext(q, curTime, m_waittime, toExamine, due, m_timermap);
      }
    }

    /** Erases every element with exactly this pair. */
    method DeleteFromTimerQueue(conn: nat, sequence: nat)
      requires Valid()
      modifies this
      ensures Valid()
      ensures m_timermap == Delete(old(m_timermap), (conn, sequence))
    {
      if m_timermap_size == 0 || m_timermap == [] {
        return;
      }
      ghost var q := Delete(m_timermap, (conn, sequence));
      DeleteKeepsSorted(m_timermap, (conn, sequence));
      var it := 0;
      while it < |m_timermap|
        invariant it <= |m_timermap| == m_timermap_size
        invariant m_timermap[..it] + Delete(m_timermap[it..], (conn, sequence)) == q
      {
        DeleteTurn(m_timermap, it, (conn, sequence));
        if m_timermap[it].Pair() == (conn, sequence) {
          m_timermap := m_timermap[..it] + m_timermap[it + 1..];
          m_timermap_size := m_timermap_size - 1;
        } else {
          it := it + 1;
        }
      }
      assert m_timermap[..it] == m_timermap && m_timermap[it..] == [];
      assert m_timermap == q;
      if m_timermap_size > 0 {
        m_timer_value := m_timermap[0].key;
      }
    }
  }
}
