/** The messages of one connection in the send list. */
module SendLists {
  import opened SendPath
  import opened SendSafety

  lemma {:induction false} InListConcat(a: seq<nat>, b: seq<nat>, log: seq<Msg>, c: nat)
    ensures InList(a + b, log, c) == InList(a, log, c) + InList(b, log, c)
    decreases |a|
  {
    if a == [] {
      assert a + b == b;
    } else {
      assert (a + b)[1..] == a[1..] + b;
      InListConcat(a[1..], b, log, c);
    }
  }

  lemma InListOne(id: nat, log: seq<Msg>, c: nat)
    ensures InList([id], log, c) == if id < |log| && log[id].conn == c then [id] else []
  {
    assert [id][1..] == [];
  }

  lemma InListSplit(queue: seq<nat>, i: nat, log: seq<Msg>, c: nat)
    requires i < |queue|
    ensures InList(queue, log, c)
         == InList(queue[..i], log, c) + InList([queue[i]], log, c) + InList(queue[i + 1..], log, c)
    ensures InList(Without(queue, i), log, c) == InList(queue[..i], log, c) + InList(queue[i + 1..], log, c)
  {
    assert queue == queue[..i] + [queue[i]] + queue[i + 1..];
    InListConcat(queue[..i] + [queue[i]], queue[i + 1..], log, c);
    InListConcat(queue[..i], [queue[i]], log, c);
    InListConcat(queue[..i], queue[i + 1..], log, c);
  }

  lemma {:induction false} InListGrows(queue: seq<nat>, log: seq<Msg>, m: Msg, c: nat)
    requires forall id | id in queue :: id < |log|
    ensures InList(queue, log + [m], c) == InList(queue, log, c)
    decreases |queue|
  {
    if queue != [] {
      assert queue[0] in queue && forall id | id in queue[1..] :: id in queue;
      InListGrows(queue[1..], log, m, c);
    }
  }

  lemma {:induction false} InListMembers(queue: seq<nat>, log: seq<Msg>, c: nat)
    ensures forall id :: id in InList(queue, log, c) <==> id in queue && id < |log| && log[id].conn == c
    decreases |queue|
  {
    if queue != [] {
      InListMembers(queue[1..], log, c);
      assert queue == [queue[0]] + queue[1..];
    }
  }

  lemma {:induction false} InListAscending(queue: seq<nat>, log: seq<Msg>, c: nat)
    requires Ascending(queue)
    ensures Ascending(InList(queue, log, c))
    decreases |queue|
  {
    if queue != [] {
      InListAscending(queue[1..], log, c);
      InListMembers(queue[1..], log, c);
      var rest := InList(queue[1..], log, c);
      forall k | 0 <= k < |rest| ensures queue[0] < rest[k] {
        assert rest[k] in rest;
      }
    }
  }

  /** A connection has been passed over exactly if it has a message in front of the scan. */
  lemma FrontIffPassed(queue: seq<nat>, i: nat, log: seq<Msg>, c: nat)
    requires i <= |queue|
    ensures InList(queue[..i], log, c) != [] <==> Passed(log, queue, i, c)
  {
    InListMembers(queue[..i], log, c);
    if InList(queue[..i], log, c) != [] {
      assert InList(queue[..i], log, c)[0] in queue[..i];
    }
    if Passed(log, queue, i, c) {
      var j :| 0 <= j < i && j < |queue| && queue[j] < |log| && log[queue[j]].conn == c;
      assert queue[..i][j] in InList(queue[..i], log, c);
    }
  }
}
