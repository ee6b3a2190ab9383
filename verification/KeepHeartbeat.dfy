/** Every event keeps Heartbeat: the entry of a live use is due within four waiting times of its last ping. */
module KeepHeartbeat {
  import opened ConnPool
  import opened TimerQueue
  import opened Lifecycle
  import opened Invariant
  import KeepEntered
  import KeepPings
  import KeepTimer

  /** Entries keep within their time when ping times move forward and no finished use comes back. */
  lemma TimelyStays(s: State, t: State, wait: int, e: Entry)
    requires KeepEntered.Grows(s, t) && KeepPings.Pinged(s, t)
    requires Entered(s.pool.conns, s.place, s.main, s.hist.uses, e.Pair())
    requires Timely(s.pool.conns, s.place, wait, e)
    ensures Timely(t.pool.conns, t.place, wait, e)
  {
  }

  lemma TimerEntered(s: State, e: Entry)
    requires EntriesOk(s) && e in s.timer
    ensures Entered(s.pool.conns, s.place, s.main, s.hist.uses, e.Pair())
  {
    PairsMember(s.timer, e.Pair());
    assert Tracked(s, e.Pair());
  }

  /** The timer and the list to be examined stay as they are. */
  lemma SameEntries(s: State, t: State, wait: int)
    requires Heartbeat(wait, s) && EntriesOk(s) && KeepEntered.Grows(s, t) && KeepPings.Pinged(s, t)
    requires t.timer == s.timer && Exam(t.tim) == Exam(s.tim) && s.now <= t.now
    requires t.tim.TIdle? || (t.tim.cur <= t.now && (Exam(s.tim) != [] ==> t.tim.cur == s.tim.cur))
    requires Exam(s.tim) != [] ==> !t.tim.TIdle?
    ensures Heartbeat(wait, t)
  {
    forall e | e in t.timer && !InExam(t.tim, e.Pair()) ensures Timely(t.pool.conns, t.place, wait, e) {
      TimerEntered(s, e);
      TimelyStays(s, t, wait, e);
    }
    forall e | e in Exam(t.tim) ensures Timely(t.pool.conns, t.place, wait, e) {
      ExamEntered(s, e);
      TimelyStays(s, t, wait, e);
    }
    forall e | e in t.timer && InExam(t.tim, e.Pair()) ensures e.key == t.tim.cur + wait {
      assert InExam(s.tim, e.Pair());
    }
  }

  /** A new entry is due one waiting time after the connection was stamped. */
  lemma InsertKeeps(cfg: Config, s: State)
    requires WellFormed(s) && Heartbeat(cfg.wait, s) && PingsOk(s.pool.conns, s.place, s.main, s.now)
    requires EntriesOk(s) && cfg.wait >= 0
    ensures Heartbeat(cfg.wait, AcceptInsertStep(cfg, s))
  {
    var t := AcceptInsertStep(cfg, s);
    if s.main.MTimed? && !TimerLocked(s) {
      InsertMembers(s.timer, Entry(s.main.t + cfg.wait, s.main.c, s.pool.conns[s.main.c].sequence));
      assert Exam(s.tim) == [];
    }
  }

  /** A pair that is in the timer once has one entry. */
  lemma {:induction false} OneEntry(q: seq<Entry>, d: Entry, e: Entry)
    requires d in q && e in q && d.Pair() == e.Pair() && Pairs(q)[e.Pair()] <= 1
    ensures d == e
    decreases |q|
  {
    assert q == [q[0]] + q[1..];
    PairsMember(q[1..], e.Pair());
    if d in q[1..] && e in q[1..] {
      OneEntry(q[1..], d, e);
    }
  }

  lemma DrainKeeps(cfg: Config, s: State)
    requires Heartbeat(cfg.wait, s) && TimerOk(s.timer, s.hist.dropped)
    ensures Heartbeat(cfg.wait, TimDrainStep(cfg, s))
  {
    if s.tim.TRead? {
      var t, cur := TimDrainStep(cfg, s), s.tim.cur;
      forall e: Entry | e in s.timer ensures Timely(s.pool.conns, s.place, cfg.wait, e) {
        assert !InExam(s.tim, e.Pair());
      }
      DueIsAllDue(s.timer, cur);
      forall e | e in t.timer && !InExam(t.tim, e.Pair()) ensures e in s.timer {
        DrainMembers(s.timer, cur, cfg.wait, e);
      }
      forall e | e in t.timer && InExam(t.tim, e.Pair()) ensures e.key == cur + cfg.wait {
        DrainMembers(s.timer, cur, cfg.wait, e);
        if e in s.timer && e.key > cur {
          var d :| d in Exam(t.tim) && d.Pair() == e.Pair();
          OneEntry(s.timer, d, e);
        }
      }
    }
  }

  /** An entry that passes the check has just been given a key within the time. */
  lemma CheckKeeps(cfg: Config, s: State)
    requires WellFormed(s) && Heartbeat(cfg.wait, s) && s.tim.TExam? && s.tim.todo != []
    requires TimCheckStep(cfg, s).tim == TExam(s.tim.cur, s.tim.todo[1..])
    ensures Heartbeat(cfg.wait, TimCheckStep(cfg, s))
  {
    var t, e0 := TimCheckStep(cfg, s), s.tim.todo[0];
    assert s.tim.todo == [e0] + t.tim.todo;
    assert InExam(s.tim, e0.Pair());
    forall e | e in t.timer && InExam(t.tim, e.Pair()) ensures InExam(s.tim, e.Pair()) {
      var d :| d in t.tim.todo && d.Pair() == e.Pair();
      assert d in Exam(s.tim);
    }
    forall e | e in t.timer && !InExam(t.tim, e.Pair()) ensures Timely(t.pool.conns, t.place, cfg.wait, e) {
      if e.Pair() != e0.Pair() {
        assert !InExam(s.tim, e.Pair());
      }
    }
  }

  /** The examined entry goes away, and no entry of its use that matters is left in the timer. */
  lemma HeadGoes(s: State, t: State, wait: int, e0: Entry)
    requires Heartbeat(wait, s) && EntriesOk(s) && KeepEntered.Grows(s, t) && KeepPings.Pinged(s, t) && s.now <= t.now
    requires Exam(s.tim) == [e0] + Exam(t.tim) && t.tim.TExam? && t.tim.cur == s.tim.cur
    requires forall e | e in t.timer ::
               e in s.timer && (e.Pair() == e0.Pair() ==> !Judgeable(t.pool.conns, t.place, e.Pair()))
    ensures Heartbeat(wait, t)
  {
    forall e | e in t.timer && !InExam(t.tim, e.Pair()) ensures Timely(t.pool.conns, t.place, wait, e) {
      if e.Pair() != e0.Pair() {
        assert !InExam(s.tim, e.Pair());
        TimerEntered(s, e);
        TimelyStays(s, t, wait, e);
      }
    }
    forall e | e in Exam(t.tim) ensures Timely(t.pool.conns, t.place, wait, e) {
      assert e in Exam(s.tim);
      ExamEntered(s, e);
      TimelyStays(s, t, wait, e);
    }
    forall e | e in t.timer && InExam(t.tim, e.Pair()) ensures e.key == t.tim.cur + wait {
      var d :| d in Exam(t.tim) && d.Pair() == e.Pair();
      assert d in Exam(s.tim);
      assert InExam(s.tim, e.Pair());
    }
  }

  lemma DeleteKeeps(s: State, wait: int)
    requires Heartbeat(wait, s) && EntriesOk(s)
    ensures Heartbeat(wait, TimDeleteStep(s))
  {
    var t := TimDeleteStep(s);
    if s.tim.TStale? || s.tim.TMarked? {
      DeleteMembers(s.timer, s.tim.e.Pair());
      forall e | e in t.timer && InExam(t.tim, e.Pair()) ensures InExam(s.tim, e.Pair()) {
        var d :| d in Exam(t.tim) && d.Pair() == e.Pair();
        assert d in Exam(s.tim);
      }
      forall e | e in t.timer && !InExam(t.tim, e.Pair()) ensures !InExam(s.tim, e.Pair()) {
      }
    }
  }

  /** What the timer thread does to the list, apart from a check that passes and the end of a kick. */
  lemma OtherWalks(cfg: Config, s: State, ev: Event)
    requires WellFormed(s) && (ev == TimStart || ev == TimCheck || ev == TimKick || ev == TimClear)
    requires s.tim.TKick? ==> s.pool.conns[s.tim.e.conn].fd != CLOSED
    requires ev == TimCheck ==>
               !(s.tim.TExam? && s.tim.todo != [] && TimCheckStep(cfg, s).tim.TExam? && TimCheckStep(cfg, s) != s)
    ensures var t := Apply(cfg, s, ev);
      && t.timer == s.timer && t.now == s.now && Exam(t.tim) == Exam(s.tim)
      && (t.tim.TIdle? || s.tim.TIdle? || t.tim.cur == s.tim.cur) && (Exam(s.tim) != [] ==> !t.tim.TIdle?)
      && (s.tim.TIdle? && !t.tim.TIdle? ==> t.tim.cur == s.now)
  {
    if ev == TimCheck && s.tim.TExam? && s.tim.todo != [] {
      CheckKeepsExam(cfg, s);
    }
  }

  /** An entry that does not pass the check stays in hand. */
  lemma CheckKeepsExam(cfg: Config, s: State)
    requires WellFormed(s) && s.tim.TExam? && s.tim.todo != []
    requires !TimCheckStep(cfg, s).tim.TExam? || TimCheckStep(cfg, s) == s
    ensures var t := TimCheckStep(cfg, s);
      && t.timer == s.timer && t.now == s.now && Exam(t.tim) == Exam(s.tim) && !t.tim.TIdle? && t.tim.cur == s.tim.cur
  {
    assert s.tim.todo == [s.tim.todo[0]] + s.tim.todo[1..];
  }

  lemma WalkKeeps(cfg: Config, s: State, ev: Event)
    requires WellFormed(s) && Heartbeat(cfg.wait, s) && EntriesOk(s)
    requires KeepEntered.Grows(s, Apply(cfg, s, ev)) && KeepPings.Pinged(s, Apply(cfg, s, ev))
    requires ev == TimStart || ev == TimCheck || ev == TimKick || ev == TimClear
    requires s.tim.TKick? ==> s.pool.conns[s.tim.e.conn].fd != CLOSED
    ensures Heartbeat(cfg.wait, Apply(cfg, s, ev))
  {
    var t := Apply(cfg, s, ev);
    if ev == TimCheck && s.tim.TExam? && s.tim.todo != [] && t.tim.TExam? && t != s {
      CheckKeeps(cfg, s);
    } else {
      OtherWalks(cfg, s, ev);
      SameEntries(s, t, cfg.wait);
    }
  }

  lemma EndKeeps(cfg: Config, s: State)
    requires WellFormed(s) && Heartbeat(cfg.wait, s) && EntriesOk(s)
    requires KeepEntered.Grows(s, TimEndStep(s)) && KeepPings.Pinged(s, TimEndStep(s))
    requires s.tim.TClosing? ==> s.tim.e.conn < |s.place| && s.place[s.tim.e.conn] == Closing
    ensures Heartbeat(cfg.wait, TimEndStep(s))
  {
    if s.tim.TClosing? && !RecyLocked(s) {
      HeadGoes(s, TimEndStep(s), cfg.wait, s.tim.e);
    }
  }

  /** What the kick finds. */
  lemma KickFinds(cfg: Config, s: State)
    requires WellFormed(s) && Places(cfg, s)
    ensures s.tim.TKick? ==> s.pool.conns[s.tim.e.conn].fd != CLOSED
    ensures s.tim.TClosing? ==> s.tim.e.conn < |s.place| && s.place[s.tim.e.conn] == Closing
  {
    if s.tim.TKick? {
      assert ConnOk(s.pool.conns[s.tim.e.conn], s.place[s.tim.e.conn]);
    }
  }

  lemma OtherKeeps(cfg: Config, s: State, ev: Event)
    requires WellFormed(s) && Heartbeat(cfg.wait, s) && EntriesOk(s) && !KeepTimer.Changes(ev) && !KeepTimer.Walks(ev)
    requires KeepEntered.Grows(s, Apply(cfg, s, ev)) && KeepPings.Pinged(s, Apply(cfg, s, ev))
    ensures Heartbeat(cfg.wait, Apply(cfg, s, ev))
  {
    KeepTimer.OtherEventSame(cfg, s, ev);
    SameEntries(s, Apply(cfg, s, ev), cfg.wait);
  }

  lemma EventKeeps(cfg: Config, s: State, ev: Event)
    requires WellFormed(s) && Places(cfg, s) && PingsOk(s.pool.conns, s.place, s.main, s.now) && EntriesOk(s)
    requires KeepEntered.Grows(s, Apply(cfg, s, ev)) && KeepPings.Pinged(s, Apply(cfg, s, ev))
    requires Heartbeat(cfg.wait, s) && TimerOk(s.timer, s.hist.dropped) && cfg.wait >= 0
    ensures Heartbeat(cfg.wait, Apply(cfg, s, ev))
  {
    KickFinds(cfg, s);
    if ev == AcceptInsert {
      InsertKeeps(cfg, s);
    } else if ev == TimDrain {
      DrainKeeps(cfg, s);
    } else if ev == TimDelete {
      DeleteKeeps(s, cfg.wait);
    } else if ev == TimEnd {
      EndKeeps(cfg, s);
    } else if KeepTimer.Walks(ev) {
      WalkKeeps(cfg, s, ev);
    } else {
      OtherKeeps(cfg, s, ev);
    }
  }
}
