/** Pool on the heap, each call uninterrupted: the methods are built from the same locked stretches
    the step system interleaves, and say what a caller sees. */
module PoolHeap {
  import opened Options
  import opened PoolModel
  import opened PoolCalls
  import opened IdleLists

  class Pool {
    const cfg: Config
    var closed: bool
    var active: int
    var ch: Channel
    const idle: IdleList
    var conns: map<Conn, PoolConn>
    ghost var out: map<Conn, Entry> // what conns holds
    ghost var closeLog: seq<Conn>   // every Close call made on a connection, in order
    ghost var repr: set<PoolConn>   // every node this pool made

    ghost predicate Valid()
      reads this, idle, idle.nodes, conns.Values
    {
      && idle.Valid()
      && (forall x :: x in idle.nodes ==> x in repr)
      && out.Keys == conns.Keys
      && (forall c :: c in conns ==>
            conns[c] in repr && conns[c].c == c && conns[c] !in idle.nodes && conns[c].ToEntry() == out[c])
    }

    /** The send at the end of a call finds room in an open channel. */
    ghost predicate ChannelFits()
      reads this
    {
      ch.Channel? ==> cfg.Limited() && ch.closed == closed && (!closed ==> ch.tokens + |out| <= cfg.maxActive)
    }

    /** A node of this pool that one caller holds: neither idle nor checked out. */
    ghost predicate Loose(pc: PoolConn)
      reads this, idle
    {
      pc in repr && pc !in idle.nodes && pc !in conns.Values
    }

    /** The fields the mutex protects, as the step system sees them. */
    ghost function View(): Shared
      reads this, idle
    {
      Shared(closed, active, ch, idle.entries, out)
    }

    ghost function Shot(next: GetNext): Snapshot
      reads this, idle
    {
      Snapshot(View(), next, closeLog)
    }

    /** The node a locked stretch of get leaves with. */
    ghost predicate Carries(next: GetNext, pc: PoolConn?)
      reads this, idle, pc
    {
      next.Prune? || next.Borrow? ==> pc != null && Loose(pc) && pc.ToEntry() == next.e
    }

    constructor (cfg: Config)
      ensures Valid() && this.cfg == cfg && closeLog == [] && fresh(idle)
      ensures View() == Shared(false, 0, NoChannel, [], map[])
    {
      this.cfg := cfg;
      closed, active, ch, conns, out, closeLog, repr := false, 0, NoChannel, map[], map[], [], {};
      idle := new IdleList();
    }

    method TakeFront() returns (pc: PoolConn)
      requires Valid() && idle.nodes != []
      modifies idle, repr`next, repr`prev
      ensures Valid() && Loose(pc) && pc == old(idle.front) && pc.ToEntry() == old(View()).idle[0]
      ensures View() == old(View()).(idle := old(View()).idle[1..])
    {
      pc := idle.front;
      idle.PopFront();
    }

    method TakeBack() returns (pc: PoolConn)
      requires Valid() && idle.nodes != []
      modifies idle, repr`next, repr`prev
      ensures Valid() && Loose(pc) && pc == old(idle.back) && pc.ToEntry() == old(View()).idle[|old(View()).idle| - 1]
      ensures View() == old(View()).(idle := old(View()).idle[..|old(View()).idle| - 1])
    {
      pc := idle.back;
      idle.PopBack();
    }

    method AddFront(pc: PoolConn)
      requires Valid() && Loose(pc)
      modifies idle, repr`next, repr`prev
      ensures Valid()
      ensures View() == old(View()).(idle := [pc.ToEntry()] + old(View()).idle)
    {
      idle.PushFront(pc);
    }

    /** get's locked stretch from the borrowing test to the next Unlock. */
    method LockedBorrow() returns (next: GetNext, pc: PoolConn?)
      requires Valid()
      modifies `active, idle, repr`next, repr`prev
      ensures Valid() && (View(), next) == BorrowOrDial(cfg, old(View()))
      ensures Carries(next, pc)
    {
      pc := idle.front;
      if pc != null {
        next := Borrow(pc.ToEntry());
        pc := TakeFront();
      } else if closed {
        next := RefuseClosed;
      } else if !cfg.wait && cfg.maxActive > 0 && active >= cfg.maxActive {
        next := RefuseExhausted;
      } else {
        next := Dial;
        active := active + 1;
      }
    }

    /** get's locked stretch from the prune test to the next Unlock. */
    method Locked(i: nat, n: nat, now: Time) returns (next: GetNext, pc: PoolConn?)
      requires Valid()
      modifies `active, idle, repr`next, repr`prev
      ensures Valid() && (View(), next) == PruneOrBorrow(cfg, old(View()), i, n, now)
      ensures next.Prune? ==> i < n
      ensures |View().idle| + (if next.Prune? || next.Borrow? then 1 else 0) <= |old(View()).idle|
      ensures Carries(next, pc)
    {
      pc := idle.back;
      if cfg.idleTimeout > 0 && i < n && pc != null && cfg.Stale(pc.ToEntry(), now) {
        next := Prune(pc.ToEntry());
        assert View().idle[idle.count - 1] == pc.ToEntry();
        pc := TakeBack();
      } else {
        next, pc := LockedBorrow();
      }
    }

    /** put's first locked stretch, up to the token. */
    method LockedPut(pc: PoolConn, now: Time) returns (victim: PoolConn?)
      requires Valid() && Loose(pc)
      modifies idle, pc`t, repr`next, repr`prev
      ensures Valid() && (victim != null ==> Loose(victim))
      ensures (View(), if victim == null then Keep else Evict(victim.ToEntry())) ==
              PutBack(cfg, old(View()), old(pc.ToEntry()), now)
    {
      victim := pc;
      if !closed {
        pc.t := now;
        AddFront(pc);
        if idle.count > cfg.maxIdle {
          victim := TakeBack();
        } else {
          victim := null;
        }
      }
    }

    /** lazyInit and the receive. */
    method Acquire()
      requires CanReceive(cfg, View()) && ChannelFits()
      requires cfg.Limited() && ch.NoChannel? ==> |out| == 0
      modifies `ch
      ensures View() == TakeToken(cfg, old(View())) && ChannelFits()
      ensures ch.Channel? && !closed ==> ch.tokens + |out| < cfg.maxActive
    {
      if cfg.Limited() {
        if ch == NoChannel {
          ch := if closed then Channel(0, true) else Channel(cfg.maxActive, false);
        }
        if ch.tokens > 0 {
          ch := ch.(tokens := ch.tokens - 1);
        }
      }
    }

    /** The guarded send; the caller holds a token of the open channel. */
    method SendToken()
      requires ReturnToken(cfg, View()).1 == NoFault
      modifies `ch
      ensures View() == ReturnToken(cfg, old(View())).0
    {
      if ch.Channel? && !closed {
        ch := ch.(tokens := ch.tokens + 1);
      }
    }

    /** Close on a pruned connection, Lock, and on to the next prune test. */
    method CloseAndPrune(stale: PoolConn, i: nat, n: nat, now: Time) returns (next: GetNext, pc: PoolConn?)
      requires Valid()
      modifies `active, `closeLog, idle, repr`next, repr`prev
      ensures Valid() && Carries(next, pc) && (next.Prune? ==> i < n)
      ensures Shot(next) == AfterPrune(cfg, old(View()), old(closeLog), stale.c, i, n, now)
      ensures |View().idle| + (if next.Prune? || next.Borrow? then 1 else 0) <= |old(View()).idle|
    {
      closeLog := closeLog + [stale.c];
      active := active - 1;
      next, pc := Locked(i, n, now);
    }

    /** get's first loop. */
    method PruneLoop(clock: seq<Time>) returns (next: GetNext, pc: PoolConn?)
      requires Valid() && |clock| > |View().idle|
      modifies `active, `closeLog, idle, repr`next, repr`prev
      ensures Valid() && Carries(next, pc) && !next.Prune?
      ensures Shot(next) == PruneRun(cfg, old(View()), old(closeLog), clock)
      ensures |View().idle| + (if next.Borrow? then 1 else 0) <= |old(View()).idle|
    {
      ghost var was, log := View(), closeLog;
      var i, n := 0, idle.count;
      next, pc := Locked(i, n, clock[i]);
      while next.Prune?
        invariant Valid() && Carries(next, pc)
        invariant 0 <= i <= n < |clock| && n == |was.idle| && (next.Prune? ==> i < n)
        invariant |View().idle| + (if next.Prune? || next.Borrow? then 1 else 0) <= |was.idle|
        invariant PruneFrom(cfg, Shot(next), i, n, clock) == PruneRun(cfg, was, log, clock)
        decreases n - i
      {
        next, pc := CloseAndPrune(pc, i + 1, n, clock[i + 1]);
        i := i + 1;
      }
    }

    /** Close on a rejected candidate, Lock, and on to the next candidate. */
    method CloseAndBorrow(bad: PoolConn) returns (next: GetNext, pc: PoolConn?)
      requires Valid()
      modifies `active, `closeLog, idle, repr`next, repr`prev
      ensures Valid() && Carries(next, pc) && !next.Prune?
      ensures Shot(next) == AfterReject(cfg, old(View()), old(closeLog), bad.c)
      ensures |View().idle| + (if next.Borrow? then 1 else 0) <= |old(View()).idle|
    {
      closeLog := closeLog + [bad.c];
      active := active - 1;
      next, pc := LockedBorrow();
    }

    /** get's second loop. */
    method BorrowLoop(first: GetNext, candidate: PoolConn?, w: World) returns (next: GetNext, pc: PoolConn?)
      requires Valid() && Carries(first, candidate) && !first.Prune?
      requires |w.tested| == |w.ages| >= |View().idle| + (if first.Borrow? then 1 else 0)
      modifies `active, `closeLog, idle, repr`next, repr`prev
      ensures Valid() && Carries(next, pc) && !next.Prune?
      ensures Shot(next) == BorrowFrom(cfg, old(Shot(first)), 0, w)
    {
      next, pc := first, candidate;
      var j := 0;
      while next.Borrow? && !(w.tested[j] && cfg.Young(pc.ToEntry(), w.ages[j]))
        invariant Valid() && Carries(next, pc) && !next.Prune?
        invariant j + |View().idle| + (if next.Borrow? then 1 else 0) <= |w.tested|
        invariant BorrowFrom(cfg, Shot(next), j, w) == BorrowFrom(cfg, old(Shot(first)), 0, w)
        decreases |w.tested| - j
      {
        next, pc := CloseAndBorrow(pc);
        j := j + 1;
      }
    }

    /** Get's locked insertion into poolConnMap. */
    method Insert(pc: PoolConn)
      requires Valid() && Loose(pc)
      modifies `conns, `out
      ensures Valid() && View() == old(View()).(out := old(out)[pc.c := pc.ToEntry()])
    {
      conns, out := conns[pc.c := pc], out[pc.c := pc.ToEntry()];
    }

    /** Put's locked removal from poolConnMap. */
    method Claim(c: Conn) returns (pc: PoolConn)
      requires Valid() && c in conns
      modifies `conns, `out
      ensures Valid() && View() == old(View()).(out := old(out) - {c})
      ensures Loose(pc) && pc.ToEntry() == old(out)[c]
    {
      pc := conns[c];
      conns, out := conns - {c}, out - {c};
    }

    /** A connection Dial made, inserted. */
    method InsertNew(c: Conn, now: Time)
      requires Valid()
      modifies `repr, `conns, `out
      ensures Valid() && View() == old(View()).(out := old(out)[c := Entry(c, 0, now)])
    {
      var made := new PoolConn(c, now);
      repr := repr + {made};
      Insert(made);
    }

    /** The end of get, and Get's insertion. */
    method FinishUp(next: GetNext, pc: PoolConn?, w: World) returns (r: Option<Conn>)
      requires Valid() && Carries(next, pc) && !next.Prune? && ChannelFits()
      requires ch.Channel? && !closed ==> ch.tokens + |out| < cfg.maxActive
      modifies `repr, `conns, `out, `active, `ch
      ensures Valid() && ChannelFits()
      ensures Result(View(), closeLog, r) == FinishGet(cfg, old(Shot(next)), w)
    {
      r := None;
      match next {
        case Borrow(_) =>
          Insert(pc);
          r := Some(pc.c);
        case Dial =>
          if w.dial.Some? {
            InsertNew(w.dial.value, w.dialedAt);
            r := w.dial;
          } else {
            active := active - 1;
            SendToken();
          }
        case _ =>
      }
    }

    /** Get: the connection, or nothing where the source returns nil. */
    method Get(w: World) returns (r: Option<Conn>)
      requires Valid() && ChannelFits() && (cfg.Limited() && ch.NoChannel? ==> |out| == 0)
      requires CanReceive(cfg, View()) && Answers(w, |View().idle|)
      modifies this, idle, repr`next, repr`prev
      ensures Valid() && ChannelFits()
      ensures Result(View(), closeLog, r) == GetCall(cfg, old(View()), old(closeLog), w)
    {
      Acquire();
      var next, pc := PruneLoop(w.clock);
      next, pc := BorrowLoop(next, pc, w);
      r := FinishUp(next, pc, w);
    }

    /** The end of put. */
    method Discard(victim: PoolConn?)
      requires Valid() && ChannelFits()
      requires ch.Channel? && !closed ==> ch.tokens + |out| < cfg.maxActive
      modifies `closeLog, `active, `ch
      ensures Valid() && ChannelFits()
      ensures Result(View(), closeLog, None) ==
              FinishPut(cfg, (old(View()), if victim == null then Keep else Evict(victim.ToEntry())), old(closeLog))
    {
      if victim != null {
        closeLog := closeLog + [victim.c];
        active := active - 1;
      }
      SendToken();
    }

    /** Put of a connection that is checked out. */
    method Put(c: Conn, now: Time)
      requires Valid() && ChannelFits() && c in conns
      modifies this, idle, repr
      ensures Valid() && ChannelFits()
      ensures Result(View(), closeLog, None) == PutCall(cfg, old(View()), old(closeLog), c, now)
    {
      var pc := Claim(c);
      var victim := LockedPut(pc, now);
      Discard(victim);
    }

    /** Close's locked stretch, on an open pool. */
    method LockedClose() returns (first: PoolConn?, ghost chain: seq<PoolConn>)
      requires Valid() && ChannelFits() && !closed
      modifies `closed, `active, `ch, idle
      ensures Valid() && ChannelFits() && View() == Shut(old(View())).0
      ensures chain == old(idle.nodes) && Chained(chain) && first == (if chain == [] then null else chain[0])
    {
      closed := true;
      active := active - idle.count;
      first, chain := idle.Detach();
      if ch.Channel? {
        ch := ch.(closed := true);
      }
    }

    /** Close: detach the list under the mutex, then walk the detached chain. */
    method Close()
      requires Valid() && ChannelFits()
      modifies this, idle
      ensures Valid() && ChannelFits()
      ensures Result(View(), closeLog, None) == CloseCall(old(View()), old(closeLog))
      ensures CloseLeaves(old(View()), old(closeLog), Result(View(), closeLog, None))
    {
      CloseMeans(View(), closeLog);
      if !closed {
        ghost var entries := idle.entries;
        var first, chain := LockedClose();
        var cs := Walk(first, chain);
        assert cs == Conns(entries);
        closeLog := closeLog + cs;
      }
    }
  }
}
