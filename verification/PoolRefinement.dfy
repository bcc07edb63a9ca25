/** An uninterrupted call is one of the interleavings: the functions of PoolCalls, which the heap
    classes implement, are runs of the step system with one goroutine.  What holds of every run
    therefore holds of the heap. */
module PoolRefinement {
  import opened Options
  import opened PoolModel
  import PoolSteps
  import opened PoolProofs
  import opened PoolCalls

  type State = PoolSteps.State
  type Event = PoolSteps.Event

  ghost predicate Reaches(cfg: Config, s: State, t: State) {
    exists evs: seq<Event> :: PoolSteps.Exec(cfg, s, evs) == t
  }

  lemma ReachesStep(cfg: Config, s: State, ev: Event)
    ensures Reaches(cfg, s, PoolSteps.Apply(cfg, s, ev))
  {
    assert PoolSteps.Exec(cfg, s, []) == s;
    assert [ev][..0] == [];
    assert PoolSteps.Exec(cfg, s, [ev]) == PoolSteps.Apply(cfg, s, ev);
  }

  lemma ReachesRefl(cfg: Config, s: State)
    ensures Reaches(cfg, s, s)
  {
    assert PoolSteps.Exec(cfg, s, []) == s;
  }

  lemma ReachesTrans(cfg: Config, s: State, t: State, u: State)
    requires Reaches(cfg, s, t) && Reaches(cfg, t, u)
    ensures Reaches(cfg, s, u)
  {
    var a :| PoolSteps.Exec(cfg, s, a) == t;
    var b :| PoolSteps.Exec(cfg, t, b) == u;
    ExecAppend(cfg, s, a, b);
  }

  lemma {:induction false} ReachesKeeps(cfg: Config, s: State, evs: seq<Event>)
    requires Inv(cfg, s)
    ensures Inv(cfg, PoolSteps.Exec(cfg, s, evs))
  {
    if evs != [] {
      var before, ev := PoolSteps.Exec(cfg, s, evs[..|evs| - 1]), evs[|evs| - 1];
      ReachesKeeps(cfg, s, evs[..|evs| - 1]);
      StepKeeps(cfg, before, ev);
    }
  }

  /** What a call leaves alone: the configuration, what was dialed before, and the Close calls
      counted before. */
  datatype Frame = Frame(cfg: Config, dialed: set<Conn>, base: multiset<Conn>)

  /** One goroutine in phase `ph`, having closed `log`. */
  function At(f: Frame, sh: Shared, ph: PoolSteps.Phase, log: seq<Conn>, now: Time): State {
    PoolSteps.State(sh, [ph], f.dialed, f.base + multiset(log), now, NoFault)
  }

  function Logged(log: seq<Conn>, c: Option<Conn>): seq<Conn> {
    if c.Some? then log + [c.value] else log
  }

  function After(f: Frame, m: PoolSteps.Move, log: seq<Conn>, now: Time): State {
    At(if m.dialed.Some? then f.(dialed := f.dialed + {m.dialed.value}) else f, m.sh, m.ph, Logged(log, m.closed), now)
  }

  lemma CommitAt(f: Frame, sh: Shared, ph: PoolSteps.Phase, log: seq<Conn>, now: Time, m: PoolSteps.Move)
    requires m.fault == NoFault
    ensures PoolSteps.Commit(At(f, sh, ph, log, now), 0, m) == After(f, m, log, now)
  {
  }

  /** Let the clock advance, then take the goroutine's next step. */
  lemma RunAt(f: Frame, sh: Shared, ph: PoolSteps.Phase, log: seq<Conn>, now: Time, later: Time, env: PoolSteps.Env)
    requires now <= later && PoolSteps.Advance(f.cfg, sh, ph, env, later, f.dialed).fault == NoFault
    ensures Reaches(f.cfg, At(f, sh, ph, log, now),
                    After(f, PoolSteps.Advance(f.cfg, sh, ph, env, later, f.dialed), log, later))
  {
    var s := At(f, sh, ph, log, later);
    CommitAt(f, sh, ph, log, later, PoolSteps.Advance(f.cfg, sh, ph, env, later, f.dialed));
    ReachesStep(f.cfg, At(f, sh, ph, log, now), PoolSteps.Tick(later - now));
    ReachesStep(f.cfg, s, PoolSteps.Run(0, env));
    ReachesTrans(f.cfg, At(f, sh, ph, log, now), s, PoolSteps.Apply(f.cfg, s, PoolSteps.Run(0, env)));
  }

  const ANY_ENV := PoolSteps.Env(true, true, 0)

  // ----- get's loops

  function PhaseOf(next: GetNext, i: nat, n: nat): PoolSteps.Phase {
    match next
    case Prune(e) => PoolSteps.Pruned(e, i, n)
    case Borrow(e) => PoolSteps.Testing(e)
    case Dial => PoolSteps.Dialing
    case _ => PoolSteps.Ready
  }

  /** After a locked stretch of get. */
  function AtShot(f: Frame, s: Snapshot, i: nat, n: nat, now: Time): State {
    At(f, s.sh, PhaseOf(s.next, i, n), s.log, now)
  }

  /** A locked stretch of get that ends in `r`. */
  lemma LockedAt(
      f: Frame, sh: Shared, ph: PoolSteps.Phase, log: seq<Conn>, now: Time, later: Time, r: (Shared, GetNext), i: nat,
      n: nat)
    requires now <= later && PoolSteps.Advance(f.cfg, sh, ph, ANY_ENV, later, f.dialed) == PoolSteps.AfterGet(r, i, n)
    ensures Reaches(f.cfg, At(f, sh, ph, log, now), AtShot(f, Snapshot(r.0, r.1, log), i, n, later))
  {
    RunAt(f, sh, ph, log, now, later, ANY_ENV);
  }

  lemma ClosePruned(f: Frame, sh: Shared, e: Entry, i: nat, n: nat, log: seq<Conn>, now: Time)
    ensures Reaches(f.cfg, At(f, sh, PoolSteps.Pruned(e, i, n), log, now),
                    At(f, sh, PoolSteps.PrunedClosed(i, n), log + [e.c], now))
  {
    RunAt(f, sh, PoolSteps.Pruned(e, i, n), log, now, now, ANY_ENV);
  }

  lemma PruneAgain(f: Frame, sh: Shared, i: nat, n: nat, log: seq<Conn>, now: Time, later: Time)
    requires now <= later
    ensures var (sh', next') := PruneOrBorrow(f.cfg, sh.(active := sh.active - 1), i + 1, n, later);
            Reaches(f.cfg, At(f, sh, PoolSteps.PrunedClosed(i, n), log, now),
                    AtShot(f, Snapshot(sh', next', log), i + 1, n, later))
  {
    var r := PruneOrBorrow(f.cfg, sh.(active := sh.active - 1), i + 1, n, later);
    LockedAt(f, sh, PoolSteps.PrunedClosed(i, n), log, now, later, r, i + 1, n);
  }

  lemma PruneStep(f: Frame, s: Snapshot, i: nat, n: nat, now: Time, later: Time)
    requires s.next.Prune? && now <= later
    ensures Reaches(f.cfg, AtShot(f, s, i, n, now),
                    AtShot(f, AfterPrune(f.cfg, s.sh, s.log, s.next.e.c, i + 1, n, later), i + 1, n, later))
  {
    var log := s.log + [s.next.e.c];
    ClosePruned(f, s.sh, s.next.e, i, n, s.log, now);
    PruneAgain(f, s.sh, i, n, log, now, later);
    ReachesTrans(f.cfg, AtShot(f, s, i, n, now), At(f, s.sh, PoolSteps.PrunedClosed(i, n), log, now),
                 AtShot(f, AfterPrune(f.cfg, s.sh, s.log, s.next.e.c, i + 1, n, later), i + 1, n, later));
  }

  lemma PruneThen(f: Frame, s: Snapshot, i: nat, n: nat, now: Time, later: Time, u: State)
    requires s.next.Prune? && now <= later
    requires Reaches(f.cfg, AtShot(f, AfterPrune(f.cfg, s.sh, s.log, s.next.e.c, i + 1, n, later), i + 1, n, later), u)
    ensures Reaches(f.cfg, AtShot(f, s, i, n, now), u)
  {
    PruneStep(f, s, i, n, now, later);
    ReachesTrans(f.cfg, AtShot(f, s, i, n, now),
                 AtShot(f, AfterPrune(f.cfg, s.sh, s.log, s.next.e.c, i + 1, n, later), i + 1, n, later), u);
  }

  lemma PruneFromNext(cfg: Config, s: Snapshot, i: nat, n: nat, clock: seq<Time>)
    requires i <= n < |clock|
    ensures PruneFrom(cfg, s, i, n, clock) ==
            if s.next.Prune? && i < n
            then PruneFrom(cfg, AfterPrune(cfg, s.sh, s.log, s.next.e.c, i + 1, n, clock[i + 1]), i + 1, n, clock)
            else s
  {
  }

  /** The loop, down to `r`. */
  lemma {:induction false} PrunePath(f: Frame, s: Snapshot, i: nat, n: nat, clock: seq<Time>, r: Snapshot)
      returns (t: Time)
    requires i <= n < |clock| && Monotone(clock) && (s.next.Prune? ==> i < n)
    requires r == PruneFrom(f.cfg, s, i, n, clock)
    ensures clock[i] <= t <= clock[n] && !r.next.Prune?
    ensures Reaches(f.cfg, AtShot(f, s, i, n, clock[i]), AtShot(f, r, 0, 0, t))
    decreases n - i
  {
    PruneFromNext(f.cfg, s, i, n, clock);
    if s.next.Prune? {
      t := PrunePath(f, AfterPrune(f.cfg, s.sh, s.log, s.next.e.c, i + 1, n, clock[i + 1]), i + 1, n, clock, r);
      PruneThen(f, s, i, n, clock[i], clock[i + 1], AtShot(f, r, 0, 0, t));
    } else {
      t := clock[i];
      ReachesRefl(f.cfg, AtShot(f, s, 0, 0, t));
    }
  }

  lemma TestFails(f: Frame, sh: Shared, e: Entry, log: seq<Conn>, now: Time, tested: bool, later: Time)
    requires now <= later && !(tested && f.cfg.Young(e, later))
    ensures Reaches(f.cfg, At(f, sh, PoolSteps.Testing(e), log, now), At(f, sh, PoolSteps.Rejected(e), log, later))
  {
    RunAt(f, sh, PoolSteps.Testing(e), log, now, later, ANY_ENV.(tested := tested));
  }

  lemma CloseRejected(f: Frame, sh: Shared, e: Entry, log: seq<Conn>, now: Time)
    ensures Reaches(f.cfg, At(f, sh, PoolSteps.Rejected(e), log, now),
                    At(f, sh, PoolSteps.RejectedClosed, log + [e.c], now))
  {
    RunAt(f, sh, PoolSteps.Rejected(e), log, now, now, ANY_ENV);
  }

  lemma BorrowAgain(f: Frame, sh: Shared, log: seq<Conn>, now: Time)
    ensures var (sh', next') := BorrowOrDial(f.cfg, sh.(active := sh.active - 1));
            Reaches(f.cfg, At(f, sh, PoolSteps.RejectedClosed, log, now),
                    AtShot(f, Snapshot(sh', next', log), 0, 0, now))
  {
    LockedAt(f, sh, PoolSteps.RejectedClosed, log, now, now, BorrowOrDial(f.cfg, sh.(active := sh.active - 1)), 0, 0);
  }

  lemma RejectStep(f: Frame, s: Snapshot, j: nat, w: World, now: Time)
    requires s.next.Borrow? && j < |w.tested| == |w.ages| && now <= w.ages[j] && !Passes(f.cfg, s.next.e, j, w)
    ensures Reaches(f.cfg, AtShot(f, s, 0, 0, now),
                    AtShot(f, AfterReject(f.cfg, s.sh, s.log, s.next.e.c), 0, 0, w.ages[j]))
  {
    var e, later := s.next.e, w.ages[j];
    var start, log := AtShot(f, s, 0, 0, now), s.log + [e.c];
    TestFails(f, s.sh, e, s.log, now, w.tested[j], later);
    CloseRejected(f, s.sh, e, s.log, later);
    ReachesTrans(f.cfg, start, At(f, s.sh, PoolSteps.Rejected(e), s.log, later),
                 At(f, s.sh, PoolSteps.RejectedClosed, log, later));
    BorrowAgain(f, s.sh, log, later);
    ReachesTrans(f.cfg, start, At(f, s.sh, PoolSteps.RejectedClosed, log, later),
                 AtShot(f, AfterReject(f.cfg, s.sh, s.log, e.c), 0, 0, later));
  }

  /** Candidates still in the list, with the one in hand. */
  function ToGo(s: Snapshot): nat {
    |s.sh.idle| + if s.next.Borrow? then 1 else 0
  }

  lemma {:induction false} BorrowPath(f: Frame, s: Snapshot, j: nat, w: World, now: Time) returns (k: nat, t: Time)
    requires !s.next.Prune? && j + ToGo(s) <= |w.tested| == |w.ages| && Monotone(w.ages)
    requires forall x :: j <= x < |w.ages| ==> now <= w.ages[x]
    ensures !BorrowFrom(f.cfg, s, j, w).next.Prune?
    ensures Reaches(f.cfg, AtShot(f, s, 0, 0, now), AtShot(f, BorrowFrom(f.cfg, s, j, w), 0, 0, t))
    ensures BorrowFrom(f.cfg, s, j, w).next.Borrow? ==>
              k < |w.ages| && t <= w.ages[k] && Passes(f.cfg, BorrowFrom(f.cfg, s, j, w).next.e, k, w)
    ensures now <= t && (t == now || exists x :: j <= x < |w.ages| && t == w.ages[x])
    decreases |w.tested| - j
  {
    if s.next.Borrow? && !Passes(f.cfg, s.next.e, j, w) {
      var s' := AfterReject(f.cfg, s.sh, s.log, s.next.e.c);
      RejectStep(f, s, j, w, now);
      k, t := BorrowPath(f, s', j + 1, w, w.ages[j]);
      ReachesTrans(f.cfg, AtShot(f, s, 0, 0, now), AtShot(f, s', 0, 0, w.ages[j]),
                   AtShot(f, BorrowFrom(f.cfg, s, j, w), 0, 0, t));
    } else {
      k, t := j, now;
      assert PoolSteps.Exec(f.cfg, AtShot(f, s, 0, 0, now), []) == AtShot(f, s, 0, 0, now);
    }
  }

  // ----- whole calls

  lemma CallAt(f: Frame, sh: Shared, log: seq<Conn>, now: Time, ev: Event, ph: PoolSteps.Phase, sh': Shared)
    requires PoolSteps.Apply(f.cfg, At(f, sh, PoolSteps.Ready, log, now), ev) == At(f, sh', ph, log, now)
    ensures Reaches(f.cfg, At(f, sh, PoolSteps.Ready, log, now), At(f, sh', ph, log, now))
  {
    ReachesStep(f.cfg, At(f, sh, PoolSteps.Ready, log, now), ev);
  }

  /** Calling Get, lazyInit and the receive. */
  lemma EnterPath(f: Frame, sh: Shared, log: seq<Conn>, now: Time)
    requires CanReceive(f.cfg, sh)
    ensures Reaches(f.cfg, At(f, sh, PoolSteps.Ready, log, now),
                    At(f, TakeToken(f.cfg, sh), PoolSteps.GetEnter, log, now))
  {
    var start := At(f, sh, PoolSteps.Ready, log, now);
    if f.cfg.Limited() {
      var made := LazyInit(f.cfg, sh);
      CallAt(f, sh, log, now, PoolSteps.CallGet(0), PoolSteps.GetInit, sh);
      RunAt(f, sh, PoolSteps.GetInit, log, now, now, ANY_ENV);
      ReachesTrans(f.cfg, start, At(f, sh, PoolSteps.GetInit, log, now), At(f, made, PoolSteps.GetRecv, log, now));
      RunAt(f, made, PoolSteps.GetRecv, log, now, now, ANY_ENV);
      ReachesTrans(f.cfg, start, At(f, made, PoolSteps.GetRecv, log, now),
                   At(f, TakeToken(f.cfg, sh), PoolSteps.GetEnter, log, now));
    } else {
      CallAt(f, sh, log, now, PoolSteps.CallGet(0), PoolSteps.GetEnter, sh);
    }
  }

  lemma FirstLock(f: Frame, sh: Shared, log: seq<Conn>, now: Time, later: Time)
    requires now <= later
    ensures var (sh', next') := PruneOrBorrow(f.cfg, sh, 0, |sh.idle|, later);
            Reaches(f.cfg, At(f, sh, PoolSteps.GetEnter, log, now),
                    AtShot(f, Snapshot(sh', next', log), 0, |sh.idle|, later))
  {
    LockedAt(f, sh, PoolSteps.GetEnter, log, now, later, PruneOrBorrow(f.cfg, sh, 0, |sh.idle|, later), 0, |sh.idle|);
  }

  lemma HandOut(f: Frame, s: Snapshot, now: Time, later: Time)
    requires s.next.Borrow? && now <= later && f.cfg.Young(s.next.e, later)
    ensures Reaches(f.cfg, AtShot(f, s, 0, 0, now),
                    At(f, s.sh.(out := s.sh.out[s.next.e.c := s.next.e]), PoolSteps.Ready, s.log, later))
  {
    var e := s.next.e;
    RunAt(f, s.sh, PoolSteps.Testing(e), s.log, now, later, ANY_ENV);
    RunAt(f, s.sh, PoolSteps.Got(e), s.log, later, later, ANY_ENV);
    ReachesTrans(f.cfg, AtShot(f, s, 0, 0, now), At(f, s.sh, PoolSteps.Got(e), s.log, later),
                 At(f, s.sh.(out := s.sh.out[e.c := e]), PoolSteps.Ready, s.log, later));
  }

  lemma DialOne(f: Frame, s: Snapshot, now: Time, later: Time, c: Conn)
    requires s.next.Dial? && now <= later && c !in f.dialed
    ensures Reaches(f.cfg, AtShot(f, s, 0, 0, now),
                    At(f.(dialed := f.dialed + {c}), s.sh.(out := s.sh.out[c := Entry(c, 0, later)]), PoolSteps.Ready,
                       s.log, later))
  {
    var e, f' := Entry(c, 0, later), f.(dialed := f.dialed + {c});
    RunAt(f, s.sh, PoolSteps.Dialing, s.log, now, later, PoolSteps.Env(true, true, c));
    RunAt(f', s.sh, PoolSteps.Got(e), s.log, later, later, ANY_ENV);
    ReachesTrans(f.cfg, AtShot(f, s, 0, 0, now), At(f', s.sh, PoolSteps.Got(e), s.log, later),
                 At(f', s.sh.(out := s.sh.out[c := e]), PoolSteps.Ready, s.log, later));
  }

  lemma KeptByReaches(cfg: Config, s: State, t: State)
    requires Inv(cfg, s) && Reaches(cfg, s, t)
    ensures Inv(cfg, t)
  {
    var evs :| PoolSteps.Exec(cfg, s, evs) == t;
    ReachesKeeps(cfg, s, evs);
  }

  /** In a state that keeps the invariant, a goroutine other than a foreign put meets no fault. */
  lemma SendsFit(cfg: Config, s: State)
    requires Inv(cfg, s) && s.fault == NoFault && |s.procs| == 1 && s.procs[0] != PoolSteps.PutNil
    ensures forall env :: PoolSteps.Advance(cfg, s.sh, s.procs[0], env, s.now, s.dialed).fault == NoFault
  {
  }

  /** The locked stretches that give a slot and a token back. */
  lemma GivesBack(f: Frame, sh: Shared, ph: PoolSteps.Phase, log: seq<Conn>, now: Time)
    requires ph in {PoolSteps.DialFailed, PoolSteps.EvictedClosed} && Inv(f.cfg, At(f, sh, ph, log, now))
    ensures Reaches(f.cfg, At(f, sh, ph, log, now),
                    At(f, ReturnToken(f.cfg, sh.(active := sh.active - 1)).0, PoolSteps.Ready, log, now))
  {
    SendsFit(f.cfg, At(f, sh, ph, log, now));
    assert PoolSteps.Advance(f.cfg, sh, ph, ANY_ENV, now, f.dialed) ==
        PoolSteps.AfterSend(ReturnToken(f.cfg, PoolSteps.Released(sh)));
    RunAt(f, sh, ph, log, now, now, ANY_ENV);
  }

  lemma DialFails(f: Frame, sh: Shared, log: seq<Conn>, now: Time, later: Time)
    requires now <= later
    ensures Reaches(f.cfg, At(f, sh, PoolSteps.Dialing, log, now), At(f, sh, PoolSteps.DialFailed, log, later))
  {
    RunAt(f, sh, PoolSteps.Dialing, log, now, later, PoolSteps.Env(true, false, 0));
  }

  lemma DialNone(f: Frame, s: Snapshot, now: Time, later: Time)
    requires s.next.Dial? && now <= later && Inv(f.cfg, AtShot(f, s, 0, 0, now))
    ensures Reaches(f.cfg, AtShot(f, s, 0, 0, now),
                    At(f, ReturnToken(f.cfg, s.sh.(active := s.sh.active - 1)).0, PoolSteps.Ready, s.log, later))
  {
    var mid := At(f, s.sh, PoolSteps.DialFailed, s.log, later);
    DialFails(f, s.sh, s.log, now, later);
    KeptByReaches(f.cfg, AtShot(f, s, 0, 0, now), mid);
    GivesBack(f, s.sh, PoolSteps.DialFailed, s.log, later);
    ReachesTrans(f.cfg, AtShot(f, s, 0, 0, now), mid,
                 At(f, ReturnToken(f.cfg, s.sh.(active := s.sh.active - 1)).0, PoolSteps.Ready, s.log, later));
  }

  /** get's answers come later and later. */
  ghost predicate Timed(w: World, now: Time) {
    && Monotone(w.clock) && Monotone(w.ages)
    && (forall i :: 0 <= i < |w.clock| ==> now <= w.clock[i] <= w.dialedAt)
    && (forall i, j :: 0 <= i < |w.clock| && 0 <= j < |w.ages| ==> w.clock[i] <= w.ages[j])
    && (forall j :: 0 <= j < |w.ages| ==> w.ages[j] <= w.dialedAt)
  }

  /** A step-system state with its only goroutine between calls, after the Close calls in `log`. */
  ghost predicate AtRest(cfg: Config, s: State, log: seq<Conn>) {
    Inv(cfg, s) && s.procs == [PoolSteps.Ready] && s.fault == NoFault && s.closes == multiset(log)
  }

  /** Both loops of get, after the receive. */
  lemma SearchPath(f: Frame, sh: Shared, log: seq<Conn>, now: Time, w: World) returns (k: nat, t: Time)
    requires Answers(w, |sh.idle|) && Timed(w, now)
    ensures var s := Search(f.cfg, sh, log, w);
            && !s.next.Prune? && t <= w.dialedAt
            && Reaches(f.cfg, At(f, sh, PoolSteps.GetEnter, log, now), AtShot(f, s, 0, 0, t))
            && (s.next.Borrow? ==> k < |w.ages| && t <= w.ages[k] && Passes(f.cfg, s.next.e, k, w))
  {
    var n := |sh.idle|;
    var (sh', next') := PruneOrBorrow(f.cfg, sh, 0, n, w.clock[0]);
    var s0 := Snapshot(sh', next', log);
    var start := At(f, sh, PoolSteps.GetEnter, log, now);
    FirstLock(f, sh, log, now, w.clock[0]);
    var s1 := PruneRun(f.cfg, sh, log, w.clock);
    var t1 := PrunePath(f, s0, 0, n, w.clock, s1);
    ReachesTrans(f.cfg, start, AtShot(f, s0, 0, n, w.clock[0]), AtShot(f, s1, 0, 0, t1));
    PruneShrinks(f.cfg, s0, 0, n, w.clock);
    k, t := BorrowPath(f, s1, 0, w, t1);
    ReachesTrans(f.cfg, start, AtShot(f, s1, 0, 0, t1), AtShot(f, Search(f.cfg, sh, log, w), 0, 0, t));
  }

  /** The list and the connection in hand never outgrow what get found. */
  lemma {:induction false} PruneShrinks(cfg: Config, s: Snapshot, i: nat, n: nat, clock: seq<Time>)
    requires i <= n < |clock|
    ensures var r := PruneFrom(cfg, s, i, n, clock);
            |r.sh.idle| + (if r.next.Prune? || r.next.Borrow? then 1 else 0) <=
            |s.sh.idle| + (if s.next.Prune? || s.next.Borrow? then 1 else 0)
    decreases n - i
  {
    if s.next.Prune? && i < n {
      PruneShrinks(cfg, AfterPrune(cfg, s.sh, s.log, s.next.e.c, i + 1, n, clock[i + 1]), i + 1, n, clock);
    }
  }

  /** An uninterrupted Get is a run of the step system, and leaves the pool at rest. */
  lemma GetIsARun(cfg: Config, s: State, log: seq<Conn>, w: World) returns (t: State)
    requires AtRest(cfg, s, log) && CanReceive(cfg, s.sh) && Answers(w, |s.sh.idle|) && Timed(w, s.now)
    requires w.dial.Some? ==> w.dial.value !in s.dialed
    ensures Reaches(cfg, s, t) && t.sh == GetCall(cfg, s.sh, log, w).sh
            && AtRest(cfg, t, GetCall(cfg, s.sh, log, w).log)
  {
    var f, sh1 := Frame(cfg, s.dialed, multiset{}), TakeToken(cfg, s.sh);
    assert s == At(f, s.sh, PoolSteps.Ready, log, s.now);
    EnterPath(f, s.sh, log, s.now);
    var k, u := SearchPath(f, sh1, log, s.now, w);
    var shot := Search(cfg, sh1, log, w);
    var mid := AtShot(f, shot, 0, 0, u);
    ReachesTrans(cfg, s, At(f, sh1, PoolSteps.GetEnter, log, s.now), mid);
    KeptByReaches(cfg, s, mid);
    t := FinishPath(f, shot, u, k, w);
    ReachesTrans(cfg, s, mid, t);
    KeptByReaches(cfg, s, t);
  }

  lemma FinishPath(f: Frame, s: Snapshot, now: Time, k: nat, w: World) returns (t: State)
    requires !s.next.Prune? && now <= w.dialedAt && |w.tested| == |w.ages|
    requires s.next.Borrow? ==> k < |w.ages| && now <= w.ages[k] && Passes(f.cfg, s.next.e, k, w)
    requires Inv(f.cfg, AtShot(f, s, 0, 0, now)) && (w.dial.Some? ==> w.dial.value !in f.dialed)
    ensures Reaches(f.cfg, AtShot(f, s, 0, 0, now), t)
    ensures t.procs == [PoolSteps.Ready] && t.fault == NoFault && t.closes == f.base + multiset(s.log)
    ensures t.sh == FinishGet(f.cfg, s, w).sh
  {
    match s.next {
      case Borrow(e) =>
        HandOut(f, s, now, w.ages[k]);
        t := At(f, s.sh.(out := s.sh.out[e.c := e]), PoolSteps.Ready, s.log, w.ages[k]);
      case Dial =>
        if w.dial.Some? {
          var c := w.dial.value;
          DialOne(f, s, now, w.dialedAt, c);
          t := At(f.(dialed := f.dialed + {c}), s.sh.(out := s.sh.out[c := Entry(c, 0, w.dialedAt)]), PoolSteps.Ready,
                  s.log, w.dialedAt);
        } else {
          DialNone(f, s, now, w.dialedAt);
          t := At(f, ReturnToken(f.cfg, s.sh.(active := s.sh.active - 1)).0, PoolSteps.Ready, s.log, w.dialedAt);
        }
      case RefuseClosed | RefuseExhausted =>
        t := At(f, s.sh, PoolSteps.Ready, s.log, now);
        ReachesRefl(f.cfg, t);
    }
  }

  /** With nothing else in progress, a Get blocks exactly when the pool is limited and open and all
      maxActive connections are checked out. */
  lemma GetProceedsIff(cfg: Config, s: State, log: seq<Conn>)
    requires AtRest(cfg, s, log)
    ensures CanReceive(cfg, s.sh) <==> !cfg.wait || cfg.maxActive <= 0 || s.sh.closed || |s.sh.out| < cfg.maxActive
  {
    TotalReady(s.procs, Tokens);
    TotalReady(s.procs, Slots);
  }

  /** An uninterrupted Put of a checked-out connection is a run, and leaves the pool at rest. */
  lemma PutIsARun(cfg: Config, s: State, log: seq<Conn>, c: Conn, now: Time) returns (t: State)
    requires AtRest(cfg, s, log) && c in s.sh.out && s.now <= now
    ensures Reaches(cfg, s, t) && t.sh == PutCall(cfg, s.sh, log, c, now).sh
            && AtRest(cfg, t, PutCall(cfg, s.sh, log, c, now).log)
    ensures PutLeaves(cfg, s.sh, log, s.sh.out[c].(t := now), PutCall(cfg, s.sh, log, c, now))
            && t.sh.out == s.sh.out - {c}
  {
    PutMeans(cfg, s.sh, log, c, now);
    var f, e := Frame(cfg, s.dialed, multiset{}), s.sh.out[c];
    var sh1 := s.sh.(out := s.sh.out - {c});
    var (sh2, r) := PutBack(cfg, sh1, e, now);
    assert s == At(f, s.sh, PoolSteps.Ready, log, s.now);
    CallAt(f, s.sh, log, s.now, PoolSteps.CallPut(0, c), PoolSteps.PutTaken(e), sh1);
    var taken := At(f, sh1, PoolSteps.PutTaken(e), log, now);
    TickAt(f, sh1, PoolSteps.PutTaken(e), log, s.now, now);
    ReachesTrans(cfg, s, At(f, sh1, PoolSteps.PutTaken(e), log, s.now), taken);
    KeptByReaches(cfg, s, taken);
    SendsFit(cfg, taken);
    t := PutEnds(f, sh1, e, log, now);
    ReachesTrans(cfg, s, taken, t);
    KeptByReaches(cfg, s, t);
  }

  lemma TickAt(f: Frame, sh: Shared, ph: PoolSteps.Phase, log: seq<Conn>, now: Time, later: Time)
    requires now <= later
    ensures Reaches(f.cfg, At(f, sh, ph, log, now), At(f, sh, ph, log, later))
  {
    ReachesStep(f.cfg, At(f, sh, ph, log, now), PoolSteps.Tick(later - now));
  }

  lemma PutEnds(f: Frame, sh: Shared, e: Entry, log: seq<Conn>, now: Time) returns (t: State)
    requires Inv(f.cfg, At(f, sh, PoolSteps.PutTaken(e), log, now))
    ensures Reaches(f.cfg, At(f, sh, PoolSteps.PutTaken(e), log, now), t)
    ensures var r := FinishPut(f.cfg, PutBack(f.cfg, sh, e, now), log);
            t.procs == [PoolSteps.Ready] && t.fault == NoFault && t.sh == r.sh && t.closes == f.base + multiset(r.log)
  {
    var taken := At(f, sh, PoolSteps.PutTaken(e), log, now);
    var r := FinishPut(f.cfg, PutBack(f.cfg, sh, e, now), log);
    SendsFit(f.cfg, taken);
    RunAt(f, sh, PoolSteps.PutTaken(e), log, now, now, ANY_ENV);
    match PutBack(f.cfg, sh, e, now) {
      case (sh', Keep) =>
        t := At(f, r.sh, PoolSteps.Ready, log, now);
      case (sh', Evict(v)) =>
        KeptByReaches(f.cfg, taken, At(f, sh', PoolSteps.Evicted(v), log, now));
        EvictedEnds(f, sh', v, log, now);
        t := At(f, r.sh, PoolSteps.Ready, log + [v.c], now);
        ReachesTrans(f.cfg, taken, At(f, sh', PoolSteps.Evicted(v), log, now), t);
    }
  }

  lemma CloseEvicted(f: Frame, sh: Shared, v: Entry, log: seq<Conn>, now: Time)
    ensures Reaches(f.cfg, At(f, sh, PoolSteps.Evicted(v), log, now),
                    At(f, sh, PoolSteps.EvictedClosed, log + [v.c], now))
  {
    RunAt(f, sh, PoolSteps.Evicted(v), log, now, now, ANY_ENV);
  }

  lemma EvictedEnds(f: Frame, sh: Shared, v: Entry, log: seq<Conn>, now: Time)
    requires Inv(f.cfg, At(f, sh, PoolSteps.Evicted(v), log, now))
    ensures Reaches(f.cfg, At(f, sh, PoolSteps.Evicted(v), log, now),
                    At(f, ReturnToken(f.cfg, sh.(active := sh.active - 1)).0, PoolSteps.Ready, log + [v.c], now))
  {
    var evicted := At(f, sh, PoolSteps.Evicted(v), log, now);
    var gone := At(f, sh, PoolSteps.EvictedClosed, log + [v.c], now);
    CloseEvicted(f, sh, v, log, now);
    KeptByReaches(f.cfg, evicted, gone);
    GivesBack(f, sh, PoolSteps.EvictedClosed, log + [v.c], now);
    ReachesTrans(f.cfg, evicted, gone,
                 At(f, ReturnToken(f.cfg, sh.(active := sh.active - 1)).0, PoolSteps.Ready, log + [v.c], now));
  }

  lemma WalkEnds(f: Frame, sh: Shared, log: seq<Conn>, now: Time)
    ensures Reaches(f.cfg, At(f, sh, PoolSteps.Walking([]), log, now), At(f, sh, PoolSteps.Ready, log, now))
  {
    RunAt(f, sh, PoolSteps.Walking([]), log, now, now, ANY_ENV);
  }

  lemma WalkStep(f: Frame, sh: Shared, es: seq<Entry>, log: seq<Conn>, now: Time)
    requires es != []
    ensures Reaches(f.cfg, At(f, sh, PoolSteps.Walking(es), log, now),
                    At(f, sh, PoolSteps.Walking(es[1..]), log + [es[0].c], now))
  {
    RunAt(f, sh, PoolSteps.Walking(es), log, now, now, ANY_ENV);
  }

  /** Close's walk closes every entry, in order. */
  lemma {:induction false} WalkPath(f: Frame, sh: Shared, es: seq<Entry>, log: seq<Conn>, now: Time)
    ensures Reaches(f.cfg, At(f, sh, PoolSteps.Walking(es), log, now), At(f, sh, PoolSteps.Ready, log + Conns(es), now))
  {
    if es == [] {
      WalkEnds(f, sh, log, now);
      assert log + Conns(es) == log;
    } else {
      WalkStep(f, sh, es, log, now);
      WalkPath(f, sh, es[1..], log + [es[0].c], now);
      assert log + [es[0].c] + Conns(es[1..]) == log + Conns(es);
      ReachesTrans(f.cfg, At(f, sh, PoolSteps.Walking(es), log, now),
                   At(f, sh, PoolSteps.Walking(es[1..]), log + [es[0].c], now),
                   At(f, sh, PoolSteps.Ready, log + Conns(es), now));
    }
  }

  /** An uninterrupted Close is a run, and leaves the pool at rest. */
  lemma CloseIsARun(cfg: Config, s: State, log: seq<Conn>) returns (t: State)
    requires AtRest(cfg, s, log)
    ensures Reaches(cfg, s, t) && t.sh == CloseCall(s.sh, log).sh && AtRest(cfg, t, CloseCall(s.sh, log).log)
    ensures CloseLeaves(s.sh, log, CloseCall(s.sh, log)) && t.sh.idle == []
  {
    CloseMeans(s.sh, log);
    var f := Frame(cfg, s.dialed, multiset{});
    var (sh', es, _) := Shut(s.sh);
    assert s == At(f, s.sh, PoolSteps.Ready, log, s.now);
    var enter := At(f, s.sh, PoolSteps.CloseEnter, log, s.now);
    CallAt(f, s.sh, log, s.now, PoolSteps.CallClose(0), PoolSteps.CloseEnter, s.sh);
    KeptByReaches(cfg, s, enter);
    SendsFit(cfg, enter);
    RunAt(f, s.sh, PoolSteps.CloseEnter, log, s.now, s.now, ANY_ENV);
    WalkPath(f, sh', es, log, s.now);
    t := At(f, sh', PoolSteps.Ready, log + Conns(es), s.now);
    ReachesTrans(cfg, enter, At(f, sh', PoolSteps.Walking(es), log, s.now), t);
    ReachesTrans(cfg, s, enter, t);
    KeptByReaches(cfg, s, t);
  }

  /** Last in, first out: of a pool at rest, a get that follows a put returns that connection if it
      is still fresh and passes its checks, and closes exactly what had expired. */
  lemma PutThenGet(cfg: Config, s: State, log: seq<Conn>, c: Conn, now: Time, w: World)
    requires AtRest(cfg, s, log) && c in s.sh.out && s.now <= now && !s.sh.closed && cfg.IdleBound() > 0
    requires var r := PutCall(cfg, s.sh, log, c, now);
             Answers(w, |r.sh.idle|) && Timed(w, now) && |w.tested| > 0
             && !Expired(cfg, s.sh.out[c].(t := now), w.dialedAt) && Passes(cfg, s.sh.out[c].(t := now), 0, w)
    ensures var r := PutCall(cfg, s.sh, log, c, now);
            GetCall(cfg, r.sh, r.log, w).conn == Some(c)
  {
    var r := PutCall(cfg, s.sh, log, c, now);
    assert r.sh.idle != [] && r.sh.idle[0] == s.sh.out[c].(t := now);
    var t := PutIsARun(cfg, s, log, c, now);
    NewestComesBack(cfg, r.sh, r.log, w);
  }

  lemma NewestComesBack(cfg: Config, sh: Shared, log: seq<Conn>, w: World)
    requires sh.idle != [] && Sorted(sh.idle) && Answers(w, |sh.idle|) && Monotone(w.clock) && |w.tested| > 0
    requires forall i :: 0 <= i < |w.clock| ==> w.clock[i] <= w.dialedAt
    requires !Expired(cfg, sh.idle[0], w.dialedAt) && Passes(cfg, sh.idle[0], 0, w)
    ensures GetCall(cfg, sh, log, w).conn == Some(sh.idle[0].c)
  {
    var kept, skipped := GetMeans(cfg, sh, log, w);
    assert !Expired(cfg, sh.idle[0], w.clock[|sh.idle| - kept]);
  }
}
