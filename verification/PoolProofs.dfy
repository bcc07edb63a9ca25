/** What holds in every state of every run of the step system, and why. */
module PoolProofs {
  import opened Options
  import opened PoolModel
  import opened PoolSteps

  // ----- what a phase owns

  /** What is counted over the goroutines: units of `active` they answer for, channel tokens they
      hold (while the pool is open and limited), and their private copies of one open connection. */
  datatype Count = Slots | Tokens | Copies(c: Conn)

  function Occurs(es: seq<Entry>, c: Conn): nat {
    if es == [] then 0 else One(es[0].c == c) + Occurs(es[1..], c)
  }

  function One(b: bool): nat {
    if b then 1 else 0
  }

  function Owns(ph: Phase, w: Count): nat {
    match w
    case Slots =>
      (match ph
       case Ready | GetInit | GetRecv | GetEnter | PutNil | CloseEnter | Walking(_) => 0
       case _ => 1)
    case Tokens =>
      (match ph
       case Ready | GetInit | GetRecv | PutNil | CloseEnter | Walking(_) => 0
       case _ => 1)
    case Copies(c) =>
      (match ph
       case Pruned(e, _, _) => One(e.c == c)
       case Testing(e) => One(e.c == c)
       case Rejected(e) => One(e.c == c)
       case Got(e) => One(e.c == c)
       case PutTaken(e) => One(e.c == c)
       case Evicted(e) => One(e.c == c)
       case Walking(es) => Occurs(es, c)
       case _ => 0)
  }

  function Total(ps: seq<Phase>, w: Count): nat {
    if ps == [] then 0 else Owns(ps[0], w) + Total(ps[1..], w)
  }

  lemma {:induction false} TotalUpdate(ps: seq<Phase>, i: nat, ph: Phase, w: Count)
    requires i < |ps|
    ensures Total(ps[i := ph], w) + Owns(ps[i], w) == Total(ps, w) + Owns(ph, w)
    ensures Owns(ps[i], w) <= Total(ps, w)
  {
    if i == 0 {
      assert ps[i := ph][1..] == ps[1..];
    } else {
      assert ps[i := ph][1..] == ps[1..][i - 1 := ph];
      TotalUpdate(ps[1..], i - 1, ph, w);
    }
  }

  lemma {:induction false} TotalReady(ps: seq<Phase>, w: Count)
    requires forall i :: 0 <= i < |ps| ==> ps[i] == Ready
    ensures Total(ps, w) == 0
  {
    if ps != [] {
      TotalReady(ps[1..], w);
    }
  }

  lemma {:induction false} SlotsNeedTokens(ps: seq<Phase>)
    ensures Total(ps, Slots) <= Total(ps, Tokens)
  {
    if ps != [] {
      SlotsNeedTokens(ps[1..]);
    }
  }

  // ----- the invariant

  function Held(sh: Shared, c: Conn): nat {
    Occurs(sh.idle, c) + One(c in sh.out)
  }

  /** How often a connection is idle, checked out, with a goroutine, or has been closed. */
  function Places(s: State, c: Conn): nat {
    Held(s.sh, c) + Total(s.procs, Copies(c)) + s.closes[c]
  }

  ghost predicate Accounted(s: State) {
    s.sh.active == |s.sh.idle| + |s.sh.out| + Total(s.procs, Slots)
  }

  ghost predicate Conserved(s: State) {
    && (forall c :: Places(s, c) == One(c in s.dialed))
    && (forall c :: c in s.sh.out ==> s.sh.out[c].c == c)
  }

  /** lazyInit runs only in a limited pool, and before the receive. */
  predicate PhaseFits(cfg: Config, sh: Shared, ph: Phase) {
    (ph.GetInit? ==> cfg.Limited()) && (ph.GetRecv? ==> sh.ch.Channel?)
  }

  ghost predicate TokensBalanced(cfg: Config, s: State) {
    && (cfg.Limited() && !s.sh.closed ==>
          (if s.sh.ch.NoChannel? then 0 else s.sh.ch.tokens - cfg.maxActive) + |s.sh.out| + Total(s.procs, Tokens) == 0)
    && (s.sh.ch.Channel? ==> cfg.Limited() && s.sh.ch.closed == s.sh.closed)
    && (forall i :: 0 <= i < |s.procs| ==> PhaseFits(cfg, s.sh, s.procs[i]))
  }

  ghost predicate ListOrdered(cfg: Config, sh: Shared, now: Time) {
    && |sh.idle| <= cfg.IdleBound()
    && (sh.closed ==> sh.idle == [])
    && Sorted(sh.idle)
    && (forall i :: 0 <= i < |sh.idle| ==> sh.idle[i].t <= now)
  }

  ghost predicate Inv(cfg: Config, s: State) {
    && Accounted(s)
    && Conserved(s)
    && TokensBalanced(cfg, s)
    && (cfg.maxActive > 0 ==> s.sh.active <= cfg.maxActive)
    && ListOrdered(cfg, s.sh, s.now)
    && s.fault in {NoFault, NilPut}
  }

  // ----- one goroutine's step in isolation

  lemma {:induction false} OccursLast(es: seq<Entry>, c: Conn)
    requires |es| > 0
    ensures Occurs(es, c) == Occurs(es[..|es| - 1], c) + One(es[|es| - 1].c == c)
  {
    if |es| > 1 {
      OccursLast(es[1..], c);
      assert es[1..][..|es| - 2] == es[..|es| - 1][1..];
    }
  }

  lemma KeyCount(m: map<Conn, Entry>, c: Conn, e: Entry)
    ensures c !in m ==> |m[c := e]| == |m| + 1
    ensures c in m ==> |m - {c}| + 1 == |m|
  {
  }

  /** `active` counts what it should before and after the move. */
  ghost predicate ActiveBalanced(sh: Shared, ph: Phase, m: Move) {
    m.sh.active - |m.sh.idle| - |m.sh.out| - Owns(m.ph, Slots) == sh.active - |sh.idle| - |sh.out| - Owns(ph, Slots)
  }

  /** No copy of `c` appears or vanishes, but for those dialed and closed. */
  ghost predicate CopiesBalanced(sh: Shared, ph: Phase, m: Move, c: Conn) {
    Held(m.sh, c) + Owns(m.ph, Copies(c)) + One(m.closed == Some(c)) ==
        Held(sh, c) + Owns(ph, Copies(c)) + One(m.dialed == Some(c))
  }

  lemma BorrowBalanced(cfg: Config, sh: Shared, c: Conn)
    ensures var m := AfterGet(BorrowOrDial(cfg, sh), 0, 0);
            ActiveBalanced(sh, Ready, m) && CopiesBalanced(sh, Ready, m, c)
  {
  }

  lemma PruneBalanced(cfg: Config, sh: Shared, i: nat, n: nat, now: Time, c: Conn)
    ensures var m := AfterGet(PruneOrBorrow(cfg, sh, i, n, now), i, n);
            ActiveBalanced(sh, Ready, m) && CopiesBalanced(sh, Ready, m, c)
  {
    if |sh.idle| > 0 {
      OccursLast(sh.idle, c);
    }
  }

  lemma PutBalanced(cfg: Config, sh: Shared, e: Entry, now: Time, c: Conn)
    ensures var (sh', r) := PutBack(cfg, sh, e, now);
            && sh' == sh.(idle := sh'.idle)
            && match r
               case Keep => |sh'.idle| == |sh.idle| + 1 && Held(sh', c) == Held(sh, c) + One(e.c == c)
               case Evict(v) => |sh'.idle| == |sh.idle| && Held(sh', c) + One(v.c == c) == Held(sh, c) + One(e.c == c)
  {
    if !sh.closed {
      var l := [e.(t := now)] + sh.idle;
      OccursLast(l, c);
      assert l[1..] == sh.idle;
    }
  }

  lemma LockedBalanced(cfg: Config, sh: Shared, ph: Phase, env: Env, now: Time, dialed: set<Conn>, c: Conn)
    requires ph.GetEnter? || ph.PrunedClosed? || ph.RejectedClosed?
    ensures var m := Advance(cfg, sh, ph, env, now, dialed);
            ActiveBalanced(sh, ph, m) && CopiesBalanced(sh, ph, m, c)
  {
    match ph {
      case GetEnter => PruneBalanced(cfg, sh, 0, |sh.idle|, now, c);
      case PrunedClosed(i, n) => PruneBalanced(cfg, Released(sh), i + 1, n, now, c);
      case RejectedClosed => BorrowBalanced(cfg, Released(sh), c);
    }
  }

  lemma HandBackBalanced(cfg: Config, sh: Shared, ph: Phase, env: Env, now: Time, dialed: set<Conn>, c: Conn)
    requires ph.PutTaken?
    ensures var m := Advance(cfg, sh, ph, env, now, dialed);
            ActiveBalanced(sh, ph, m) && CopiesBalanced(sh, ph, m, c)
  {
    PutBalanced(cfg, sh, ph.e, now, c);
  }

  /** Steps that touch no list. */
  lemma PrivateBalanced(cfg: Config, sh: Shared, ph: Phase, env: Env, now: Time, dialed: set<Conn>, c: Conn)
    requires !ph.GetEnter? && !ph.PrunedClosed? && !ph.RejectedClosed? && !ph.PutTaken? && !ph.Got?
    ensures var m := Advance(cfg, sh, ph, env, now, dialed);
            ActiveBalanced(sh, ph, m) && CopiesBalanced(sh, ph, m, c)
  {
  }

  lemma AdvanceBalanced(cfg: Config, sh: Shared, ph: Phase, env: Env, now: Time, dialed: set<Conn>, c: Conn)
    requires ph.Got? ==> ph.e.c !in sh.out
    ensures var m := Advance(cfg, sh, ph, env, now, dialed);
            ActiveBalanced(sh, ph, m) && CopiesBalanced(sh, ph, m, c)
  {
    if ph.GetEnter? || ph.PrunedClosed? || ph.RejectedClosed? {
      LockedBalanced(cfg, sh, ph, env, now, dialed, c);
    } else if ph.PutTaken? {
      HandBackBalanced(cfg, sh, ph, env, now, dialed, c);
    } else if ph.Got? {
      KeyCount(sh.out, ph.e.c, ph.e);
    } else {
      PrivateBalanced(cfg, sh, ph, env, now, dialed, c);
    }
  }

  /** Channel tokens in hand, relative to a full channel. */
  function Balance(cfg: Config, sh: Shared): int {
    (if sh.ch.NoChannel? then 0 else sh.ch.tokens - cfg.maxActive) + |sh.out|
  }

  /** What one goroutine may rely on. */
  ghost predicate TokenView(cfg: Config, sh: Shared, ph: Phase) {
    && (sh.ch.Channel? ==> cfg.Limited() && sh.ch.closed == sh.closed)
    && PhaseFits(cfg, sh, ph)
    && (cfg.Limited() && !sh.closed ==>
          && Balance(cfg, sh) + Owns(ph, Tokens) <= 0
          && (sh.ch.NoChannel? ==> Owns(ph, Tokens) == 0)
          && sh.active - |sh.idle| - Owns(ph, Slots) + Owns(ph, Tokens) <= cfg.maxActive)
    && (cfg.maxActive > 0 ==> sh.active <= cfg.maxActive)
  }

  lemma AdvanceTokens(cfg: Config, sh: Shared, ph: Phase, env: Env, now: Time, dialed: set<Conn>)
    requires TokenView(cfg, sh, ph)
    requires ph.Got? ==> ph.e.c !in sh.out
    ensures var m := Advance(cfg, sh, ph, env, now, dialed);
            && m.fault in {NoFault, NilPut}
            && (m.sh.ch.Channel? ==> cfg.Limited() && m.sh.ch.closed == m.sh.closed)
            && (cfg.Limited() && !m.sh.closed ==>
                  !sh.closed && Balance(cfg, m.sh) + Owns(m.ph, Tokens) == Balance(cfg, sh) + Owns(ph, Tokens))
            && (cfg.maxActive > 0 ==> m.sh.active <= cfg.maxActive)
            && (sh.ch.Channel? ==> m.sh.ch.Channel?)
            && PhaseFits(cfg, m.sh, m.ph)
  {
    if ph.Got? {
      KeyCount(sh.out, ph.e.c, ph.e);
    }
  }

  lemma GetOrdered(cfg: Config, sh: Shared, i: nat, n: nat, now: Time)
    requires ListOrdered(cfg, sh, now)
    ensures ListOrdered(cfg, PruneOrBorrow(cfg, sh, i, n, now).0, now) && ListOrdered(cfg, BorrowOrDial(cfg, sh).0, now)
  {
  }

  lemma PutOrdered(cfg: Config, sh: Shared, e: Entry, now: Time)
    requires ListOrdered(cfg, sh, now)
    ensures ListOrdered(cfg, PutBack(cfg, sh, e, now).0, now)
  {
  }

  lemma SameOrNone(cfg: Config, sh: Shared, ph: Phase, env: Env, now: Time, dialed: set<Conn>)
    requires !ph.GetEnter? && !ph.PrunedClosed? && !ph.RejectedClosed? && !ph.PutTaken?
    ensures var t := Advance(cfg, sh, ph, env, now, dialed).sh;
            (t.idle == sh.idle && t.closed == sh.closed) || t.idle == []
  {
  }

  lemma AdvanceList(cfg: Config, sh: Shared, ph: Phase, env: Env, now: Time, dialed: set<Conn>)
    requires ListOrdered(cfg, sh, now)
    ensures ListOrdered(cfg, Advance(cfg, sh, ph, env, now, dialed).sh, now)
  {
    if ph.GetEnter? {
      GetOrdered(cfg, sh, 0, |sh.idle|, now);
    } else if ph.PrunedClosed? {
      GetOrdered(cfg, Released(sh), ph.i + 1, ph.n, now);
    } else if ph.RejectedClosed? {
      GetOrdered(cfg, Released(sh), 0, 0, now);
    } else if ph.PutTaken? {
      PutOrdered(cfg, sh, ph.e, now);
    } else {
      SameOrNone(cfg, sh, ph, env, now, dialed);
    }
  }

  lemma AdvanceKeys(cfg: Config, sh: Shared, ph: Phase, env: Env, now: Time, dialed: set<Conn>)
    requires forall c :: c in sh.out ==> sh.out[c].c == c
    ensures var m := Advance(cfg, sh, ph, env, now, dialed);
            && (forall c :: c in m.sh.out ==> m.sh.out[c].c == c)
            && (m.dialed.Some? ==> m.dialed.value !in dialed)
  {
  }

  // ----- every event keeps the invariant

  lemma OthersNeedTokens(ps: seq<Phase>, i: nat)
    requires i < |ps|
    ensures Total(ps, Slots) - Owns(ps[i], Slots) <= Total(ps, Tokens) - Owns(ps[i], Tokens)
  {
    TotalUpdate(ps, i, Ready, Slots);
    TotalUpdate(ps, i, Ready, Tokens);
    SlotsNeedTokens(ps[i := Ready]);
  }

  /** What a goroutine holds privately is nowhere else. */
  lemma PrivateCopy(s: State, i: nat, c: Conn)
    requires Conserved(s) && i < |s.procs| && Owns(s.procs[i], Copies(c)) > 0
    ensures c in s.dialed && c !in s.sh.out && Occurs(s.sh.idle, c) == 0 && s.closes[c] == 0
    ensures Owns(s.procs[i], Copies(c)) == 1
  {
    TotalUpdate(s.procs, i, Ready, Copies(c));
    assert Places(s, c) == One(c in s.dialed);
  }

  lemma CommitConserves(s: State, i: nat, m: Move)
    requires Conserved(s) && i < |s.procs|
    requires forall c :: CopiesBalanced(s.sh, s.procs[i], m, c)
    requires m.dialed.Some? ==> m.dialed.value !in s.dialed
    requires forall c :: c in m.sh.out ==> m.sh.out[c].c == c
    ensures Conserved(Commit(s, i, m))
  {
    var s' := Commit(s, i, m);
    forall c ensures Places(s', c) == One(c in s'.dialed) {
      TotalUpdate(s.procs, i, m.ph, Copies(c));
      assert CopiesBalanced(s.sh, s.procs[i], m, c);
      assert Places(s, c) == One(c in s.dialed);
    }
  }

  lemma CommitCounts(cfg: Config, s: State, i: nat, m: Move)
    requires Inv(cfg, s) && i < |s.procs|
    requires ActiveBalanced(s.sh, s.procs[i], m)
    requires m.sh.ch.Channel? ==> cfg.Limited() && m.sh.ch.closed == m.sh.closed
    requires cfg.Limited() && !m.sh.closed ==>
               !s.sh.closed && Balance(cfg, m.sh) + Owns(m.ph, Tokens) == Balance(cfg, s.sh) + Owns(s.procs[i], Tokens)
    requires s.sh.ch.Channel? ==> m.sh.ch.Channel?
    requires PhaseFits(cfg, m.sh, m.ph)
    ensures Accounted(Commit(s, i, m)) && TokensBalanced(cfg, Commit(s, i, m))
  {
    TotalUpdate(s.procs, i, m.ph, Slots);
    TotalUpdate(s.procs, i, m.ph, Tokens);
  }

  lemma RunConserves(cfg: Config, s: State, i: nat, env: Env)
    requires Inv(cfg, s) && i < |s.procs|
    ensures Conserved(Commit(s, i, Advance(cfg, s.sh, s.procs[i], env, s.now, s.dialed)))
  {
    var ph := s.procs[i];
    var m := Advance(cfg, s.sh, ph, env, s.now, s.dialed);
    if ph.Got? {
      PrivateCopy(s, i, ph.e.c);
    }
    forall c ensures CopiesBalanced(s.sh, ph, m, c) {
      AdvanceBalanced(cfg, s.sh, ph, env, s.now, s.dialed, c);
    }
    AdvanceKeys(cfg, s.sh, ph, env, s.now, s.dialed);
    CommitConserves(s, i, m);
  }

  lemma RunCounts(cfg: Config, s: State, i: nat, env: Env)
    requires Inv(cfg, s) && s.fault == NoFault && i < |s.procs|
    ensures var m := Advance(cfg, s.sh, s.procs[i], env, s.now, s.dialed);
            && Accounted(Commit(s, i, m)) && TokensBalanced(cfg, Commit(s, i, m))
            && m.fault in {NoFault, NilPut}
            && (cfg.maxActive > 0 ==> m.sh.active <= cfg.maxActive)
  {
    var ph := s.procs[i];
    if ph.Got? {
      PrivateCopy(s, i, ph.e.c);
    }
    AdvanceBalanced(cfg, s.sh, ph, env, s.now, s.dialed, 0);
    OthersNeedTokens(s.procs, i);
    TotalUpdate(s.procs, i, Ready, Tokens);
    AdvanceTokens(cfg, s.sh, ph, env, s.now, s.dialed);
    CommitCounts(cfg, s, i, Advance(cfg, s.sh, ph, env, s.now, s.dialed));
  }

  lemma RunKeeps(cfg: Config, s: State, i: nat, env: Env)
    requires Inv(cfg, s) && s.fault == NoFault && i < |s.procs|
    ensures Inv(cfg, Apply(cfg, s, Run(i, env)))
  {
    RunConserves(cfg, s, i, env);
    RunCounts(cfg, s, i, env);
    AdvanceList(cfg, s.sh, s.procs[i], env, s.now, s.dialed);
  }

  lemma PutKeeps(cfg: Config, s: State, i: nat, c: Conn)
    requires Inv(cfg, s) && i < |s.procs| && s.procs[i] == Ready && s.fault == NoFault && c in s.sh.out
    ensures Inv(cfg, Apply(cfg, s, CallPut(i, c)))
  {
    var m := Quiet(s.sh.(out := s.sh.out - {c}), PutTaken(s.sh.out[c]));
    KeyCount(s.sh.out, c, s.sh.out[c]);
    CommitConserves(s, i, m);
    CommitCounts(cfg, s, i, m);
  }

  lemma EnterKeeps(cfg: Config, s: State, i: nat, ph: Phase)
    requires Inv(cfg, s) && i < |s.procs| && s.procs[i] == Ready && s.fault == NoFault
    requires ph in {GetInit, GetEnter, PutNil, CloseEnter}
    requires (ph == GetInit ==> cfg.Limited()) && (ph == GetEnter ==> !cfg.Limited())
    ensures Inv(cfg, Commit(s, i, Quiet(s.sh, ph)))
  {
    CommitConserves(s, i, Quiet(s.sh, ph));
    CommitCounts(cfg, s, i, Quiet(s.sh, ph));
  }

  lemma CallKeeps(cfg: Config, s: State, ev: Event)
    requires Inv(cfg, s) && !ev.Run?
    ensures Inv(cfg, Apply(cfg, s, ev))
  {
    if !ev.Tick? && s.fault == NoFault && ev.i < |s.procs| && s.procs[ev.i] == Ready {
      match ev {
        case CallGet(i) => EnterKeeps(cfg, s, i, if cfg.Limited() then GetInit else GetEnter);
        case CallClose(i) => EnterKeeps(cfg, s, i, CloseEnter);
        case CallPut(i, c) =>
          if c in s.sh.out {
            PutKeeps(cfg, s, i, c);
          } else {
            EnterKeeps(cfg, s, i, PutNil);
          }
      }
    }
  }

  lemma StartInv(cfg: Config, n: nat, now: Time)
    ensures Inv(cfg, Start(n, now))
  {
    var s := Start(n, now);
    TotalReady(s.procs, Slots);
    TotalReady(s.procs, Tokens);
    forall c ensures Places(s, c) == 0 {
      TotalReady(s.procs, Copies(c));
    }
  }

  lemma StepKeeps(cfg: Config, s: State, ev: Event)
    requires Inv(cfg, s)
    ensures Inv(cfg, Apply(cfg, s, ev))
  {
    if ev.Run? && s.fault == NoFault && ev.i < |s.procs| {
      RunKeeps(cfg, s, ev.i, ev.env);
    } else if !ev.Run? {
      CallKeeps(cfg, s, ev);
    }
  }

  lemma {:induction false} Reachable(cfg: Config, n: nat, now: Time, evs: seq<Event>)
    ensures Inv(cfg, Exec(cfg, Start(n, now), evs))
  {
    if evs == [] {
      StartInv(cfg, n, now);
    } else {
      Reachable(cfg, n, now, evs[..|evs| - 1]);
      StepKeeps(cfg, Exec(cfg, Start(n, now), evs[..|evs| - 1]), evs[|evs| - 1]);
    }
  }

  // ----- runs

  lemma {:induction false} ExecAppend(cfg: Config, s: State, a: seq<Event>, b: seq<Event>)
    ensures Exec(cfg, s, a + b) == Exec(cfg, Exec(cfg, s, a), b)
  {
    if b == [] {
      assert a + b == a;
    } else {
      assert (a + b)[..|a + b| - 1] == a + b[..|b| - 1];
      ExecAppend(cfg, s, a, b[..|b| - 1]);
    }
  }
}
