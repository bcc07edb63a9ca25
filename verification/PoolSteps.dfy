/** Any number of goroutines calling Get, Put and Close on one pool, as a step system.  One step
    is one locked stretch, one channel receive, or one call into Close, TestOnBorrow or Dial,
    so every order in which the scheduler can run them is some sequence of events. */
module PoolSteps {
  import opened Options
  import opened PoolModel

  /** Where a goroutine stands; connections it holds privately travel in its phase. */
  datatype Phase =
    | Ready                                // between calls
    | GetInit                              // in get, before lazyInit
    | GetRecv                              // before the receive from ch
    | GetEnter                             // before the first Lock of get
    | Pruned(e: Entry, i: nat, n: nat)     // popped from the back, not yet closed
    | PrunedClosed(i: nat, n: nat)         // closed, before Lock and active--
    | Testing(e: Entry)                    // popped from the front, checks outstanding
    | Rejected(e: Entry)                   // failed a check, not yet closed
    | RejectedClosed                       // closed, before Lock and active--
    | Dialing                              // active++ done, inside Dial
    | DialFailed                           // before Lock and active--
    | Got(e: Entry)                        // get returned, before the poolConnMap insertion
    | PutTaken(e: Entry)                   // out of poolConnMap, before put's Lock
    | PutNil                               // Put of a connection poolConnMap does not hold
    | Evicted(e: Entry)                    // chosen by put for closing, not yet closed
    | EvictedClosed                        // closed, before Lock and active--
    | CloseEnter                           // in Close, before Lock
    | Walking(es: seq<Entry>)              // Close's walk, entries not yet closed

  /** Results the environment chooses: TestOnBorrow, Dial, and the closer Dial makes. */
  datatype Env = Env(tested: bool, dialOk: bool, made: Conn)

  /** `closes` counts the Close calls each connection received; `dialed` holds every connection
      Dial ever made. */
  datatype State = State(sh: Shared, procs: seq<Phase>, dialed: set<Conn>, closes: multiset<Conn>,
                         now: Time, fault: Fault)

  datatype Event =
    | Tick(d: nat)
    | CallGet(i: nat)
    | CallPut(i: nat, c: Conn)
    | CallClose(i: nat)
    | Run(i: nat, env: Env)

  /** One goroutine's step: new shared state and phase, the connection it closed or dialed. */
  datatype Move = Move(sh: Shared, ph: Phase, closed: Option<Conn>, dialed: Option<Conn>, fault: Fault)

  function Quiet(sh: Shared, ph: Phase): Move {
    Move(sh, ph, None, None, NoFault)
  }

  function AfterGet(r: (Shared, GetNext), i: nat, n: nat): Move {
    Quiet(r.0,
          match r.1
          case Prune(e) => Pruned(e, i, n)
          case Borrow(e) => Testing(e)
          case Dial => Dialing
          case RefuseClosed => Ready
          case RefuseExhausted => Ready)
  }

  function AfterSend(r: (Shared, Fault)): Move {
    Move(r.0, Ready, None, None, r.1)
  }

  function Released(sh: Shared): Shared {
    sh.(active := sh.active - 1)
  }

  function Advance(cfg: Config, sh: Shared, ph: Phase, env: Env, now: Time, dialed: set<Conn>): Move {
    match ph
    case Ready => Quiet(sh, ph)
    case GetInit => Quiet(if cfg.maxActive > 0 then LazyInit(cfg, sh) else sh, GetRecv)
    case GetRecv =>
      if sh.ch.Channel? && sh.ch.tokens > 0 then Quiet(sh.(ch := sh.ch.(tokens := sh.ch.tokens - 1)), GetEnter)
      else if sh.ch.Channel? && sh.ch.closed then Quiet(sh, GetEnter)
      else Quiet(sh, ph)
    case GetEnter => AfterGet(PruneOrBorrow(cfg, sh, 0, |sh.idle|, now), 0, |sh.idle|)
    case Pruned(e, i, n) => Move(sh, PrunedClosed(i, n), Some(e.c), None, NoFault)
    case PrunedClosed(i, n) => AfterGet(PruneOrBorrow(cfg, Released(sh), i + 1, n, now), i + 1, n)
    case Testing(e) => Quiet(sh, if env.tested && cfg.Young(e, now) then Got(e) else Rejected(e))
    case Rejected(e) => Move(sh, RejectedClosed, Some(e.c), None, NoFault)
    case RejectedClosed => AfterGet(BorrowOrDial(cfg, Released(sh)), 0, 0)
    case Dialing =>
      if !env.dialOk then Quiet(sh, DialFailed)
      else if env.made in dialed then Quiet(sh, ph)
      else Move(sh, Got(Entry(env.made, 0, now)), None, Some(env.made), NoFault)
    case DialFailed => AfterSend(ReturnToken(cfg, Released(sh)))
    case Got(e) => Quiet(sh.(out := sh.out[e.c := e]), Ready)
    case PutTaken(e) =>
      (match PutBack(cfg, sh, e, now)
       case (sh', Evict(victim)) => Quiet(sh', Evicted(victim))
       case (sh', Keep) => AfterSend(ReturnToken(cfg, sh')))
    case PutNil => Move(sh, Ready, None, None, if sh.closed then NoFault else NilPut)
    case Evicted(e) => Move(sh, EvictedClosed, Some(e.c), None, NoFault)
    case EvictedClosed => AfterSend(ReturnToken(cfg, Released(sh)))
    case CloseEnter => var (sh', es, f) := Shut(sh); Move(sh', Walking(es), None, None, f)
    case Walking(es) =>
      if es == [] then Quiet(sh, Ready) else Move(sh, Walking(es[1..]), Some(es[0].c), None, NoFault)
  }

  function Commit(s: State, i: nat, m: Move): State
    requires i < |s.procs|
  {
    State(m.sh, s.procs[i := m.ph],
          if m.dialed.Some? then s.dialed + {m.dialed.value} else s.dialed,
          if m.closed.Some? then s.closes[m.closed.value := s.closes[m.closed.value] + 1] else s.closes,
          s.now, m.fault)
  }

  /** An event that is not enabled leaves the state as it is. */
  function Apply(cfg: Config, s: State, ev: Event): State {
    if s.fault != NoFault then s
    else match ev
      case Tick(d) => s.(now := s.now + d)
      case CallGet(i) =>
        if i < |s.procs| && s.procs[i] == Ready
        then Commit(s, i, Quiet(s.sh, if cfg.Limited() then GetInit else GetEnter)) else s
      case CallPut(i, c) =>
        if i < |s.procs| && s.procs[i] == Ready
        then Commit(s, i, if c in s.sh.out then Quiet(s.sh.(out := s.sh.out - {c}), PutTaken(s.sh.out[c]))
                          else Quiet(s.sh, PutNil)) else s
      case CallClose(i) =>
        if i < |s.procs| && s.procs[i] == Ready then Commit(s, i, Quiet(s.sh, CloseEnter)) else s
      case Run(i, env) =>
        if i < |s.procs| then Commit(s, i, Advance(cfg, s.sh, s.procs[i], env, s.now, s.dialed)) else s
  }

  /** A pool nobody has used, seen by `n` goroutines. */
  function Start(n: nat, now: Time): State {
    State(Shared(false, 0, NoChannel, [], map[]), seq(n, _ => Ready), {}, multiset{}, now, NoFault)
  }

  function Exec(cfg: Config, s: State, evs: seq<Event>): State {
    if evs == [] then s else Apply(cfg, Exec(cfg, s, evs[..|evs| - 1]), evs[|evs| - 1])
  }
}
