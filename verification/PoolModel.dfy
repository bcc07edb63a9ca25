/** The connection pool's shared fields as a value, and each stretch of code the pool runs
    between taking and releasing its mutex as one function on that value.  The step system
    (PoolSteps) interleaves these functions; the heap classes (PoolHeap) implement them. */
module PoolModel {

  /** The identity of an io.Closer. */
  type Conn = nat

  /** Clock readings and durations, in nanoseconds. */
  type Time = int

  /** The exported fields of Pool, constant once the pool is in use. */
  datatype Config = Config(maxIdle: int, maxActive: int, idleTimeout: Time, wait: bool, maxConnLifetime: Time) {

    /** get takes a token from the channel first. */
    predicate Limited() {
      wait && maxActive > 0
    }

    /** The number of idle connections a finished put leaves at most. */
    function IdleBound(): nat {
      if maxIdle < 0 then 0 else maxIdle
    }

    predicate Stale(e: Entry, now: Time) {
      e.t + idleTimeout < now
    }

    predicate Young(e: Entry, now: Time) {
      maxConnLifetime == 0 || now - e.created < maxConnLifetime
    }
  }

  /** A poolConn without its links: connection, time of return, time of creation. */
  datatype Entry = Entry(c: Conn, t: Time, created: Time)

  /** The buffered channel `ch`; its capacity is maxActive. */
  datatype Channel = NoChannel | Channel(tokens: nat, closed: bool)

  /** Ways in which a Go program can die or hang while it holds the mutex. */
  datatype Fault = NoFault | NilPut | SendOnClosed | SendBlocked | CloseOfClosed

  datatype Shared = Shared(closed: bool, active: int, ch: Channel, idle: seq<Entry>, out: map<Conn, Entry>)

  /** What a locked stretch of get ends in. */
  datatype GetNext = Prune(e: Entry) | Borrow(e: Entry) | Dial | RefuseClosed | RefuseExhausted

  /** What the first locked stretch of put ends in. */
  datatype PutNext = Keep | Evict(e: Entry)

  function LazyInit(cfg: Config, sh: Shared): Shared
    requires cfg.maxActive > 0
  {
    if sh.ch.NoChannel?
    then sh.(ch := if sh.closed then Channel(0, true) else Channel(cfg.maxActive, false))
    else sh
  }

  /** The borrowing part of get: idle list first, then the refusals, then a dial slot. */
  function BorrowOrDial(cfg: Config, sh: Shared): (Shared, GetNext) {
    if |sh.idle| > 0 then (sh.(idle := sh.idle[1..]), Borrow(sh.idle[0]))
    else if sh.closed then (sh, RefuseClosed)
    else if !cfg.wait && cfg.maxActive > 0 && sh.active >= cfg.maxActive then (sh, RefuseExhausted)
    else (sh.(active := sh.active + 1), Dial)
  }

  /** get's locked stretch from the prune test on; `i` of at most `n` prunings are done. */
  function PruneOrBorrow(cfg: Config, sh: Shared, i: nat, n: nat, now: Time): (Shared, GetNext) {
    var last := |sh.idle| - 1;
    if cfg.idleTimeout > 0 && i < n && last >= 0 && cfg.Stale(sh.idle[last], now)
    then (sh.(idle := sh.idle[..last]), Prune(sh.idle[last]))
    else BorrowOrDial(cfg, sh)
  }

  /** put's first locked stretch, up to the token. */
  function PutBack(cfg: Config, sh: Shared, e: Entry, now: Time): (Shared, PutNext) {
    if sh.closed then (sh, Evict(e))
    else
      var l := [e.(t := now)] + sh.idle;
      if |l| > cfg.maxIdle then (sh.(idle := l[..|l| - 1]), Evict(l[|l| - 1]))
      else (sh.(idle := l), Keep)
  }

  /** The guarded send at the end of put and of a failed dial. */
  function ReturnToken(cfg: Config, sh: Shared): (Shared, Fault) {
    if sh.ch.NoChannel? || sh.closed then (sh, NoFault)
    else if sh.ch.closed then (sh, SendOnClosed)
    else if sh.ch.tokens >= cfg.maxActive then (sh, SendBlocked)
    else (sh.(ch := sh.ch.(tokens := sh.ch.tokens + 1)), NoFault)
  }

  /** Close's locked stretch; the entries are those its walk then closes. */
  function Shut(sh: Shared): (Shared, seq<Entry>, Fault) {
    if sh.closed then (sh, [], NoFault)
    else (sh.(closed := true,
              active := sh.active - |sh.idle|,
              idle := [],
              ch := if sh.ch.NoChannel? then NoChannel else sh.ch.(closed := true)),
          sh.idle,
          if sh.ch.Channel? && sh.ch.closed then CloseOfClosed else NoFault)
  }

  function Conns(es: seq<Entry>): (r: seq<Conn>)
    ensures |r| == |es| && forall i :: 0 <= i < |es| ==> r[i] == es[i].c
  {
    seq(|es|, i requires 0 <= i < |es| => es[i].c)
  }

  /** Newest return first. */
  ghost predicate Sorted(es: seq<Entry>) {
    forall i, j :: 0 <= i < j < |es| ==> es[i].t >= es[j].t
  }
}
