/** Uninterrupted calls as functions of the shared state, and what they give their callers: a get
    returns the most recently returned connection that passes the checks, after closing exactly
    the expired ones and those it skipped. */
module PoolCalls {
  import opened Options
  import opened PoolModel

  /** The shared state and the log of Close calls; `next` is what get's last locked stretch said. */
  datatype Snapshot = Snapshot(sh: Shared, next: GetNext, log: seq<Conn>)

  /** What the world answers during one get: the clock at each prune test, then for each candidate
      TestOnBorrow's verdict and the clock of the lifetime test, then Dial's result and the clock. */
  datatype World = World(clock: seq<Time>, tested: seq<bool>, ages: seq<Time>, dial: Option<Conn>, dialedAt: Time)

  datatype Result = Result(sh: Shared, log: seq<Conn>, conn: Option<Conn>)

  // ----- get, Put and Close

  /** lazyInit and the receive; the receive would block when CanReceive does not hold. */
  function TakeToken(cfg: Config, sh: Shared): (r: Shared)
    ensures r == sh.(ch := r.ch)
  {
    if !cfg.Limited() then sh
    else
      var sh' := LazyInit(cfg, sh);
      if sh'.ch.tokens > 0 then sh'.(ch := sh'.ch.(tokens := sh'.ch.tokens - 1)) else sh'
  }

  predicate CanReceive(cfg: Config, sh: Shared) {
    cfg.Limited() ==> LazyInit(cfg, sh).ch.tokens > 0 || LazyInit(cfg, sh).ch.closed
  }

  /** Close on a pruned connection, Lock, active--, and on to the next prune test. */
  function AfterPrune(cfg: Config, sh: Shared, log: seq<Conn>, c: Conn, i: nat, n: nat, now: Time): Snapshot {
    var (sh', next') := PruneOrBorrow(cfg, sh.(active := sh.active - 1), i, n, now);
    Snapshot(sh', next', log + [c])
  }

  /** get's first loop, from the test that `clock[i]` was read for. */
  function PruneFrom(cfg: Config, s: Snapshot, i: nat, n: nat, clock: seq<Time>): Snapshot
    requires i <= n < |clock|
    decreases n - i
  {
    if s.next.Prune? && i < n
    then PruneFrom(cfg, AfterPrune(cfg, s.sh, s.log, s.next.e.c, i + 1, n, clock[i + 1]), i + 1, n, clock)
    else s
  }

  function PruneRun(cfg: Config, sh: Shared, log: seq<Conn>, clock: seq<Time>): Snapshot
    requires |clock| > |sh.idle|
  {
    var (sh', next') := PruneOrBorrow(cfg, sh, 0, |sh.idle|, clock[0]);
    PruneFrom(cfg, Snapshot(sh', next', log), 0, |sh.idle|, clock)
  }

  /** Close on a rejected candidate, Lock, active--, and on to the next candidate. */
  function AfterReject(cfg: Config, sh: Shared, log: seq<Conn>, c: Conn): Snapshot {
    var (sh', next') := BorrowOrDial(cfg, sh.(active := sh.active - 1));
    Snapshot(sh', next', log + [c])
  }

  predicate Passes(cfg: Config, e: Entry, j: nat, w: World)
    requires j < |w.tested| == |w.ages|
  {
    w.tested[j] && (cfg.maxConnLifetime == 0 || w.ages[j] < e.created + cfg.maxConnLifetime)
  }

  /** get's second loop, at candidate number `j`. */
  function BorrowFrom(cfg: Config, s: Snapshot, j: nat, w: World): Snapshot
    requires j <= |w.tested| == |w.ages|
    decreases |w.tested| - j
  {
    if s.next.Borrow? && j < |w.tested| && !Passes(cfg, s.next.e, j, w)
    then BorrowFrom(cfg, AfterReject(cfg, s.sh, s.log, s.next.e.c), j + 1, w)
    else s
  }

  /** The end of get and the poolConnMap insertion of Get. */
  function FinishGet(cfg: Config, s: Snapshot, w: World): Result {
    match s.next
    case Borrow(e) => Result(s.sh.(out := s.sh.out[e.c := e]), s.log, Some(e.c))
    case Dial =>
      (match w.dial
       case Some(c) => Result(s.sh.(out := s.sh.out[c := Entry(c, 0, w.dialedAt)]), s.log, Some(c))
       case None => Result(ReturnToken(cfg, s.sh.(active := s.sh.active - 1)).0, s.log, None))
    case _ => Result(s.sh, s.log, None)
  }

  /** Enough answers for a get that meets `n` idle connections. */
  predicate Answers(w: World, n: nat) {
    |w.clock| > n && |w.tested| == |w.ages| >= n
  }

  /** Both loops of get. */
  function Search(cfg: Config, sh: Shared, log: seq<Conn>, w: World): Snapshot
    requires Answers(w, |sh.idle|)
  {
    BorrowFrom(cfg, PruneRun(cfg, sh, log, w.clock), 0, w)
  }

  function GetCall(cfg: Config, sh: Shared, log: seq<Conn>, w: World): Result
    requires Answers(w, |sh.idle|)
  {
    FinishGet(cfg, Search(cfg, TakeToken(cfg, sh), log, w), w)
  }

  /** The end of put: close what it did not keep, and return the token. */
  function FinishPut(cfg: Config, r: (Shared, PutNext), log: seq<Conn>): Result {
    match r.1
    case Keep => Result(ReturnToken(cfg, r.0).0, log, None)
    case Evict(e) => Result(ReturnToken(cfg, r.0.(active := r.0.active - 1)).0, log + [e.c], None)
  }

  function PutCall(cfg: Config, sh: Shared, log: seq<Conn>, c: Conn, now: Time): Result
    requires c in sh.out
  {
    FinishPut(cfg, PutBack(cfg, sh.(out := sh.out - {c}), sh.out[c], now), log)
  }

  function CloseCall(sh: Shared, log: seq<Conn>): Result {
    Result(Shut(sh).0, log + Conns(Shut(sh).1), None)
  }

  // ----- the first loop closes exactly the expired

  predicate Expired(cfg: Config, e: Entry, now: Time) {
    cfg.idleTimeout > 0 && now - e.t > cfg.idleTimeout
  }

  function Reversed(cs: seq<Conn>): seq<Conn> {
    if cs == [] then [] else Reversed(cs[1..]) + [cs[0]]
  }

  ghost predicate Monotone(clock: seq<Time>) {
    forall i, j :: 0 <= i <= j < |clock| ==> clock[i] <= clock[j]
  }

  /** The pool after `i` prunings. */
  function Cut(sh: Shared, i: nat): Shared
    requires i <= |sh.idle|
  {
    sh.(idle := sh.idle[..|sh.idle| - i], active := sh.active - i)
  }

  function PrunedConns(sh: Shared, i: nat): seq<Conn>
    requires i <= |sh.idle|
  {
    Reversed(Conns(sh.idle[|sh.idle| - i..]))
  }

  ghost predicate Pruning(cfg: Config, was: Shared, log: seq<Conn>, i: nat, now: Time, s: Snapshot) {
    && i <= |was.idle|
    && (s.sh, s.next) == PruneOrBorrow(cfg, Cut(was, i), i, |was.idle|, now)
    && (forall j :: |was.idle| - i <= j < |was.idle| ==> cfg.idleTimeout > 0 && cfg.Stale(was.idle[j], now))
    && s.log == log + PrunedConns(was, i)
  }

  lemma PrunedConnsGrow(sh: Shared, i: nat)
    requires i < |sh.idle|
    ensures PrunedConns(sh, i + 1) == PrunedConns(sh, i) + [sh.idle[|sh.idle| - i - 1].c]
  {
    var n := |sh.idle|;
    assert Conns(sh.idle[n - i - 1..]) == [sh.idle[n - i - 1].c] + Conns(sh.idle[n - i..]);
  }

  /** If the loop prunes again, it takes the last entry, which has expired. */
  lemma CutAgain(cfg: Config, was: Shared, i: nat, now: Time, later: Time)
    requires i <= |was.idle| && PruneOrBorrow(cfg, Cut(was, i), i, |was.idle|, now).1.Prune? && now <= later
    ensures var (sh, next) := PruneOrBorrow(cfg, Cut(was, i), i, |was.idle|, now);
            && i < |was.idle|
            && next.e == was.idle[|was.idle| - i - 1] && cfg.idleTimeout > 0 && cfg.Stale(next.e, later)
            && sh.(active := sh.active - 1) == Cut(was, i + 1)
  {
  }

  lemma PruneGoesOn(cfg: Config, was: Shared, log: seq<Conn>, i: nat, now: Time, s: Snapshot, later: Time)
    requires Pruning(cfg, was, log, i, now, s) && s.next.Prune? && now <= later
    ensures i < |was.idle|
    ensures Pruning(cfg, was, log, i + 1, later, AfterPrune(cfg, s.sh, s.log, s.next.e.c, i + 1, |was.idle|, later))
  {
    CutAgain(cfg, was, i, now, later);
    PrunedConnsGrow(was, i);
  }

  /** Of the idle list it found, the loop closed exactly the entries expired at its last test, from
      the back, and went on to borrow from, or dial with, the rest. */
  ghost predicate Pruned(cfg: Config, was: Shared, log: seq<Conn>, kept: nat, now: Time, s: Snapshot) {
    && kept <= |was.idle|
    && (s.sh, s.next) == BorrowOrDial(cfg, Cut(was, |was.idle| - kept))
    && (forall j :: 0 <= j < |was.idle| ==> (j >= kept <==> Expired(cfg, was.idle[j], now)))
    && s.log == log + PrunedConns(was, |was.idle| - kept)
  }

  /** If it does not, no entry that is left has expired. */
  lemma PruneStops(cfg: Config, was: Shared, log: seq<Conn>, i: nat, now: Time, s: Snapshot)
    requires Pruning(cfg, was, log, i, now, s) && !s.next.Prune? && Sorted(was.idle)
    ensures Pruned(cfg, was, log, |was.idle| - i, now, s)
  {
    var kept := |was.idle| - i;
    assert kept > 0 ==> !Expired(cfg, was.idle[kept - 1], now);
  }

  /** The loop prunes from the back until a test says not to. */
  lemma {:induction false} PruneFromEnds(
      cfg: Config, was: Shared, log: seq<Conn>, i: nat, s: Snapshot, clock: seq<Time>)
      returns (end: nat)
    requires |clock| > |was.idle| && i <= |was.idle| && Monotone(clock)
    requires Pruning(cfg, was, log, i, clock[i], s)
    ensures var r := PruneFrom(cfg, s, i, |was.idle|, clock);
            end <= |was.idle| && Pruning(cfg, was, log, end, clock[end], r) && !r.next.Prune?
    decreases |was.idle| - i
  {
    if s.next.Prune? {
      PruneGoesOn(cfg, was, log, i, clock[i], s, clock[i + 1]);
      end := PruneFromEnds(cfg, was, log, i + 1,
                           AfterPrune(cfg, s.sh, s.log, s.next.e.c, i + 1, |was.idle|, clock[i + 1]), clock);
    } else {
      end := i;
    }
  }

  /** get's first loop, on a list ordered by time of return, leaves no stale connection behind. */
  lemma PruneRunMeans(cfg: Config, sh: Shared, log: seq<Conn>, clock: seq<Time>) returns (kept: nat)
    requires |clock| > |sh.idle| && Sorted(sh.idle) && Monotone(clock)
    ensures kept <= |sh.idle| && Pruned(cfg, sh, log, kept, clock[|sh.idle| - kept], PruneRun(cfg, sh, log, clock))
  {
    var (sh', next') := PruneOrBorrow(cfg, sh, 0, |sh.idle|, clock[0]);
    assert Cut(sh, 0) == sh;
    var end := PruneFromEnds(cfg, sh, log, 0, Snapshot(sh', next', log), clock);
    PruneStops(cfg, sh, log, end, clock[end], PruneRun(cfg, sh, log, clock));
    kept := |sh.idle| - end;
  }

  // ----- the second loop returns the first that passes

  /** Candidates `j` on are left, and `s` is what the last locked stretch said about them. */
  ghost predicate Borrowing(cfg: Config, was: Shared, log: seq<Conn>, j: nat, s: Snapshot) {
    && j <= |was.idle|
    && (s.sh, s.next) == BorrowOrDial(cfg, was.(idle := was.idle[j..], active := was.active - j))
    && s.log == log + Conns(was.idle[..j])
  }

  lemma BorrowGoesOn(cfg: Config, was: Shared, log: seq<Conn>, j: nat, s: Snapshot)
    requires Borrowing(cfg, was, log, j, s) && s.next.Borrow?
    ensures j < |was.idle| && s.next.e == was.idle[j]
    ensures Borrowing(cfg, was, log, j + 1, AfterReject(cfg, s.sh, s.log, s.next.e.c))
  {
  }

  lemma {:induction false} BorrowFromMeans(cfg: Config, was: Shared, log: seq<Conn>, j: nat, s: Snapshot, w: World)
      returns (skipped: nat)
    requires Borrowing(cfg, was, log, j, s) && |w.tested| == |w.ages| >= |was.idle|
    ensures j <= skipped <= |was.idle| && Borrowing(cfg, was, log, skipped, BorrowFrom(cfg, s, j, w))
    ensures forall x :: j <= x < skipped ==> !Passes(cfg, was.idle[x], x, w)
    ensures skipped < |was.idle| ==> Passes(cfg, was.idle[skipped], skipped, w)
    decreases |was.idle| - j
  {
    if s.next.Borrow? {
      BorrowGoesOn(cfg, was, log, j, s);
      if Passes(cfg, s.next.e, j, w) {
        skipped := j;
      } else {
        skipped := BorrowFromMeans(cfg, was, log, j + 1, AfterReject(cfg, s.sh, s.log, s.next.e.c), w);
      }
    } else {
      skipped := j;
    }
  }

  // ----- what get does

  /** The pool once `kept` entries survived the pruning and `skipped` of those failed their checks. */
  function Left(sh: Shared, skipped: nat, kept: nat): Shared
    requires skipped <= kept <= |sh.idle|
  {
    sh.(idle := sh.idle[skipped..kept], active := sh.active - (|sh.idle| - kept) - skipped)
  }

  /** What get's loops do to the list they find. */
  ghost predicate Searched(cfg: Config, sh: Shared, w: World, skipped: nat, kept: nat)
    requires Answers(w, |sh.idle|)
  {
    && skipped <= kept <= |sh.idle|
    && (forall j :: 0 <= j < |sh.idle| ==> (j >= kept <==> Expired(cfg, sh.idle[j], w.clock[|sh.idle| - kept])))
    && (forall j :: 0 <= j < skipped ==> !Passes(cfg, sh.idle[j], j, w))
    && (skipped < kept ==> Passes(cfg, sh.idle[skipped], skipped, w))
  }

  /** Skipping after pruning, in terms of the list found. */
  lemma LeftOf(sh: Shared, skipped: nat, kept: nat)
    requires skipped <= kept <= |sh.idle|
    ensures var was := Cut(sh, |sh.idle| - kept);
            && was.(idle := was.idle[skipped..], active := was.active - skipped) == Left(sh, skipped, kept)
            && was.idle[..skipped] == sh.idle[..skipped]
            && forall j :: 0 <= j < kept ==> was.idle[j] == sh.idle[j]
  {
    assert sh.idle[..kept][skipped..] == sh.idle[skipped..kept];
  }

  lemma LoopsMean(cfg: Config, sh: Shared, log: seq<Conn>, w: World) returns (kept: nat, skipped: nat)
    requires Answers(w, |sh.idle|) && Monotone(w.clock) && Sorted(sh.idle)
    ensures Searched(cfg, sh, w, skipped, kept)
    ensures var s := Search(cfg, sh, log, w);
            && (s.sh, s.next) == BorrowOrDial(cfg, Left(sh, skipped, kept))
            && s.log == log + PrunedConns(sh, |sh.idle| - kept) + Conns(sh.idle[..skipped])
  {
    kept := PruneRunMeans(cfg, sh, log, w.clock);
    var s := PruneRun(cfg, sh, log, w.clock);
    var was := Cut(sh, |sh.idle| - kept);
    assert was.idle[0..] == was.idle && Conns(was.idle[..0]) == [];
    skipped := BorrowFromMeans(cfg, was, s.log, 0, s, w);
    LeftOf(sh, skipped, kept);
  }

  /** The end of get, from what the loops left. */
  ghost predicate Finished(cfg: Config, left: Shared, w: World, r: Result) {
    && r.sh.closed == left.closed
    && if left.idle != [] then
         && r.conn == Some(left.idle[0].c)
         && r.sh == left.(idle := left.idle[1..], out := left.out[left.idle[0].c := left.idle[0]])
       else if left.closed || (!cfg.wait && cfg.maxActive > 0 && left.active >= cfg.maxActive) then
         r.conn == None && r.sh == left
       else match w.dial
         case Some(c) => r.conn == w.dial && r.sh ==
             left.(active := left.active + 1, out := left.out[c := Entry(c, 0, w.dialedAt)])
         case None => r.conn == None && r.sh == ReturnToken(cfg, left).0
  }

  lemma FinishMeans(cfg: Config, left: Shared, s: Snapshot, w: World)
    requires (s.sh, s.next) == BorrowOrDial(cfg, left)
    ensures Finished(cfg, left, w, FinishGet(cfg, s, w)) && FinishGet(cfg, s, w).log == s.log
  {
  }

  /** What get returns and leaves, from what its loops skipped and kept. */
  ghost predicate Got(cfg: Config, sh: Shared, w: World, skipped: nat, kept: nat, r: Result)
    requires skipped <= kept <= |sh.idle|
  {
    && r.sh.closed == sh.closed
    && if skipped < kept then
         && r.conn == Some(sh.idle[skipped].c)
         && r.sh.idle == sh.idle[skipped + 1..kept]
         && r.sh.out == sh.out[sh.idle[skipped].c := sh.idle[skipped]]
       else
         && r.sh.idle == []
         && r.conn == (if sh.closed || (!cfg.wait && cfg.maxActive > 0 && sh.active - |sh.idle| >= cfg.maxActive)
                       then None else w.dial)
         && r.sh.out == (if r.conn.Some? then sh.out[r.conn.value := Entry(r.conn.value, 0, w.dialedAt)] else sh.out)
  }

  lemma FinishedGot(cfg: Config, sh: Shared, w: World, skipped: nat, kept: nat, r: Result)
    requires skipped <= kept <= |sh.idle| && Finished(cfg, Left(sh, skipped, kept), w, r)
    ensures Got(cfg, sh, w, skipped, kept, r)
  {
  }

  /** A get on an idle list ordered by time of return: there are `kept` and `skipped` such that
      exactly the entries from `kept` on had expired, those before `skipped` failed their checks,
      all of these were closed and no other, and the result is the next, most recently returned
      one; only if there is none does get refuse or dial. */
  lemma GetMeans(cfg: Config, sh: Shared, log: seq<Conn>, w: World) returns (kept: nat, skipped: nat)
    requires Answers(w, |sh.idle|) && Monotone(w.clock) && Sorted(sh.idle)
    ensures Searched(cfg, sh, w, skipped, kept)
    ensures Got(cfg, sh, w, skipped, kept, GetCall(cfg, sh, log, w))
    ensures GetCall(cfg, sh, log, w).log == log + PrunedConns(sh, |sh.idle| - kept) + Conns(sh.idle[..skipped])
  {
    var sh1 := TakeToken(cfg, sh);
    kept, skipped := LoopsMean(cfg, sh1, log, w);
    FinishMeans(cfg, Left(sh1, skipped, kept), Search(cfg, sh1, log, w), w);
    FinishedGot(cfg, sh1, w, skipped, kept, GetCall(cfg, sh, log, w));
  }

  // ----- what Put and Close do

  /** The channel after a send that found room in an open channel, and otherwise as it was. */
  function WithToken(cfg: Config, sh: Shared): Channel {
    if sh.ch.Channel? && !sh.closed && !sh.ch.closed && sh.ch.tokens < cfg.maxActive
    then Channel(sh.ch.tokens + 1, false)
    else sh.ch
  }

  /** A Put of the checked-out `e`, returned just now: an open pool lists it first, and gives up the
      last of the list only if that holds more than MaxIdle; a closed pool gives up `e` itself.
      What is given up is closed and no longer counts, and nothing else is closed. */
  ghost predicate PutLeaves(cfg: Config, sh: Shared, log: seq<Conn>, e: Entry, r: Result) {
    var grown := if sh.closed then sh.idle + [e] else [e] + sh.idle;
    var last := grown[|sh.idle|];
    && r.sh.closed == sh.closed && r.sh.ch == WithToken(cfg, sh)
    && if !sh.closed && |sh.idle| < cfg.maxIdle
       then r.sh.idle == grown && r.log == log && r.sh.active == sh.active
       else r.sh.idle + [last] == grown && r.log == log + [last.c] && r.sh.active == sh.active - 1
  }

  lemma PutMeans(cfg: Config, sh: Shared, log: seq<Conn>, c: Conn, now: Time)
    requires c in sh.out
    ensures var r := PutCall(cfg, sh, log, c, now);
            PutLeaves(cfg, sh, log, sh.out[c].(t := now), r) && r.sh.out == sh.out - {c}
  {
  }

  lemma SortedCons(e: Entry, es: seq<Entry>)
    requires Sorted(es) && forall x :: x in es ==> x.t <= e.t
    ensures Sorted([e] + es)
  {
  }

  lemma LastIsOldest(es: seq<Entry>, last: Entry)
    requires Sorted(es + [last])
    ensures Sorted(es) && forall e :: e in es ==> last.t <= e.t
  {
    forall e | e in es ensures last.t <= e.t {
      var i :| 0 <= i < |es| && es[i] == e;
      assert (es + [last])[i] == e && (es + [last])[|es|] == last;
    }
    assert forall i :: 0 <= i < |es| ==> (es + [last])[i] == es[i];
  }

  /** An uninterrupted Put keeps the newest MaxIdle connections in order.  If it closes one, that is
      the one returned longest ago, which is the one just returned when MaxIdle is not positive. */
  lemma PutClosesOldest(cfg: Config, sh: Shared, log: seq<Conn>, c: Conn, now: Time) returns (oldest: Entry)
    requires c in sh.out && Sorted(sh.idle) && !sh.closed && forall e :: e in sh.idle ==> e.t <= now
    ensures var r := PutCall(cfg, sh, log, c, now);
            && Sorted(r.sh.idle)
            && (|sh.idle| <= cfg.IdleBound() ==> |r.sh.idle| <= cfg.IdleBound())
            && (if |sh.idle| < cfg.maxIdle then r.log == log
                else r.log == log + [oldest.c] && r.sh.idle + [oldest] == [sh.out[c].(t := now)] + sh.idle)
            && (|sh.idle| >= cfg.maxIdle ==> forall kept :: kept in r.sh.idle ==> oldest.t <= kept.t)
    ensures cfg.maxIdle <= 0 && sh.idle == [] ==> oldest == sh.out[c].(t := now)
  {
    var r, e := PutCall(cfg, sh, log, c, now), sh.out[c].(t := now);
    PutMeans(cfg, sh, log, c, now);
    oldest := ([e] + sh.idle)[|sh.idle|];
    SortedCons(e, sh.idle);
    if |sh.idle| >= cfg.maxIdle {
      LastIsOldest(r.sh.idle, oldest);
    }
  }

  /** A Close of an open pool closes the channel, empties the list, takes what was idle out of
      `active` and closes each such connection once, in order; on a closed pool it does nothing. */
  ghost predicate CloseLeaves(sh: Shared, log: seq<Conn>, r: Result) {
    && r.sh.closed && r.sh.out == sh.out
    && if sh.closed then r.sh == sh && r.log == log
       else
         && r.sh.idle == [] && r.sh.active + |sh.idle| == sh.active
         && (r.sh.ch.NoChannel? <==> sh.ch.NoChannel?)
         && (r.sh.ch.Channel? ==> r.sh.ch.closed && r.sh.ch.tokens == sh.ch.tokens)
         && |r.log| == |log| + |sh.idle| && log <= r.log
         && forall i :: 0 <= i < |sh.idle| ==> r.log[|log| + i] == sh.idle[i].c
  }

  lemma CloseMeans(sh: Shared, log: seq<Conn>)
    ensures CloseLeaves(sh, log, CloseCall(sh, log))
  {
  }
}
