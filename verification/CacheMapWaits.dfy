/** How long GetMany waits for new keys. */
module CacheMapWaits {
  import opened FirstLoadWait
  import opened CacheMap
  import Times = CacheMapTimes

  function Max(a: int, b: int): int {
    if a < b then b else a
  }

  /** The cut-off of a call that began at `start`, when no batch load reads a clock beyond `last`. */
  function Cap<V>(cfg: Config<V>, last: int, start: int): int {
    if cfg.batched then Max(start + cfg.waitTimeout, last) else start + cfg.waitTimeout
  }

  ghost predicate WaitOK<K, V>(cfg: Config<V>, last: int, s: State<K, V>, p: Proc<K, V>) {
    p.ManyWait? ==>
      && p.status < |s.statuses|
      && s.statuses[p.status] <= Cap(cfg, last, p.start)
      && (!cfg.batched ==> s.statuses[p.status] == Cap(cfg, last, p.start))
      && (p.sleeps > 0 ==> p.start + (p.sleeps - 1) * MILLI <= Cap(cfg, last, p.start))
  }

  ghost predicate BatchOK<K, V>(cfg: Config<V>, last: int, l: Loader<K, V>) {
    (l.LoadBatch? ==> cfg.batched) && (l.StoreBatch? ==> cfg.batched && l.now <= last)
  }

  ghost predicate Waits<K, V>(cfg: Config<V>, last: int, s: State<K, V>) {
    && (forall i :: 0 <= i < |s.procs| ==> WaitOK(cfg, last, s, s.procs[i]))
    && (forall j :: 0 <= j < |s.loaders| ==> BatchOK(cfg, last, s.loaders[j]))
  }

  /** A step that leaves the cut-offs alone, except for adding one. */
  lemma QuietWaits<K, V>(cfg: Config<V>, last: int, s: State<K, V>, t: State<K, V>)
    requires Waits(cfg, last, s) && s.statuses <= t.statuses
    requires forall i :: 0 <= i < |t.procs| ==>
               (i < |s.procs| && t.procs[i] == s.procs[i]) || WaitOK(cfg, last, t, t.procs[i])
    requires forall j :: 0 <= j < |t.loaders| ==>
             (j < |s.loaders| && t.loaders[j] == s.loaders[j]) || BatchOK(cfg, last, t.loaders[j])
    ensures Waits(cfg, last, t)
  {
  }

  lemma ManyWaits<K, V>(cfg: Config<V>, last: int, s: State<K, V>, i: nat)
    requires Waits(cfg, last, s) && i < |s.procs| && InMany(s.procs[i])
    ensures Waits(cfg, last, RunMany(cfg, s, i))
  {
    var p, t := s.procs[i], RunMany(cfg, s, i);
    assert WaitOK(cfg, last, s, p);
    QuietWaits(cfg, last, s, t);
  }

  /** No step of Get touches what a GetMany waits for. */
  lemma GetAside<K, V>(cfg: Config<V>, s: State<K, V>, i: nat)
    requires i < |s.procs| && !InMany(s.procs[i])
    ensures var t := RunGet(cfg, s, i);
            && t.statuses == s.statuses && |t.procs| == |s.procs|
            && (forall j :: 0 <= j < |t.procs| ==> t.procs[j] == s.procs[j] || !t.procs[j].ManyWait?)
  {
  }

  lemma GetLoads<K, V>(cfg: Config<V>, s: State<K, V>, i: nat)
    requires i < |s.procs|
    ensures var t := RunGet(cfg, s, i);
            forall j :: 0 <= j < |t.loaders| ==>
               (j < |s.loaders| && t.loaders[j] == s.loaders[j]) || t.loaders[j].LoadOne?
  {
  }

  lemma GetWaits<K, V>(cfg: Config<V>, last: int, s: State<K, V>, i: nat)
    requires Waits(cfg, last, s) && i < |s.procs| && !InMany(s.procs[i])
    ensures Waits(cfg, last, RunGet(cfg, s, i))
  {
    GetAside(cfg, s, i);
    GetLoads(cfg, s, i);
    QuietWaits(cfg, last, s, RunGet(cfg, s, i));
  }

  lemma PickWaits<K, V>(cfg: Config<V>, last: int, s: State<K, V>, i: nat, k: K)
    requires Waits(cfg, last, s) && i < |s.procs|
    ensures Waits(cfg, last, PickKey(cfg, s, i, k))
  {
  }

  lemma LoaderWaits<K, V>(cfg: Config<V>, last: int, s: State<K, V>, j: nat, ev: Event<K, V>)
    requires Waits(cfg, last, s) && j < |s.loaders| && (ev.LoadedBatch? ==> ev.now <= last)
    ensures Waits(cfg, last, LoaderStep(cfg, s, j, ev))
  {
  }

  lemma {:induction false} WaitsStep<K, V>(cfg: Config<V>, last: int, s: State<K, V>, ev: Event<K, V>)
    requires Waits(cfg, last, s) && (ev.LoadedBatch? ==> ev.now <= last)
    ensures Waits(cfg, last, Apply(cfg, s, ev))
  {
    match ev {
      case Run(i) =>
        if i < |s.procs| {
          if InMany(s.procs[i]) { ManyWaits(cfg, last, s, i); } else { GetWaits(cfg, last, s, i); }
        }
      case Loaded(j, _, _, _) => if j < |s.loaders| { LoaderWaits(cfg, last, s, j, ev); }
      case LoadedBatch(j, _, _, _) => if j < |s.loaders| { LoaderWaits(cfg, last, s, j, ev); }
      case StoreNext(j) => if j < |s.loaders| { LoaderWaits(cfg, last, s, j, ev); }
      case StoreKey(j, _) => if j < |s.loaders| { LoaderWaits(cfg, last, s, j, ev); }
      case Pick(i, k) => if i < |s.procs| { PickWaits(cfg, last, s, i, k); }
      case CallGet(_, _, _) => QuietWaits(cfg, last, s, Apply(cfg, s, ev));
      case CallGetMany(_, _, _) => QuietWaits(cfg, last, s, Apply(cfg, s, ev));
      case CallEvict(_, _) => QuietWaits(cfg, last, s, Apply(cfg, s, ev));
      case Delete(_) => QuietWaits(cfg, last, s, Apply(cfg, s, ev));
    }
  }

  ghost predicate BatchesBy<K, V>(evs: seq<Event<K, V>>, last: int) {
    forall x :: 0 <= x < |evs| && evs[x].LoadedBatch? ==> evs[x].now <= last
  }

  lemma {:induction false} WaitsReachable<K, V>(cfg: Config<V>, last: int, n: nat, evs: seq<Event<K, V>>)
    requires BatchesBy(evs, last)
    ensures Waits(cfg, last, Exec(cfg, Begin(n), evs))
  {
    if evs != [] {
      WaitsReachable(cfg, last, n, evs[..|evs| - 1]);
      WaitsStep(cfg, last, Exec(cfg, Begin(n), evs[..|evs| - 1]), evs[|evs| - 1]);
    }
  }

  /** What the invariant says of one goroutine. */
  lemma WaitReachable<K, V>(cfg: Config<V>, last: int, n: nat, evs: seq<Event<K, V>>, i: nat)
    requires BatchesBy(evs, last) && i < |Exec(cfg, Begin<K, V>(n), evs).procs|
    ensures WaitOK(cfg, last, Exec(cfg, Begin(n), evs), Exec(cfg, Begin(n), evs).procs[i])
  {
    WaitsReachable(cfg, last, n, evs);
  }

  /** GetMany waits waitTimeout from its start, or until the latest clock a batch load read. */
  lemma GetManyWaitIsBounded<K, V>(cfg: Config<V>, last: int, n: nat, evs: seq<Event<K, V>>, i: nat)
    requires BatchesBy(evs, last)
    requires var s := Exec(cfg, Begin<K, V>(n), evs); i < |s.procs| && s.procs[i].ManyWait?
    ensures var p := Exec(cfg, Begin(n), evs).procs[i]; p.sleeps <= MaxSleeps(p.start, Cap(cfg, last, p.start))
  {
    WaitReachable(cfg, last, n, evs, i);
    var p := Exec(cfg, Begin(n), evs).procs[i];
    Times.SleepsBound(p.start, Cap(cfg, last, p.start), p.sleeps);
  }

  /** A GetMany whose next step ends its wait. */
  ghost predicate Leaves<K, V>(cfg: Config<V>, s: State<K, V>, i: nat)
    requires i < |s.procs|
  {
    var t := Apply(cfg, s, Run(i));
    s.procs[i].ManyWait? && |t.procs| == |s.procs| && t.procs[i].ManyRead?
  }

  lemma LeavesLate<K, V>(cfg: Config<V>, s: State<K, V>, i: nat)
    requires i < |s.procs| && Leaves(cfg, s, i)
    ensures var p := s.procs[i]; p.status < |s.statuses| && p.start + p.sleeps * MILLI > s.statuses[p.status]
  {
  }

  /** The cut-off of a GetMany is the one it set, and its last sleep was within it. */
  ghost predicate Uncut<K, V>(cfg: Config<V>, s: State<K, V>, i: nat)
    requires i < |s.procs|
  {
    var p := s.procs[i];
    p.ManyWait? ==>
      && p.status < |s.statuses| && s.statuses[p.status] == p.start + cfg.waitTimeout
      && (p.sleeps > 0 ==> p.start + (p.sleeps - 1) * MILLI <= p.start + cfg.waitTimeout)
  }

  lemma UnbatchedUncut<K, V>(cfg: Config<V>, n: nat, evs: seq<Event<K, V>>, i: nat)
    requires !cfg.batched && i < |Exec(cfg, Begin<K, V>(n), evs).procs|
    ensures Uncut(cfg, Exec(cfg, Begin<K, V>(n), evs), i)
  {
    var last := LastBatch(evs);
    WaitReachable(cfg, last, n, evs, i);
  }

  /** It has slept as often as its whole timeout takes. */
  ghost predicate WaitedOut<K, V>(cfg: Config<V>, p: Proc<K, V>)
    requires p.ManyWait?
  {
    p.sleeps == MaxSleeps(p.start, p.start + cfg.waitTimeout)
  }

  lemma UncutWaitsOut<K, V>(cfg: Config<V>, s: State<K, V>, i: nat)
    requires i < |s.procs| && Uncut(cfg, s, i) && Leaves(cfg, s, i)
    ensures WaitedOut(cfg, s.procs[i])
  {
    LeavesLate(cfg, s, i);
    LastsExactly(s.procs[i].start, s.procs[i].start + cfg.waitTimeout, s.procs[i].sleeps);
  }

  /** Without LoadDataBatch nothing ends the wait early: it always lasts the whole timeout, even
      when every load has long finished. */
  lemma WithoutBatchWaitsOut<K, V>(cfg: Config<V>, n: nat, evs: seq<Event<K, V>>, i: nat)
    requires !cfg.batched
    requires i < |Exec(cfg, Begin<K, V>(n), evs).procs| && Leaves(cfg, Exec(cfg, Begin<K, V>(n), evs), i)
    ensures WaitedOut(cfg, Exec(cfg, Begin<K, V>(n), evs).procs[i])
  {
    UnbatchedUncut(cfg, n, evs, i);
    UncutWaitsOut(cfg, Exec(cfg, Begin<K, V>(n), evs), i);
  }

  lemma LastsExactly(start: int, cut: int, sleeps: nat)
    requires start + sleeps * MILLI > cut && (sleeps > 0 ==> start + (sleeps - 1) * MILLI <= cut)
    ensures sleeps == MaxSleeps(start, cut)
  {
  }

  lemma {:induction false} LastBatch<K, V>(evs: seq<Event<K, V>>) returns (last: int)
    ensures BatchesBy(evs, last)
  {
    last := 0;
    if evs != [] {
      var init, ev := evs[..|evs| - 1], evs[|evs| - 1];
      last := LastBatch(init);
      assert forall x :: 0 <= x < |init| ==> evs[x] == init[x];
      if ev.LoadedBatch? && ev.now > last {
        last := ev.now;
      }
    }
  }

  // ----- a batch that finishes after the cut-off

  /** One step of a GetMany. */
  function Steps<K(==), V>(cfg: Config<V>, s: State<K, V>, i: nat): (t: State<K, V>)
    requires i < |s.procs|
    ensures |t.procs| == |s.procs|
  {
    RunMany(cfg, s, i)
  }

  function Alone<K(==), V>(cfg: Config<V>, s: State<K, V>, i: nat, steps: nat): (t: State<K, V>)
    requires i < |s.procs|
    ensures |t.procs| == |s.procs|
    decreases steps
  {
    if steps == 0 then s else Alone(cfg, Steps(cfg, s, i), i, steps - 1)
  }

  function Slept<K, V>(p: Proc<K, V>, sleeps: nat): Proc<K, V>
    requires p.ManyWait?
  {
    ManyWait(p.start, sleeps, p.status, p.out, p.pend)
  }

  lemma SleepsOn<K, V>(cfg: Config<V>, s: State<K, V>, i: nat, p: Proc<K, V>)
    requires i < |s.procs| && p.ManyWait? && p.status < |s.statuses|
             && p.start + p.sleeps * MILLI <= s.statuses[p.status]
    ensures Steps(cfg, Goto(s, i, p), i) == Goto(s, i, Slept(p, p.sleeps + 1))
  {
    assert s.procs[i := p][i := Slept(p, p.sleeps + 1)] == s.procs[i := Slept(p, p.sleeps + 1)];
  }

  lemma {:induction false} AloneLast<K, V>(cfg: Config<V>, s: State<K, V>, i: nat, steps: nat)
    requires i < |s.procs|
    ensures Alone(cfg, s, i, steps + 1) == Steps(cfg, Alone(cfg, s, i, steps), i)
    decreases steps
  {
    if steps > 0 {
      AloneLast(cfg, Steps(cfg, s, i), i, steps - 1);
    }
  }

  lemma SleptNone<K, V>(p: Proc<K, V>)
    requires p.ManyWait?
    ensures Slept(p, p.sleeps) == p
  {
  }

  lemma SleptAgain<K, V>(p: Proc<K, V>, x: nat, y: nat)
    requires p.ManyWait?
    ensures Slept(Slept(p, x), y) == Slept(p, y)
  {
  }

  /** Sleeps up to the `y`-th, all before the cut-off. */
  lemma {:induction false} SleepRun<K, V>(cfg: Config<V>, s: State<K, V>, i: nat, p: Proc<K, V>, y: nat)
    requires i < |s.procs| && p.ManyWait? && p.status < |s.statuses| && p.sleeps <= y
    requires y > p.sleeps ==> p.start + (y - 1) * MILLI <= s.statuses[p.status]
    ensures Alone(cfg, Goto(s, i, p), i, y - p.sleeps) == Goto(s, i, Slept(p, y))
    decreases y - p.sleeps
  {
    if y == p.sleeps {
      SleptNone(p);
    } else {
      SleepsOn(cfg, s, i, p);
      SleepRun(cfg, s, i, Slept(p, p.sleeps + 1), y);
      SleptAgain(p, p.sleeps + 1, y);
    }
  }

  lemma NotYet(start: int, cut: int, sleeps: nat)
    requires sleeps < MaxSleeps(start, cut)
    ensures start + sleeps * MILLI <= cut
  {
  }

  /** Left alone with cut-off `cut`, a GetMany that has slept x times leaves its loop having slept
      exactly the larger of x and MaxSleeps(start, cut) times. */
  lemma LeftAlone<K, V>(cfg: Config<V>, s: State<K, V>, i: nat, steps: nat)
    requires i < |s.procs| && s.procs[i].ManyWait? && s.procs[i].status < |s.statuses|
    requires var p := s.procs[i]; steps <= Max(p.sleeps, MaxSleeps(p.start, s.statuses[p.status])) - p.sleeps
    ensures Alone(cfg, s, i, steps) == Goto(s, i, Slept(s.procs[i], s.procs[i].sleeps + steps))
  {
    var p := s.procs[i];
    assert Goto(s, i, p) == s by { assert s.procs[i := p] == s.procs; }
    if steps > 0 {
      NotYet(p.start, s.statuses[p.status], p.sleeps + steps - 1);
    }
    SleepRun(cfg, s, i, p, p.sleeps + steps);
  }

  lemma SleptEnough<K, V>(cfg: Config<V>, s: State<K, V>, i: nat, p: Proc<K, V>)
    requires i < |s.procs| && p.ManyWait? && p.status < |s.statuses|
             && p.start + p.sleeps * MILLI > s.statuses[p.status]
    ensures Steps(cfg, Goto(s, i, p), i).procs[i] == ManyRead(p.pend, p.out)
  {
  }

  /** Once a batch load that read clock `late` has set the cut-off of a GetMany that is within its
      bound, the call overruns waitTimeout if and only if `late` lies beyond its last regular tick. */
  lemma LateBatchOverruns<K, V>(cfg: Config<V>, s: State<K, V>, i: nat)
    requires i < |s.procs| && s.procs[i].ManyWait? && s.procs[i].status < |s.statuses| && cfg.waitTimeout >= 0
    requires s.procs[i].sleeps <= MaxSleeps(s.procs[i].start, s.procs[i].start + cfg.waitTimeout)
    ensures var p := s.procs[i]; var late := s.statuses[p.status];
            var total := Max(p.sleeps, MaxSleeps(p.start, late));
            && Alone(cfg, s, i, total - p.sleeps).procs[i] == Slept(p, total)
            && Alone(cfg, s, i, total - p.sleeps + 1).procs[i] == ManyRead(p.pend, p.out)
            && (total > MaxSleeps(p.start, p.start + cfg.waitTimeout) <==>
                late >= p.start + (cfg.waitTimeout / MILLI + 1) * MILLI)
  {
    var p := s.procs[i];
    var late := s.statuses[p.status];
    var total := Max(p.sleeps, MaxSleeps(p.start, late));
    LeftAlone(cfg, s, i, total - p.sleeps);
    AloneLast(cfg, s, i, total - p.sleeps);
    Times.LastSleep(p.start, late);
    SleptEnough(cfg, s, i, Slept(p, total));
    TickOf(late - p.start, cfg.waitTimeout);
  }

  lemma TickOf(x: int, y: int)
    requires y >= 0
    ensures x >= (y / MILLI + 1) * MILLI <==> x / MILLI >= y / MILLI + 1
  {
  }
}
