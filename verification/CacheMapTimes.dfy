/** Evict times, wait cut-offs and what eviction removes, over every run of CacheMap. */
module CacheMapTimes {
  import opened FirstLoadWait
  import opened CacheMap

  function Latest(times: seq<int>): (t: int)
    requires times != []
    ensures t in times
    ensures forall x :: x in times ==> x <= t
  {
    var last := times[|times| - 1];
    if |times| == 1 then last
    else
      var t := Latest(times[..|times| - 1]);
      assert times == times[..|times| - 1] + [last];
      if last > t then last else t
  }

  /** The evict time is the latest access plus the timeout; the first load is waited for at most
      waitTimeout after creation. */
  ghost predicate ItemTimes<K, V>(cfg: Config<V>, it: Item<K, V>) {
    && it.touches != []
    && it.evict == Latest(it.touches) + cfg.evictTimeout
    && it.cutoff <= it.touches[0] + cfg.waitTimeout
  }

  /** The same item, later: more accesses, no earlier evict time, no later cut-off. */
  ghost predicate Later<K, V>(a: Item<K, V>, b: Item<K, V>) {
    b.key == a.key && a.touches <= b.touches && a.evict <= b.evict && b.cutoff <= a.cutoff
  }

  ghost predicate Advances<K, V>(s: State<K, V>, t: State<K, V>) {
    |s.items| <= |t.items| && forall id :: 0 <= id < |s.items| ==> Later(s.items[id], t.items[id])
  }

  /** The item a victim names had not been accessed for evictTimeout when it was scanned. */
  ghost predicate WasPast<K, V>(cfg: Config<V>, s: State<K, V>, now: int, v: Victim<K>) {
    && v.id < |s.items| && s.items[v.id].key == v.k
    && 0 < v.seen <= |s.items[v.id].touches|
    && v.limit == Latest(s.items[v.id].touches[..v.seen]) + cfg.evictTimeout
    && v.limit < now
  }

  ghost predicate ProcTimes<K, V>(cfg: Config<V>, s: State<K, V>, p: Proc<K, V>) {
    match p
    case GetWait(_, id, start, cut, sleeps) =>
      && id < |s.items|
      && s.items[id].touches != []
      && s.items[id].cutoff <= cut <= s.items[id].touches[0] + cfg.waitTimeout
      && (sleeps > 0 ==> start + (sleeps - 1) * MILLI <= cut)
    case EvictScan(now, victims) => forall x :: 0 <= x < |victims| ==> WasPast(cfg, s, now, victims[x])
    case _ => true
  }

  ghost predicate Timed<K, V>(cfg: Config<V>, s: State<K, V>) {
    && (forall k :: k in s.index ==> s.index[k] < |s.items| && s.items[s.index[k]].key == k)
    && (forall id :: 0 <= id < |s.items| ==> ItemTimes(cfg, s.items[id]))
    && (forall i :: 0 <= i < |s.procs| ==> ProcTimes(cfg, s, s.procs[i]))
  }

  lemma TouchTimes<K, V>(cfg: Config<V>, it: Item<K, V>, now: int)
    requires ItemTimes(cfg, it)
    ensures ItemTimes(cfg, Touch(cfg, it, now)) && Later(it, Touch(cfg, it, now))
  {
  }

  lemma StoreTimes<K, V>(cfg: Config<V>, it: Item<K, V>, v: V, failed: bool, now: int)
    requires ItemTimes(cfg, it)
    ensures ItemTimes(cfg, Store(cfg, it, v, failed, now)) && Later(it, Store(cfg, it, v, failed, now))
  {
  }

  lemma ProcLater<K, V>(cfg: Config<V>, s: State<K, V>, t: State<K, V>, p: Proc<K, V>)
    requires Advances(s, t) && ProcTimes(cfg, s, p)
    ensures ProcTimes(cfg, t, p)
  {
    match p {
      case GetWait(_, id, _, _, _) => assert Later(s.items[id], t.items[id]);
      case EvictScan(now, victims) =>
        forall x | 0 <= x < |victims| ensures WasPast(cfg, t, now, victims[x]) {
          var v := victims[x];
          assert WasPast(cfg, s, now, v) && Later(s.items[v.id], t.items[v.id]);
          assert t.items[v.id].touches[..v.seen] == s.items[v.id].touches[..v.seen];
        }
      case _ =>
    }
  }

  lemma TimedKeeps<K, V>(cfg: Config<V>, s: State<K, V>, t: State<K, V>)
    requires Timed(cfg, s)
    requires |s.items| <= |t.items|
    requires forall id :: 0 <= id < |s.items| && t.items[id] != s.items[id] ==>
             ItemTimes(cfg, t.items[id]) && Later(s.items[id], t.items[id])
    requires forall id :: |s.items| <= id < |t.items| ==> ItemTimes(cfg, t.items[id])
    requires forall k :: k in t.index ==>
               (k in s.index && t.index[k] == s.index[k]) || (t.index[k] < |t.items| && t.items[t.index[k]].key == k)
    requires forall i :: 0 <= i < |t.procs| ==>
               (i < |s.procs| && t.procs[i] == s.procs[i]) || ProcTimes(cfg, t, t.procs[i])
    ensures Timed(cfg, t) && Advances(s, t)
  {
    forall id | 0 <= id < |s.items| ensures Later(s.items[id], t.items[id]) {
    }
    forall i | 0 <= i < |t.procs| ensures ProcTimes(cfg, t, t.procs[i]) {
      if i < |s.procs| && t.procs[i] == s.procs[i] {
        ProcLater(cfg, s, t, s.procs[i]);
      }
    }
  }

  /** A step of goroutine `i` alone. */
  lemma MoveTimes<K, V>(cfg: Config<V>, s: State<K, V>, i: nat, q: Proc<K, V>)
    requires Timed(cfg, s) && i < |s.procs| && ProcTimes(cfg, s, q)
    ensures Timed(cfg, Goto(s, i, q)) && Advances(s, Goto(s, i, q))
  {
  }

  /** A step that changes one item. */
  lemma ReplaceTimes<K, V>(
      cfg: Config<V>, s: State<K, V>, t: State<K, V>, id: nat, it: Item<K, V>, i: nat, q: Proc<K, V>)
    requires Timed(cfg, s) && i < |s.procs| && id < |s.items|
    requires t.items == s.items[id := it] && t.index == s.index && t.procs == s.procs[i := q]
    requires ItemTimes(cfg, it) && Later(s.items[id], it) && ProcTimes(cfg, s, q)
    ensures Timed(cfg, t) && Advances(s, t)
  {
    ProcLater(cfg, s, t, q);
    TimedKeeps(cfg, s, t);
  }

  /** A step that adds one item. */
  lemma AddTimes<K, V>(cfg: Config<V>, s: State<K, V>, t: State<K, V>, k: K, now: int, i: nat, q: Proc<K, V>)
    requires Timed(cfg, s) && i < |s.procs| && ProcTimes(cfg, s, q)
    requires t.items == s.items + [NewItem(cfg, k, now)] && t.index == s.index[k := |s.items|]
             && t.procs == s.procs[i := q]
    ensures Timed(cfg, t) && Advances(s, t)
  {
    ProcLater(cfg, s, t, q);
    TimedKeeps(cfg, s, t);
  }

  lemma GetChanges<K, V>(cfg: Config<V>, s: State<K, V>, i: nat)
    requires Timed(cfg, s) && i < |s.procs|
    requires s.procs[i].GetTouch? || s.procs[i].GetCreate? || s.procs[i].GetSet?
    ensures Timed(cfg, RunGet(cfg, s, i)) && Advances(s, RunGet(cfg, s, i))
  {
    var p, t := s.procs[i], RunGet(cfg, s, i);
    if p.GetTouch? && Has(s, p.id) {
      TouchTimes(cfg, s.items[p.id], p.now);
      ReplaceTimes(cfg, s, t, p.id, Touch(cfg, s.items[p.id], p.now), i, GetRead(p.k, p.id));
    } else if p.GetCreate? && p.k !in s.index {
      AddTimes(cfg, s, t, p.k, p.now, i, GetCheck(p.k, |s.items|, p.now));
    } else if p.GetSet? && Has(s, p.id) {
      ReplaceTimes(cfg, s, t, p.id, s.items[p.id].(next := p.now + cfg.retryInterval), i, t.procs[i]);
    } else {
      MoveTimes(cfg, s, i, t.procs[i]);
    }
  }

  lemma GetTimes<K, V>(cfg: Config<V>, s: State<K, V>, i: nat)
    requires Timed(cfg, s) && i < |s.procs|
    ensures Timed(cfg, RunGet(cfg, s, i)) && Advances(s, RunGet(cfg, s, i))
  {
    var p, t := s.procs[i], RunGet(cfg, s, i);
    if p.GetTouch? || p.GetCreate? || p.GetSet? {
      GetChanges(cfg, s, i);
    } else if p.GetRead? {
      TimedKeeps(cfg, s, t);
    } else {
      assert ProcTimes(cfg, s, p);
      MoveTimes(cfg, s, i, t.procs[i]);
    }
  }

  lemma ScanTimes<K, V>(cfg: Config<V>, s: State<K, V>, i: nat)
    requires Timed(cfg, s) && i < |s.procs| && s.procs[i].ManyScan?
    ensures Timed(cfg, RunMany(cfg, s, i)) && Advances(s, RunMany(cfg, s, i))
  {
    var p, t := s.procs[i], RunMany(cfg, s, i);
    if p.todo != [] && p.todo[0] in s.index {
      var id := s.index[p.todo[0]];
      TouchTimes(cfg, s.items[id], p.now);
      ReplaceTimes(cfg, s, t, id, Touch(cfg, s.items[id], p.now), i, t.procs[i]);
    } else {
      MoveTimes(cfg, s, i, t.procs[i]);
    }
  }

  lemma CollectTimes<K, V>(cfg: Config<V>, s: State<K, V>, i: nat)
    requires Timed(cfg, s) && i < |s.procs| && (s.procs[i].ManyPick? || s.procs[i].ManySet?)
    ensures Timed(cfg, RunMany(cfg, s, i)) && Advances(s, RunMany(cfg, s, i))
  {
    var p, t := s.procs[i], RunMany(cfg, s, i);
    if p.ManyPick? && p.miss != [] && p.miss[0] !in s.index {
      AddTimes(cfg, s, t, p.miss[0], p.now, i, t.procs[i]);
    } else if p.ManySet? && Has(s, p.id) && p.miss != [] {
      ReplaceTimes(cfg, s, t, p.id, s.items[p.id].(next := p.now + cfg.retryInterval), i, t.procs[i]);
    } else {
      MoveTimes(cfg, s, i, t.procs[i]);
    }
  }

  lemma ManyTimes<K, V>(cfg: Config<V>, s: State<K, V>, i: nat)
    requires Timed(cfg, s) && i < |s.procs| && InMany(s.procs[i])
    ensures Timed(cfg, RunMany(cfg, s, i)) && Advances(s, RunMany(cfg, s, i))
  {
    var p, t := s.procs[i], RunMany(cfg, s, i);
    if p.ManyScan? {
      ScanTimes(cfg, s, i);
    } else if p.ManyPick? || p.ManySet? {
      CollectTimes(cfg, s, i);
    } else {
      assert t.items == s.items && t.index == s.index && forall x :: 0 <= x < |t.procs| && x != i ==>
          t.procs[x] == s.procs[x];
      TimedKeeps(cfg, s, t);
    }
  }

  lemma PickTimes<K, V>(cfg: Config<V>, s: State<K, V>, i: nat, k: K)
    requires Timed(cfg, s) && i < |s.procs|
    ensures Timed(cfg, PickKey(cfg, s, i, k)) && Advances(s, PickKey(cfg, s, i, k))
  {
    var p, t := s.procs[i], PickKey(cfg, s, i, k);
    assert ProcTimes(cfg, s, p);
    if p.EvictScan? && k in s.index {
      var ts := s.items[s.index[k]].touches;
      assert ts[..|ts|] == ts;
      assert forall x :: 0 <= x < |p.victims| ==> WasPast(cfg, s, p.now, p.victims[x]);
    }
    TimedKeeps(cfg, s, t);
  }

  lemma LoaderTimes<K, V>(cfg: Config<V>, s: State<K, V>, j: nat, ev: Event<K, V>)
    requires Timed(cfg, s) && j < |s.loaders|
    ensures Timed(cfg, LoaderStep(cfg, s, j, ev)) && Advances(s, LoaderStep(cfg, s, j, ev))
  {
    var l, t := s.loaders[j], LoaderStep(cfg, s, j, ev);
    if l.StoreOne? && ev.StoreNext? && Has(s, l.id) {
      StoreTimes(cfg, s.items[l.id], l.v, l.failed, l.now);
    } else if l.StoreBatch? && ev.StoreKey? && ev.k in l.left && Has(s, l.left[ev.k]) {
      StoreTimes(cfg, s.items[l.left[ev.k]], if ev.k in l.data then l.data[ev.k] else cfg.zero, l.failed, l.now);
    }
    TimedKeeps(cfg, s, t);
  }

  lemma CallTimes<K, V>(cfg: Config<V>, s: State<K, V>, ev: Event<K, V>)
    requires Timed(cfg, s) && (ev.CallGet? || ev.CallGetMany? || ev.CallEvict? || ev.Delete?)
    ensures Timed(cfg, Apply(cfg, s, ev)) && Advances(s, Apply(cfg, s, ev))
  {
    TimedKeeps(cfg, s, Apply(cfg, s, ev));
  }

  /** Every step keeps the items' times and moves them one way only. */
  lemma {:induction false} TimesStep<K, V>(cfg: Config<V>, s: State<K, V>, ev: Event<K, V>)
    requires Timed(cfg, s)
    ensures Timed(cfg, Apply(cfg, s, ev)) && Advances(s, Apply(cfg, s, ev))
  {
    match ev {
      case Run(i) => if i < |s.procs| { if InMany(s.procs[i]) { ManyTimes(cfg, s, i); } else { GetTimes(cfg, s, i); } }
      case Pick(i, k) => if i < |s.procs| { PickTimes(cfg, s, i, k); }
      case Loaded(j, _, _, _) => if j < |s.loaders| { LoaderTimes(cfg, s, j, ev); }
      case LoadedBatch(j, _, _, _) => if j < |s.loaders| { LoaderTimes(cfg, s, j, ev); }
      case StoreNext(j) => if j < |s.loaders| { LoaderTimes(cfg, s, j, ev); }
      case StoreKey(j, _) => if j < |s.loaders| { LoaderTimes(cfg, s, j, ev); }
      case _ => CallTimes(cfg, s, ev);
    }
  }

  lemma {:induction false} TimesReachable<K, V>(cfg: Config<V>, n: nat, evs: seq<Event<K, V>>)
    ensures Timed(cfg, Exec(cfg, Begin(n), evs))
  {
    if evs != [] {
      TimesReachable(cfg, n, evs[..|evs| - 1]);
      TimesStep(cfg, Exec(cfg, Begin(n), evs[..|evs| - 1]), evs[|evs| - 1]);
    }
  }

  // ----- what follows for every run

  lemma AdvancesTrans<K, V>(s: State<K, V>, t: State<K, V>, u: State<K, V>)
    requires Advances(s, t) && Advances(t, u)
    ensures Advances(s, u)
  {
  }

  /** However a run goes on, no item's evict time falls and no item's wait cut-off rises. */
  lemma {:induction false} TimesMoveOneWay<K, V>(cfg: Config<V>, n: nat, evs: seq<Event<K, V>>, more: seq<Event<K, V>>)
    ensures Advances(Exec(cfg, Begin(n), evs), Exec(cfg, Begin(n), evs + more))
  {
    if more == [] {
      assert evs + more == evs;
    } else {
      var last := |more| - 1;
      var was := Exec(cfg, Begin(n), evs + more[..last]);
      TimesMoveOneWay(cfg, n, evs, more[..last]);
      assert (evs + more)[..|evs + more| - 1] == evs + more[..last];
      TimesReachable(cfg, n, evs + more[..last]);
      TimesStep(cfg, was, more[last]);
      AdvancesTrans(Exec(cfg, Begin(n), evs), was, Apply(cfg, was, more[last]));
    }
  }

  /** An item's evict time is its latest access plus evictTimeout, creation included. */
  lemma EvictTimeIsLatestAccess<K, V>(cfg: Config<V>, n: nat, evs: seq<Event<K, V>>, id: nat)
    requires id < |Exec(cfg, Begin(n), evs).items|
    ensures var it := Exec(cfg, Begin(n), evs).items[id];
            && (exists x :: x in it.touches && it.evict == x + cfg.evictTimeout)
            && (forall x :: x in it.touches ==> x + cfg.evictTimeout <= it.evict)
  {
    TimesReachable(cfg, n, evs);
    var it := Exec(cfg, Begin(n), evs).items[id];
    assert ItemTimes(cfg, it);
    assert Latest(it.touches) in it.touches;
  }

  lemma SleepsBound(start: int, cut: int, sleeps: nat)
    requires sleeps > 0 ==> start + (sleeps - 1) * MILLI <= cut
    ensures sleeps <= MaxSleeps(start, cut)
  {
  }

  /** A Get sleeps at most (cut-off - now)/1ms + 1 times, and never past waitTimeout after its item
      was created, however loads and other calls interfere; it goes on exactly once its clock is past
      its item's cut-off. */
  lemma GetWaitIsBounded<K, V>(cfg: Config<V>, n: nat, evs: seq<Event<K, V>>, i: nat)
    requires var s := Exec(cfg, Begin<K, V>(n), evs); i < |s.procs| && s.procs[i].GetWait?
    ensures var s := Exec(cfg, Begin(n), evs); var p := s.procs[i];
            && p.sleeps <= MaxSleeps(p.start, p.cut)
            && Has(s, p.id) && s.items[p.id].touches != [] && p.cut <= s.items[p.id].touches[0] + cfg.waitTimeout
            && (Apply(cfg, s, Run(i)).procs[i].GetTouch? <==> p.start + p.sleeps * MILLI > s.items[p.id].cutoff)
            && (p.sleeps == MaxSleeps(p.start, p.cut) ==> Apply(cfg, s, Run(i)).procs[i].GetTouch?)
  {
    TimesReachable(cfg, n, evs);
    var s := Exec(cfg, Begin(n), evs);
    var p := s.procs[i];
    assert ProcTimes(cfg, s, p);
    SleepsBound(p.start, p.cut, p.sleeps);
    LastSleep(p.start, p.cut);
  }

  lemma LastSleep(start: int, cut: int)
    ensures start + MaxSleeps(start, cut) * MILLI > cut
  {
  }

  /** Some access, the `from`-th or later, is within evictTimeout of `now`. */
  ghost predicate AccessedSince<K, V>(cfg: Config<V>, it: Item<K, V>, from: nat, now: int) {
    exists x :: from <= x < |it.touches| && it.touches[x] + cfg.evictTimeout >= now
  }

  lemma WithinLimitIff<K, V>(cfg: Config<V>, it: Item<K, V>, from: nat, now: int)
    requires ItemTimes(cfg, it) && from <= |it.touches|
    requires from > 0 ==> Latest(it.touches[..from]) + cfg.evictTimeout < now
    ensures it.evict >= now <==> AccessedSince(cfg, it, from, now)
  {
    forall x | 0 <= x < |it.touches| ensures it.touches[x] <= Latest(it.touches) {
      assert it.touches[x] in it.touches;
    }
    forall x | 0 <= x < from ensures it.touches[x] + cfg.evictTimeout < now {
      assert it.touches[..from][x] in it.touches[..from];
    }
    var last :| 0 <= last < |it.touches| && it.touches[last] == Latest(it.touches);
  }

  /** From which access on the item now under a victim's key has not been seen by the scan. */
  function Unseen<K, V>(s: State<K, V>, v: Victim<K>): nat {
    if v.k in s.index && s.index[v.k] == v.id then v.seen else 0
  }

  /** A key leaves the map only if the item scanned under it was then past its limit.  The item
      removed is within its limit if and only if an access the scan did not see lies within
      evictTimeout of evictKeys' clock: one after the scan, or any, the creation included, of an item
      put there since. */
  lemma EvictsOnlyIdle<K, V>(cfg: Config<V>, n: nat, evs: seq<Event<K, V>>, i: nat, k: K)
    requires var s := Exec(cfg, Begin(n), evs);
             i < |s.procs| && s.procs[i].EvictScan? && k in s.index && k !in Apply(cfg, s, Delete(i)).index
    ensures var s := Exec(cfg, Begin(n), evs);
            && Has(s, s.index[k])
            && exists v :: v in s.procs[i].victims && v.k == k && WasPast(cfg, s, s.procs[i].now, v)
                 && (s.items[s.index[k]].evict >= s.procs[i].now <==>
                     AccessedSince(cfg, s.items[s.index[k]], Unseen(s, v), s.procs[i].now))
  {
    TimesReachable(cfg, n, evs);
    EvictedIff(cfg, Exec(cfg, Begin(n), evs), i, k);
  }

  lemma EvictedIff<K, V>(cfg: Config<V>, s: State<K, V>, i: nat, k: K)
    requires Timed(cfg, s) && i < |s.procs| && s.procs[i].EvictScan?
    requires k in s.index && k !in Apply(cfg, s, Delete(i)).index
    ensures Has(s, s.index[k])
    ensures exists v :: v in s.procs[i].victims && v.k == k && WasPast(cfg, s, s.procs[i].now, v)
              && (s.items[s.index[k]].evict >= s.procs[i].now <==>
                  AccessedSince(cfg, s.items[s.index[k]], Unseen(s, v), s.procs[i].now))
  {
    var p := s.procs[i];
    assert ProcTimes(cfg, s, p);
    var v :| v in p.victims && v.k == k;
    assert WasPast(cfg, s, p.now, v);
    WithinLimitIff(cfg, s.items[s.index[k]], Unseen(s, v), p.now);
  }
}
