/** A run in which a GetMany outlasts waitTimeout because its batch load ends late. */
module CacheMapOverrun {
  import opened FirstLoadWait
  import opened CacheMap
  import opened CacheMapRuns
  import opened CacheMapManyRuns
  import opened CacheMapStoreRuns
  import opened CacheMapWaits

  /** A GetMany of `k`, called on an empty map at clock `start`, waits for its batch load. */
  function Waiting<K, V>(cfg: Config<V>, k: K, start: int): State<K, V> {
    State([NewItem(cfg, k, start)], map[k := 0], [start + cfg.waitTimeout], [ManyWait(start, 0, 0, map[], map[k := 0])],
          [LoadBatch(map[k := 0], 0)], [Start(0, start)], [], [])
  }

  lemma Scans<K(!new), V(!new)>(cfg: Config<V>, k: K, start: int)
    ensures Reaches(cfg, Begin(1), Goto(Begin(1), 0, ManyPick(start, [k], map[], map[], false)))
  {
    var b := Begin<K, V>(1);
    var scanned := Goto(b, 0, ManyScan(start, [], map[], [k]));
    ReachesStep(cfg, b, CallGetMany(0, [k], start));
    LookRun(cfg, b, 0, start, [k], map[], []);
    assert [k][1..] == [] && [] + [k] == [k];
    ReachesTrans(cfg, b, Goto(b, 0, ManyScan(start, [k], map[], [])), scanned);
    GotoTwice(b, 0, ManyScan(start, [], map[], [k]), ManyPick(start, [k], map[], map[], false));
    NotBlocked(b, 0, ManyScan(start, [], map[], [k]));
    ManyStep(cfg, scanned, 0);
    ReachesTrans(cfg, b, scanned, Goto(b, 0, ManyPick(start, [k], map[], map[], false)));
  }

  /** The state once `k` has its item. */
  function WithItem<K, V>(cfg: Config<V>, k: K, start: int, p: Proc<K, V>): State<K, V> {
    State([NewItem(cfg, k, start)], map[k := 0], [], [p], [], [Start(0, start)], [], [])
  }

  lemma Collects<K(!new), V(!new)>(cfg: Config<V>, k: K, start: int)
    ensures Reaches(cfg, Goto(Begin(1), 0, ManyPick(start, [k], map[], map[], false)),
                    WithItem(cfg, k, start, ManyPick(start, [], map[], map[k := 0], true)))
  {
    var b := Begin<K, V>(1);
    CollectRun(cfg, b, 0, start, [k], map[], map[], false);
    assert [k][1..] == [] && map[][k := 0] == map[k := 0];
    assert Goto(Collected(cfg, b, k, start), 0, ManyPick(start, [], map[], map[k := 0], true)) ==
           WithItem(cfg, k, start, ManyPick(start, [], map[], map[k := 0], true));
  }

  lemma Launches<K(!new), V(!new)>(cfg: Config<V>, k: K, start: int)
    requires cfg.batched
    ensures Reaches(cfg, WithItem(cfg, k, start, ManyPick(start, [], map[], map[k := 0], true)), Waiting(cfg, k, start))
  {
    var pend: map<K, nat> := map[k := 0];
    var s := WithItem(cfg, k, start, ManyPick(start, [], map[], pend, true));
    var t := WithItem(cfg, k, start, ManyGo(start, pend, map[], pend, true));
    assert RunMany(cfg, s, 0) == t;
    assert k in pend;
    assert RunMany(cfg, t, 0) == Waiting(cfg, k, start);
    ManyStep(cfg, t, 0);
    ManyThen(cfg, s, 0, Waiting(cfg, k, start));
  }

  lemma WaitingReached<K(!new), V(!new)>(cfg: Config<V>, k: K, start: int)
    requires cfg.batched
    ensures Reaches(cfg, Begin(1), Waiting(cfg, k, start))
  {
    var picks := Goto(Begin(1), 0, ManyPick(start, [k], map[], map[], false));
    var picked := WithItem(cfg, k, start, ManyPick(start, [], map[], map[k := 0], true));
    Scans(cfg, k, start);
    Collects(cfg, k, start);
    Launches(cfg, k, start);
    ReachesTrans(cfg, Begin(1), picks, picked);
    ReachesTrans(cfg, Begin(1), picked, Waiting(cfg, k, start));
  }

  /** Its batch load ends at clock `late`. */
  lemma BatchEnds<K(!new), V(!new)>(cfg: Config<V>, k: K, data: map<K, V>, start: int, late: int)
      returns (t: State<K, V>)
    requires cfg.batched
    ensures Reaches(cfg, Begin(1), t)
    ensures t.procs == [ManyWait(start, 0, 0, map[], map[k := 0])] && t.statuses == [late]
  {
    var w := Waiting(cfg, k, start);
    WaitingReached(cfg, k, start);
    t := BatchIsARun(cfg, w, 0, map[k := 0], 0, data, false, late);
    ReachesTrans(cfg, Begin(1), w, t);
  }

  /** Sleeps before the cut-off, and whatever follows them. */
  lemma {:induction false} SleepsThen<K(!new), V(!new)>(
      cfg: Config<V>, s: State<K, V>, i: nat, p: Proc<K, V>, steps: nat, u: State<K, V>)
    requires i < |s.procs| && p.ManyWait? && p.status < |s.statuses|
    requires steps > 0 ==> p.start + (p.sleeps + steps - 1) * MILLI <= s.statuses[p.status]
    requires Reaches(cfg, Goto(s, i, Slept(p, p.sleeps + steps)), u)
    ensures Reaches(cfg, Goto(s, i, p), u)
    decreases steps
  {
    if steps > 0 {
      SleepsOn(cfg, s, i, p);
      SleepsThen(cfg, s, i, Slept(p, p.sleeps + 1), steps - 1, u);
      ManyThen(cfg, Goto(s, i, p), i, u);
    }
  }

  /** A GetMany of a new key whose batch load reads a clock at least one whole tick beyond waitTimeout
      sleeps until that clock: more often than its timeout takes. */
  lemma GetManyOverruns<K(!new), V(!new)>(cfg: Config<V>, k: K, data: map<K, V>, start: int, late: int)
      returns (t: State<K, V>)
    requires cfg.batched && cfg.waitTimeout >= 0 && late >= start + (cfg.waitTimeout / MILLI + 1) * MILLI
    ensures Reaches(cfg, Begin(1), t)
    ensures t.procs == [ManyWait(start, MaxSleeps(start, late), 0, map[], map[k := 0])]
    ensures MaxSleeps(start, late) > MaxSleeps(start, start + cfg.waitTimeout)
  {
    var p := ManyWait(start, 0, 0, map[], map[k := 0]);
    var s := BatchEnds(cfg, k, data, start, late);
    var total := MaxSleeps(start, late);
    MaxLasts(start, late);
    t := Goto(s, 0, Slept(p, total));
    assert Goto(s, 0, p) == s;
    ReachesSame(cfg, t);
    SleepsThen(cfg, s, 0, p, total, t);
    ReachesTrans(cfg, Begin(1), s, t);
    LateBatchOverruns(cfg, s, 0);
  }
}
