/** Two runs in which a call comes between two steps of another: a GetMany that leaves out a key, and
    a key loaded twice. */
module CacheMapMisses {
  import DataCache
  import opened CacheMap
  import opened CacheMapRuns
  import opened CacheMapManyRuns
  import Loads = CacheMapLoads
  import Keys = CacheMapKeys
  import Races = CacheMapRaces
  import Stores = CacheMapStoreRuns

  // ----- a Get creates a key between the two passes of a GetMany

  function Empty<K, V>(p: Proc<K, V>, q: Proc<K, V>): State<K, V> {
    State([], map[], [], [p, q], [], [], [], [])
  }

  function Single<K, V>(cfg: Config<V>, k: K, now: int, p: Proc<K, V>): State<K, V> {
    State([NewItem(cfg, k, now)], map[k := 0], [], [p, GetCheck(k, 0, now)], [LoadOne(k, 0)], [Start(0, now)], [], [])
  }

  function Answered<K, V>(cfg: Config<V>, k: K, now: int): State<K, V> {
    Single(cfg, k, now, Resting).(returned := [FromGetMany(map[])])
  }

  lemma ReturnsNothing<K(!new), V(!new)>(cfg: Config<V>, k: K, now: int)
    ensures Reaches(cfg, Single(cfg, k, now, ManyGo(now, map[], map[], map[], false)), Answered(cfg, k, now))
  {
    var last := Single<K, V>(cfg, k, now, ManyRead(map[], map[]));
    var goes := Single<K, V>(cfg, k, now, ManyGo(now, map[], map[], map[], false));
    assert RunMany(cfg, last, 0) == Answered(cfg, k, now);
    ManyStep(cfg, last, 0);
    assert RunMany(cfg, goes, 0) == last;
    ManyThen(cfg, goes, 0, Answered(cfg, k, now));
  }

  lemma PickedNothing<K(!new), V(!new)>(cfg: Config<V>, k: K, now: int)
    ensures Reaches(cfg, Single(cfg, k, now, ManyPick(now, [], map[], map[], false)), Answered(cfg, k, now))
  {
    var picked := Single<K, V>(cfg, k, now, ManyPick(now, [], map[], map[], false));
    ReturnsNothing(cfg, k, now);
    assert RunMany(cfg, picked, 0) == Single(cfg, k, now, ManyGo(now, map[], map[], map[], false));
    ManyThen(cfg, picked, 0, Answered(cfg, k, now));
  }

  lemma PassesOver<K(!new), V(!new)>(cfg: Config<V>, k: K, now: int)
    requires cfg.retryInterval >= 0
    ensures Reaches(cfg, Single(cfg, k, now, ManyPick(now, [k], map[], map[], false)), Answered(cfg, k, now))
  {
    var picks := Single<K, V>(cfg, k, now, ManyPick(now, [k], map[], map[], false));
    PickedNothing(cfg, k, now);
    assert [k][1..] == [];
    assert RunMany(cfg, picks, 0) == Single(cfg, k, now, ManyPick(now, [], map[], map[], false));
    ManyThen(cfg, picks, 0, Answered(cfg, k, now));
  }

  lemma CreatedBetween<K(!new), V(!new)>(cfg: Config<V>, k: K, now: int, u: State<K, V>)
    requires Reaches(cfg, Single(cfg, k, now, ManyPick(now, [k], map[], map[], false)), u)
    ensures Reaches(cfg, Empty(ManyScan(now, [], map[], [k]), GetLookup(k, now)), u)
  {
    var many: Proc<K, V> := ManyScan(now, [], map[], [k]);
    var created := Single(cfg, k, now, many);
    NotBlocked(created, 0, many);
    assert Goto(created, 0, many) == created;
    assert RunMany(cfg, created, 0) == Single(cfg, k, now, ManyPick(now, [k], map[], map[], false));
    ManyThen(cfg, created, 0, u);
    var missed := Empty(many, GetCreate(k, now));
    assert Goto(missed, 1, GetCreate(k, now)) == missed;
    NotBlocked(missed, 1, GetCreate(k, now));
    assert RunGet(cfg, missed, 1) == created;
    GetThen(cfg, missed, 1, u);
    var looks := Empty(many, GetLookup(k, now));
    assert Goto(looks, 1, GetLookup(k, now)) == looks;
    NotBlocked(looks, 1, GetLookup(k, now));
    assert RunGet(cfg, looks, 1) == missed;
    GetThen(cfg, looks, 1, u);
  }

  lemma ScansMissing<K(!new), V(!new)>(cfg: Config<V>, k: K, now: int)
    ensures Reaches(cfg, Empty(ManyScan(now, [k], map[], []), Resting), Empty(ManyScan(now, [], map[], [k]), Resting))
  {
    var scans := Empty<K, V>(ManyScan(now, [k], map[], []), Resting);
    NotBlocked(scans, 0, ManyScan(now, [k], map[], []));
    assert Goto(scans, 0, ManyScan(now, [k], map[], [])) == scans;
    assert [k][1..] == [] && [] + [k] == [k];
    assert RunMany(cfg, scans, 0) == Empty(ManyScan(now, [], map[], [k]), Resting);
    ManyStep(cfg, scans, 0);
  }

  lemma MissedFirst<K(!new), V(!new)>(cfg: Config<V>, k: K, now: int)
    ensures Reaches(cfg, Begin(2), Empty(ManyScan(now, [], map[], [k]), GetLookup(k, now)))
  {
    var b := Begin<K, V>(2);
    var scans := Empty<K, V>(ManyScan(now, [k], map[], []), Resting);
    var scanned := Empty<K, V>(ManyScan(now, [], map[], [k]), Resting);
    ReachesStep(cfg, b, CallGetMany(0, [k], now));
    assert Apply(cfg, b, CallGetMany(0, [k], now)) == scans;
    ScansMissing(cfg, k, now);
    ReachesTrans(cfg, b, scans, scanned);
    CallsGet(cfg, k, now);
    ReachesTrans(cfg, b, scanned, Empty(ManyScan(now, [], map[], [k]), GetLookup(k, now)));
  }

  lemma CallsGet<K(!new), V(!new)>(cfg: Config<V>, k: K, now: int)
    ensures Reaches(cfg, Empty(ManyScan(now, [], map[], [k]), Resting),
                    Empty(ManyScan(now, [], map[], [k]), GetLookup(k, now)))
  {
    var scanned := Empty<K, V>(ManyScan(now, [], map[], [k]), Resting);
    ReachesStep(cfg, scanned, CallGet(1, k, now));
    assert Apply(cfg, scanned, CallGet(1, k, now)) == Empty(ManyScan(now, [], map[], [k]), GetLookup(k, now));
  }

  /** A GetMany of one key may return no key at all. */
  lemma GetManyMissesKey<K(!new), V(!new)>(cfg: Config<V>, k: K, now: int) returns (t: State<K, V>)
    requires cfg.retryInterval >= 0
    ensures Reaches(cfg, Begin(2), t) && t.returned == [FromGetMany(map[])] && k in t.index
  {
    t := Answered(cfg, k, now);
    PassesOver(cfg, k, now);
    CreatedBetween(cfg, k, now, t);
    MissedFirst(cfg, k, now);
    ReachesTrans(cfg, Begin(2), Empty(ManyScan(now, [], map[], [k]), GetLookup(k, now)), t);
  }

  // ----- a key evicted and created again within a retry interval

  lemma Evicts<K(!new), V(!new)>(cfg: Config<V>, k: K, late: int)
    requires cfg.evictTimeout < late
    ensures Reaches(cfg, Begin(3), Races.OneItem(cfg, k).(index := map[]))
  {
    var s := Races.OneItem<K, V>(cfg, k);
    Races.RaceCreates(cfg, k);
    assert Reaches(cfg, Begin(3), s);
    Stores.EvictIsARun(cfg, s, 1, late);
    assert (map x | x in s.index && s.items[s.index[x]].evict >= late :: s.index[x]) == map[];
    ReachesTrans(cfg, Begin(3), s, s.(index := map[]));
  }

  lemma TwoStarts<K(!new), V>(cfg: Config<V>, s: State<K, V>, k: K, late: int)
    requires late < cfg.retryInterval && s.log == [Start(0, 0), Start(1, late)]
    requires |s.items| == 2 && s.items[0].key == s.items[1].key == k
    ensures !Keys.RunSpaced(cfg, s)
  {
    var one := [Start(0, 0)];
    assert [] + one == one && s.log == one + [Start(1, late)];
    Keys.MarksMore([], s.items, Start(0, 0), k);
    Keys.MarksMore(one, s.items, Start(1, late), k);
    var marks := Keys.KeyMarks(s.log, s.items, k);
    assert marks == [DataCache.Start(0), DataCache.Start(late)];
    assert DataCache.OpenStart(marks, 0, 1);
    assert !DataCache.Spaced(Loads.Timing(cfg), marks);
  }

  /** Eviction may come before the first load is due again: a key evicted and asked for again is then
      loaded twice within a retry interval. */
  lemma EvictionBreaksSpacing<K(!new), V(!new)>(cfg: Config<V>, k: K, late: int) returns (t: State<K, V>)
    requires 0 < cfg.evictTimeout < late < cfg.retryInterval
    ensures Reaches(cfg, Begin(3), t) && t.log == [Start(0, 0), Start(1, late)] && !Keys.RunSpaced(cfg, t)
  {
    var s := Races.OneItem<K, V>(cfg, k).(index := map[]);
    Evicts(cfg, k, late);
    CallGetRun(cfg, s, 2, k, late);
    CreateRun(cfg, s, 2, k, late);
    t := Goto(Created(cfg, s, k, late), 2, GetCheck(k, 1, late));
    ReachesTrans(cfg, Begin(3), s, Goto(s, 2, GetCreate(k, late)));
    ReachesTrans(cfg, Begin(3), Goto(s, 2, GetCreate(k, late)), t);
    assert t.log == [Start(0, 0), Start(1, late)];
    TwoStarts(cfg, t, k, late);
  }
}
