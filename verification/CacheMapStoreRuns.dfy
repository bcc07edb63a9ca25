/** An uninterrupted eviction and the end of a batch load are runs of the step system with the
    outcome the objects have. */
module CacheMapStoreRuns {
  import opened Options
  import opened CacheMap
  import opened CacheMapRuns
  import opened CacheMapManyRuns
  import Calls = CacheMapCalls
  import Proofs = CacheMapProofs

  // ----- evictKeys

  ghost function Past<K, V>(s: State<K, V>, now: int): set<K>
    requires Keyed(s)
  {
    set k | k in s.index && s.items[s.index[k]].evict < now
  }

  lemma SeeStep<K(!new), V(!new)>(cfg: Config<V>, s: State<K, V>, i: nat, now: int, victims: seq<Victim<K>>, k: K)
    requires i < |s.procs| && Keyed(s) && Free(s, i) && k in Past(s, now)
    ensures Reaches(cfg, Goto(s, i, EvictScan(now, victims)), Goto(s, i, EvictScan(now, victims + [See(s, k)])))
  {
    NotBlocked(s, i, EvictScan(now, victims));
    PickedRun(cfg, Goto(s, i, EvictScan(now, victims)), i, k);
    GotoTwice(s, i, EvictScan(now, victims), EvictScan(now, victims + [See(s, k)]));
  }

  ghost function KeysOf<K>(victims: seq<Victim<K>>): set<K> {
    set v | v in victims :: v.k
  }

  lemma {:induction false} SeeRun<K(!new), V(!new)>(cfg: Config<V>, s: State<K, V>, i: nat, now: int,
                                                    victims: seq<Victim<K>>, todo: set<K>)
      returns (all: seq<Victim<K>>)
    requires i < |s.procs| && Keyed(s) && Free(s, i) && todo <= Past(s, now)
    ensures KeysOf(all) == KeysOf(victims) + todo
    ensures Reaches(cfg, Goto(s, i, EvictScan(now, victims)), Goto(s, i, EvictScan(now, all)))
    decreases |todo|
  {
    if todo == {} {
      all := victims;
      ReachesSame(cfg, Goto(s, i, EvictScan(now, victims)));
    } else {
      var k :| k in todo;
      SeeStep(cfg, s, i, now, victims, k);
      all := SeeRun(cfg, s, i, now, victims + [See(s, k)], todo - {k});
      SeenMore(victims, See(s, k));
      ReachesTrans(cfg, Goto(s, i, EvictScan(now, victims)), Goto(s, i, EvictScan(now, victims + [See(s, k)])),
                   Goto(s, i, EvictScan(now, all)));
    }
  }

  lemma SeenMore<K>(victims: seq<Victim<K>>, v: Victim<K>)
    ensures KeysOf(victims + [v]) == KeysOf(victims) + {v.k}
  {
    forall k | k in KeysOf(victims) + {v.k} ensures k in KeysOf(victims + [v]) {
      if k == v.k {
        assert v in victims + [v];
      } else {
        var u :| u in victims && u.k == k;
        assert u in victims + [v];
      }
    }
  }

  lemma DeleteRun<K(!new), V(!new)>(cfg: Config<V>, s: State<K, V>, i: nat, now: int, all: seq<Victim<K>>)
    requires i < |s.procs| && Free(s, i)
    ensures Reaches(cfg, Goto(s, i, EvictScan(now, all)), Goto(s.(index := s.index - KeysOf(all)), i, Resting))
  {
    var t := Goto(s, i, EvictScan(now, all));
    NotBlocked(s, i, EvictScan(now, all));
    assert VictimKeys(t, all) == KeysOf(all) * t.index.Keys;
    assert s.index - VictimKeys(t, all) == s.index - KeysOf(all);
    ReachesStep(cfg, t, Delete(i));
    GotoTwice(s.(index := s.index - KeysOf(all)), i, EvictScan(now, all), Resting);
  }

  /** An uninterrupted evictKeys is a run, and removes exactly the keys past their limit. */
  lemma EvictIsARun<K(!new), V(!new)>(cfg: Config<V>, s: State<K, V>, i: nat, now: int)
    requires i < |s.procs| && s.procs[i] == Resting && Keyed(s) && Free(s, i)
    ensures Reaches(cfg, s, s.(index := map k | k in s.index && s.items[s.index[k]].evict >= now :: s.index[k]))
  {
    var called := Goto(s, i, EvictScan(now, []));
    ReachesStep(cfg, s, CallEvict(i, now));
    var all := SeeRun(cfg, s, i, now, [], Past(s, now));
    ReachesTrans(cfg, s, called, Goto(s, i, EvictScan(now, all)));
    DeleteRun(cfg, s, i, now, all);
    var t := Goto(s.(index := s.index - KeysOf(all)), i, Resting);
    ReachesTrans(cfg, s, Goto(s, i, EvictScan(now, all)), t);
    assert s.procs[i := Resting] == s.procs;
    assert t.index == map k | k in s.index && s.items[s.index[k]].evict >= now :: s.index[k];
  }

  // ----- the end of updateBatch

  /** Loader `j` in phase `l`. */
  function AtLoad<K, V>(s: State<K, V>, j: nat, l: Loader<K, V>): State<K, V>
    requires j < |s.loaders|
  {
    s.(loaders := s.loaders[j := l])
  }

  /** No Get is in the middle of a claim. */
  ghost predicate Unclaimed<K, V>(s: State<K, V>) {
    forall i :: 0 <= i < |s.procs| ==> !s.procs[i].GetSet?
  }

  /** The value a batch has for a key. */
  function InBatch<K, V>(cfg: Config<V>, data: map<K, V>, k: K): V {
    if k in data then data[k] else cfg.zero
  }

  /** One item with a load's value, due from the load's clock plus expiration (expirationOnErr after
      a failure) on, and waited for no longer. */
  function Refreshed<K, V>(cfg: Config<V>, it: Item<K, V>, v: V, failed: bool, now: int): Item<K, V> {
    it.(data := Some(v), next := now + (if failed then cfg.expirationOnErr else cfg.expiration),
        cutoff := if now < it.cutoff then now else it.cutoff)
  }

  /** The items once the batch has stored those of `left`. */
  function StoredItems<K, V>(
      cfg: Config<V>, items: seq<Item<K, V>>, left: map<K, nat>, data: map<K, V>, failed: bool,
          now: int): (r: seq<Item<K, V>>)
    ensures |r| == |items|
  {
    seq(|items|, x requires 0 <= x < |items| =>
          var k := items[x].key;
          if k in left && left[k] == x then Refreshed(cfg, items[x], InBatch(cfg, data, k), failed, now) else items[x])
  }

  function StoredOne<K, V>(
      cfg: Config<V>, s: State<K, V>, id: nat, data: map<K, V>, failed: bool, now: int): State<K, V>
    requires Has(s, id)
  {
    s.(items := s.items[id := Store(cfg, s.items[id], InBatch(cfg, data, s.items[id].key), failed, now)],
       log := s.log + [CacheMap.Stored(id, InBatch(cfg, data, s.items[id].key), failed, now)])
  }

  lemma StoreStep<K(!new), V(!new)>(cfg: Config<V>, s: State<K, V>, j: nat, left: map<K, nat>, data: map<K, V>,
                                    failed: bool, now: int, status: nat, k: K)
    requires j < |s.loaders| && Unclaimed(s) && Proofs.Bound(s, left) && k in left
    ensures Reaches(cfg, AtLoad(s, j, StoreBatch(left, data, failed, now, status)),
                    AtLoad(StoredOne(cfg, s, left[k], data, failed, now), j,
                           StoreBatch(left - {k}, data, failed, now, status)))
  {
    var t := AtLoad(s, j, StoreBatch(left, data, failed, now, status));
    ReachesStep(cfg, t, StoreKey(j, k));
    assert t.loaders[j := StoreBatch(left - {k}, data, failed, now, status)] ==
        s.loaders[j := StoreBatch(left - {k}, data, failed, now, status)];
  }

  lemma StoredFirst<K, V>(
      cfg: Config<V>, s: State<K, V>, left: map<K, nat>, data: map<K, V>, failed: bool, now: int, k: K)
    requires Proofs.Bound(s, left) && k in left
    ensures var u := StoredOne(cfg, s, left[k], data, failed, now);
            && Proofs.Bound(u, left - {k})
            && StoredItems(cfg, u.items, left - {k}, data, failed, now) ==
               StoredItems(cfg, s.items, left, data, failed, now)
  {
  }

  lemma {:induction false} StoreRun<K(!new), V(!new)>(cfg: Config<V>, s: State<K, V>, j: nat, left: map<K, nat>,
                                                      data: map<K, V>, failed: bool, now: int, status: nat)
      returns (t: State<K, V>)
    requires j < |s.loaders| && Unclaimed(s) && Proofs.Bound(s, left)
    ensures t == s.(items := StoredItems(cfg, s.items, left, data, failed, now), log := t.log)
    ensures Reaches(cfg, AtLoad(s, j, StoreBatch(left, data, failed, now, status)),
                    AtLoad(t, j, StoreBatch(map[], data, failed, now, status)))
    decreases |left|
  {
    if left == map[] {
      t := s;
      assert StoredItems(cfg, s.items, left, data, failed, now) == s.items;
      ReachesSame(cfg, AtLoad(s, j, StoreBatch(left, data, failed, now, status)));
    } else {
      var k :| k in left;
      var u := StoredOne(cfg, s, left[k], data, failed, now);
      KeysLess(left, k);
      StoredFirst(cfg, s, left, data, failed, now, k);
      StoreStep(cfg, s, j, left, data, failed, now, status, k);
      t := StoreRun(cfg, u, j, left - {k}, data, failed, now, status);
      ReachesTrans(cfg, AtLoad(s, j, StoreBatch(left, data, failed, now, status)),
                   AtLoad(u, j, StoreBatch(left - {k}, data, failed, now, status)),
                   AtLoad(t, j, StoreBatch(map[], data, failed, now, status)));
    }
  }

  /** By key, when nothing was evicted meanwhile. */
  lemma StoredByKey<K, V>(
      cfg: Config<V>, s: State<K, V>, t: State<K, V>, pend: map<K, nat>, data: map<K, V>, failed: bool, now: int)
    requires Keyed(s) && Pending(s, pend) && !Drops(cfg, failed)
    requires t.items == StoredItems(cfg, s.items, pend, data, failed, now) && t.index == s.index
    ensures Keyed(t) && ItemsOf(t) == Calls.Stored(cfg, ItemsOf(s), pend.Keys, data, failed, now)
  {
    forall k | k in s.index
      ensures t.items[s.index[k]].key == k
      ensures k in pend ==>
                t.items[s.index[k]] == Store(cfg, s.items[s.index[k]], InBatch(cfg, data, k), failed, now)
      ensures k !in pend ==> t.items[s.index[k]] == s.items[s.index[k]]
    {
    }
  }

  lemma BatchStart<K(!new), V(!new)>(cfg: Config<V>, s: State<K, V>, j: nat, data: map<K, V>, failed: bool, now: int)
    requires j < |s.loaders| && s.loaders[j].LoadBatch? && !Drops(cfg, failed)
    ensures var l := s.loaders[j];
            Reaches(cfg, s, AtLoad(s.(loads := s.loads + [Batch(data, failed)]), j,
                                   StoreBatch(l.pend, data, failed, now, l.status)))
  {
    ReachesStep(cfg, s, LoadedBatch(j, data, failed, now));
  }

  lemma BatchEnd<K(!new), V(!new)>(cfg: Config<V>, s: State<K, V>, j: nat, data: map<K, V>, failed: bool, now: int,
                                   status: nat)
    requires j < |s.loaders| && status < |s.statuses|
    ensures Reaches(cfg, AtLoad(s, j, StoreBatch(map[], data, failed, now, status)),
                    AtLoad(s, j, Ended).(statuses := s.statuses[status := now]))
  {
    var stored := AtLoad(s, j, StoreBatch(map[], data, failed, now, status));
    ReachesStep(cfg, stored, StoreNext(j));
    assert stored.loaders[j := Ended] == s.loaders[j := Ended];
  }

  /** The end of a batch load that nothing interrupts is a run: every item it was started for, evicted
      or replaced meanwhile or not, gets its key's value, no other item changes, and the GetMany that
      waits for it gets the clock; a failure that is not cached changes nothing. */
  lemma BatchIsARun<K(!new), V(!new)>(cfg: Config<V>, s: State<K, V>, j: nat, pend: map<K, nat>, status: nat,
                                      data: map<K, V>, failed: bool, now: int)
      returns (t: State<K, V>)
    requires j < |s.loaders| && s.loaders[j] == LoadBatch(pend, status) && Proofs.Bound(s, pend)
    requires status < |s.statuses| && Unclaimed(s)
    ensures Reaches(cfg, s, t) && t.loaders == s.loaders[j := Ended] && t.index == s.index
    ensures !failed || cfg.expirationOnErr > 0 ==>
              && t.items == StoredItems(cfg, s.items, pend, data, failed, now)
              && t.statuses == s.statuses[status := now]
    ensures failed && cfg.expirationOnErr <= 0 ==> t.items == s.items && t.statuses == s.statuses && t.log == s.log
    ensures Keyed(s) && Pending(s, pend) && (!failed || cfg.expirationOnErr > 0) ==>
              Keyed(t) && ItemsOf(t) == Calls.Stored(cfg, ItemsOf(s), pend.Keys, data, failed, now)
    ensures t.procs == s.procs && t.returned == s.returned
  {
    if Drops(cfg, failed) {
      t := AtLoad(s, j, Ended).(loads := s.loads + [Batch(data, failed)]);
      ReachesStep(cfg, s, LoadedBatch(j, data, failed, now));
    } else {
      t := KeptBatchRun(cfg, s, j, pend, status, data, failed, now);
      if Keyed(s) && Pending(s, pend) {
        StoredByKey(cfg, s, t, pend, data, failed, now);
      }
    }
  }

  lemma KeptBatchRun<K(!new), V(!new)>(cfg: Config<V>, s: State<K, V>, j: nat, pend: map<K, nat>, status: nat,
                                       data: map<K, V>, failed: bool, now: int)
      returns (t: State<K, V>)
    requires j < |s.loaders| && s.loaders[j] == LoadBatch(pend, status) && Proofs.Bound(s, pend)
    requires !Drops(cfg, failed) && status < |s.statuses| && Unclaimed(s)
    ensures Reaches(cfg, s, t)
    ensures t.items == StoredItems(cfg, s.items, pend, data, failed, now)
    ensures t.statuses == s.statuses[status := now] && t.loaders == s.loaders[j := Ended] && t.index == s.index
    ensures t.procs == s.procs && t.returned == s.returned
  {
    var s1 := s.(loads := s.loads + [Batch(data, failed)]);
    var loaded := AtLoad(s1, j, StoreBatch(pend, data, failed, now, status));
    BatchStart(cfg, s, j, data, failed, now);
    var u := StoreRun(cfg, s1, j, pend, data, failed, now, status);
    var stored := AtLoad(u, j, StoreBatch(map[], data, failed, now, status));
    ReachesTrans(cfg, s, loaded, stored);
    BatchEnd(cfg, u, j, data, failed, now, status);
    t := AtLoad(u, j, Ended).(statuses := s.statuses[status := now]);
    ReachesTrans(cfg, s, stored, t);
  }

  // ----- the end of updateData

  /** The store of one item. */
  function StoredFor<K, V>(cfg: Config<V>, s: State<K, V>, j: nat, id: nat, v: V, failed: bool, now: int): State<K, V>
    requires j < |s.loaders| && Has(s, id)
  {
    s.(loaders := s.loaders[j := Ended], items := s.items[id := Refreshed(cfg, s.items[id], v, failed, now)],
       log := s.log + [CacheMap.Stored(id, v, failed, now)])
  }

  /** After the load of one item has returned; a failure that is not cached changes nothing. */
  function AfterLoad<K, V>(cfg: Config<V>, s: State<K, V>, j: nat, k: K, id: nat, v: V, failed: bool,
                           now: int): State<K, V>
    requires j < |s.loaders| && Has(s, id)
  {
    var u := s.(loads := s.loads + [One(k, v, failed)]);
    if failed && cfg.expirationOnErr <= 0 then AtLoad(u, j, Ended) else StoredFor(cfg, u, j, id, v, failed, now)
  }

  /** The end of a load of one item that nothing interrupts is a run. */
  lemma LoadIsARun<K(!new), V(!new)>(cfg: Config<V>, s: State<K, V>, j: nat, k: K, id: nat, v: V, failed: bool,
                                     now: int)
    requires j < |s.loaders| && s.loaders[j] == LoadOne(k, id) && Has(s, id) && Unclaimed(s)
    ensures Reaches(cfg, s, AfterLoad(cfg, s, j, k, id, v, failed, now))
  {
    ReachesStep(cfg, s, Loaded(j, v, failed, now));
    if !(failed && cfg.expirationOnErr <= 0) {
      var u := s.(loads := s.loads + [One(k, v, failed)]);
      StoreOneRun(cfg, u, j, k, id, v, failed, now);
      ReachesTrans(cfg, s, AtLoad(u, j, StoreOne(k, id, v, failed, now)),
                   StoredFor(cfg, u, j, id, v, failed, now));
    }
  }

  lemma StoreOneRun<K(!new), V(!new)>(cfg: Config<V>, s: State<K, V>, j: nat, k: K, id: nat, v: V, failed: bool,
                                      now: int)
    requires j < |s.loaders| && Has(s, id) && Unclaimed(s)
    ensures Reaches(cfg, AtLoad(s, j, StoreOne(k, id, v, failed, now)), StoredFor(cfg, s, j, id, v, failed, now))
  {
    var stored := AtLoad(s, j, StoreOne(k, id, v, failed, now));
    assert stored.loaders[j := Ended] == s.loaders[j := Ended];
    ReachesStep(cfg, stored, StoreNext(j));
  }

  /** The next undisturbed Get of the key after a load that is kept returns that load's value, and
      starts another exactly beyond the load's clock plus expiration (expirationOnErr after a failure).
      After a failure that is not kept it returns the old value, due as before. */
  lemma LoadThenGet<K(!new), V(!new)>(cfg: Config<V>, s: State<K, V>, j: nat, k: K, v: V, failed: bool, loaded: int,
                                      i: nat, now: int)
      returns (t: State<K, V>)
    requires k in s.index && Has(s, s.index[k]) && Unclaimed(s) && cfg.retryInterval >= 0
    requires j < |s.loaders| && s.loaders[j] == LoadOne(k, s.index[k])
    requires i < |s.procs| && s.procs[i] == Resting && Free(s, i)
    ensures Reaches(cfg, s, t) && t.procs == s.procs
    ensures !failed || cfg.expirationOnErr > 0 ==>
              && t.returned == s.returned + [FromGet(k, v)]
              && (|t.loaders| > |s.loaders| <==>
                    now > loaded + if failed then cfg.expirationOnErr else cfg.expiration)
    ensures failed && cfg.expirationOnErr <= 0 ==>
              var it := s.items[s.index[k]];
              && t.returned == s.returned + [FromGet(k, if it.data.None? then cfg.zero else it.data.value)]
              && (|t.loaders| > |s.loaders| <==> now > it.next)
  {
    var id := s.index[k];
    var u := AfterLoad(cfg, s, j, k, id, v, failed, loaded);
    LoadIsARun(cfg, s, j, k, id, v, failed, loaded);
    GetIsARun(cfg, u, i, k, now);
    t := Finished(cfg, Checked(cfg, u, k, id, now), i, k, id, now);
    assert s.procs[i := Resting] == s.procs;
    ReachesTrans(cfg, s, u, t);
  }
}
