/** A whole GetMany on a map of items, as nothing else interferes, and what it amounts to. */
module CacheMapCalls {
  import opened FirstLoadWait
  import opened CacheMap

  datatype Scanned<K, V> = Scanned(items: map<K, Item<K, V>>, out: map<K, V>, miss: seq<K>)

  /** GetMany's first pass, one key. */
  function ScanKey<K, V>(cfg: Config<V>, r: Scanned<K, V>, k: K, now: int): Scanned<K, V> {
    if k !in r.items then r.(miss := r.miss + [k])
    else
      var it := Touch(cfg, r.items[k], now);
      Scanned(r.items[k := it], r.out[k := ValueOf(cfg, it)], if now > it.next then r.miss + [k] else r.miss)
  }

  function ScanFrom<K, V>(cfg: Config<V>, r: Scanned<K, V>, keys: seq<K>, now: int): Scanned<K, V>
    decreases |keys|
  {
    if keys == [] then r else ScanFrom(cfg, ScanKey(cfg, r, keys[0], now), keys[1..], now)
  }

  datatype Picked<K, V> = Picked(items: map<K, Item<K, V>>, pend: set<K>, isNew: bool)

  /** GetMany's second pass, one key that was missing or due. */
  function PickOne<K, V>(cfg: Config<V>, r: Picked<K, V>, k: K, now: int): Picked<K, V> {
    if k !in r.items then Picked(r.items[k := NewItem(cfg, k, now)], r.pend + {k}, true)
    else if now > r.items[k].next
    then r.(items := r.items[k := r.items[k].(next := now + cfg.retryInterval)], pend := r.pend + {k})
    else r
  }

  function PickFrom<K, V>(cfg: Config<V>, r: Picked<K, V>, miss: seq<K>, now: int): Picked<K, V>
    decreases |miss|
  {
    if miss == [] then r else PickFrom(cfg, PickOne(cfg, r, miss[0], now), miss[1..], now)
  }

  datatype Many<K, V> = Many(items: map<K, Item<K, V>>, out: map<K, V>, pend: set<K>, sleeps: nat)

  /** The values read after the wait replace those of the first pass. */
  function Reread<K, V>(cfg: Config<V>, out: map<K, V>, items: map<K, Item<K, V>>, pend: set<K>): map<K, V> {
    out + map k | k in pend && k in items :: ValueOf(cfg, items[k])
  }

  function GetMany<K, V>(cfg: Config<V>, items: map<K, Item<K, V>>, keys: seq<K>, now: int): Many<K, V> {
    var s := ScanFrom(cfg, Scanned(items, map[], []), keys, now);
    var p := PickFrom(cfg, Picked(s.items, {}, false), s.miss, now);
    Many(p.items, Reread(cfg, s.out, p.items, p.pend), p.pend,
         if p.isNew then MaxSleeps(now, now + cfg.waitTimeout) else 0)
  }

  // ----- what it amounts to, key by key

  /** The item under a key, or the one that would be created. */
  function Found<K, V>(cfg: Config<V>, items: map<K, Item<K, V>>, k: K, now: int): Item<K, V> {
    if k in items then items[k] else NewItem(cfg, k, now)
  }

  /** The same but for accesses, all at `now`. */
  ghost predicate Accessed<K, V>(cfg: Config<V>, was: Item<K, V>, it: Item<K, V>, now: int) {
    && it == was.(evict := it.evict, touches := it.touches)
    && was.touches <= it.touches
    && it.evict == if now + cfg.evictTimeout > was.evict then now + cfg.evictTimeout else was.evict
  }

  ghost function Elems<K>(keys: seq<K>): set<K> {
    set k | k in keys
  }

  /** The keys to be loaded. */
  ghost function Due<K, V>(items: map<K, Item<K, V>>, keys: seq<K>, now: int): set<K> {
    set k | k in keys && (k !in items || now > items[k].next)
  }

  lemma ElemsMore<K, V>(items: map<K, Item<K, V>>, seen: seq<K>, k: K, now: int)
    ensures Elems(seen + [k]) == Elems(seen) + {k}
    ensures Due(items, seen + [k], now) ==
            Due(items, seen, now) + if k !in items || now > items[k].next then {k} else {}
  {
  }

  /** The state of the first pass after the keys `seen`. */
  ghost predicate ScanInv<K, V>(cfg: Config<V>, items: map<K, Item<K, V>>, r: Scanned<K, V>, seen: seq<K>, now: int) {
    && r.items.Keys == items.Keys
    && (forall k :: k in items ==>
          if k in seen then Accessed(cfg, items[k], r.items[k], now) else r.items[k] == items[k])
    && r.out.Keys == Elems(seen) * items.Keys
    && (forall k :: k in r.out ==> r.out[k] == ValueOf(cfg, items[k]))
    && Elems(r.miss) == Due(items, seen, now)
  }

  lemma ScanKeyMeans<K, V>(cfg: Config<V>, items: map<K, Item<K, V>>, r: Scanned<K, V>, seen: seq<K>, k: K, now: int)
    requires ScanInv(cfg, items, r, seen, now)
    ensures ScanInv(cfg, items, ScanKey(cfg, r, k, now), seen + [k], now)
  {
    ElemsMore(items, seen, k, now);
    ElemsMore(items, r.miss, k, now);
  }

  lemma {:induction false} ScanMeans<K, V>(
      cfg: Config<V>, items: map<K, Item<K, V>>, r: Scanned<K, V>, seen: seq<K>, keys: seq<K>, now: int)
    requires ScanInv(cfg, items, r, seen, now)
    ensures ScanInv(cfg, items, ScanFrom(cfg, r, keys, now), seen + keys, now)
    decreases |keys|
  {
    if keys == [] {
      assert seen + keys == seen;
    } else {
      ScanKeyMeans(cfg, items, r, seen, keys[0], now);
      ScanMeans(cfg, items, ScanKey(cfg, r, keys[0], now), seen + [keys[0]], keys[1..], now);
      assert seen + [keys[0]] + keys[1..] == seen + keys;
    }
  }

  /** The state of the second pass after the keys `seen`. */
  ghost predicate PickInv<K, V>(cfg: Config<V>, items: map<K, Item<K, V>>, r: Picked<K, V>, seen: seq<K>, now: int) {
    && r.items.Keys == items.Keys + Elems(seen)
    && r.pend == Due(items, seen, now)
    && (forall k :: k in r.items ==>
          r.items[k] == if k in r.pend then Found(cfg, items, k, now).(next := now + cfg.retryInterval) else items[k])
    && (r.isNew <==> !(Elems(seen) <= items.Keys))
  }

  lemma PickOneMeans<K, V>(cfg: Config<V>, items: map<K, Item<K, V>>, r: Picked<K, V>, seen: seq<K>, k: K, now: int)
    requires PickInv(cfg, items, r, seen, now) && cfg.retryInterval > 0
    ensures PickInv(cfg, items, PickOne(cfg, r, k, now), seen + [k], now)
  {
    ElemsMore(items, seen, k, now);
  }

  lemma {:induction false} PickMeans<K, V>(
      cfg: Config<V>, items: map<K, Item<K, V>>, r: Picked<K, V>, seen: seq<K>, miss: seq<K>, now: int)
    requires PickInv(cfg, items, r, seen, now) && cfg.retryInterval > 0
    ensures PickInv(cfg, items, PickFrom(cfg, r, miss, now), seen + miss, now)
    decreases |miss|
  {
    if miss == [] {
      assert seen + miss == seen;
    } else {
      PickOneMeans(cfg, items, r, seen, miss[0], now);
      PickMeans(cfg, items, PickOne(cfg, r, miss[0], now), seen + [miss[0]], miss[1..], now);
      assert seen + [miss[0]] + miss[1..] == seen + miss;
    }
  }

  /** GetMany answers exactly the keys asked for, with what was there before; it loads exactly those
      missing or due, each once, and moves their update time; it waits only if a key was missing. */
  ghost predicate Outcome<K, V>(cfg: Config<V>, items: map<K, Item<K, V>>, keys: seq<K>, now: int, r: Many<K, V>) {
    && r.out.Keys == Elems(keys)
    && (forall k :: k in keys ==> r.out[k] == ValueOf(cfg, Found(cfg, items, k, now)))
    && r.pend == Due(items, keys, now)
    && r.items.Keys == items.Keys + Elems(keys)
    && (forall k :: k in r.items ==> Answered(cfg, items, keys, now, k, r.items[k]))
    && r.sleeps == if Elems(keys) <= items.Keys then 0 else MaxSleeps(now, now + cfg.waitTimeout)
  }

  lemma GetManyMeans<K, V>(cfg: Config<V>, items: map<K, Item<K, V>>, keys: seq<K>, now: int)
    requires cfg.retryInterval > 0
    ensures Outcome(cfg, items, keys, now, GetMany(cfg, items, keys, now))
  {
    var s := ScanFrom(cfg, Scanned(items, map[], []), keys, now);
    var p := PickFrom(cfg, Picked(s.items, {}, false), s.miss, now);
    PassesMean(cfg, items, keys, now);
    BothPasses(cfg, items, keys, now, s, p);
    RereadMeans(cfg, items, keys, now, s, p);
  }

  lemma PassesMean<K, V>(cfg: Config<V>, items: map<K, Item<K, V>>, keys: seq<K>, now: int)
    requires cfg.retryInterval > 0
    ensures var s := ScanFrom(cfg, Scanned(items, map[], []), keys, now);
            && ScanInv(cfg, items, s, keys, now)
            && PickInv(cfg, s.items, PickFrom(cfg, Picked(s.items, {}, false), s.miss, now), s.miss, now)
  {
    ScanMeans(cfg, items, Scanned(items, map[], []), [], keys, now);
    assert [] + keys == keys;
    var s := ScanFrom(cfg, Scanned(items, map[], []), keys, now);
    PickMeans(cfg, s.items, Picked(s.items, {}, false), [], s.miss, now);
    assert [] + s.miss == s.miss;
  }

  lemma RereadMeans<K, V>(
      cfg: Config<V>, items: map<K, Item<K, V>>, keys: seq<K>, now: int, s: Scanned<K, V>, p: Picked<K, V>)
    requires ScanInv(cfg, items, s, keys, now)
    requires p.pend == Due(items, keys, now) && p.items.Keys == items.Keys + Elems(keys)
    requires forall k :: k in p.pend ==>
               k in p.items && ValueOf(cfg, p.items[k]) == ValueOf(cfg, Found(cfg, items, k, now))
    ensures Reread(cfg, s.out, p.items, p.pend).Keys == Elems(keys)
    ensures forall k :: k in keys ==> Reread(cfg, s.out, p.items, p.pend)[k] == ValueOf(cfg, Found(cfg, items, k, now))
  {
  }

  /** What GetMany leaves under a key: untouched if not asked for, else accessed, and postponed if
      its load starts. */
  ghost predicate Answered<K, V>(
      cfg: Config<V>, items: map<K, Item<K, V>>, keys: seq<K>, now: int, k: K, it: Item<K, V>) {
    var was := Found(cfg, items, k, now);
    if k !in keys then k in items && it == was
    else Accessed(cfg, if k in Due(items, keys, now) then was.(next := now + cfg.retryInterval) else was, it, now)
  }

  lemma BothPasses<K, V>(
      cfg: Config<V>, items: map<K, Item<K, V>>, keys: seq<K>, now: int, s: Scanned<K, V>, p: Picked<K, V>)
    requires ScanInv(cfg, items, s, keys, now) && PickInv(cfg, s.items, p, s.miss, now)
    ensures p.pend == Due(items, keys, now)
    ensures p.items.Keys == items.Keys + Elems(keys)
    ensures p.isNew <==> !(Elems(keys) <= items.Keys)
    ensures forall k :: k in p.items ==> Answered(cfg, items, keys, now, k, p.items[k])
    ensures forall k :: k in p.pend ==>
              k in p.items && ValueOf(cfg, p.items[k]) == ValueOf(cfg, Found(cfg, items, k, now))
  {
  }

  /** The items after a batch load of `pend` ends. */
  function Stored<K, V>(
      cfg: Config<V>, items: map<K, Item<K, V>>, pend: set<K>, data: map<K, V>, failed: bool,
      now: int): map<K, Item<K, V>> {
    map k | k in items ::
      if k in pend && !Drops(cfg, failed)
      then Store(cfg, items[k], if k in data then data[k] else cfg.zero, failed, now) else items[k]
  }

  /** A GetMany of keys whose batch load ended at `loaded`: it returns what was loaded, does not wait,
      and loads a key again exactly if its clock is beyond `loaded` plus expiration (expirationOnErr
      after a failure). */
  ghost predicate ServesLoaded<K, V>(
      cfg: Config<V>, pend: set<K>, data: map<K, V>, failed: bool, loaded: int, again: int, second: Many<K, V>) {
    && (forall k :: k in pend ==>
          && k in second.out && second.out[k] == (if k in data then data[k] else cfg.zero)
          && (k in second.pend <==> again > loaded + if failed then cfg.expirationOnErr else cfg.expiration))
    && second.sleeps == 0
  }

  /** Once a batch load that is kept has ended, this is what the next GetMany of the same keys does. */
  lemma LoadedOnce<K, V>(cfg: Config<V>, items: map<K, Item<K, V>>, keys: seq<K>, data: map<K, V>, failed: bool,
                         now: int, loaded: int, again: int)
    requires cfg.retryInterval > 0 && (!failed || cfg.expirationOnErr > 0)
    ensures var first := GetMany(cfg, items, keys, now);
            ServesLoaded(cfg, first.pend, data, failed, loaded, again,
                      GetMany(cfg, Stored(cfg, first.items, first.pend, data, failed, loaded), keys, again))
  {
    var first := GetMany(cfg, items, keys, now);
    var filled := Stored(cfg, first.items, first.pend, data, failed, loaded);
    GetManyMeans(cfg, items, keys, now);
    GetManyMeans(cfg, filled, keys, again);
    Filled(cfg, items, keys, data, failed, now, loaded, again, first, GetMany(cfg, filled, keys, again));
  }

  lemma Filled<K, V>(cfg: Config<V>, items: map<K, Item<K, V>>, keys: seq<K>, data: map<K, V>, failed: bool, now: int,
                     loaded: int, again: int, first: Many<K, V>, second: Many<K, V>)
    requires (!failed || cfg.expirationOnErr > 0) && Outcome(cfg, items, keys, now, first)
    requires Outcome(cfg, Stored(cfg, first.items, first.pend, data, failed, loaded), keys, again, second)
    ensures ServesLoaded(cfg, first.pend, data, failed, loaded, again, second)
  {
  }

  /** After a failed one that is not to be cached, the keys are due again a retry interval after the
      first call, and keep their old values until then. */
  lemma RetriedLater<K, V>(
      cfg: Config<V>, items: map<K, Item<K, V>>, keys: seq<K>, data: map<K, V>, now: int, loaded: int, again: int, k: K)
    requires cfg.retryInterval > 0 && cfg.expirationOnErr <= 0
    requires k in GetMany(cfg, items, keys, now).pend
    ensures var first := GetMany(cfg, items, keys, now);
            var second := GetMany(cfg, Stored(cfg, first.items, first.pend, data, true, loaded), keys, again);
            && (k in second.pend <==> again > now + cfg.retryInterval)
            && k in first.out && k in second.out && second.out[k] == first.out[k]
  {
    var first := GetMany(cfg, items, keys, now);
    StoredNothing(cfg, first.items, first.pend, data, loaded);
    GetManyMeans(cfg, items, keys, now);
    GetManyMeans(cfg, first.items, keys, again);
    Retried(cfg, items, keys, now, again, k, first, GetMany(cfg, first.items, keys, again));
  }

  lemma StoredNothing<K, V>(cfg: Config<V>, items: map<K, Item<K, V>>, pend: set<K>, data: map<K, V>, loaded: int)
    requires cfg.expirationOnErr <= 0
    ensures Stored(cfg, items, pend, data, true, loaded) == items
  {
  }

  lemma Retried<K, V>(cfg: Config<V>, items: map<K, Item<K, V>>, keys: seq<K>, now: int, again: int, k: K,
                      first: Many<K, V>, second: Many<K, V>)
    requires Outcome(cfg, items, keys, now, first) && Outcome(cfg, first.items, keys, again, second) && k in first.pend
    ensures k in second.pend <==> again > now + cfg.retryInterval
    ensures k in first.out && k in second.out && second.out[k] == first.out[k]
  {
  }
}
