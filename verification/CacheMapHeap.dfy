/** CacheItem and CacheMap as objects: the locked stretches the step system interleaves, and whole
    calls that nothing interrupts. */
module CacheMapHeap {
  import opened Options
  import opened FirstLoadWait
  import opened CacheMap
  import Calls = CacheMapCalls

  class CacheItemImpl<K, V> {
    var data: Option<V>
    var nextUpdateTime: int
    var initCutOffTime: int
    var evictTime: int
    ghost const key: K
    ghost var touches: seq<int>

    ghost function View(): Item<K, V>
      reads this
    {
      Item(key, data, nextUpdateTime, initCutOffTime, evictTime, touches)
    }

    constructor (cfg: Config<V>, ghost k: K, now: int)
      ensures View() == NewItem(cfg, k, now)
      ensures data == None && nextUpdateTime == now + cfg.retryInterval
      ensures initCutOffTime == now + cfg.waitTimeout && evictTime == now + cfg.evictTimeout && touches == [now]
    {
      data, evictTime := None, now + cfg.evictTimeout;
      nextUpdateTime, initCutOffTime := now + cfg.retryInterval, now + cfg.waitTimeout;
      key, touches := k, [now];
    }

    method UpdateEvictTime(cfg: Config<V>, now: int)
      modifies this
      ensures View() == Touch(cfg, old(View()), now)
      ensures evictTime >= old(evictTime) && evictTime >= now + cfg.evictTimeout
      ensures evictTime == old(evictTime) || evictTime == now + cfg.evictTimeout
    {
      var newEvictTime := now + cfg.evictTimeout;
      if newEvictTime > evictTime {
        evictTime := newEvictTime;
      }
      touches := touches + [now];
    }

    /** Get's check under the item's lock: `due` tells the caller to start a load. */
    method CheckUpdate(cfg: Config<V>, now: int) returns (due: bool)
      modifies this
      ensures due <==> now > old(nextUpdateTime)
      ensures View() == if due then old(View()).(next := now + cfg.retryInterval) else old(View())
    {
      due := false;
      if now > nextUpdateTime {
        if now > nextUpdateTime {
          nextUpdateTime := now + cfg.retryInterval;
          due := true;
        }
      }
    }

    /** The end of updateData, after loadData returned `v`. */
    method FinishLoad(cfg: Config<V>, v: V, failed: bool, now: int)
      modifies this
      ensures failed && cfg.expirationOnErr <= 0 ==> View() == old(View())
      ensures !failed || cfg.expirationOnErr > 0 ==>
                && data == Some(v) && nextUpdateTime == now + (if failed then cfg.expirationOnErr else cfg.expiration)
                && initCutOffTime == if now < old(initCutOffTime) then now else old(initCutOffTime)
      ensures evictTime == old(evictTime) && touches == old(touches)
      ensures View() == if Drops(cfg, failed) then old(View()) else Store(cfg, old(View()), v, failed, now)
    {
      var expire := cfg.expiration;
      if failed {
        if cfg.expirationOnErr <= 0 {
          return;
        }
        expire := cfg.expirationOnErr;
      }
      data := Some(v);
      nextUpdateTime := now + expire;
      if now < initCutOffTime {
        initCutOffTime := now;
      }
    }

    method Read(cfg: Config<V>) returns (v: V)
      ensures v == ValueOf(cfg, View())
    {
      if data.None? {
        return cfg.zero;
      }
      return data.value;
    }
  }

  lemma RereadNone<K, V>(cfg: Config<V>, first: map<K, V>, items: map<K, Item<K, V>>, pend: set<K>)
    ensures Calls.Reread(cfg, first, items, pend - pend) == first
  {
  }

  /** Reading one more key of those left to read. */
  lemma RereadStep<K, V>(cfg: Config<V>, first: map<K, V>, items: map<K, Item<K, V>>, pend: set<K>, todo: set<K>, k: K)
    requires k in items && k in todo && todo <= pend
    ensures Calls.Reread(cfg, first, items, pend - (todo - {k})) ==
            Calls.Reread(cfg, first, items, pend - todo)[k := ValueOf(cfg, items[k])]
  {
    assert pend - (todo - {k}) == (pend - todo) + {k};
  }

  class CacheMapImpl<K(==), V> {
    const cfg: Config<V>
    var dataMap: map<K, CacheItemImpl<K, V>>

    ghost predicate Valid()
      reads this
    {
      cfg.retryInterval > 0 && forall k :: k in dataMap ==> dataMap[k].key == k
    }

    constructor (expiration: int, expirationOnErr: int, evictTimeout: int, retryInterval: int, waitTimeout: int,
                 batched: bool, zero: V)
      ensures Valid() && dataMap == map[]
      ensures cfg ==
              Configure(expiration, expirationOnErr, evictTimeout, retryInterval, waitTimeout, batched, zero)
    {
      cfg := Configure(expiration, expirationOnErr, evictTimeout, retryInterval, waitTimeout, batched, zero);
      dataMap := map[];
    }

    /** evictKeys' scan. */
    method ScanPast(now: int) returns (keys: seq<K>)
      ensures forall k :: k in keys <==> k in dataMap && dataMap[k].evictTime < now
    {
      keys := [];
      var todo := dataMap.Keys;
      while todo != {}
        invariant todo <= dataMap.Keys
        invariant forall k :: k in keys <==> k in dataMap && k !in todo && dataMap[k].evictTime < now
        decreases |todo|
      {
        var k :| k in todo;
        if dataMap[k].evictTime < now {
          keys := keys + [k];
        }
        todo := todo - {k};
      }
    }

    /** evictKeys without interference: exactly the keys past their limit go. */
    method EvictKeys(now: int)
      requires Valid()
      modifies this
      ensures Valid()
      ensures forall k :: k in dataMap <==> k in old(dataMap) && old(dataMap)[k].evictTime >= now
      ensures forall k :: k in dataMap ==> dataMap[k] == old(dataMap)[k]
    {
      var keys := ScanPast(now);
      for i := 0 to |keys|
        invariant forall k :: k in dataMap <==> k in old(dataMap) && k !in keys[..i]
        invariant forall k :: k in dataMap ==> dataMap[k] == old(dataMap)[k]
      {
        dataMap := dataMap - {keys[i]};
      }
    }

    /** The item Get and GetMany find under a key, or the one they create. */
    ghost function Found(key: K, now: int): Item<K, V>
      reads this, if key in dataMap then {dataMap[key]} else {}
    {
      if key in dataMap then dataMap[key].View() else NewItem(cfg, key, now)
    }

    /** Get without interference: a missing key is created and its load started, a due one starts a
        load; the result is the old value after the whole wait, and the wait counts as access time. */
    method Get(key: K, now: int) returns (v: V, loads: bool, sleeps: nat)
      requires Valid()
      modifies this, if key in dataMap then {dataMap[key]} else {}
      ensures Valid() && key in dataMap
      ensures old(key in dataMap) ==>
                var was := old(Found(key, now));
                && dataMap == old(dataMap)
                && (loads <==> now > was.next)
                && v == ValueOf(cfg, was) && sleeps == MaxSleeps(now, was.cutoff)
                && dataMap[key].View() ==
                   Touch(cfg, if loads then was.(next := now + cfg.retryInterval) else was, now + sleeps * MILLI)
      ensures old(key !in dataMap) ==>
                && fresh(dataMap[key]) && dataMap == old(dataMap)[key := dataMap[key]]
                && loads && v == cfg.zero && sleeps == MaxSleeps(now, now + cfg.waitTimeout)
                && dataMap[key].View() == Touch(cfg, NewItem(cfg, key, now), now + sleeps * MILLI)
    {
      loads := false;
      var item;
      if key in dataMap {
        item := dataMap[key];
      } else {
        item := new CacheItemImpl(cfg, key, now);
        dataMap := dataMap[key := item];
        loads := true;
      }
      var due := item.CheckUpdate(cfg, now);
      loads := loads || due;
      var cut := item.initCutOffTime;
      var end;
      end, sleeps := Await(now, k => cut);
      item.UpdateEvictTime(cfg, end);
      v := item.Read(cfg);
    }

    /** The items by key, as values. */
    ghost function Items(): map<K, Item<K, V>>
      reads this, dataMap.Values
    {
      map k | k in dataMap :: dataMap[k].View()
    }

    /** GetMany's look at one key: an access and the old value if it is there, and whether it is to
        be loaded. */
    method AccessKey(key: K, now: int) returns (hit: bool, v: V, load: bool)
      requires Valid()
      modifies if key in dataMap then {dataMap[key]} else {}
      ensures hit <==> key in dataMap
      ensures hit ==> v == ValueOf(cfg, old(Items())[key])
      ensures load <==> !hit || now > old(Items())[key].next
      ensures Items() == if hit then old(Items())[key := Touch(cfg, old(Items())[key], now)] else old(Items())
    {
      hit, v, load := key in dataMap, cfg.zero, true;
      if hit {
        var item := dataMap[key];
        item.UpdateEvictTime(cfg, now);
        v := item.Read(cfg);
        load := now > item.nextUpdateTime;
      }
    }

    method ScanMany(keys: seq<K>, now: int) returns (out: map<K, V>, miss: seq<K>)
      requires Valid()
      modifies dataMap.Values
      ensures Calls.Scanned(Items(), out, miss) ==
              Calls.ScanFrom(cfg, Calls.Scanned(old(Items()), map[], []), keys, now)
    {
      out, miss := map[], [];
      for i := 0 to |keys|
        invariant Calls.ScanFrom(cfg, Calls.Scanned(Items(), out, miss), keys[i..], now) ==
                  Calls.ScanFrom(cfg, Calls.Scanned(old(Items()), map[], []), keys, now)
      {
        var hit, v, load := AccessKey(keys[i], now);
        if hit {
          out := out[keys[i] := v];
        }
        if load {
          miss := miss + [keys[i]];
        }
      }
    }

    /** Creates the item of a key, or postpones a due one; `load` says that its load is to start. */
    method PickOne(key: K, now: int) returns (created: bool, load: bool)
      requires Valid()
      modifies this, if key in dataMap then {dataMap[key]} else {}
      ensures Valid() && key in dataMap
      ensures created <==> key !in old(dataMap)
      ensures load <==> created || now > old(Items())[key].next
      ensures created ==> fresh(dataMap[key]) && dataMap == old(dataMap)[key := dataMap[key]]
      ensures !created ==> dataMap == old(dataMap)
      ensures Items() == if created then old(Items())[key := NewItem(cfg, key, now)]
                         else if load then old(Items())[key := old(Items())[key].(next := now + cfg.retryInterval)]
                         else old(Items())
    {
      created, load := key !in dataMap, false;
      if created {
        var item := new CacheItemImpl(cfg, key, now);
        dataMap := dataMap[key := item];
        load := true;
      } else if now > dataMap[key].nextUpdateTime {
        dataMap[key].nextUpdateTime := now + cfg.retryInterval;
        load := true;
      }
    }

    method PickMany(miss: seq<K>, now: int) returns (pend: map<K, CacheItemImpl<K, V>>, isNew: bool)
      requires Valid()
      modifies this, dataMap.Values
      ensures Valid()
      ensures Calls.Picked(Items(), pend.Keys, isNew) ==
              Calls.PickFrom(cfg, Calls.Picked(old(Items()), {}, false), miss, now)
      ensures forall k :: k in pend ==> k in dataMap && pend[k] == dataMap[k]
      ensures old(dataMap.Keys) <= dataMap.Keys
      ensures forall k :: k in dataMap ==>
                if k in old(dataMap) then dataMap[k] == old(dataMap)[k] else fresh(dataMap[k])
    {
      pend, isNew := map[], false;
      ghost var start := Calls.Picked(Items(), {}, false);
      ghost var r := start;
      for i := 0 to |miss|
        invariant Valid()
        invariant r.items == Items() && r.pend == pend.Keys && r.isNew == isNew
        invariant Calls.PickFrom(cfg, r, miss[i..], now) == Calls.PickFrom(cfg, start, miss, now)
        invariant forall k :: k in pend ==> k in dataMap && pend[k] == dataMap[k]
        invariant old(dataMap.Keys) <= dataMap.Keys
        invariant forall k :: k in dataMap ==>
                    if k in old(dataMap) then dataMap[k] == old(dataMap)[k] else fresh(dataMap[k])
      {
        r := Calls.PickOne(cfg, r, miss[i], now);
        var created, load := PickOne(miss[i], now);
        isNew := isNew || created;
        if load {
          pend := pend[miss[i] := dataMap[miss[i]]];
        }
      }
    }

    /** GetMany without interference: nothing is stored while it runs. */
    method GetMany(keys: seq<K>, now: int) returns (out: map<K, V>, pend: map<K, CacheItemImpl<K, V>>, sleeps: nat)
      requires Valid()
      modifies this, dataMap.Values
      ensures Valid()
      ensures Calls.Many(Items(), out, pend.Keys, sleeps) == Calls.GetMany(cfg, old(Items()), keys, now)
      ensures forall k :: k in pend ==> k in dataMap && pend[k] == dataMap[k]
    {
      var first, miss := ScanMany(keys, now);
      var isNew;
      pend, isNew := PickMany(miss, now);
      sleeps := 0;
      if isNew {
        var end;
        end, sleeps := Await(now, k => now + cfg.waitTimeout);
      }
      out := ReadAll(first, pend);
    }

    /** The value of one key that was loaded. */
    method ReadOne(pend: map<K, CacheItemImpl<K, V>>, key: K) returns (v: V)
      requires key in pend && key in dataMap && pend[key] == dataMap[key]
      ensures v == ValueOf(cfg, Items()[key])
    {
      v := pend[key].Read(cfg);
    }

    method ReadAll(first: map<K, V>, pend: map<K, CacheItemImpl<K, V>>) returns (out: map<K, V>)
      requires forall k :: k in pend ==> k in dataMap && pend[k] == dataMap[k]
      ensures out == Calls.Reread(cfg, first, Items(), pend.Keys)
    {
      ghost var items := Items();
      RereadNone(cfg, first, items, pend.Keys);
      out := first;
      var todo := pend.Keys;
      while todo != {}
        invariant todo <= pend.Keys
        invariant out == Calls.Reread(cfg, first, items, pend.Keys - todo)
        decreases |todo|
      {
        var k :| k in todo;
        RereadStep(cfg, first, items, pend.Keys, todo, k);
        var v := ReadOne(pend, k);
        out := out[k := v];
        todo := todo - {k};
      }
      assert pend.Keys - todo == pend.Keys;
    }

    /** The end of updateBatch: each item gets its own value, a key the source did not return the
        zero value, and the waiting GetMany its cut-off. */
    method FinishBatch(pend: map<K, CacheItemImpl<K, V>>, data: map<K, V>, failed: bool, now: int, status: CutOff)
      requires forall k :: k in pend ==> pend[k].key == k
      modifies pend.Values, status
      ensures Drops(cfg, failed) ==> status.initCutOffTime == old(status.initCutOffTime)
      ensures Drops(cfg, failed) ==> forall k :: k in pend ==> pend[k].View() == old(pend[k].View())
      ensures !Drops(cfg, failed) ==>
                && status.initCutOffTime == now
                && forall k :: k in pend ==>
                     pend[k].View() ==
                     var was := old(pend[k].View());
                     was.(data := Some(if k in data then data[k] else cfg.zero),
                          next := now + (if failed then cfg.expirationOnErr else cfg.expiration),
                          cutoff := if now < was.cutoff then now else was.cutoff)
    {
      if failed && cfg.expirationOnErr <= 0 {
        return;
      }
      StoreAll(pend, data, failed, now);
      status.initCutOffTime := now;
    }

    method StoreAll(pend: map<K, CacheItemImpl<K, V>>, data: map<K, V>, failed: bool, now: int)
      requires !Drops(cfg, failed) && forall k :: k in pend ==> pend[k].key == k
      modifies pend.Values
      ensures forall k :: k in pend ==>
                pend[k].View() ==
                Store(cfg, old(pend[k].View()), if k in data then data[k] else cfg.zero, failed, now)
    {
      var todo := pend.Keys;
      while todo != {}
        invariant todo <= pend.Keys
        invariant forall k :: k in pend ==>
                    pend[k].View() ==
                    if k in todo then old(pend[k].View())
                    else Store(cfg, old(pend[k].View()), if k in data then data[k] else cfg.zero, failed, now)
        decreases |todo|
      {
        var k :| k in todo;
        pend[k].FinishLoad(cfg, if k in data then data[k] else cfg.zero, failed, now);
        todo := todo - {k};
      }
    }
  }

  /** What a GetMany waits on. */
  class CutOff {
    var initCutOffTime: int

    constructor (cut: int)
      ensures initCutOffTime == cut
    {
      initCutOffTime := cut;
    }
  }
}
