/** An uninterrupted GetMany is a run of the step system, and does what CacheMapCalls.GetMany says. */
module CacheMapManyRuns {
  import opened FirstLoadWait
  import opened CacheMap
  import opened CacheMapRuns
  import Calls = CacheMapCalls

  /** Every key leads to an item of its own. */
  ghost predicate Keyed<K, V>(s: State<K, V>) {
    forall k :: k in s.index ==> Has(s, s.index[k]) && s.items[s.index[k]].key == k
  }

  /** The items by key. */
  ghost function ItemsOf<K, V>(s: State<K, V>): map<K, Item<K, V>>
    requires Keyed(s)
  {
    map k | k in s.index :: s.items[s.index[k]]
  }

  lemma ManyStep<K(!new), V(!new)>(cfg: Config<V>, s: State<K, V>, i: nat)
    requires i < |s.procs| && InMany(s.procs[i]) && !Blocked(s, s.procs[i])
    ensures Reaches(cfg, s, RunMany(cfg, s, i))
  {
    ReachesStep(cfg, s, Run(i));
  }

  /** GetMany's next step, and whatever follows it. */
  lemma ManyThen<K(!new), V(!new)>(cfg: Config<V>, s: State<K, V>, i: nat, u: State<K, V>)
    requires i < |s.procs| && InMany(s.procs[i]) && !Blocked(s, s.procs[i]) && Reaches(cfg, RunMany(cfg, s, i), u)
    ensures Reaches(cfg, s, u)
  {
    ManyStep(cfg, s, i);
    ReachesTrans(cfg, s, RunMany(cfg, s, i), u);
  }

  // ----- the first pass

  /** The items after GetMany looked at `k`. */
  function Looked<K, V>(cfg: Config<V>, s: State<K, V>, k: K, now: int): State<K, V>
    requires k in s.index ==> Has(s, s.index[k])
  {
    if k in s.index then SetItem(s, s.index[k], Touch(cfg, s.items[s.index[k]], now)) else s
  }

  lemma ItemsWith<K, V>(s: State<K, V>, t: State<K, V>, k: K, it: Item<K, V>)
    requires Keyed(s) && k in s.index && it.key == k
    requires t.items == s.items[s.index[k] := it] && t.index == s.index
    ensures Keyed(t) && ItemsOf(t) == ItemsOf(s)[k := it]
  {
  }

  lemma ItemsAnd<K, V>(s: State<K, V>, t: State<K, V>, it: Item<K, V>)
    requires Keyed(s) && it.key !in s.index
    requires t.items == s.items + [it] && t.index == s.index[it.key := |s.items|]
    ensures Keyed(t) && ItemsOf(t) == ItemsOf(s)[it.key := it]
  {
  }

  lemma LookedItems<K, V>(cfg: Config<V>, s: State<K, V>, k: K, now: int, out: map<K, V>, miss: seq<K>)
    requires Keyed(s)
    ensures Keyed(Looked(cfg, s, k, now))
    ensures ItemsOf(Looked(cfg, s, k, now)) == Calls.ScanKey(cfg, Calls.Scanned(ItemsOf(s), out, miss), k, now).items
  {
    if k in s.index {
      ItemsWith(s, Looked(cfg, s, k, now), k, Touch(cfg, s.items[s.index[k]], now));
    }
  }

  lemma LookRun<K(!new), V(!new)>(cfg: Config<V>, s: State<K, V>, i: nat, now: int, todo: seq<K>, out: map<K, V>,
                                  miss: seq<K>)
    requires i < |s.procs| && Keyed(s) && Free(s, i) && todo != []
    ensures var r := Calls.ScanKey(cfg, Calls.Scanned(ItemsOf(s), out, miss), todo[0], now);
            Reaches(cfg, Goto(s, i, ManyScan(now, todo, out, miss)),
                    Goto(Looked(cfg, s, todo[0], now), i, ManyScan(now, todo[1..], r.out, r.miss)))
  {
    var k := todo[0];
    var r := Calls.ScanKey(cfg, Calls.Scanned(ItemsOf(s), out, miss), k, now);
    var start := Goto(s, i, ManyScan(now, todo, out, miss));
    NotBlocked(s, i, ManyScan(now, todo, out, miss));
    ManyStep(cfg, start, i);
    if k in s.index {
      var t, id := Looked(cfg, s, k, now), s.index[k];
      GotoTwice(t, i, ManyScan(now, todo, out, miss), ManyPeek(now, id, todo, out, miss));
      GotoTwice(t, i, ManyPeek(now, id, todo, out, miss), ManyScan(now, todo[1..], r.out, r.miss));
      assert RunMany(cfg, start, i) == Goto(t, i, ManyPeek(now, id, todo, out, miss));
      ManyStep(cfg, Goto(t, i, ManyPeek(now, id, todo, out, miss)), i);
      ReachesTrans(cfg, start, Goto(t, i, ManyPeek(now, id, todo, out, miss)),
                   Goto(t, i, ManyScan(now, todo[1..], r.out, r.miss)));
    } else {
      GotoTwice(s, i, ManyScan(now, todo, out, miss), ManyScan(now, todo[1..], out, miss + [k]));
    }
  }

  lemma {:induction false} ScanRun<K(!new), V(!new)>(cfg: Config<V>, s: State<K, V>, i: nat, now: int, todo: seq<K>,
                                                     out: map<K, V>, miss: seq<K>)
      returns (t: State<K, V>)
    requires i < |s.procs| && Keyed(s) && Free(s, i)
    ensures Keyed(t) && t == s.(items := t.items)
    ensures var r := Calls.ScanFrom(cfg, Calls.Scanned(ItemsOf(s), out, miss), todo, now);
            && ItemsOf(t) == r.items
            && Reaches(cfg, Goto(s, i, ManyScan(now, todo, out, miss)),
                           Goto(t, i, ManyScan(now, [], r.out, r.miss)))
    decreases |todo|
  {
    if todo == [] {
      t := s;
      ReachesSame(cfg, Goto(s, i, ManyScan(now, todo, out, miss)));
    } else {
      var r := Calls.ScanKey(cfg, Calls.Scanned(ItemsOf(s), out, miss), todo[0], now);
      var end := Calls.ScanFrom(cfg, r, todo[1..], now);
      var u := Looked(cfg, s, todo[0], now);
      LookedItems(cfg, s, todo[0], now, out, miss);
      LookRun(cfg, s, i, now, todo, out, miss);
      t := ScanRun(cfg, u, i, now, todo[1..], r.out, r.miss);
      ReachesTrans(cfg, Goto(s, i, ManyScan(now, todo, out, miss)), Goto(u, i, ManyScan(now, todo[1..], r.out, r.miss)),
                   Goto(t, i, ManyScan(now, [], end.out, end.miss)));
    }
  }

  // ----- the second pass

  /** The state after GetMany collected `k`. */
  function Collected<K, V>(cfg: Config<V>, s: State<K, V>, k: K, now: int): State<K, V>
    requires k in s.index ==> Has(s, s.index[k])
  {
    if k !in s.index then AddItem(Started(s, |s.items|, now), NewItem(cfg, k, now))
    else if now > s.items[s.index[k]].next then Marked(cfg, s, s.index[k], now)
    else s
  }

  function PendWith<K, V>(s: State<K, V>, pend: map<K, nat>, k: K, now: int): map<K, nat>
    requires k in s.index ==> Has(s, s.index[k])
  {
    if k !in s.index then pend[k := |s.items|]
    else if now > s.items[s.index[k]].next then pend[k := s.index[k]]
    else pend
  }

  /** What is to be loaded is in the map. */
  ghost predicate Pending<K, V>(s: State<K, V>, pend: map<K, nat>) {
    forall k :: k in pend ==> k in s.index && pend[k] == s.index[k]
  }

  lemma CollectedItems<K, V>(cfg: Config<V>, s: State<K, V>, k: K, now: int, pend: map<K, nat>, isNew: bool)
    requires Keyed(s) && Pending(s, pend)
    ensures Keyed(Collected(cfg, s, k, now)) && Pending(Collected(cfg, s, k, now), PendWith(s, pend, k, now))
    ensures Calls.PickOne(cfg, Calls.Picked(ItemsOf(s), pend.Keys, isNew), k, now) ==
            Calls.Picked(ItemsOf(Collected(cfg, s, k, now)), PendWith(s, pend, k, now).Keys, isNew || k !in s.index)
  {
    var t := Collected(cfg, s, k, now);
    if k !in s.index {
      ItemsAnd(s, t, NewItem(cfg, k, now));
    } else if now > s.items[s.index[k]].next {
      ItemsWith(s, t, k, s.items[s.index[k]].(next := now + cfg.retryInterval));
    }
  }

  lemma ClaimManyRun<K(!new), V(!new)>(cfg: Config<V>, s: State<K, V>, i: nat, now: int, id: nat, miss: seq<K>,
                                       out: map<K, V>, pend: map<K, nat>, isNew: bool)
    requires i < |s.procs| && Has(s, id) && miss != []
    ensures Reaches(cfg, Goto(s, i, ManySet(now, id, miss, out, pend, isNew)),
                    Goto(Marked(cfg, s, id, now), i, ManyPick(now, miss[1..], out, pend[miss[0] := id], isNew)))
  {
    ManyStep(cfg, Goto(s, i, ManySet(now, id, miss, out, pend, isNew)), i);
    GotoTwice(s, i, ManySet(now, id, miss, out, pend, isNew),
              ManyPick(now, miss[1..], out, pend[miss[0] := id], isNew));
  }

  /** One step on the first key: it is created, found due, or passed over. */
  lemma PickStep<K(!new), V(!new)>(cfg: Config<V>, s: State<K, V>, i: nat, now: int, miss: seq<K>, out: map<K, V>,
                                   pend: map<K, nat>, isNew: bool)
    requires i < |s.procs| && Keyed(s) && miss != []
    ensures var k := miss[0];
            Reaches(cfg, Goto(s, i, ManyPick(now, miss, out, pend, isNew)),
                    if k !in s.index
                    then Goto(Collected(cfg, s, k, now), i, ManyPick(now, miss[1..], out, pend[k := |s.items|], true))
                    else if now > s.items[s.index[k]].next
                    then Goto(s, i, ManySet(now, s.index[k], miss, out, pend, isNew))
                    else Goto(s, i, ManyPick(now, miss[1..], out, pend, isNew)))
  {
    var k, p := miss[0], ManyPick(now, miss, out, pend, isNew);
    ManyStep(cfg, Goto(s, i, p), i);
    if k !in s.index {
      GotoTwice(s, i, p, ManyPick(now, miss[1..], out, pend[k := |s.items|], true));
    } else if now > s.items[s.index[k]].next {
      GotoTwice(s, i, p, ManySet(now, s.index[k], miss, out, pend, isNew));
    } else {
      GotoTwice(s, i, p, ManyPick(now, miss[1..], out, pend, isNew));
    }
  }

  lemma CollectRun<K(!new), V(!new)>(cfg: Config<V>, s: State<K, V>, i: nat, now: int, miss: seq<K>, out: map<K, V>,
                                     pend: map<K, nat>, isNew: bool)
    requires i < |s.procs| && Keyed(s) && miss != []
    ensures var k := miss[0];
            Reaches(cfg, Goto(s, i, ManyPick(now, miss, out, pend, isNew)),
                    Goto(Collected(cfg, s, k, now), i,
                         ManyPick(now, miss[1..], out, PendWith(s, pend, k, now), isNew || k !in s.index)))
  {
    var k := miss[0];
    PickStep(cfg, s, i, now, miss, out, pend, isNew);
    if k in s.index && now > s.items[s.index[k]].next {
      var id := s.index[k];
      ClaimManyRun(cfg, s, i, now, id, miss, out, pend, isNew);
      ReachesTrans(cfg, Goto(s, i, ManyPick(now, miss, out, pend, isNew)),
                   Goto(s, i, ManySet(now, id, miss, out, pend, isNew)),
                   Goto(Marked(cfg, s, id, now), i, ManyPick(now, miss[1..], out, pend[k := id], isNew)));
    }
  }

  lemma {:induction false} PickRun<K(!new), V(!new)>(cfg: Config<V>, s: State<K, V>, i: nat, now: int, miss: seq<K>,
                                                     out: map<K, V>, pend: map<K, nat>, isNew: bool)
      returns (t: State<K, V>, all: map<K, nat>, anyNew: bool)
    requires i < |s.procs| && Keyed(s) && Pending(s, pend)
    ensures Keyed(t) && Pending(t, all) && t == s.(items := t.items, index := t.index, log := t.log)
    ensures Calls.PickFrom(cfg, Calls.Picked(ItemsOf(s), pend.Keys, isNew), miss, now) ==
            Calls.Picked(ItemsOf(t), all.Keys, anyNew)
    ensures Reaches(cfg, Goto(s, i, ManyPick(now, miss, out, pend, isNew)),
                    Goto(t, i, ManyPick(now, [], out, all, anyNew)))
    decreases |miss|
  {
    if miss == [] {
      t, all, anyNew := s, pend, isNew;
      ReachesSame(cfg, Goto(s, i, ManyPick(now, miss, out, pend, isNew)));
    } else {
      var k := miss[0];
      var u, p, b := Collected(cfg, s, k, now), PendWith(s, pend, k, now), isNew || k !in s.index;
      CollectedItems(cfg, s, k, now, pend, isNew);
      CollectRun(cfg, s, i, now, miss, out, pend, isNew);
      t, all, anyNew := PickRun(cfg, u, i, now, miss[1..], out, p, b);
      ReachesTrans(cfg, Goto(s, i, ManyPick(now, miss, out, pend, isNew)),
                   Goto(u, i, ManyPick(now, miss[1..], out, p, b)),
                   Goto(t, i, ManyPick(now, [], out, all, anyNew)));
    }
  }

  // ----- starting the loads, waiting and reading

  lemma PickedRun<K(!new), V(!new)>(cfg: Config<V>, s: State<K, V>, i: nat, k: K)
    requires i < |s.procs| && !Blocked(s, s.procs[i])
    ensures Reaches(cfg, s, PickKey(cfg, s, i, k))
  {
    ReachesStep(cfg, s, Pick(i, k));
  }

  /** `more` are the single loads of the keys in `left`, each once. */
  ghost predicate LoadsOf<K, V>(left: map<K, nat>, more: seq<Loader<K, V>>) {
    |more| == |left| && forall k :: k in left ==> LoadOne(k, left[k]) in more
  }

  lemma LoadsMore<K, V>(left: map<K, nat>, k: K, more: seq<Loader<K, V>>)
    requires k in left && LoadsOf(left - {k}, more)
    ensures LoadsOf(left, [LoadOne(k, left[k])] + more)
  {
    var all := [LoadOne(k, left[k])] + more;
    KeysLess(left, k);
    assert |left| == |left.Keys| && |left - {k}| == |(left - {k}).Keys|;
    forall x | x in left ensures LoadOne(x, left[x]) in all {
      assert all[0] == LoadOne(k, left[k]);
      assert x != k ==> LoadOne(x, (left - {k})[x]) in more;
    }
  }

  lemma SpawnStep<K(!new), V(!new)>(cfg: Config<V>, s: State<K, V>, i: nat, now: int, left: map<K, nat>, out: map<K, V>,
                                    pend: map<K, nat>, isNew: bool, k: K)
    requires i < |s.procs| && !cfg.batched && k in left
    ensures Reaches(cfg, Goto(s, i, ManyGo(now, left, out, pend, isNew)),
                    Goto(Spawn(s, LoadOne(k, left[k])), i, ManyGo(now, left - {k}, out, pend, isNew)))
  {
    PickedRun(cfg, Goto(s, i, ManyGo(now, left, out, pend, isNew)), i, k);
    GotoTwice(Spawn(s, LoadOne(k, left[k])), i, ManyGo(now, left, out, pend, isNew),
              ManyGo(now, left - {k}, out, pend, isNew));
  }

  lemma {:induction false} SpawnRun<K(!new), V(!new)>(cfg: Config<V>, s: State<K, V>, i: nat, now: int,
                                                      left: map<K, nat>, out: map<K, V>, pend: map<K, nat>, isNew: bool)
      returns (more: seq<Loader<K, V>>)
    requires i < |s.procs| && !cfg.batched
    ensures LoadsOf(left, more)
    ensures Reaches(cfg, Goto(s, i, ManyGo(now, left, out, pend, isNew)),
                    Goto(s.(loaders := s.loaders + more), i, ManyGo(now, map[], out, pend, isNew)))
    decreases |left|
  {
    var start := Goto(s, i, ManyGo(now, left, out, pend, isNew));
    if left == map[] {
      more := [];
      assert s.loaders + more == s.loaders;
      ReachesSame(cfg, start);
    } else {
      var k :| k in left;
      KeysLess(left, k);
      SpawnStep(cfg, s, i, now, left, out, pend, isNew, k);
      var u := Spawn(s, LoadOne(k, left[k]));
      var rest := SpawnRun(cfg, u, i, now, left - {k}, out, pend, isNew);
      LoadsMore(left, k, rest);
      more := [LoadOne(k, left[k])] + rest;
      assert u.loaders + rest == s.loaders + more;
      ReachesTrans(cfg, start, Goto(u, i, ManyGo(now, left - {k}, out, pend, isNew)),
                   Goto(s.(loaders := s.loaders + more), i, ManyGo(now, map[], out, pend, isNew)));
    }
  }

  lemma ManyWaitNext<K, V>(
      cfg: Config<V>, s: State<K, V>, i: nat, start: int, x: nat, status: nat, out: map<K, V>, pend: map<K, nat>)
    requires i < |s.procs| && status < |s.statuses|
    ensures RunMany(cfg, Goto(s, i, ManyWait(start, x, status, out, pend)), i) ==
            Goto(s, i, if start + x * MILLI > s.statuses[status] then ManyRead(pend, out)
                       else ManyWait(start, x + 1, status, out, pend))
  {
    var p := ManyWait(start, x, status, out, pend);
    GotoTwice(s, i, p, ManyWait(start, x + 1, status, out, pend));
    GotoTwice(s, i, p, ManyRead(pend, out));
  }

  lemma {:induction false} ManyWaitRun<K(!new), V(!new)>(
      cfg: Config<V>, s: State<K, V>, i: nat, start: int, x: nat, status: nat, out: map<K, V>, pend: map<K, nat>,
          max: nat)
    requires i < |s.procs| && status < |s.statuses| && Lasts(start, s.statuses[status], max) && x <= max
    ensures Reaches(cfg, Goto(s, i, ManyWait(start, x, status, out, pend)), Goto(s, i, ManyRead(pend, out)))
    decreases max - x
  {
    LastsUntil(start, s.statuses[status], x, max);
    ManyWaitNext(cfg, s, i, start, x, status, out, pend);
    if x < max {
      ManyWaitRun(cfg, s, i, start, x + 1, status, out, pend, max);
    } else {
      ReachesSame(cfg, Goto(s, i, ManyRead(pend, out)));
    }
    ManyThen(cfg, Goto(s, i, ManyWait(start, x, status, out, pend)), i, Goto(s, i, ManyRead(pend, out)));
  }

  lemma LaunchNext<K, V>(
      cfg: Config<V>, s: State<K, V>, i: nat, now: int, left: map<K, nat>, out: map<K, V>, pend: map<K, nat>,
      isNew: bool)
    requires i < |s.procs| && pend != map[] && (cfg.batched || left == map[])
    ensures RunMany(cfg, Goto(s, i, ManyGo(now, left, out, pend, isNew)), i) ==
            Goto(Launched(cfg, s, pend, now), i,
                 if isNew then ManyWait(now, 0, |s.statuses|, out, pend) else ManyRead(pend, out))
  {
    GotoTwice(Launched(cfg, s, pend, now), i, ManyGo(now, left, out, pend, isNew),
              if isNew then ManyWait(now, 0, |s.statuses|, out, pend) else ManyRead(pend, out));
  }

  lemma LaunchRun<K(!new), V(!new)>(
      cfg: Config<V>, s: State<K, V>, i: nat, now: int, left: map<K, nat>, out: map<K, V>, pend: map<K, nat>,
          isNew: bool)
    requires i < |s.procs| && pend != map[] && (cfg.batched || left == map[])
    ensures Reaches(cfg, Goto(s, i, ManyGo(now, left, out, pend, isNew)),
                    Goto(Launched(cfg, s, pend, now), i, ManyRead(pend, out)))
  {
    var t := Launched(cfg, s, pend, now);
    LaunchNext(cfg, s, i, now, left, out, pend, isNew);
    if isNew {
      MaxLasts(now, now + cfg.waitTimeout);
      ManyWaitRun(cfg, t, i, now, 0, |s.statuses|, out, pend, MaxSleeps(now, now + cfg.waitTimeout));
    } else {
      ReachesSame(cfg, Goto(t, i, ManyRead(pend, out)));
    }
    ManyThen(cfg, Goto(s, i, ManyGo(now, left, out, pend, isNew)), i, Goto(t, i, ManyRead(pend, out)));
  }

  lemma ReadStep<K(!new), V(!new)>(cfg: Config<V>, s: State<K, V>, i: nat, left: map<K, nat>, out: map<K, V>, k: K)
    requires i < |s.procs| && k in left && Has(s, left[k])
    ensures Reaches(cfg, Goto(s, i, ManyRead(left, out)),
                    Goto(s, i, ManyRead(left - {k}, out[k := ValueOf(cfg, s.items[left[k]])])))
  {
    PickedRun(cfg, Goto(s, i, ManyRead(left, out)), i, k);
    GotoTwice(s, i, ManyRead(left, out), ManyRead(left - {k}, out[k := ValueOf(cfg, s.items[left[k]])]));
  }

  lemma RereadFirst<K, V>(cfg: Config<V>, out: map<K, V>, items: map<K, Item<K, V>>, pend: set<K>, k: K)
    requires k in pend && k in items
    ensures Calls.Reread(cfg, out[k := ValueOf(cfg, items[k])], items, pend - {k}) ==
            Calls.Reread(cfg, out, items, pend)
  {
    var a, b := Calls.Reread(cfg, out[k := ValueOf(cfg, items[k])], items, pend - {k}),
        Calls.Reread(cfg, out, items, pend);
    assert a.Keys == b.Keys;
  }

  lemma KeysLess<K>(left: map<K, nat>, k: K)
    requires k in left
    ensures (left - {k}).Keys == left.Keys - {k} && |left - {k}| < |left|
  {
    assert |left| == |left.Keys| && |left - {k}| == |(left - {k}).Keys|;
  }

  lemma {:induction false} ReadRun<K(!new), V(!new)>(cfg: Config<V>, s: State<K, V>, i: nat, left: map<K, nat>,
                                                     out: map<K, V>)
    requires i < |s.procs| && Keyed(s) && Pending(s, left)
    ensures Reaches(cfg, Goto(s, i, ManyRead(left, out)),
                    Goto(s, i, ManyRead(map[], Calls.Reread(cfg, out, ItemsOf(s), left.Keys))))
    decreases |left|
  {
    if left == map[] {
      assert Calls.Reread(cfg, out, ItemsOf(s), left.Keys) == out;
      ReachesSame(cfg, Goto(s, i, ManyRead(left, out)));
    } else {
      var k :| k in left;
      var next := out[k := ValueOf(cfg, ItemsOf(s)[k])];
      ReadStep(cfg, s, i, left, out, k);
      RereadFirst(cfg, out, ItemsOf(s), left.Keys, k);
      KeysLess(left, k);
      ReadRun(cfg, s, i, left - {k}, next);
      ReachesTrans(cfg, Goto(s, i, ManyRead(left, out)), Goto(s, i, ManyRead(left - {k}, next)),
                   Goto(s, i, ManyRead(map[], Calls.Reread(cfg, out, ItemsOf(s), left.Keys))));
    }
  }

  // ----- the whole call

  /** The result of a GetMany, from the state its passes left. */
  function Answered<K, V>(s: State<K, V>, i: nat, out: map<K, V>): State<K, V>
    requires i < |s.procs|
  {
    Goto(s, i, Resting).(returned := s.returned + [FromGetMany(out)])
  }

  lemma ReturnRun<K(!new), V(!new)>(cfg: Config<V>, s: State<K, V>, i: nat, left: map<K, nat>, out: map<K, V>)
    requires i < |s.procs| && Keyed(s) && Pending(s, left)
    ensures Reaches(cfg, Goto(s, i, ManyRead(left, out)), Answered(s, i, Calls.Reread(cfg, out, ItemsOf(s), left.Keys)))
  {
    var all := Calls.Reread(cfg, out, ItemsOf(s), left.Keys);
    ReadRun(cfg, s, i, left, out);
    ManyStep(cfg, Goto(s, i, ManyRead(map[], all)), i);
    GotoTwice(s, i, ManyRead(map[], all), Resting);
    ReachesTrans(cfg, Goto(s, i, ManyRead(left, out)), Goto(s, i, ManyRead(map[], all)), Answered(s, i, all));
  }

  /** The loads a GetMany starts: one batch, or one load per key. */
  ghost predicate Starts<K, V>(cfg: Config<V>, pend: map<K, nat>, status: nat, more: seq<Loader<K, V>>) {
    if pend == map[] then more == [] else if cfg.batched then more == [LoadBatch(pend, status)] else LoadsOf(pend, more)
  }

  /** A GetMany that loads anything waits for a cut-off of its own, waitTimeout from its clock. */
  function CutOffs<K, V>(cfg: Config<V>, pend: map<K, nat>, now: int): seq<int> {
    if |pend| == 0 then [] else [now + cfg.waitTimeout]
  }

  /** From the end of the second pass to the start of the reads. */
  lemma LoadRun<K(!new), V(!new)>(cfg: Config<V>, s: State<K, V>, i: nat, now: int, out: map<K, V>, pend: map<K, nat>,
                                  isNew: bool)
      returns (t: State<K, V>, more: seq<Loader<K, V>>)
    requires i < |s.procs|
    ensures t == s.(loaders := s.loaders + more, statuses := t.statuses) && Starts(cfg, pend, |s.statuses|, more)
    ensures t.statuses == s.statuses + CutOffs(cfg, pend, now)
    ensures Reaches(cfg, Goto(s, i, ManyGo(now, pend, out, pend, isNew)), Goto(t, i, ManyRead(pend, out)))
  {
    var start := Goto(s, i, ManyGo(now, pend, out, pend, isNew));
    if pend == map[] {
      t, more := s, [];
      assert s.loaders + more == s.loaders;
      ManyStep(cfg, start, i);
      GotoTwice(s, i, ManyGo(now, pend, out, pend, isNew), ManyRead(pend, out));
    } else if cfg.batched {
      t, more := Launched(cfg, s, pend, now), [LoadBatch(pend, |s.statuses|)];
      LaunchRun(cfg, s, i, now, pend, out, pend, isNew);
    } else {
      more := SpawnRun(cfg, s, i, now, pend, out, pend, isNew);
      var u := s.(loaders := s.loaders + more);
      t := Launched(cfg, u, pend, now);
      LaunchRun(cfg, u, i, now, map[], out, pend, isNew);
      ReachesTrans(cfg, start, Goto(u, i, ManyGo(now, map[], out, pend, isNew)), Goto(t, i, ManyRead(pend, out)));
    }
  }

  /** Collecting, loading and waiting, when the first pass found something to load. */
  lemma MissRun<K(!new), V(!new)>(cfg: Config<V>, s: State<K, V>, i: nat, now: int, miss: seq<K>, out: map<K, V>)
      returns (t: State<K, V>, pend: map<K, nat>, isNew: bool, more: seq<Loader<K, V>>)
    requires i < |s.procs| && Keyed(s)
    ensures Keyed(t) && Pending(t, pend) && t.procs == s.procs && t.returned == s.returned
    ensures t.loaders == s.loaders + more && Starts(cfg, pend, |s.statuses|, more)
    ensures t.statuses == s.statuses + CutOffs(cfg, pend, now)
    ensures Calls.PickFrom(cfg, Calls.Picked(ItemsOf(s), {}, false), miss, now) ==
            Calls.Picked(ItemsOf(t), pend.Keys, isNew)
    ensures Reaches(cfg, Goto(s, i, ManyPick(now, miss, out, map[], false)), Goto(t, i, ManyRead(pend, out)))
  {
    var start := Goto(s, i, ManyPick(now, miss, out, map[], false));
    var none: map<K, nat> := map[];
    assert none.Keys == {};
    var u;
    u, pend, isNew := PickRun(cfg, s, i, now, miss, out, none, false);
    var picked := Goto(u, i, ManyPick(now, [], out, pend, isNew));
    ManyStep(cfg, picked, i);
    GotoTwice(u, i, ManyPick(now, [], out, pend, isNew), ManyGo(now, pend, out, pend, isNew));
    ReachesTrans(cfg, start, picked, Goto(u, i, ManyGo(now, pend, out, pend, isNew)));
    t, more := LoadRun(cfg, u, i, now, out, pend, isNew);
    ReachesTrans(cfg, start, Goto(u, i, ManyGo(now, pend, out, pend, isNew)), Goto(t, i, ManyRead(pend, out)));
  }

  /** From the end of the first pass to the reads. */
  lemma ScannedRun<K(!new), V(!new)>(cfg: Config<V>, s: State<K, V>, i: nat, now: int, miss: seq<K>, out: map<K, V>)
      returns (t: State<K, V>, pend: map<K, nat>, isNew: bool, more: seq<Loader<K, V>>)
    requires i < |s.procs| && Keyed(s) && Free(s, i)
    ensures Keyed(t) && Pending(t, pend) && t.procs == s.procs && t.returned == s.returned
    ensures t.loaders == s.loaders + more && Starts(cfg, pend, |s.statuses|, more)
    ensures t.statuses == s.statuses + CutOffs(cfg, pend, now)
    ensures Calls.PickFrom(cfg, Calls.Picked(ItemsOf(s), {}, false), miss, now) ==
            Calls.Picked(ItemsOf(t), pend.Keys, isNew)
    ensures Reaches(cfg, Goto(s, i, ManyScan(now, [], out, miss)), Goto(t, i, ManyRead(pend, out)))
  {
    var start := Goto(s, i, ManyScan(now, [], out, miss));
    NotBlocked(s, i, ManyScan(now, [], out, miss));
    ManyStep(cfg, start, i);
    if miss == [] {
      t, pend, isNew, more := s, map[], false, [];
      assert pend.Keys == {} && s.loaders + more == s.loaders;
      GotoTwice(s, i, ManyScan(now, [], out, miss), ManyRead(map[], out));
    } else {
      GotoTwice(s, i, ManyScan(now, [], out, miss), ManyPick(now, miss, out, map[], false));
      t, pend, isNew, more := MissRun(cfg, s, i, now, miss, out);
      ReachesTrans(cfg, start, Goto(s, i, ManyPick(now, miss, out, map[], false)), Goto(t, i, ManyRead(pend, out)));
    }
  }

  /** An uninterrupted GetMany is a run: it leaves the items, starts the loads and returns the values
      that CacheMapCalls.GetMany says. */
  lemma GetManyIsARun<K(!new), V(!new)>(cfg: Config<V>, s: State<K, V>, i: nat, keys: seq<K>, now: int)
      returns (t: State<K, V>, pend: map<K, nat>, more: seq<Loader<K, V>>)
    requires i < |s.procs| && s.procs[i] == Resting && Keyed(s) && Free(s, i)
    ensures Reaches(cfg, s, t) && Keyed(t) && Pending(t, pend) && t.procs == s.procs
    ensures t.loaders == s.loaders + more && Starts(cfg, pend, |s.statuses|, more)
    ensures t.statuses == s.statuses + CutOffs(cfg, pend, now)
    ensures var r := Calls.GetMany(cfg, ItemsOf(s), keys, now);
            ItemsOf(t) == r.items && pend.Keys == r.pend && t.returned == s.returned + [FromGetMany(r.out)]
  {
    var r := Calls.ScanFrom(cfg, Calls.Scanned(ItemsOf(s), map[], []), keys, now);
    var called := Goto(s, i, ManyScan(now, keys, map[], []));
    ReachesStep(cfg, s, CallGetMany(i, keys, now));
    var u := ScanRun(cfg, s, i, now, keys, map[], []);
    ReachesTrans(cfg, s, called, Goto(u, i, ManyScan(now, [], r.out, r.miss)));
    var v, isNew;
    v, pend, isNew, more := ScannedRun(cfg, u, i, now, r.miss, r.out);
    ReachesTrans(cfg, s, Goto(u, i, ManyScan(now, [], r.out, r.miss)), Goto(v, i, ManyRead(pend, r.out)));
    t := Answered(v, i, Calls.Reread(cfg, r.out, ItemsOf(v), pend.Keys));
    ReturnRun(cfg, v, i, pend, r.out);
    ReachesTrans(cfg, s, Goto(v, i, ManyRead(pend, r.out)), t);
  }
}
