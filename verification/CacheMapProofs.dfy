/** Where the values come from that a CacheMap stores and returns, over every run. */
module CacheMapProofs {
  import opened CacheMap

  // ----- provenance

  ghost predicate Gives<K, V>(l: Load<K, V>, k: K, v: V) {
    match l
    case One(key, w, _) => key == k && w == v
    case Batch(data, _) => k in data && data[k] == v
  }

  /** The zero value, or a result of a finished load of the same key that may be kept. */
  ghost predicate Genuine<K, V>(cfg: Config<V>, s: State<K, V>, k: K, v: V) {
    v == cfg.zero || exists x :: 0 <= x < |s.loads| && Gives(s.loads[x], k, v) && !Drops(cfg, s.loads[x].failed)
  }

  ghost predicate Outs<K, V>(cfg: Config<V>, s: State<K, V>, out: map<K, V>) {
    forall k :: k in out ==> Genuine(cfg, s, k, out[k])
  }

  ghost predicate Owns<K, V>(s: State<K, V>, id: nat, k: K) {
    id < |s.items| && s.items[id].key == k
  }

  ghost predicate Bound<K, V>(s: State<K, V>, m: map<K, nat>) {
    forall k :: k in m ==> Owns(s, m[k], k)
  }

  ghost predicate ProcOK<K, V>(cfg: Config<V>, s: State<K, V>, p: Proc<K, V>) {
    match p
    case GetCheck(k, id, _) => Owns(s, id, k)
    case GetClaim(k, id, _) => Owns(s, id, k)
    case GetSet(k, id, _) => Owns(s, id, k)
    case GetWait(k, id, _, _, _) => Owns(s, id, k)
    case GetTouch(k, id, _) => Owns(s, id, k)
    case GetRead(k, id) => Owns(s, id, k)
    case ManyScan(_, _, out, _) => Outs(cfg, s, out)
    case ManyPeek(_, id, todo, out, _) => todo != [] && Owns(s, id, todo[0]) && Outs(cfg, s, out)
    case ManyPick(_, _, out, pend, _) => Outs(cfg, s, out) && Bound(s, pend)
    case ManySet(_, id, miss, out, pend, _) => miss != [] && Owns(s, id, miss[0]) && Outs(cfg, s, out) && Bound(s, pend)
    case ManyGo(_, left, out, pend, _) => Outs(cfg, s, out) && Bound(s, left) && Bound(s, pend)
    case ManyWait(_, _, _, out, pend) => Outs(cfg, s, out) && Bound(s, pend)
    case ManyRead(left, out) => Outs(cfg, s, out) && Bound(s, left)
    case _ => true
  }

  ghost predicate LoaderOK<K, V>(cfg: Config<V>, s: State<K, V>, l: Loader<K, V>) {
    match l
    case LoadOne(k, id) => Owns(s, id, k)
    case StoreOne(k, id, v, failed, _) => Owns(s, id, k) && Genuine(cfg, s, k, v)
    case LoadBatch(pend, _) => Bound(s, pend)
    case StoreBatch(left, data, _, _, _) => Bound(s, left) && Outs(cfg, s, data)
    case _ => true
  }

  ghost predicate ReturnedOK<K, V>(cfg: Config<V>, s: State<K, V>, r: Returned<K, V>) {
    match r
    case FromGet(k, v) => Genuine(cfg, s, k, v)
    case FromGetMany(out) => Outs(cfg, s, out)
  }

  ghost predicate ItemOK<K, V>(cfg: Config<V>, s: State<K, V>, it: Item<K, V>) {
    Genuine(cfg, s, it.key, ValueOf(cfg, it))
  }

  ghost predicate Provenance<K, V>(cfg: Config<V>, s: State<K, V>) {
    && Bound(s, s.index)
    && (forall id :: 0 <= id < |s.items| ==> ItemOK(cfg, s, s.items[id]))
    && (forall i :: 0 <= i < |s.procs| ==> ProcOK(cfg, s, s.procs[i]))
    && (forall j :: 0 <= j < |s.loaders| ==> LoaderOK(cfg, s, s.loaders[j]))
    && (forall r :: 0 <= r < |s.returned| ==> ReturnedOK(cfg, s, s.returned[r]))
  }

  /** Items keep their keys and finished loads are remembered. */
  ghost predicate Grows<K, V>(s: State<K, V>, t: State<K, V>) {
    && |s.items| <= |t.items|
    && (forall id :: 0 <= id < |s.items| ==> t.items[id].key == s.items[id].key)
    && s.loads <= t.loads
  }

  lemma GenuineGrows<K, V>(cfg: Config<V>, s: State<K, V>, t: State<K, V>, k: K, v: V)
    requires Grows(s, t) && Genuine(cfg, s, k, v)
    ensures Genuine(cfg, t, k, v)
  {
  }

  lemma OutsGrows<K, V>(cfg: Config<V>, s: State<K, V>, t: State<K, V>, out: map<K, V>)
    requires Grows(s, t) && Outs(cfg, s, out)
    ensures Outs(cfg, t, out)
  {
  }

  lemma ProcGrows<K, V>(cfg: Config<V>, s: State<K, V>, t: State<K, V>, p: Proc<K, V>)
    requires Grows(s, t) && ProcOK(cfg, s, p)
    ensures ProcOK(cfg, t, p)
  {
  }

  lemma LoaderGrows<K, V>(cfg: Config<V>, s: State<K, V>, t: State<K, V>, l: Loader<K, V>)
    requires Grows(s, t) && LoaderOK(cfg, s, l)
    ensures LoaderOK(cfg, t, l)
  {
  }

  lemma ReturnedGrows<K, V>(cfg: Config<V>, s: State<K, V>, t: State<K, V>, r: Returned<K, V>)
    requires Grows(s, t) && ReturnedOK(cfg, s, r)
    ensures ReturnedOK(cfg, t, r)
  {
  }

  /** A step that keeps what it does not touch: new or changed parts are checked one by one. */
  lemma GrowsKeeps<K, V>(cfg: Config<V>, s: State<K, V>, t: State<K, V>)
    requires Provenance(cfg, s) && Grows(s, t) && Bound(t, t.index)
    requires forall id :: 0 <= id < |t.items| ==>
             (id < |s.items| && ValueOf(cfg, t.items[id]) == ValueOf(cfg, s.items[id])) || ItemOK(cfg, t, t.items[id])
    requires forall i :: 0 <= i < |t.procs| ==>
               (i < |s.procs| && t.procs[i] == s.procs[i]) || ProcOK(cfg, t, t.procs[i])
    requires forall j :: 0 <= j < |t.loaders| ==>
             (j < |s.loaders| && t.loaders[j] == s.loaders[j]) || LoaderOK(cfg, t, t.loaders[j])
    requires forall r :: 0 <= r < |t.returned| ==>
             (r < |s.returned| && t.returned[r] == s.returned[r]) || ReturnedOK(cfg, t, t.returned[r])
    ensures Provenance(cfg, t)
  {
    forall id | 0 <= id < |t.items| ensures ItemOK(cfg, t, t.items[id]) {
      if id < |s.items| && ValueOf(cfg, t.items[id]) == ValueOf(cfg, s.items[id]) {
        assert ItemOK(cfg, s, s.items[id]);
        GenuineGrows(cfg, s, t, s.items[id].key, ValueOf(cfg, s.items[id]));
      }
    }
    forall i | 0 <= i < |t.procs| ensures ProcOK(cfg, t, t.procs[i]) {
      if i < |s.procs| && t.procs[i] == s.procs[i] {
        ProcGrows(cfg, s, t, s.procs[i]);
      }
    }
    forall j | 0 <= j < |t.loaders| ensures LoaderOK(cfg, t, t.loaders[j]) {
      if j < |s.loaders| && t.loaders[j] == s.loaders[j] {
        LoaderGrows(cfg, s, t, s.loaders[j]);
      }
    }
    forall r | 0 <= r < |t.returned| ensures ReturnedOK(cfg, t, t.returned[r]) {
      if r < |s.returned| && t.returned[r] == s.returned[r] {
        ReturnedGrows(cfg, s, t, s.returned[r]);
      }
    }
  }

  lemma GotoKeeps<K, V>(cfg: Config<V>, s: State<K, V>, i: nat, p: Proc<K, V>)
    requires Provenance(cfg, s) && i < |s.procs| && ProcOK(cfg, s, p)
    ensures Provenance(cfg, Goto(s, i, p))
  {
  }

  lemma SetItemKeeps<K, V>(cfg: Config<V>, s: State<K, V>, id: nat, it: Item<K, V>)
    requires Provenance(cfg, s) && id < |s.items| && it.key == s.items[id].key && ItemOK(cfg, s, it)
    ensures Provenance(cfg, SetItem(s, id, it)) && Grows(s, SetItem(s, id, it))
  {
    var t := SetItem(s, id, it);
    GenuineGrows(cfg, s, t, it.key, ValueOf(cfg, it));
    GrowsKeeps(cfg, s, t);
  }

  lemma AddItemKeeps<K, V>(cfg: Config<V>, s: State<K, V>, it: Item<K, V>)
    requires Provenance(cfg, s) && it.data.None?
    ensures Provenance(cfg, AddItem(s, it)) && Grows(s, AddItem(s, it)) && Owns(AddItem(s, it), |s.items|, it.key)
  {
  }

  lemma SpawnKeeps<K, V>(cfg: Config<V>, s: State<K, V>, l: Loader<K, V>)
    requires Provenance(cfg, s) && LoaderOK(cfg, s, l)
    ensures Provenance(cfg, Spawn(s, l)) && Grows(s, Spawn(s, l))
  {
  }

  /** The log and the wait cut-offs play no part. */
  lemma AsideKeeps<K, V>(cfg: Config<V>, s: State<K, V>, log: seq<Mark<V>>, statuses: seq<int>)
    requires Provenance(cfg, s)
    ensures Provenance(cfg, s.(log := log, statuses := statuses)) && Grows(s, s.(log := log, statuses := statuses))
  {
  }

  lemma ReturnKeeps<K, V>(cfg: Config<V>, s: State<K, V>, i: nat, r: Returned<K, V>)
    requires Provenance(cfg, s) && i < |s.procs| && ReturnedOK(cfg, s, r)
    ensures Provenance(cfg, Goto(s, i, Resting).(returned := s.returned + [r]))
  {
  }

  lemma CreateKeeps<K, V>(cfg: Config<V>, s: State<K, V>, i: nat)
    requires Provenance(cfg, s) && i < |s.procs| && s.procs[i].GetCreate? && s.procs[i].k !in s.index
    ensures Provenance(cfg, RunGet(cfg, s, i))
  {
    var t := RunGet(cfg, s, i);
    assert Genuine(cfg, t, s.procs[i].k, cfg.zero);
    GrowsKeeps(cfg, s, t);
  }

  lemma ClaimedKeeps<K, V>(cfg: Config<V>, s: State<K, V>, k: K, id: nat, now: int)
    requires Provenance(cfg, s) && Owns(s, id, k)
    ensures Provenance(cfg, Claimed(cfg, s, k, id, now)) && Grows(s, Claimed(cfg, s, k, id, now))
  {
    GrowsKeeps(cfg, s, Claimed(cfg, s, k, id, now));
  }

  lemma ClaimKeeps<K, V>(cfg: Config<V>, s: State<K, V>, i: nat)
    requires Provenance(cfg, s) && i < |s.procs| && s.procs[i].GetSet? && Has(s, s.procs[i].id)
    ensures Provenance(cfg, RunGet(cfg, s, i))
  {
    var k, id, now := s.procs[i].k, s.procs[i].id, s.procs[i].now;
    assert ProcOK(cfg, s, s.procs[i]);
    ClaimedKeeps(cfg, s, k, id, now);
    GotoKeeps(cfg, Claimed(cfg, s, k, id, now), i, GetWait(k, id, now, s.items[id].cutoff, 0));
  }

  lemma TouchKeeps<K, V>(cfg: Config<V>, s: State<K, V>, id: nat, now: int, i: nat, p: Proc<K, V>)
    requires Provenance(cfg, s) && i < |s.procs| && Has(s, id) && ProcOK(cfg, s, p)
    ensures Provenance(cfg, Goto(SetItem(s, id, Touch(cfg, s.items[id], now)), i, p))
  {
    var t := SetItem(s, id, Touch(cfg, s.items[id], now));
    assert ItemOK(cfg, s, s.items[id]);
    SetItemKeeps(cfg, s, id, Touch(cfg, s.items[id], now));
    ProcGrows(cfg, s, t, p);
    GotoKeeps(cfg, t, i, p);
  }

  lemma RunGetKeeps<K, V>(cfg: Config<V>, s: State<K, V>, i: nat)
    requires Provenance(cfg, s) && i < |s.procs| && !InMany(s.procs[i])
    ensures Provenance(cfg, RunGet(cfg, s, i))
  {
    var p := s.procs[i];
    assert ProcOK(cfg, s, p);
    if p.GetTouch? && Has(s, p.id) {
      TouchKeeps(cfg, s, p.id, p.now, i, GetRead(p.k, p.id));
    } else if p.GetSet? && Has(s, p.id) {
      ClaimKeeps(cfg, s, i);
    } else if p.GetRead? && Has(s, p.id) {
      assert ItemOK(cfg, s, s.items[p.id]);
      ReturnKeeps(cfg, s, i, FromGet(p.k, ValueOf(cfg, s.items[p.id])));
    } else if p.GetCreate? && p.k !in s.index {
      CreateKeeps(cfg, s, i);
    } else {
      GotoKeeps(cfg, s, i, RunGet(cfg, s, i).procs[i]);
    }
  }

  lemma NewItemKeeps<K, V>(cfg: Config<V>, s: State<K, V>, i: nat)
    requires Provenance(cfg, s) && i < |s.procs| && s.procs[i].ManyPick? && s.procs[i].miss != []
             && s.procs[i].miss[0] !in s.index
    ensures Provenance(cfg, RunMany(cfg, s, i))
  {
    var p := s.procs[i];
    var it, id := NewItem(cfg, p.miss[0], p.now), |s.items|;
    var s1 := Started(s, id, p.now);
    assert ProcOK(cfg, s, p);
    AsideKeeps(cfg, s, s.log + [Start(id, p.now)], s.statuses);
    AddItemKeeps(cfg, s1, it);
    ProcGrows(cfg, s1, AddItem(s1, it), p);
    GotoKeeps(cfg, AddItem(s1, it), i, ManyPick(p.now, p.miss[1..], p.out, p.pend[p.miss[0] := id], true));
  }

  lemma MarkedKeeps<K, V>(cfg: Config<V>, s: State<K, V>, id: nat, now: int)
    requires Provenance(cfg, s) && Has(s, id)
    ensures Provenance(cfg, Marked(cfg, s, id, now)) && Grows(s, Marked(cfg, s, id, now))
  {
    GrowsKeeps(cfg, s, Marked(cfg, s, id, now));
  }

  lemma LaunchedKeeps<K, V>(cfg: Config<V>, s: State<K, V>, pend: map<K, nat>, now: int)
    requires Provenance(cfg, s) && Bound(s, pend)
    ensures Provenance(cfg, Launched(cfg, s, pend, now)) && Grows(s, Launched(cfg, s, pend, now))
  {
  }

  lemma MarkKeeps<K, V>(cfg: Config<V>, s: State<K, V>, i: nat)
    requires Provenance(cfg, s) && i < |s.procs| && s.procs[i].ManySet? && Has(s, s.procs[i].id)
             && s.procs[i].miss != []
    ensures Provenance(cfg, RunMany(cfg, s, i))
  {
    var p := s.procs[i];
    assert ProcOK(cfg, s, p);
    MarkedKeeps(cfg, s, p.id, p.now);
    ProcGrows(cfg, s, Marked(cfg, s, p.id, p.now), p);
    GotoKeeps(cfg, Marked(cfg, s, p.id, p.now), i,
              ManyPick(p.now, p.miss[1..], p.out, p.pend[p.miss[0] := p.id], p.isNew));
  }

  lemma LaunchKeeps<K, V>(cfg: Config<V>, s: State<K, V>, i: nat)
    requires Provenance(cfg, s) && i < |s.procs| && s.procs[i].ManyGo? && s.procs[i].pend != map[]
    requires cfg.batched || s.procs[i].left == map[]
    ensures Provenance(cfg, RunMany(cfg, s, i))
  {
    var p := s.procs[i];
    var t := Launched(cfg, s, p.pend, p.now);
    assert ProcOK(cfg, s, p);
    LaunchedKeeps(cfg, s, p.pend, p.now);
    ProcGrows(cfg, s, t, p);
    GotoKeeps(cfg, t, i, if p.isNew then ManyWait(p.now, 0, |s.statuses|, p.out, p.pend) else ManyRead(p.pend, p.out));
  }

  lemma ScanKeeps<K, V>(cfg: Config<V>, s: State<K, V>, i: nat)
    requires Provenance(cfg, s) && i < |s.procs| && (s.procs[i].ManyScan? || s.procs[i].ManyPeek?)
    ensures Provenance(cfg, RunMany(cfg, s, i))
  {
    var p := s.procs[i];
    assert ProcOK(cfg, s, p);
    if p.ManyScan? && p.todo != [] && p.todo[0] in s.index && Has(s, s.index[p.todo[0]]) {
      TouchKeeps(cfg, s, s.index[p.todo[0]], p.now, i, ManyPeek(p.now, s.index[p.todo[0]], p.todo, p.out, p.miss));
    } else if p.ManyPeek? && Has(s, p.id) {
      assert ItemOK(cfg, s, s.items[p.id]);
      GotoKeeps(cfg, s, i, RunMany(cfg, s, i).procs[i]);
    } else {
      GotoKeeps(cfg, s, i, RunMany(cfg, s, i).procs[i]);
    }
  }

  lemma CollectKeeps<K, V>(cfg: Config<V>, s: State<K, V>, i: nat)
    requires Provenance(cfg, s) && i < |s.procs| && (s.procs[i].ManyPick? || s.procs[i].ManySet?)
    ensures Provenance(cfg, RunMany(cfg, s, i))
  {
    var p := s.procs[i];
    assert ProcOK(cfg, s, p);
    if p.ManyPick? && p.miss != [] && p.miss[0] !in s.index {
      NewItemKeeps(cfg, s, i);
    } else if p.ManySet? && Has(s, p.id) {
      MarkKeeps(cfg, s, i);
    } else {
      GotoKeeps(cfg, s, i, RunMany(cfg, s, i).procs[i]);
    }
  }

  lemma RunManyKeeps<K, V>(cfg: Config<V>, s: State<K, V>, i: nat)
    requires Provenance(cfg, s) && i < |s.procs| && InMany(s.procs[i])
    ensures Provenance(cfg, RunMany(cfg, s, i))
  {
    var p := s.procs[i];
    if p.ManyScan? || p.ManyPeek? {
      ScanKeeps(cfg, s, i);
    } else if p.ManyPick? || p.ManySet? {
      CollectKeeps(cfg, s, i);
    } else {
      assert ProcOK(cfg, s, p);
      if p.ManyGo? && p.pend != map[] && (cfg.batched || p.left == map[]) {
        LaunchKeeps(cfg, s, i);
      } else if p.ManyRead? && p.left == map[] {
        ReturnKeeps(cfg, s, i, FromGetMany(p.out));
      } else {
        GotoKeeps(cfg, s, i, RunMany(cfg, s, i).procs[i]);
      }
    }
  }

  lemma PickKeeps<K, V>(cfg: Config<V>, s: State<K, V>, i: nat, k: K)
    requires Provenance(cfg, s) && i < |s.procs|
    ensures Provenance(cfg, PickKey(cfg, s, i, k))
  {
    var p := s.procs[i];
    assert ProcOK(cfg, s, p);
    if p.ManyGo? && k in p.left && !cfg.batched {
      SpawnKeeps(cfg, s, LoadOne(k, p.left[k]));
      var q := ManyGo(p.now, p.left - {k}, p.out, p.pend, p.isNew);
      assert ProcOK(cfg, s, q);
      ProcGrows(cfg, s, Spawn(s, LoadOne(k, p.left[k])), q);
      GotoKeeps(cfg, Spawn(s, LoadOne(k, p.left[k])), i, q);
    } else if p.ManyRead? && k in p.left {
      assert ItemOK(cfg, s, s.items[p.left[k]]);
      GotoKeeps(cfg, s, i, ManyRead(p.left - {k}, p.out[k := ValueOf(cfg, s.items[p.left[k]])]));
    } else {
      GotoKeeps(cfg, s, i, PickKey(cfg, s, i, k).procs[i]);
    }
  }

  lemma DeleteKeeps<K, V>(cfg: Config<V>, s: State<K, V>, i: nat, keys: set<K>)
    requires Provenance(cfg, s) && i < |s.procs|
    ensures Provenance(cfg, Goto(s.(index := s.index - keys), i, Resting))
  {
  }

  lemma LoadedKeeps<K, V>(cfg: Config<V>, s: State<K, V>, j: nat, ev: Event<K, V>)
    requires Provenance(cfg, s) && j < |s.loaders| && s.loaders[j].LoadOne? && ev.Loaded?
    ensures Provenance(cfg, LoaderStep(cfg, s, j, ev))
  {
    var t := LoaderStep(cfg, s, j, ev);
    var key := s.loaders[j].k;
    assert LoaderOK(cfg, s, s.loaders[j]);
    assert Gives(t.loads[|s.loads|], key, ev.v);
    assert Drops(cfg, ev.failed) || Genuine(cfg, t, key, ev.v);
    GrowsKeeps(cfg, s, t);
  }

  lemma LoadedBatchKeeps<K, V>(cfg: Config<V>, s: State<K, V>, j: nat, ev: Event<K, V>)
    requires Provenance(cfg, s) && j < |s.loaders| && s.loaders[j].LoadBatch? && ev.LoadedBatch?
    ensures Provenance(cfg, LoaderStep(cfg, s, j, ev))
  {
    var t := LoaderStep(cfg, s, j, ev);
    assert LoaderOK(cfg, s, s.loaders[j]);
    forall k | k in ev.data && !Drops(cfg, ev.failed) ensures Genuine(cfg, t, k, ev.data[k]) {
      assert Gives(t.loads[|s.loads|], k, ev.data[k]);
    }
    GrowsKeeps(cfg, s, t);
  }

  lemma StoreOneKeeps<K, V>(cfg: Config<V>, s: State<K, V>, j: nat, ev: Event<K, V>)
    requires Provenance(cfg, s) && j < |s.loaders| && s.loaders[j].StoreOne? && ev.StoreNext?
    ensures Provenance(cfg, LoaderStep(cfg, s, j, ev))
  {
    var t, l := LoaderStep(cfg, s, j, ev), s.loaders[j];
    assert LoaderOK(cfg, s, l);
    GenuineGrows(cfg, s, t, l.k, l.v);
    GrowsKeeps(cfg, s, t);
  }

  lemma StoreKeyKeeps<K, V>(cfg: Config<V>, s: State<K, V>, j: nat, ev: Event<K, V>)
    requires Provenance(cfg, s) && j < |s.loaders| && s.loaders[j].StoreBatch? && ev.StoreKey?
             && ev.k in s.loaders[j].left
    ensures Provenance(cfg, LoaderStep(cfg, s, j, ev))
  {
    var t, l := LoaderStep(cfg, s, j, ev), s.loaders[j];
    assert LoaderOK(cfg, s, l);
    var v := if ev.k in l.data then l.data[ev.k] else cfg.zero;
    assert Genuine(cfg, s, ev.k, v);
    GenuineGrows(cfg, s, t, ev.k, v);
    OutsGrows(cfg, s, t, l.data);
    GrowsKeeps(cfg, s, t);
  }

  lemma StatusKeeps<K, V>(cfg: Config<V>, s: State<K, V>, j: nat, ev: Event<K, V>)
    requires Provenance(cfg, s) && j < |s.loaders| && s.loaders[j].StoreBatch? && ev.StoreNext?
    ensures Provenance(cfg, LoaderStep(cfg, s, j, ev))
  {
  }

  lemma LoaderKeeps<K, V>(cfg: Config<V>, s: State<K, V>, j: nat, ev: Event<K, V>)
    requires Provenance(cfg, s) && j < |s.loaders|
    ensures Provenance(cfg, LoaderStep(cfg, s, j, ev))
  {
    var l := s.loaders[j];
    if l.LoadOne? && ev.Loaded? {
      LoadedKeeps(cfg, s, j, ev);
    } else if l.LoadBatch? && ev.LoadedBatch? {
      LoadedBatchKeeps(cfg, s, j, ev);
    } else if l.StoreOne? && ev.StoreNext? {
      StoreOneKeeps(cfg, s, j, ev);
    } else if l.StoreBatch? && ev.StoreKey? && ev.k in l.left {
      StoreKeyKeeps(cfg, s, j, ev);
    } else if l.StoreBatch? && ev.StoreNext? {
      StatusKeeps(cfg, s, j, ev);
    }
  }

  lemma {:induction false} StepKeeps<K, V>(cfg: Config<V>, s: State<K, V>, ev: Event<K, V>)
    requires Provenance(cfg, s)
    ensures Provenance(cfg, Apply(cfg, s, ev))
  {
    match ev {
      case Run(i) =>
        if i < |s.procs| {
          if InMany(s.procs[i]) { RunManyKeeps(cfg, s, i); } else { RunGetKeeps(cfg, s, i); }
        }
      case Pick(i, k) => if i < |s.procs| { PickKeeps(cfg, s, i, k); }
      case Delete(i) => if i < |s.procs|
          && s.procs[i].EvictScan? { DeleteKeeps(cfg, s, i, VictimKeys(s, s.procs[i].victims)); }
      case CallGet(i, k, now) => if i < |s.procs| { GotoKeeps(cfg, s, i, GetLookup(k, now)); }
      case CallGetMany(i, keys, now) => if i < |s.procs| { GotoKeeps(cfg, s, i, ManyScan(now, keys, map[], [])); }
      case CallEvict(i, now) => if i < |s.procs| { GotoKeeps(cfg, s, i, EvictScan(now, [])); }
      case Loaded(j, _, _, _) => if j < |s.loaders| { LoaderKeeps(cfg, s, j, ev); }
      case LoadedBatch(j, _, _, _) => if j < |s.loaders| { LoaderKeeps(cfg, s, j, ev); }
      case StoreNext(j) => if j < |s.loaders| { LoaderKeeps(cfg, s, j, ev); }
      case StoreKey(j, _) => if j < |s.loaders| { LoaderKeeps(cfg, s, j, ev); }
    }
  }

  lemma {:induction false} RunsAreGenuine<K, V>(cfg: Config<V>, n: nat, evs: seq<Event<K, V>>)
    ensures Provenance(cfg, Exec(cfg, Begin(n), evs))
  {
    if evs != [] {
      RunsAreGenuine(cfg, n, evs[..|evs| - 1]);
      StepKeeps(cfg, Exec(cfg, Begin(n), evs[..|evs| - 1]), evs[|evs| - 1]);
    }
  }

  /** Whatever Get and GetMany return for a key is the zero value or what a finished load returned
      for that same key, and not a failed load unless failures are cached. */
  lemma {:induction false} ReturnedAreGenuine<K, V>(cfg: Config<V>, n: nat, evs: seq<Event<K, V>>, r: Returned<K, V>)
    requires r in Exec(cfg, Begin(n), evs).returned
    ensures r.FromGet? ==> Genuine(cfg, Exec(cfg, Begin(n), evs), r.k, r.v)
    ensures r.FromGetMany? ==> forall k :: k in r.out ==> Genuine(cfg, Exec(cfg, Begin(n), evs), k, r.out[k])
  {
    RunsAreGenuine(cfg, n, evs);
  }

  /** The value a key has at its source, when the source does not change and failures return the
      zero value or nothing kept. */
  ghost predicate Pure<K, V>(cfg: Config<V>, f: map<K, V>, l: Load<K, V>) {
    Drops(cfg, l.failed) || match l
      case One(k, v, _) => v == cfg.zero || (k in f && f[k] == v)
      case Batch(data, _) => forall k :: k in data ==> data[k] == cfg.zero || (k in f && f[k] == data[k])
  }

  lemma PureGenuine<K, V>(cfg: Config<V>, s: State<K, V>, f: map<K, V>, k: K, v: V)
    requires forall x :: 0 <= x < |s.loads| ==> Pure(cfg, f, s.loads[x])
    requires Genuine(cfg, s, k, v)
    ensures v == cfg.zero || (k in f && v == f[k])
  {
  }

  /** With a source that never changes, every value returned is the zero value or the source's. */
  lemma {:induction false} PureSource<K, V>(
      cfg: Config<V>, n: nat, evs: seq<Event<K, V>>, f: map<K, V>, r: Returned<K, V>)
    requires forall x :: 0 <= x < |Exec(cfg, Begin(n), evs).loads| ==> Pure(cfg, f, Exec(cfg, Begin(n), evs).loads[x])
    requires r in Exec(cfg, Begin(n), evs).returned
    ensures r.FromGet? ==> r.v == cfg.zero || (r.k in f && r.v == f[r.k])
    ensures r.FromGetMany? ==> forall k :: k in r.out ==> r.out[k] == cfg.zero || (k in f && r.out[k] == f[k])
  {
    var s := Exec(cfg, Begin(n), evs);
    ReturnedAreGenuine(cfg, n, evs, r);
    match r {
      case FromGet(k, v) => PureGenuine(cfg, s, f, k, v);
      case FromGetMany(out) =>
        forall k | k in out ensures out[k] == cfg.zero || (k in f && out[k] == f[k]) {
          PureGenuine(cfg, s, f, k, out[k]);
        }
    }
  }
}
