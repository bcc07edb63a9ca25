/** When the loads of an item are a retry interval apart: over every run, and for runs of Get or
    GetMany alone. */
module CacheMapLoads {
  import DataCache
  import opened CacheMap

  function AsMark<V>(m: Mark<V>): DataCache.Mark<V> {
    if m.Start? then DataCache.Start(m.captured) else DataCache.Stored(m.v, m.failed, m.now)
  }

  /** The load starts and completed stores of one item, in DataCache's terms. */
  function Only<V>(log: seq<Mark<V>>, id: nat): (marks: seq<DataCache.Mark<V>>) {
    if log == [] then []
    else
      var m := log[|log| - 1];
      Only(log[..|log| - 1], id) + if m.id == id then [AsMark(m)] else []
  }

  function Timing<V>(cfg: Config<V>): DataCache.Config {
    DataCache.Config(cfg.expiration, cfg.expirationOnErr, cfg.retryInterval, cfg.waitTimeout)
  }

  lemma OnlyMore<V>(log: seq<Mark<V>>, m: Mark<V>, id: nat)
    ensures Only(log + [m], id) == Only(log, id) + if m.id == id then [AsMark(m)] else []
  {
    assert (log + [m])[..|log|] == log;
  }

  /** Two load starts of one item with no completed store between them are a retry interval apart. */
  ghost predicate AllSpaced<V>(cfg: Config<V>, log: seq<Mark<V>>) {
    forall id: nat :: DataCache.Spaced(Timing(cfg), Only(log, id))
  }

  /** The latest thing that happened to the item is a store. */
  predicate LastStored<V>(log: seq<Mark<V>>, id: nat) {
    var marks := Only(log, id);
    marks != [] && marks[|marks| - 1].Stored?
  }

  /** The event writes a claimed item's next update time. */
  predicate Writes<K, V>(s: State<K, V>, ev: Event<K, V>) {
    && ev.Run? && ev.i < |s.procs|
    && (s.procs[ev.i].GetSet? || (s.procs[ev.i].ManySet? && s.procs[ev.i].miss != []))
    && Has(s, s.procs[ev.i].id)
  }

  /** Such a write finds the item still due, or stored since its last start. */
  predicate Guarded<K, V>(s: State<K, V>, ev: Event<K, V>) {
    Writes(s, ev) ==>
      s.items[s.procs[ev.i].id].next <= s.procs[ev.i].now || LastStored(s.log, s.procs[ev.i].id)
  }

  // ----- one step

  /** Every item has marks, the last of which decides its next update time if it is a start. */
  ghost predicate Recorded<K, V>(cfg: Config<V>, log: seq<Mark<V>>, items: seq<Item<K, V>>) {
    forall id: nat ::
      if id < |items| then Only(log, id) != [] && DataCache.Decided(Timing(cfg), Only(log, id), items[id].next)
      else Only(log, id) == []
  }

  /** The step keeps the record, and keeps the loads spaced exactly if `ok`. */
  ghost predicate KeepsIf<K, V>(cfg: Config<V>, s: State<K, V>, t: State<K, V>, ok: bool) {
    Recorded(cfg, t.log, t.items) && (AllSpaced(cfg, t.log) <==> AllSpaced(cfg, s.log) && ok)
  }

  lemma SpacedElsewhere<V>(cfg: Config<V>, log: seq<Mark<V>>, m: Mark<V>, id: nat)
    requires id != m.id
    ensures DataCache.Spaced(Timing(cfg), Only(log + [m], id)) <==> DataCache.Spaced(Timing(cfg), Only(log, id))
  {
    OnlyMore(log, m, id);
    assert Only(log + [m], id) == Only(log, id);
  }

  lemma MarkSpaced<K, V>(cfg: Config<V>, log: seq<Mark<V>>, items: seq<Item<K, V>>, m: Mark<V>)
    requires Recorded(cfg, log, items) && cfg.retryInterval > 0
    ensures AllSpaced(cfg, log + [m]) <==>
            AllSpaced(cfg, log) && (m.Stored? || m.id >= |items| || LastStored(log, m.id)
                                    || items[m.id].next <= m.captured)
  {
    var ok := m.Stored? || m.id >= |items| || LastStored(log, m.id) || items[m.id].next <= m.captured;
    OnlyMore(log, m, m.id);
    DataCache.SpacedIff(Timing(cfg), Only(log, m.id), if m.id < |items| then items[m.id].next else 0, AsMark(m));
    if AllSpaced(cfg, log + [m]) {
      forall id: nat ensures DataCache.Spaced(Timing(cfg), Only(log, id)) {
        assert DataCache.Spaced(Timing(cfg), Only(log + [m], id));
        if id != m.id {
          SpacedElsewhere(cfg, log, m, id);
        }
      }
      assert DataCache.Spaced(Timing(cfg), Only(log + [m], m.id));
    } else if AllSpaced(cfg, log) && ok {
      forall id: nat ensures DataCache.Spaced(Timing(cfg), Only(log + [m], id)) {
        assert DataCache.Spaced(Timing(cfg), Only(log, id));
        if id != m.id {
          SpacedElsewhere(cfg, log, m, id);
        }
      }
    }
  }

  lemma MarkRecorded<K, V>(
      cfg: Config<V>, log: seq<Mark<V>>, items: seq<Item<K, V>>, m: Mark<V>, items': seq<Item<K, V>>)
    requires Recorded(cfg, log, items) && |items| <= |items'| <= |items| + 1 && m.id < |items'|
    requires |items'| > |items| ==> m.id == |items|
    requires forall id :: 0 <= id < |items| && id != m.id ==> items'[id].next == items[id].next
    requires m.Start? ==> items'[m.id].next == m.captured + cfg.retryInterval
    ensures Recorded(cfg, log + [m], items')
  {
    forall id: nat
      ensures if id < |items'| then Only(log + [m], id) != []
              && DataCache.Decided(Timing(cfg), Only(log + [m], id), items'[id].next)
              else Only(log + [m], id) == []
    {
      OnlyMore(log, m, id);
    }
  }

  /** A step that adds one mark. */
  lemma MarkKeepsIf<K, V>(cfg: Config<V>, s: State<K, V>, t: State<K, V>, m: Mark<V>)
    requires Recorded(cfg, s.log, s.items) && cfg.retryInterval > 0 && t.log == s.log + [m]
    requires |s.items| <= |t.items| <= |s.items| + 1 && m.id < |t.items|
             && (|t.items| > |s.items| ==> m.id == |s.items|)
    requires forall id :: 0 <= id < |s.items| && id != m.id ==> t.items[id].next == s.items[id].next
    requires m.Start? ==> t.items[m.id].next == m.captured + cfg.retryInterval
    ensures KeepsIf(cfg, s, t, m.Stored? || m.id >= |s.items| || LastStored(s.log, m.id)
                    || s.items[m.id].next <= m.captured)
  {
    MarkSpaced(cfg, s.log, s.items, m);
    MarkRecorded(cfg, s.log, s.items, m, t.items);
  }

  /** A step that adds none. */
  lemma SameKeepsIf<K, V>(cfg: Config<V>, s: State<K, V>, t: State<K, V>)
    requires Recorded(cfg, s.log, s.items) && t.log == s.log && |t.items| == |s.items|
    requires forall id :: 0 <= id < |s.items| ==> t.items[id].next == s.items[id].next
    ensures KeepsIf(cfg, s, t, true)
  {
  }

  lemma GetNewKeepsIf<K, V>(cfg: Config<V>, s: State<K, V>, i: nat)
    requires Recorded(cfg, s.log, s.items) && cfg.retryInterval > 0 && i < |s.procs|
    requires s.procs[i].GetCreate? && s.procs[i].k !in s.index
    ensures KeepsIf(cfg, s, RunGet(cfg, s, i), true)
  {
    MarkKeepsIf(cfg, s, RunGet(cfg, s, i), Start(|s.items|, s.procs[i].now));
  }

  lemma GetSetKeepsIf<K, V>(cfg: Config<V>, s: State<K, V>, i: nat)
    requires Recorded(cfg, s.log, s.items) && cfg.retryInterval > 0 && i < |s.procs|
    requires s.procs[i].GetSet? && Has(s, s.procs[i].id)
    ensures KeepsIf(cfg, s, RunGet(cfg, s, i), Guarded(s, Run(i)))
  {
    MarkKeepsIf(cfg, s, RunGet(cfg, s, i), Start(s.procs[i].id, s.procs[i].now));
  }

  lemma GetElseKeepsIf<K, V>(cfg: Config<V>, s: State<K, V>, i: nat)
    requires Recorded(cfg, s.log, s.items) && i < |s.procs|
    requires !(s.procs[i].GetCreate? && s.procs[i].k !in s.index)
    requires !(s.procs[i].GetSet? && Has(s, s.procs[i].id))
    ensures KeepsIf(cfg, s, RunGet(cfg, s, i), true)
  {
    SameKeepsIf(cfg, s, RunGet(cfg, s, i));
  }

  lemma GetKeepsIf<K, V>(cfg: Config<V>, s: State<K, V>, i: nat)
    requires Recorded(cfg, s.log, s.items) && cfg.retryInterval > 0 && i < |s.procs| && !InMany(s.procs[i])
    ensures KeepsIf(cfg, s, RunGet(cfg, s, i), Guarded(s, Run(i)))
  {
    var p := s.procs[i];
    if p.GetCreate? && p.k !in s.index {
      GetNewKeepsIf(cfg, s, i);
    } else if p.GetSet? && Has(s, p.id) {
      GetSetKeepsIf(cfg, s, i);
    } else {
      GetElseKeepsIf(cfg, s, i);
    }
  }

  lemma ManyNewKeepsIf<K, V>(cfg: Config<V>, s: State<K, V>, i: nat)
    requires Recorded(cfg, s.log, s.items) && cfg.retryInterval > 0 && i < |s.procs|
    requires s.procs[i].ManyPick? && s.procs[i].miss != [] && s.procs[i].miss[0] !in s.index
    ensures KeepsIf(cfg, s, RunMany(cfg, s, i), true)
  {
    MarkKeepsIf(cfg, s, RunMany(cfg, s, i), Start(|s.items|, s.procs[i].now));
  }

  lemma ManySetKeepsIf<K, V>(cfg: Config<V>, s: State<K, V>, i: nat)
    requires Recorded(cfg, s.log, s.items) && cfg.retryInterval > 0 && i < |s.procs|
    requires s.procs[i].ManySet? && Has(s, s.procs[i].id) && s.procs[i].miss != []
    ensures KeepsIf(cfg, s, RunMany(cfg, s, i), Guarded(s, Run(i)))
  {
    MarkKeepsIf(cfg, s, RunMany(cfg, s, i), Start(s.procs[i].id, s.procs[i].now));
  }

  lemma ManyElseKeepsIf<K, V>(cfg: Config<V>, s: State<K, V>, i: nat)
    requires Recorded(cfg, s.log, s.items) && i < |s.procs|
    requires !(s.procs[i].ManyPick? && s.procs[i].miss != [] && s.procs[i].miss[0] !in s.index)
    requires !(s.procs[i].ManySet? && Has(s, s.procs[i].id) && s.procs[i].miss != [])
    ensures KeepsIf(cfg, s, RunMany(cfg, s, i), true)
  {
    SameKeepsIf(cfg, s, RunMany(cfg, s, i));
  }

  lemma ManyKeepsIf<K, V>(cfg: Config<V>, s: State<K, V>, i: nat)
    requires Recorded(cfg, s.log, s.items) && cfg.retryInterval > 0 && i < |s.procs| && InMany(s.procs[i])
    ensures KeepsIf(cfg, s, RunMany(cfg, s, i), Guarded(s, Run(i)))
  {
    var p := s.procs[i];
    if p.ManyPick? && p.miss != [] && p.miss[0] !in s.index {
      ManyNewKeepsIf(cfg, s, i);
    } else if p.ManySet? && Has(s, p.id) && p.miss != [] {
      ManySetKeepsIf(cfg, s, i);
    } else {
      ManyElseKeepsIf(cfg, s, i);
    }
  }

  lemma LoaderKeepsIf<K, V>(cfg: Config<V>, s: State<K, V>, j: nat, ev: Event<K, V>)
    requires Recorded(cfg, s.log, s.items) && cfg.retryInterval > 0 && j < |s.loaders|
    ensures KeepsIf(cfg, s, LoaderStep(cfg, s, j, ev), true)
  {
    var l, t := s.loaders[j], LoaderStep(cfg, s, j, ev);
    if l.StoreOne? && ev.StoreNext? && Has(s, l.id) {
      MarkKeepsIf(cfg, s, t, Stored(l.id, l.v, l.failed, l.now));
    } else if l.StoreBatch? && ev.StoreKey? && ev.k in l.left && Has(s, l.left[ev.k]) {
      MarkKeepsIf(cfg, s, t, t.log[|s.log|]);
    } else {
      SameKeepsIf(cfg, s, t);
    }
  }

  lemma PickKeepsIf<K, V>(cfg: Config<V>, s: State<K, V>, i: nat, k: K)
    requires Recorded(cfg, s.log, s.items) && i < |s.procs|
    ensures KeepsIf(cfg, s, PickKey(cfg, s, i, k), true)
  {
    SameKeepsIf(cfg, s, PickKey(cfg, s, i, k));
  }

  lemma {:induction false} StepKeepsIf<K, V>(cfg: Config<V>, s: State<K, V>, ev: Event<K, V>)
    requires Recorded(cfg, s.log, s.items) && cfg.retryInterval > 0
    ensures KeepsIf(cfg, s, Apply(cfg, s, ev), Guarded(s, ev))
  {
    match ev {
      case Run(i) =>
        if i < |s.procs| {
          if InMany(s.procs[i]) { ManyKeepsIf(cfg, s, i); } else { GetKeepsIf(cfg, s, i); }
        }
      case Pick(i, k) => if i < |s.procs| { PickKeepsIf(cfg, s, i, k); }
      case Loaded(j, _, _, _) => if j < |s.loaders| { LoaderKeepsIf(cfg, s, j, ev); }
      case LoadedBatch(j, _, _, _) => if j < |s.loaders| { LoaderKeepsIf(cfg, s, j, ev); }
      case StoreNext(j) => if j < |s.loaders| { LoaderKeepsIf(cfg, s, j, ev); }
      case StoreKey(j, _) => if j < |s.loaders| { LoaderKeepsIf(cfg, s, j, ev); }
      case _ => SameKeepsIf(cfg, s, Apply(cfg, s, ev));
    }
  }

  // ----- every run

  /** Every claiming write of the run met its guard. */
  ghost predicate AllGuarded<K, V>(cfg: Config<V>, n: nat, evs: seq<Event<K, V>>) {
    evs != [] ==>
      var init := evs[..|evs| - 1];
      AllGuarded(cfg, n, init) && Guarded(Exec(cfg, Begin(n), init), evs[|evs| - 1])
  }

  /** Over every run of Gets, GetManys, evictions and loads: two load starts of one item without a
      completed store between them are always a retry interval apart if and only if every claim,
      when it writes the next update time, finds the item due or stored since its last start. */
  lemma {:induction false} LoadsAreSpacedIff<K, V>(cfg: Config<V>, n: nat, evs: seq<Event<K, V>>)
    requires cfg.retryInterval > 0
    ensures Recorded(cfg, Exec(cfg, Begin<K, V>(n), evs).log, Exec(cfg, Begin<K, V>(n), evs).items)
    ensures AllSpaced(cfg, Exec(cfg, Begin<K, V>(n), evs).log) <==> AllGuarded(cfg, n, evs)
  {
    if evs == [] {
      assert forall id: nat :: Only<V>([], id) == [];
    } else {
      var init := evs[..|evs| - 1];
      LoadsAreSpacedIff(cfg, n, init);
      StepKeepsIf(cfg, Exec(cfg, Begin(n), init), evs[|evs| - 1]);
    }
  }

  // ----- runs of one kind

  ghost predicate NoGetMany<K, V>(evs: seq<Event<K, V>>) {
    forall x :: 0 <= x < |evs| ==> !evs[x].CallGetMany?
  }

  ghost predicate NoGet<K, V>(evs: seq<Event<K, V>>) {
    forall x :: 0 <= x < |evs| ==> !evs[x].CallGet?
  }

  /** Who holds an item's lock to claim it finds it due, and nobody else holds it. */
  ghost predicate GetsOnly<K, V>(s: State<K, V>) {
    && (forall i :: 0 <= i < |s.procs| ==> !InMany(s.procs[i]))
    && (forall k :: k in s.index ==> Has(s, s.index[k]))
    && (forall i :: 0 <= i < |s.procs| && s.procs[i].GetSet? ==>
          Has(s, s.procs[i].id) && s.items[s.procs[i].id].next < s.procs[i].now)
    && (forall i, j ::
          0 <= i < |s.procs| && 0 <= j < |s.procs| && i != j && s.procs[i].GetSet? && s.procs[j].GetSet? ==>
            s.procs[i].id != s.procs[j].id)
  }

  /** A goroutine moves, and an item may be added. */
  lemma GetsOnlyMove<K, V>(s: State<K, V>, t: State<K, V>, i: nat, q: Proc<K, V>)
    requires GetsOnly(s) && i < |s.procs| && t.procs == s.procs[i := q] && s.items <= t.items
    requires forall k :: k in t.index ==> Has(t, t.index[k])
    requires !InMany(q)
    requires q.GetSet? ==> q == s.procs[i] || (Has(s, q.id) && s.items[q.id].next < q.now && !ItemBusy(s, q.id))
    ensures GetsOnly(t)
  {
    assert q.GetSet? && q != s.procs[i] ==> forall j :: 0 <= j < |s.procs| ==> !HoldsItem(s.procs[j], q.id);
  }

  /** The claim itself moves one item's next update time; nobody else has claimed that item. */
  lemma GetsOnlyClaim<K, V>(s: State<K, V>, t: State<K, V>, i: nat, q: Proc<K, V>, it: Item<K, V>)
    requires GetsOnly(s) && i < |s.procs| && s.procs[i].GetSet? && Has(s, s.procs[i].id)
    requires t.procs == s.procs[i := q] && t.items == s.items[s.procs[i].id := it] && t.index == s.index
    requires !InMany(q) && !q.GetSet?
    ensures GetsOnly(t)
  {
  }

  lemma GetsOnlyRun<K, V>(cfg: Config<V>, s: State<K, V>, i: nat)
    requires GetsOnly(s) && i < |s.procs| && !Blocked(s, s.procs[i])
    ensures GetsOnly(RunGet(cfg, s, i))
  {
    var p, t := s.procs[i], RunGet(cfg, s, i);
    if p.GetSet? && Has(s, p.id) {
      GetsOnlyClaim(s, t, i, t.procs[i], s.items[p.id].(next := p.now + cfg.retryInterval));
    } else if p.GetTouch? && Has(s, p.id) {
      GetsOnlyTouch(s, t, i, t.procs[i], p.id);
    } else {
      GetsOnlyMove(s, t, i, t.procs[i]);
    }
  }

  lemma GetsOnlyTouch<K, V>(s: State<K, V>, t: State<K, V>, i: nat, q: Proc<K, V>, id: nat)
    requires GetsOnly(s) && i < |s.procs| && Has(s, id) && |t.items| == |s.items| && t.index == s.index
    requires t.procs == s.procs[i := q] && !InMany(q) && !q.GetSet?
    requires forall x :: 0 <= x < |s.items| ==> t.items[x].next == s.items[x].next
    ensures GetsOnly(t)
  {
  }

  lemma GetsOnlyStore<K, V>(cfg: Config<V>, s: State<K, V>, j: nat, ev: Event<K, V>)
    requires GetsOnly(s) && j < |s.loaders| && !StoreBlocked(s, s.loaders[j], ev)
    ensures GetsOnly(LoaderStep(cfg, s, j, ev))
  {
    var l, t := s.loaders[j], LoaderStep(cfg, s, j, ev);
    if l.StoreOne? {
      assert forall i :: 0 <= i < |s.procs| ==> !HoldsItem(s.procs[i], l.id);
    } else if l.StoreBatch? && ev.StoreKey? && ev.k in l.left {
      assert forall i :: 0 <= i < |s.procs| ==> !HoldsItem(s.procs[i], l.left[ev.k]);
    }
  }

  lemma GetsOnlyOther<K, V>(cfg: Config<V>, s: State<K, V>, ev: Event<K, V>)
    requires GetsOnly(s) && (ev.CallGet? || ev.CallEvict? || ev.Delete? || ev.Pick?)
    ensures GetsOnly(Apply(cfg, s, ev))
  {
    if ev.i < |s.procs| {
      GetsOnlyMove(s, Apply(cfg, s, ev), ev.i, Apply(cfg, s, ev).procs[ev.i]);
    }
  }

  lemma {:induction false} GetsOnlyStep<K, V>(cfg: Config<V>, s: State<K, V>, ev: Event<K, V>)
    requires GetsOnly(s) && !ev.CallGetMany?
    ensures Guarded(s, ev) && GetsOnly(Apply(cfg, s, ev))
  {
    match ev {
      case Run(i) => if i < |s.procs| && !Blocked(s, s.procs[i]) { GetsOnlyRun(cfg, s, i); }
      case Loaded(j, _, _, _) => if j < |s.loaders| && s.loaders[j].LoadOne? { GetsOnlyStore(cfg, s, j, ev); }
      case LoadedBatch(j, _, _, _) => if j < |s.loaders| && s.loaders[j].LoadBatch? { GetsOnlyStore(cfg, s, j, ev); }
      case StoreNext(j) => if j < |s.loaders| && !StoreBlocked(s, s.loaders[j], ev) { GetsOnlyStore(cfg, s, j, ev); }
      case StoreKey(j, _) => if j < |s.loaders| && !StoreBlocked(s, s.loaders[j], ev) { GetsOnlyStore(cfg, s, j, ev); }
      case CallGet(_, _, _) => GetsOnlyOther(cfg, s, ev);
      case CallEvict(_, _) => GetsOnlyOther(cfg, s, ev);
      case Delete(_) => GetsOnlyOther(cfg, s, ev);
      case Pick(_, _) => GetsOnlyOther(cfg, s, ev);
    }
  }

  lemma {:induction false} GetRunsGuarded<K, V>(cfg: Config<V>, n: nat, evs: seq<Event<K, V>>)
    requires NoGetMany(evs)
    ensures GetsOnly(Exec(cfg, Begin(n), evs)) && AllGuarded(cfg, n, evs)
  {
    if evs != [] {
      var init := evs[..|evs| - 1];
      assert NoGetMany(init);
      GetRunsGuarded(cfg, n, init);
      GetsOnlyStep(cfg, Exec(cfg, Begin(n), init), evs[|evs| - 1]);
    }
  }

  /** A GetMany about to write found the item due, or the item was stored since; only one holds the
      map's lock. */
  ghost predicate ManysOnly<K, V>(s: State<K, V>) {
    && (forall i :: 0 <= i < |s.procs| ==> InMany(s.procs[i]) || s.procs[i].Resting? || s.procs[i].EvictScan?)
    && (forall i :: 0 <= i < |s.procs| && s.procs[i].ManySet? ==>
          Has(s, s.procs[i].id) && (s.items[s.procs[i].id].next < s.procs[i].now || LastStored(s.log, s.procs[i].id)))
    && (forall i, j :: 0 <= i < |s.procs| && 0 <= j < |s.procs| && i != j ==>
        !HoldsMap(s.procs[i]) || !HoldsMap(s.procs[j]))
  }

  lemma LastStoredMore<V>(log: seq<Mark<V>>, m: Mark<V>, id: nat)
    ensures LastStored(log + [m], id) <==> if m.id == id then m.Stored? else LastStored(log, id)
  {
    OnlyMore(log, m, id);
    assert m.id != id ==> Only(log + [m], id) == Only(log, id);
  }

  /** A goroutine moves; next update times stay, or one moves that nobody is about to write. */
  lemma ManysOnlyMove<K, V>(s: State<K, V>, t: State<K, V>, i: nat, q: Proc<K, V>)
    requires ManysOnly(s) && i < |s.procs| && t.procs == s.procs[i := q]
    requires InMany(q) || q.Resting? || q.EvictScan?
    requires HoldsMap(q) ==> HoldsMap(s.procs[i]) || !MapBusy(s)
    requires q.ManySet? ==> Has(t, q.id) && (t.items[q.id].next < q.now || LastStored(t.log, q.id))
    requires (|t.items| == |s.items| && t.log == s.log && forall x :: 0 <= x < |s.items| ==>
              t.items[x].next == s.items[x].next)
             || HoldsMap(s.procs[i])
    ensures ManysOnly(t)
  {
    if HoldsMap(q) && !HoldsMap(s.procs[i]) {
      assert forall j :: 0 <= j < |s.procs| ==> !HoldsMap(s.procs[j]);
    }
  }

  /** Before and after the second pass. */
  lemma ManysOnlyOutside<K, V>(cfg: Config<V>, s: State<K, V>, i: nat)
    requires ManysOnly(s) && i < |s.procs| && InMany(s.procs[i]) && !Blocked(s, s.procs[i]) && !HoldsMap(s.procs[i])
    ensures ManysOnly(RunMany(cfg, s, i))
  {
    ManysOnlyMove(s, RunMany(cfg, s, i), i, RunMany(cfg, s, i).procs[i]);
  }

  lemma ManysOnlyInside<K, V>(cfg: Config<V>, s: State<K, V>, i: nat)
    requires ManysOnly(s) && i < |s.procs| && HoldsMap(s.procs[i])
    ensures ManysOnly(RunMany(cfg, s, i))
  {
    ManysOnlyMove(s, RunMany(cfg, s, i), i, RunMany(cfg, s, i).procs[i]);
  }

  lemma ManysOnlyRun<K, V>(cfg: Config<V>, s: State<K, V>, i: nat)
    requires ManysOnly(s) && i < |s.procs| && InMany(s.procs[i]) && !Blocked(s, s.procs[i])
    ensures ManysOnly(RunMany(cfg, s, i))
  {
    if HoldsMap(s.procs[i]) { ManysOnlyInside(cfg, s, i); } else { ManysOnlyOutside(cfg, s, i); }
  }

  lemma ManysOnlyLoader<K, V>(cfg: Config<V>, s: State<K, V>, j: nat, ev: Event<K, V>)
    requires ManysOnly(s) && j < |s.loaders|
    ensures ManysOnly(LoaderStep(cfg, s, j, ev))
  {
    var t := LoaderStep(cfg, s, j, ev);
    if t.log != s.log {
      var m := t.log[|s.log|];
      assert t.log == s.log + [m];
      forall i | 0 <= i < |s.procs| && s.procs[i].ManySet?
        ensures t.items[s.procs[i].id].next < s.procs[i].now || LastStored(t.log, s.procs[i].id)
      {
        LastStoredMore(s.log, m, s.procs[i].id);
      }
    }
  }

  lemma ManysOnlyOther<K, V>(cfg: Config<V>, s: State<K, V>, ev: Event<K, V>)
    requires ManysOnly(s) && (ev.CallGetMany? || ev.CallEvict? || ev.Delete? || ev.Pick?)
    ensures ManysOnly(Apply(cfg, s, ev))
  {
    if ev.i < |s.procs| {
      ManysOnlyMove(s, Apply(cfg, s, ev), ev.i, Apply(cfg, s, ev).procs[ev.i]);
    }
  }

  lemma {:induction false} ManysOnlyStep<K, V>(cfg: Config<V>, s: State<K, V>, ev: Event<K, V>)
    requires ManysOnly(s) && !ev.CallGet?
    ensures Guarded(s, ev) && ManysOnly(Apply(cfg, s, ev))
  {
    match ev {
      case Run(i) => if i < |s.procs| && InMany(s.procs[i]) && !Blocked(s, s.procs[i]) { ManysOnlyRun(cfg, s, i); }
      case Loaded(j, _, _, _) => if j < |s.loaders| { ManysOnlyLoader(cfg, s, j, ev); }
      case LoadedBatch(j, _, _, _) => if j < |s.loaders| { ManysOnlyLoader(cfg, s, j, ev); }
      case StoreNext(j) => if j < |s.loaders| { ManysOnlyLoader(cfg, s, j, ev); }
      case StoreKey(j, _) => if j < |s.loaders| { ManysOnlyLoader(cfg, s, j, ev); }
      case CallGetMany(_, _, _) => ManysOnlyOther(cfg, s, ev);
      case CallEvict(_, _) => ManysOnlyOther(cfg, s, ev);
      case Delete(_) => ManysOnlyOther(cfg, s, ev);
      case Pick(_, _) => ManysOnlyOther(cfg, s, ev);
    }
  }

  lemma {:induction false} ManyRunsGuarded<K, V>(cfg: Config<V>, n: nat, evs: seq<Event<K, V>>)
    requires NoGet(evs)
    ensures ManysOnly(Exec(cfg, Begin(n), evs)) && AllGuarded(cfg, n, evs)
  {
    if evs != [] {
      var init := evs[..|evs| - 1];
      assert NoGet(init);
      ManyRunsGuarded(cfg, n, init);
      ManysOnlyStep(cfg, Exec(cfg, Begin(n), init), evs[|evs| - 1]);
    }
  }

  /** So in runs that use only Get, and in runs that use only GetMany, with any loads and evictions,
      every item's loads are spaced. */
  lemma ItemLoadsAreSpaced<K, V>(cfg: Config<V>, n: nat, evs: seq<Event<K, V>>)
    requires cfg.retryInterval > 0 && (NoGetMany(evs) || NoGet(evs))
    ensures AllSpaced(cfg, Exec(cfg, Begin<K, V>(n), evs).log)
  {
    if NoGetMany(evs) {
      GetRunsGuarded(cfg, n, evs);
    } else {
      ManyRunsGuarded(cfg, n, evs);
    }
    LoadsAreSpacedIff(cfg, n, evs);
  }

  // ----- a source that always fails

  ghost predicate AlwaysFails<K, V>(evs: seq<Event<K, V>>) {
    forall x :: 0 <= x < |evs| ==> (evs[x].Loaded? ==> evs[x].failed) && (evs[x].LoadedBatch? ==> evs[x].failed)
  }

  ghost predicate NothingStored<K, V>(s: State<K, V>) {
    && (forall x :: 0 <= x < |s.log| ==> s.log[x].Start?)
    && (forall j :: 0 <= j < |s.loaders| ==> !s.loaders[j].StoreOne? && !s.loaders[j].StoreBatch?)
  }

  lemma GetStoresNothing<K, V>(cfg: Config<V>, s: State<K, V>, i: nat)
    requires NothingStored(s) && i < |s.procs|
    ensures NothingStored(RunGet(cfg, s, i))
  {
  }

  lemma GetManyStoresNothing<K, V>(cfg: Config<V>, s: State<K, V>, i: nat)
    requires NothingStored(s) && i < |s.procs|
    ensures NothingStored(RunMany(cfg, s, i))
  {
  }

  lemma LoaderStoresNothing<K, V>(cfg: Config<V>, s: State<K, V>, j: nat, ev: Event<K, V>)
    requires NothingStored(s) && j < |s.loaders| && cfg.expirationOnErr <= 0
    requires (ev.Loaded? ==> ev.failed) && (ev.LoadedBatch? ==> ev.failed)
    ensures NothingStored(LoaderStep(cfg, s, j, ev))
  {
  }

  lemma {:induction false} StepStoresNothing<K, V>(cfg: Config<V>, s: State<K, V>, ev: Event<K, V>)
    requires NothingStored(s) && cfg.expirationOnErr <= 0
    requires (ev.Loaded? ==> ev.failed) && (ev.LoadedBatch? ==> ev.failed)
    ensures NothingStored(Apply(cfg, s, ev))
  {
    match ev {
      case Run(i) => if i < |s.procs| { GetStoresNothing(cfg, s, i); GetManyStoresNothing(cfg, s, i); }
      case Loaded(j, _, _, _) => if j < |s.loaders| { LoaderStoresNothing(cfg, s, j, ev); }
      case LoadedBatch(j, _, _, _) => if j < |s.loaders| { LoaderStoresNothing(cfg, s, j, ev); }
      case StoreNext(j) => if j < |s.loaders| { LoaderStoresNothing(cfg, s, j, ev); }
      case StoreKey(j, _) => if j < |s.loaders| { LoaderStoresNothing(cfg, s, j, ev); }
      case _ =>
    }
  }

  lemma {:induction false} FailuresStoreNothing<K, V>(cfg: Config<V>, n: nat, evs: seq<Event<K, V>>)
    requires AlwaysFails(evs) && cfg.expirationOnErr <= 0
    ensures NothingStored(Exec(cfg, Begin(n), evs))
  {
    if evs != [] {
      var init, ev := evs[..|evs| - 1], evs[|evs| - 1];
      assert AlwaysFails(init);
      FailuresStoreNothing(cfg, n, init);
      StepStoresNothing(cfg, Exec(cfg, Begin(n), init), ev);
    }
  }

  lemma {:induction false} OnlyStarts<V>(log: seq<Mark<V>>, id: nat)
    requires forall x :: 0 <= x < |log| ==> log[x].Start?
    ensures DataCache.NoStores(Only(log, id))
  {
    if log != [] {
      OnlyStarts(log[..|log| - 1], id);
    }
  }

  /** A source that always fails, with failures not cached, is called for one item at most
      (b - a)/retryInterval + 1 times for captured times in [a, b]: in every run of one kind of call,
      and in every other run whose claims met their guards. */
  lemma FailingItemIsThrottled<K, V>(cfg: Config<V>, n: nat, evs: seq<Event<K, V>>, id: nat, a: int, b: int)
    requires cfg.retryInterval > 0 && cfg.expirationOnErr <= 0 && AlwaysFails(evs) && a <= b
    requires NoGetMany(evs) || NoGet(evs) || AllGuarded(cfg, n, evs)
    ensures DataCache.StartsIn(Only(Exec(cfg, Begin<K, V>(n), evs).log, id), a, b) <= (b - a) / cfg.retryInterval + 1
  {
    var log := Exec(cfg, Begin<K, V>(n), evs).log;
    RunIsSpaced(cfg, n, evs);
    FailuresStoreNothing(cfg, n, evs);
    WindowIsThrottled(cfg, log, id, a, b);
  }

  lemma RunIsSpaced<K, V>(cfg: Config<V>, n: nat, evs: seq<Event<K, V>>)
    requires cfg.retryInterval > 0 && (NoGetMany(evs) || NoGet(evs) || AllGuarded(cfg, n, evs))
    ensures AllSpaced(cfg, Exec(cfg, Begin<K, V>(n), evs).log)
  {
    if NoGetMany(evs) || NoGet(evs) {
      ItemLoadsAreSpaced(cfg, n, evs);
    } else {
      LoadsAreSpacedIff(cfg, n, evs);
    }
  }

  lemma WindowIsThrottled<V>(cfg: Config<V>, log: seq<Mark<V>>, id: nat, a: int, b: int)
    requires cfg.retryInterval > 0 && AllSpaced(cfg, log) && a <= b
    requires forall x :: 0 <= x < |log| ==> log[x].Start?
    ensures DataCache.StartsIn(Only(log, id), a, b) <= (b - a) / cfg.retryInterval + 1
  {
    OnlyStarts(log, id);
    DataCache.StartsPerWindow(Timing(cfg), Only(log, id), a, b);
  }
}
