/** What an item holds, from its load starts and completed stores alone: over every run the value of
    its last store, due from its latest start or store on, and waited for no longer than until one. */
module CacheMapContents {
  import DataCache
  import opened CacheMap
  import opened CacheMapLoads

  type Marks<V> = seq<DataCache.Mark<V>>

  /** The creation's clock plus waitTimeout, lowered by every store. */
  function CutAt<V>(cfg: Config<V>, marks: Marks<V>): int {
    if marks == [] then 0
    else
      var last, before := marks[|marks| - 1], marks[..|marks| - 1];
      match last
      case Start(captured) => if before == [] then captured + cfg.waitTimeout else CutAt(cfg, before)
      case Stored(_, _, now) => if now < CutAt(cfg, before) then now else CutAt(cfg, before)
  }

  ghost predicate ItemHolds<K, V>(cfg: Config<V>, marks: Marks<V>, it: Item<K, V>) {
    && marks != []
    && (if it.data.None? then cfg.zero else it.data.value) == DataCache.LastValue(marks, cfg.zero)
    && it.next == DataCache.DueAt(Timing(cfg), marks)
    && it.cutoff == CutAt(cfg, marks)
  }

  ghost predicate Held<K, V>(cfg: Config<V>, log: seq<Mark<V>>, items: seq<Item<K, V>>) {
    forall id: nat ::
      if id < |items| then ItemHolds(cfg, Only(log, id), items[id]) else Only(log, id) == []
  }

  /** The same but for accesses. */
  ghost predicate SameContents<K, V>(a: Item<K, V>, b: Item<K, V>) {
    a.data == b.data && a.next == b.next && a.cutoff == b.cutoff
  }

  // ----- one step

  lemma CreatedHolds<K, V>(cfg: Config<V>, k: K, now: int)
    ensures ItemHolds(cfg, [DataCache.Start(now)], NewItem(cfg, k, now))
  {
  }

  lemma StartedHolds<K, V>(cfg: Config<V>, marks: Marks<V>, it: Item<K, V>, now: int)
    requires ItemHolds(cfg, marks, it)
    ensures ItemHolds(cfg, marks + [DataCache.Start(now)], it.(next := now + cfg.retryInterval))
  {
    assert (marks + [DataCache.Start(now)])[..|marks|] == marks;
  }

  lemma StoredHolds<K, V>(cfg: Config<V>, marks: Marks<V>, it: Item<K, V>, v: V, failed: bool, now: int)
    requires ItemHolds(cfg, marks, it)
    ensures ItemHolds(cfg, marks + [DataCache.Stored(v, failed, now)], Store(cfg, it, v, failed, now))
  {
    assert (marks + [DataCache.Stored(v, failed, now)])[..|marks|] == marks;
  }

  /** A step that adds a mark, and changes the contents of that mark's item only. */
  lemma MarkHeld<K, V>(cfg: Config<V>, s: State<K, V>, t: State<K, V>, m: Mark<V>)
    requires Held(cfg, s.log, s.items) && t.log == s.log + [m]
    requires |s.items| <= |t.items| && m.id < |t.items|
             && (|s.items| == |t.items| || |s.items| == m.id == |t.items| - 1)
    requires forall id :: 0 <= id < |s.items| && id != m.id ==> SameContents(t.items[id], s.items[id])
    requires ItemHolds(cfg, Only(s.log, m.id) + [AsMark(m)], t.items[m.id])
    ensures Held(cfg, t.log, t.items)
  {
    forall id: nat
      ensures if id < |t.items| then ItemHolds(cfg, Only(t.log, id), t.items[id]) else Only(t.log, id) == []
    {
      OnlyMore(s.log, m, id);
      if id != m.id {
        assert Only(t.log, id) == Only(s.log, id);
      }
    }
  }

  lemma SameHeld<K, V>(cfg: Config<V>, s: State<K, V>, t: State<K, V>)
    requires Held(cfg, s.log, s.items) && t.log == s.log && |t.items| == |s.items|
    requires forall id :: 0 <= id < |s.items| ==> SameContents(t.items[id], s.items[id])
    ensures Held(cfg, t.log, t.items)
  {
    forall id: nat
      ensures if id < |t.items| then ItemHolds(cfg, Only(t.log, id), t.items[id]) else Only(t.log, id) == []
    {
    }
  }

  lemma NewHeld<K, V>(cfg: Config<V>, s: State<K, V>, t: State<K, V>, k: K, now: int)
    requires Held(cfg, s.log, s.items)
    requires t.items == s.items + [NewItem(cfg, k, now)] && t.log == s.log + [Start(|s.items|, now)]
    ensures Held(cfg, t.log, t.items)
  {
    CreatedHolds(cfg, k, now);
    assert Only(s.log, |s.items|) + [DataCache.Start(now)] == [DataCache.Start(now)];
    MarkHeld(cfg, s, t, Start(|s.items|, now));
  }

  lemma ClaimHeld<K, V>(cfg: Config<V>, s: State<K, V>, t: State<K, V>, id: nat, now: int)
    requires Held(cfg, s.log, s.items) && Has(s, id)
    requires t.items == s.items[id := s.items[id].(next := now + cfg.retryInterval)]
             && t.log == s.log + [Start(id, now)]
    ensures Held(cfg, t.log, t.items)
  {
    StartedHolds(cfg, Only(s.log, id), s.items[id], now);
    MarkHeld(cfg, s, t, Start(id, now));
  }

  lemma StoreHeld<K, V>(cfg: Config<V>, s: State<K, V>, t: State<K, V>, id: nat, v: V, failed: bool, now: int)
    requires Held(cfg, s.log, s.items) && Has(s, id)
    requires t.items == s.items[id := Store(cfg, s.items[id], v, failed, now)]
             && t.log == s.log + [Stored(id, v, failed, now)]
    ensures Held(cfg, t.log, t.items)
  {
    StoredHolds(cfg, Only(s.log, id), s.items[id], v, failed, now);
    MarkHeld(cfg, s, t, Stored(id, v, failed, now));
  }

  lemma GetHeld<K, V>(cfg: Config<V>, s: State<K, V>, i: nat)
    requires Held(cfg, s.log, s.items) && i < |s.procs|
    ensures var t := RunGet(cfg, s, i); Held(cfg, t.log, t.items)
  {
    var p, t := s.procs[i], RunGet(cfg, s, i);
    if p.GetCreate? && p.k !in s.index {
      NewHeld(cfg, s, t, p.k, p.now);
    } else if p.GetSet? && Has(s, p.id) {
      ClaimHeld(cfg, s, t, p.id, p.now);
    } else {
      SameHeld(cfg, s, t);
    }
  }

  lemma ManyHeld<K, V>(cfg: Config<V>, s: State<K, V>, i: nat)
    requires Held(cfg, s.log, s.items) && i < |s.procs|
    ensures var t := RunMany(cfg, s, i); Held(cfg, t.log, t.items)
  {
    var p, t := s.procs[i], RunMany(cfg, s, i);
    if p.ManyPick? && p.miss != [] && p.miss[0] !in s.index {
      NewHeld(cfg, s, t, p.miss[0], p.now);
    } else if p.ManySet? && Has(s, p.id) && p.miss != [] {
      ClaimHeld(cfg, s, t, p.id, p.now);
    } else {
      SameHeld(cfg, s, t);
    }
  }

  lemma LoaderHeld<K, V>(cfg: Config<V>, s: State<K, V>, j: nat, ev: Event<K, V>)
    requires Held(cfg, s.log, s.items) && j < |s.loaders|
    ensures var t := LoaderStep(cfg, s, j, ev); Held(cfg, t.log, t.items)
  {
    var l, t := s.loaders[j], LoaderStep(cfg, s, j, ev);
    if l.StoreOne? && ev.StoreNext? && Has(s, l.id) {
      StoreHeld(cfg, s, t, l.id, l.v, l.failed, l.now);
    } else if l.StoreBatch? && ev.StoreKey? && ev.k in l.left && Has(s, l.left[ev.k]) {
      StoreHeld(cfg, s, t, l.left[ev.k], if ev.k in l.data then l.data[ev.k] else cfg.zero, l.failed, l.now);
    } else {
      SameHeld(cfg, s, t);
    }
  }

  lemma PickHeld<K, V>(cfg: Config<V>, s: State<K, V>, i: nat, k: K)
    requires Held(cfg, s.log, s.items) && i < |s.procs|
    ensures var t := PickKey(cfg, s, i, k); Held(cfg, t.log, t.items)
  {
    SameHeld(cfg, s, PickKey(cfg, s, i, k));
  }

  lemma {:induction false} StepHeld<K, V>(cfg: Config<V>, s: State<K, V>, ev: Event<K, V>)
    requires Held(cfg, s.log, s.items)
    ensures var t := Apply(cfg, s, ev); Held(cfg, t.log, t.items)
  {
    match ev {
      case Run(i) => if i < |s.procs| { if InMany(s.procs[i]) { ManyHeld(cfg, s, i); } else { GetHeld(cfg, s, i); } }
      case Pick(i, k) => if i < |s.procs| { PickHeld(cfg, s, i, k); }
      case Loaded(j, _, _, _) => if j < |s.loaders| { LoaderHeld(cfg, s, j, ev); }
      case LoadedBatch(j, _, _, _) => if j < |s.loaders| { LoaderHeld(cfg, s, j, ev); }
      case StoreNext(j) => if j < |s.loaders| { LoaderHeld(cfg, s, j, ev); }
      case StoreKey(j, _) => if j < |s.loaders| { LoaderHeld(cfg, s, j, ev); }
      case _ => SameHeld(cfg, s, Apply(cfg, s, ev));
    }
  }

  // ----- every run

  ghost predicate AllHeld<K, V>(cfg: Config<V>, s: State<K, V>) {
    Held(cfg, s.log, s.items)
  }

  lemma {:induction false} HeldReachable<K, V>(cfg: Config<V>, n: nat, evs: seq<Event<K, V>>)
    ensures AllHeld(cfg, Exec(cfg, Begin<K, V>(n), evs))
  {
    if evs == [] {
      assert forall id: nat :: Only<V>([], id) == [];
    } else {
      HeldReachable(cfg, n, evs[..|evs| - 1]);
      StepHeld(cfg, Exec(cfg, Begin<K, V>(n), evs[..|evs| - 1]), evs[|evs| - 1]);
    }
  }

  /** In every interleaving an item holds what the last load stored in it returned, or nothing before
      the first.  Its next update time is the clock of that store plus expiration (expirationOnErr if
      the load had failed), or, after a later start, that start's plus retryInterval.  Its cut-off is
      its creation's clock plus waitTimeout or the earliest store's. */
  lemma HoldsLastLoad<K, V>(cfg: Config<V>, n: nat, evs: seq<Event<K, V>>, id: nat)
    requires Has(Exec(cfg, Begin<K, V>(n), evs), id)
    ensures var s := Exec(cfg, Begin<K, V>(n), evs); ItemHolds(cfg, Only(s.log, id), s.items[id])
  {
    HeldReachable(cfg, n, evs);
  }

  /** A Get that looks at an item, by what the item's marks say: under the item's lock it claims the
      update exactly if its clock is beyond the due time, it goes on from its wait exactly once its
      clock is beyond the cut-off, and what it returns is the value of the last store. */
  ghost predicate GetActs<K, V>(cfg: Config<V>, s: State<K, V>, i: nat, p: Proc<K, V>, t: State<K, V>)
    requires i < |t.procs|
  {
    && (p.GetClaim? && Has(s, p.id) ==>
          (t.procs[i].GetSet? <==> p.now > DataCache.DueAt(Timing(cfg), Only(s.log, p.id))))
    && (p.GetWait? && Has(s, p.id) ==>
          (t.procs[i].GetTouch? <==> p.start + p.sleeps * 1_000_000 > CutAt(cfg, Only(s.log, p.id))))
    && (p.GetRead? && Has(s, p.id) ==>
          t.returned == s.returned + [FromGet(p.k, DataCache.LastValue(Only(s.log, p.id), cfg.zero))])
  }

  /** GetMany answers from its first pass with the value of the last store, and is to load the key if it
      is due; under the map's lock it is about to postpone an item exactly if it is due. */
  ghost predicate ManyActs<K, V>(cfg: Config<V>, s: State<K, V>, i: nat, p: Proc<K, V>, t: State<K, V>)
    requires i < |t.procs|
  {
    && (p.ManyPeek? && p.todo != [] && Has(s, p.id) ==>
          var due := p.now > DataCache.DueAt(Timing(cfg), Only(s.log, p.id));
          t.procs[i] == ManyScan(p.now, p.todo[1..],
                                 p.out[p.todo[0] := DataCache.LastValue(Only(s.log, p.id), cfg.zero)],
                                 if due then p.miss + [p.todo[0]] else p.miss))
    && (p.ManyPick? && p.miss != [] && p.miss[0] in s.index && Has(s, s.index[p.miss[0]]) ==>
          (t.procs[i].ManySet? <==> p.now > DataCache.DueAt(Timing(cfg), Only(s.log, s.index[p.miss[0]]))))
  }

  lemma HeldGetActs<K, V>(cfg: Config<V>, s: State<K, V>, i: nat)
    requires AllHeld(cfg, s) && i < |s.procs|
    ensures |RunGet(cfg, s, i).procs| == |s.procs| && GetActs(cfg, s, i, s.procs[i], RunGet(cfg, s, i))
  {
  }

  lemma HeldManyActs<K, V>(cfg: Config<V>, s: State<K, V>, i: nat)
    requires AllHeld(cfg, s) && i < |s.procs|
    ensures |RunMany(cfg, s, i).procs| == |s.procs| && ManyActs(cfg, s, i, s.procs[i], RunMany(cfg, s, i))
  {
  }

  ghost predicate Acts<K, V>(cfg: Config<V>, s: State<K, V>, i: nat)
    requires i < |s.procs|
  {
    var t := Apply(cfg, s, Run(i));
    |t.procs| == |s.procs| && GetActs(cfg, s, i, s.procs[i], t) && ManyActs(cfg, s, i, s.procs[i], t)
  }

  lemma HeldActs<K, V>(cfg: Config<V>, s: State<K, V>, i: nat)
    requires AllHeld(cfg, s) && i < |s.procs| && !Blocked(s, s.procs[i])
    ensures Acts(cfg, s, i)
  {
    HeldGetActs(cfg, s, i);
    HeldManyActs(cfg, s, i);
  }

  lemma ActsOnLastLoad<K, V>(cfg: Config<V>, n: nat, evs: seq<Event<K, V>>, i: nat)
    requires var s := Exec(cfg, Begin<K, V>(n), evs); i < |s.procs| && !Blocked(s, s.procs[i])
    ensures Acts(cfg, Exec(cfg, Begin<K, V>(n), evs), i)
  {
    HeldReachable(cfg, n, evs);
    HeldActs(cfg, Exec(cfg, Begin<K, V>(n), evs), i);
  }

  ghost predicate RereadGives<K, V>(s: State<K, V>, i: nat, k: K, t: State<K, V>, v: V)
    requires i < |s.procs| && s.procs[i].ManyRead?
  {
    t == Goto(s, i, ManyRead(s.procs[i].left - {k}, s.procs[i].out[k := v]))
  }

  /** The value of the last store of the item GetMany loaded for `k`. */
  ghost function LastRead<K, V>(cfg: Config<V>, s: State<K, V>, i: nat, k: K): V
    requires i < |s.procs| && s.procs[i].ManyRead? && k in s.procs[i].left
  {
    DataCache.LastValue(Only(s.log, s.procs[i].left[k]), cfg.zero)
  }

  lemma HeldRereads<K, V>(cfg: Config<V>, s: State<K, V>, i: nat, k: K)
    requires AllHeld(cfg, s) && i < |s.procs| && s.procs[i].ManyRead?
    requires k in s.procs[i].left && Has(s, s.procs[i].left[k])
    ensures RereadGives(s, i, k, Apply(cfg, s, Pick(i, k)), LastRead(cfg, s, i, k))
  {
  }

  /** The keys GetMany loaded it reads again at the end: its answer is what was stored last, its own
      batch's value if that has arrived. */
  lemma RereadsLastLoad<K, V>(cfg: Config<V>, n: nat, evs: seq<Event<K, V>>, i: nat, k: K)
    requires var s := Exec(cfg, Begin<K, V>(n), evs);
             && i < |s.procs| && s.procs[i].ManyRead? && k in s.procs[i].left && Has(s, s.procs[i].left[k])
    ensures var s := Exec(cfg, Begin<K, V>(n), evs);
            RereadGives(s, i, k, Apply(cfg, s, Pick(i, k)), LastRead(cfg, s, i, k))
  {
    HeldReachable(cfg, n, evs);
    HeldRereads(cfg, Exec(cfg, Begin<K, V>(n), evs), i, k);
  }
}
