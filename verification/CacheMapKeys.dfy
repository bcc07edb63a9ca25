/** When the loads of a key are a retry interval apart: an evicted key that is created again has a
    new item, so here creation counts as a third kind of claim. */
module CacheMapKeys {
  import DataCache
  import opened Options
  import opened CacheMap
  import opened CacheMapLoads

  predicate Concerns<K(==), V>(items: seq<Item<K, V>>, m: Mark<V>, k: K) {
    m.id < |items| && items[m.id].key == k
  }

  /** The load starts and completed stores of all items a key ever had. */
  function KeyMarks<K(==), V>(log: seq<Mark<V>>, items: seq<Item<K, V>>, k: K): seq<DataCache.Mark<V>> {
    if log == [] then []
    else
      var m := log[|log| - 1];
      KeyMarks(log[..|log| - 1], items, k) + if Concerns(items, m, k) then [AsMark(m)] else []
  }

  function LastMark<K(==), V>(log: seq<Mark<V>>, items: seq<Item<K, V>>, k: K): Option<Mark<V>> {
    if log == [] then None
    else
      var m := log[|log| - 1];
      if Concerns(items, m, k) then Some(m) else LastMark(log[..|log| - 1], items, k)
  }

  /** Two load starts of one key with no completed store between them are a retry interval apart. */
  ghost predicate KeysSpaced<K(!new), V>(cfg: Config<V>, log: seq<Mark<V>>, items: seq<Item<K, V>>) {
    forall k: K :: DataCache.Spaced(Timing(cfg), KeyMarks(log, items, k))
  }

  /** The load an event starts: its key and captured time. */
  function StartOf<K(==), V>(s: State<K, V>, ev: Event<K, V>): Option<(K, int)> {
    if !ev.Run? || ev.i >= |s.procs| || Blocked(s, s.procs[ev.i]) then None
    else
      var p := s.procs[ev.i];
      if p.GetCreate? && p.k !in s.index then Some((p.k, p.now))
      else if p.ManyPick? && p.miss != [] && p.miss[0] !in s.index then Some((p.miss[0], p.now))
      else if Writes(s, ev) then Some((s.items[p.id].key, p.now))
      else None
  }

  /** The item that last started or stored the key's data has been stored since, or is due; or there
      is none. */
  predicate KeyDue<K(==), V>(s: State<K, V>, k: K, now: int) {
    match LastMark(s.log, s.items, k)
    case None => true
    case Some(m) => m.Stored? || (Has(s, m.id) && s.items[m.id].next <= now)
  }

  predicate KeyGuarded<K(==), V>(s: State<K, V>, ev: Event<K, V>) {
    var start := StartOf(s, ev);
    start.Some? ==> KeyDue(s, start.value.0, start.value.1)
  }

  // ----- one step

  ghost predicate InRange<K, V>(log: seq<Mark<V>>, items: seq<Item<K, V>>) {
    forall x :: 0 <= x < |log| ==> log[x].id < |items|
  }

  /** The marks of a key end in its last mark, which decides that item's next update time. */
  ghost predicate KeyRecorded<K, V>(cfg: Config<V>, log: seq<Mark<V>>, items: seq<Item<K, V>>, k: K) {
    var marks := KeyMarks(log, items, k);
    match LastMark(log, items, k)
    case None => marks == []
    case Some(m) =>
      && Concerns(items, m, k)
      && marks != [] && marks[|marks| - 1] == AsMark(m)
      && DataCache.Decided(Timing(cfg), marks, items[m.id].next)
  }

  ghost predicate KeysRecorded<K(!new), V>(cfg: Config<V>, log: seq<Mark<V>>, items: seq<Item<K, V>>) {
    InRange(log, items) && forall k: K :: KeyRecorded(cfg, log, items, k)
  }

  ghost predicate SameKeys<K, V>(items: seq<Item<K, V>>, items': seq<Item<K, V>>) {
    |items| <= |items'| && forall x :: 0 <= x < |items| ==> items'[x].key == items[x].key
  }

  lemma {:induction false} MarksKept<K, V>(log: seq<Mark<V>>, items: seq<Item<K, V>>, items': seq<Item<K, V>>, k: K)
    requires InRange(log, items) && SameKeys(items, items')
    ensures KeyMarks(log, items', k) == KeyMarks(log, items, k)
    ensures LastMark(log, items', k) == LastMark(log, items, k)
  {
    if log != [] {
      MarksKept(log[..|log| - 1], items, items', k);
    }
  }

  lemma MarksMore<K, V>(log: seq<Mark<V>>, items: seq<Item<K, V>>, m: Mark<V>, k: K)
    ensures KeyMarks(log + [m], items, k) == KeyMarks(log, items, k) + if Concerns(items, m, k) then [AsMark(m)] else []
    ensures LastMark(log + [m], items, k) == if Concerns(items, m, k) then Some(m) else LastMark(log, items, k)
  {
    assert (log + [m])[..|log|] == log;
  }

  lemma MarkOneKey<K, V>(cfg: Config<V>, s: State<K, V>, t: State<K, V>, m: Mark<V>, k: K)
    requires KeyRecorded(cfg, s.log, s.items, k) && InRange(s.log, s.items) && SameKeys(s.items, t.items)
    requires t.log == s.log + [m] && m.id < |t.items|
    requires forall id :: 0 <= id < |s.items| && id != m.id ==> t.items[id].next == s.items[id].next
    requires m.Start? ==> t.items[m.id].next == m.captured + cfg.retryInterval
    ensures KeyRecorded(cfg, t.log, t.items, k)
  {
    MarksKept(s.log, s.items, t.items, k);
    MarksMore(s.log, t.items, m, k);
    if !Concerns(t.items, m, k) {
      assert KeyMarks(t.log, t.items, k) == KeyMarks(s.log, s.items, k);
    }
  }

  lemma SpacedOneKey<K, V>(cfg: Config<V>, s: State<K, V>, t: State<K, V>, m: Mark<V>, k: K)
    requires KeyRecorded(cfg, s.log, s.items, k) && InRange(s.log, s.items) && SameKeys(s.items, t.items)
    requires t.log == s.log + [m] && m.id < |t.items| && cfg.retryInterval > 0
    ensures DataCache.Spaced(Timing(cfg), KeyMarks(t.log, t.items, k)) <==>
            DataCache.Spaced(Timing(cfg), KeyMarks(s.log, s.items, k))
            && (!Concerns(t.items, m, k) || m.Stored? || KeyDue(s, k, m.captured))
  {
    var marks := KeyMarks(s.log, s.items, k);
    MarksKept(s.log, s.items, t.items, k);
    MarksMore(s.log, t.items, m, k);
    if Concerns(t.items, m, k) {
      var next := match LastMark(s.log, s.items, k) case Some(l) => s.items[l.id].next case None => 0;
      DataCache.SpacedIff(Timing(cfg), marks, next, AsMark(m));
    } else {
      assert KeyMarks(t.log, t.items, k) == marks;
    }
  }

  /** The step keeps the record, and keeps the loads of every key spaced exactly if `ok`. */
  ghost predicate KeysKeepIf<K(!new), V>(cfg: Config<V>, s: State<K, V>, t: State<K, V>, ok: bool) {
    && KeysRecorded(cfg, t.log, t.items)
    && (KeysSpaced(cfg, t.log, t.items) <==> KeysSpaced(cfg, s.log, s.items) && ok)
  }

  /** A step that adds one mark. */
  lemma MarkKeysIf<K(!new), V>(cfg: Config<V>, s: State<K, V>, t: State<K, V>, m: Mark<V>)
    requires KeysRecorded(cfg, s.log, s.items) && SameKeys(s.items, t.items) && cfg.retryInterval > 0
    requires t.log == s.log + [m] && m.id < |t.items|
    requires forall id :: 0 <= id < |s.items| && id != m.id ==> t.items[id].next == s.items[id].next
    requires m.Start? ==> t.items[m.id].next == m.captured + cfg.retryInterval
    ensures KeysKeepIf(cfg, s, t, m.Stored? || KeyDue(s, t.items[m.id].key, m.captured))
  {
    var key := t.items[m.id].key;
    forall k: K ensures KeyRecorded(cfg, t.log, t.items, k) {
      assert KeyRecorded(cfg, s.log, s.items, k);
      MarkOneKey(cfg, s, t, m, k);
    }
    forall k: K
      ensures DataCache.Spaced(Timing(cfg), KeyMarks(t.log, t.items, k)) <==>
              DataCache.Spaced(Timing(cfg), KeyMarks(s.log, s.items, k))
              && (k != key || m.Stored? || KeyDue(s, k, m.captured))
    {
      assert KeyRecorded(cfg, s.log, s.items, k);
      SpacedOneKey(cfg, s, t, m, k);
    }
    SpacedAll(cfg, s, t, key, m.Stored? || KeyDue(s, key, m.captured));
  }

  /** One key may lose its spacing, the others keep theirs. */
  lemma SpacedAll<K(!new), V>(cfg: Config<V>, s: State<K, V>, t: State<K, V>, key: K, ok: bool)
    requires forall k: K ::
               DataCache.Spaced(Timing(cfg), KeyMarks(t.log, t.items, k)) <==>
               DataCache.Spaced(Timing(cfg), KeyMarks(s.log, s.items, k)) && (k != key || ok)
    ensures KeysSpaced(cfg, t.log, t.items) <==> KeysSpaced(cfg, s.log, s.items) && ok
  {
    if KeysSpaced(cfg, t.log, t.items) {
      assert DataCache.Spaced(Timing(cfg), KeyMarks(t.log, t.items, key));
      forall k: K ensures DataCache.Spaced(Timing(cfg), KeyMarks(s.log, s.items, k)) {
        assert DataCache.Spaced(Timing(cfg), KeyMarks(t.log, t.items, k));
      }
    }
  }

  lemma SameOneKey<K, V>(cfg: Config<V>, s: State<K, V>, t: State<K, V>, k: K)
    requires KeyRecorded(cfg, s.log, s.items, k) && InRange(s.log, s.items)
    requires SameKeys(s.items, t.items) && t.log == s.log
    requires forall id :: 0 <= id < |s.items| ==> t.items[id].next == s.items[id].next
    ensures KeyRecorded(cfg, t.log, t.items, k) && KeyMarks(t.log, t.items, k) == KeyMarks(s.log, s.items, k)
  {
    MarksKept(s.log, s.items, t.items, k);
  }

  /** A step that adds none. */
  lemma SameKeysIf<K(!new), V>(cfg: Config<V>, s: State<K, V>, t: State<K, V>)
    requires KeysRecorded(cfg, s.log, s.items) && SameKeys(s.items, t.items) && t.log == s.log
    requires forall id :: 0 <= id < |s.items| ==> t.items[id].next == s.items[id].next
    ensures KeysKeepIf(cfg, s, t, true)
  {
    forall k: K
      ensures KeyRecorded(cfg, t.log, t.items, k) && KeyMarks(t.log, t.items, k) == KeyMarks(s.log, s.items, k)
    {
      assert KeyRecorded(cfg, s.log, s.items, k);
      SameOneKey(cfg, s, t, k);
    }
  }

  lemma GetNewKeysIf<K(!new), V>(cfg: Config<V>, s: State<K, V>, i: nat)
    requires KeysRecorded(cfg, s.log, s.items) && cfg.retryInterval > 0 && i < |s.procs|
    requires s.procs[i].GetCreate? && s.procs[i].k !in s.index
    ensures KeysKeepIf(cfg, s, RunGet(cfg, s, i), KeyDue(s, s.procs[i].k, s.procs[i].now))
  {
    MarkKeysIf(cfg, s, RunGet(cfg, s, i), Start(|s.items|, s.procs[i].now));
  }

  lemma GetSetKeysIf<K(!new), V>(cfg: Config<V>, s: State<K, V>, i: nat)
    requires KeysRecorded(cfg, s.log, s.items) && cfg.retryInterval > 0 && i < |s.procs|
    requires s.procs[i].GetSet? && Has(s, s.procs[i].id)
    ensures KeysKeepIf(cfg, s, RunGet(cfg, s, i), KeyDue(s, s.items[s.procs[i].id].key, s.procs[i].now))
  {
    MarkKeysIf(cfg, s, RunGet(cfg, s, i), Start(s.procs[i].id, s.procs[i].now));
  }

  lemma GetElseKeysIf<K(!new), V>(cfg: Config<V>, s: State<K, V>, i: nat)
    requires KeysRecorded(cfg, s.log, s.items) && i < |s.procs|
    requires !(s.procs[i].GetCreate? && s.procs[i].k !in s.index)
    requires !(s.procs[i].GetSet? && Has(s, s.procs[i].id))
    ensures KeysKeepIf(cfg, s, RunGet(cfg, s, i), true)
  {
    SameKeysIf(cfg, s, RunGet(cfg, s, i));
  }

  lemma GetKeysIf<K(!new), V>(cfg: Config<V>, s: State<K, V>, i: nat)
    requires KeysRecorded(cfg, s.log, s.items) && cfg.retryInterval > 0
    requires i < |s.procs| && !InMany(s.procs[i]) && !Blocked(s, s.procs[i])
    ensures KeysKeepIf(cfg, s, RunGet(cfg, s, i), KeyGuarded(s, Run(i)))
  {
    var p := s.procs[i];
    if p.GetCreate? && p.k !in s.index {
      GetNewKeysIf(cfg, s, i);
    } else if p.GetSet? && Has(s, p.id) {
      GetSetKeysIf(cfg, s, i);
    } else {
      GetElseKeysIf(cfg, s, i);
    }
  }

  lemma ManyNewKeysIf<K(!new), V>(cfg: Config<V>, s: State<K, V>, i: nat)
    requires KeysRecorded(cfg, s.log, s.items) && cfg.retryInterval > 0 && i < |s.procs|
    requires s.procs[i].ManyPick? && s.procs[i].miss != [] && s.procs[i].miss[0] !in s.index
    ensures KeysKeepIf(cfg, s, RunMany(cfg, s, i), KeyDue(s, s.procs[i].miss[0], s.procs[i].now))
  {
    MarkKeysIf(cfg, s, RunMany(cfg, s, i), Start(|s.items|, s.procs[i].now));
  }

  lemma ManySetKeysIf<K(!new), V>(cfg: Config<V>, s: State<K, V>, i: nat)
    requires KeysRecorded(cfg, s.log, s.items) && cfg.retryInterval > 0 && i < |s.procs|
    requires s.procs[i].ManySet? && Has(s, s.procs[i].id) && s.procs[i].miss != []
    ensures KeysKeepIf(cfg, s, RunMany(cfg, s, i), KeyDue(s, s.items[s.procs[i].id].key, s.procs[i].now))
  {
    MarkKeysIf(cfg, s, RunMany(cfg, s, i), Start(s.procs[i].id, s.procs[i].now));
  }

  lemma ManyElseKeysIf<K(!new), V>(cfg: Config<V>, s: State<K, V>, i: nat)
    requires KeysRecorded(cfg, s.log, s.items) && i < |s.procs|
    requires !(s.procs[i].ManyPick? && s.procs[i].miss != [] && s.procs[i].miss[0] !in s.index)
    requires !(s.procs[i].ManySet? && Has(s, s.procs[i].id) && s.procs[i].miss != [])
    ensures KeysKeepIf(cfg, s, RunMany(cfg, s, i), true)
  {
    SameKeysIf(cfg, s, RunMany(cfg, s, i));
  }

  lemma ManyKeysIf<K(!new), V>(cfg: Config<V>, s: State<K, V>, i: nat)
    requires KeysRecorded(cfg, s.log, s.items) && cfg.retryInterval > 0
    requires i < |s.procs| && InMany(s.procs[i]) && !Blocked(s, s.procs[i])
    ensures KeysKeepIf(cfg, s, RunMany(cfg, s, i), KeyGuarded(s, Run(i)))
  {
    var p := s.procs[i];
    if p.ManyPick? && p.miss != [] && p.miss[0] !in s.index {
      ManyNewKeysIf(cfg, s, i);
    } else if p.ManySet? && Has(s, p.id) && p.miss != [] {
      ManySetKeysIf(cfg, s, i);
    } else {
      ManyElseKeysIf(cfg, s, i);
    }
  }

  lemma LoaderKeysIf<K(!new), V>(cfg: Config<V>, s: State<K, V>, j: nat, ev: Event<K, V>)
    requires KeysRecorded(cfg, s.log, s.items) && cfg.retryInterval > 0 && j < |s.loaders|
    ensures KeysKeepIf(cfg, s, LoaderStep(cfg, s, j, ev), true)
  {
    var l, t := s.loaders[j], LoaderStep(cfg, s, j, ev);
    if l.StoreOne? && ev.StoreNext? && Has(s, l.id) {
      MarkKeysIf(cfg, s, t, Stored(l.id, l.v, l.failed, l.now));
    } else if l.StoreBatch? && ev.StoreKey? && ev.k in l.left && Has(s, l.left[ev.k]) {
      MarkKeysIf(cfg, s, t, t.log[|s.log|]);
    } else {
      SameKeysIf(cfg, s, t);
    }
  }

  lemma OtherKeysIf<K(!new), V>(cfg: Config<V>, s: State<K, V>, ev: Event<K, V>)
    requires KeysRecorded(cfg, s.log, s.items)
    requires ev.CallGet? || ev.CallGetMany? || ev.CallEvict? || ev.Pick? || ev.Delete?
    ensures KeysKeepIf(cfg, s, Apply(cfg, s, ev), true)
  {
    SameKeysIf(cfg, s, Apply(cfg, s, ev));
  }

  lemma {:induction false} StepKeysIf<K(!new), V>(cfg: Config<V>, s: State<K, V>, ev: Event<K, V>)
    requires KeysRecorded(cfg, s.log, s.items) && cfg.retryInterval > 0
    ensures KeysKeepIf(cfg, s, Apply(cfg, s, ev), KeyGuarded(s, ev))
  {
    match ev {
      case Run(i) =>
        if i < |s.procs| && !Blocked(s, s.procs[i]) {
          if InMany(s.procs[i]) { ManyKeysIf(cfg, s, i); } else { GetKeysIf(cfg, s, i); }
        }
      case Loaded(j, _, _, _) => if j < |s.loaders| { LoaderKeysIf(cfg, s, j, ev); }
      case LoadedBatch(j, _, _, _) => if j < |s.loaders| { LoaderKeysIf(cfg, s, j, ev); }
      case StoreNext(j) => if j < |s.loaders| { LoaderKeysIf(cfg, s, j, ev); }
      case StoreKey(j, _) => if j < |s.loaders| { LoaderKeysIf(cfg, s, j, ev); }
      case _ => OtherKeysIf(cfg, s, ev);
    }
  }

  // ----- every run

  /** Every creation and every claiming write of the run met its guard. */
  ghost predicate AllKeysGuarded<K, V>(cfg: Config<V>, n: nat, evs: seq<Event<K, V>>) {
    evs != [] ==>
      var init := evs[..|evs| - 1];
      AllKeysGuarded(cfg, n, init) && KeyGuarded(Exec(cfg, Begin(n), init), evs[|evs| - 1])
  }

  ghost predicate RunSpaced<K(!new), V>(cfg: Config<V>, s: State<K, V>) {
    KeysSpaced(cfg, s.log, s.items)
  }

  ghost predicate RunRecorded<K(!new), V>(cfg: Config<V>, s: State<K, V>) {
    KeysRecorded(cfg, s.log, s.items)
  }

  /** Over every run: two load starts of one key without a completed store between them are always a
      retry interval apart if and only if every creation of an item and every claim, when it writes
      the next update time, finds the item of the key that last started or stored a load due, or
      stored, or finds that there was none. */
  lemma {:induction false} KeysAreSpacedIff<K(!new), V>(cfg: Config<V>, n: nat, evs: seq<Event<K, V>>)
    requires cfg.retryInterval > 0
    ensures RunRecorded(cfg, Exec(cfg, Begin<K, V>(n), evs))
    ensures RunSpaced(cfg, Exec(cfg, Begin<K, V>(n), evs)) <==> AllKeysGuarded(cfg, n, evs)
  {
    if evs != [] {
      var init := evs[..|evs| - 1];
      KeysAreSpacedIff(cfg, n, init);
      StepKeysIf(cfg, Exec(cfg, Begin(n), init), evs[|evs| - 1]);
    }
  }

  // ----- a source that always fails

  lemma {:induction false} KeyStarts<K, V>(log: seq<Mark<V>>, items: seq<Item<K, V>>, k: K)
    requires forall x :: 0 <= x < |log| ==> log[x].Start?
    ensures DataCache.NoStores(KeyMarks(log, items, k))
  {
    if log != [] {
      KeyStarts(log[..|log| - 1], items, k);
    }
  }

  /** What is loaded for `k` in a run, over all its items. */
  ghost function RunMarks<K, V>(s: State<K, V>, k: K): seq<DataCache.Mark<V>> {
    KeyMarks(s.log, s.items, k)
  }

  lemma KeyWindow<K(!new), V>(cfg: Config<V>, s: State<K, V>, k: K, a: int, b: int)
    requires cfg.retryInterval > 0 && a <= b && RunSpaced(cfg, s) && NothingStored(s)
    ensures DataCache.StartsIn(RunMarks(s, k), a, b) <= (b - a) / cfg.retryInterval + 1
  {
    KeyStarts(s.log, s.items, k);
    DataCache.StartsPerWindow(Timing(cfg), KeyMarks(s.log, s.items, k), a, b);
  }

  /** In such a run a source that always fails, with failures not cached, is called for one key at most
      (b - a)/retryInterval + 1 times for captured times in [a, b], evicted and created again or not. */
  lemma FailingKeyIsThrottled<K(!new), V>(cfg: Config<V>, n: nat, evs: seq<Event<K, V>>, k: K, a: int, b: int)
    requires cfg.retryInterval > 0 && cfg.expirationOnErr <= 0 && AlwaysFails(evs) && a <= b
    requires AllKeysGuarded(cfg, n, evs)
    ensures DataCache.StartsIn(RunMarks(Exec(cfg, Begin<K, V>(n), evs), k), a, b) <= (b - a) / cfg.retryInterval + 1
  {
    KeysAreSpacedIff(cfg, n, evs);
    FailuresStoreNothing(cfg, n, evs);
    KeyWindow(cfg, Exec(cfg, Begin<K, V>(n), evs), k, a, b);
  }

  // ----- without eviction a key is its item

  /** Every item ever made is the one in the map. */
  ghost predicate OnePerKey<K, V>(s: State<K, V>) {
    && InRange(s.log, s.items)
    && forall id :: 0 <= id < |s.items| ==> s.items[id].key in s.index && s.index[s.items[id].key] == id
  }

  lemma OnePerKeyNew<K, V>(cfg: Config<V>, s: State<K, V>, i: nat)
    requires OnePerKey(s) && i < |s.procs| && s.procs[i].GetCreate?
    ensures OnePerKey(RunGet(cfg, s, i))
  {
  }

  lemma OnePerKeyGet<K, V>(cfg: Config<V>, s: State<K, V>, i: nat)
    requires OnePerKey(s) && i < |s.procs|
    ensures OnePerKey(RunGet(cfg, s, i))
  {
    if s.procs[i].GetCreate? {
      OnePerKeyNew(cfg, s, i);
    }
  }

  lemma OnePerKeyMany<K, V>(cfg: Config<V>, s: State<K, V>, i: nat)
    requires OnePerKey(s) && i < |s.procs|
    ensures OnePerKey(RunMany(cfg, s, i))
  {
  }

  lemma OnePerKeyLoader<K, V>(cfg: Config<V>, s: State<K, V>, j: nat, ev: Event<K, V>)
    requires OnePerKey(s) && j < |s.loaders|
    ensures OnePerKey(LoaderStep(cfg, s, j, ev))
  {
  }

  lemma {:induction false} OnePerKeyStep<K, V>(cfg: Config<V>, s: State<K, V>, ev: Event<K, V>)
    requires OnePerKey(s) && !ev.Delete?
    ensures OnePerKey(Apply(cfg, s, ev))
  {
    match ev {
      case Run(i) => if i < |s.procs| { OnePerKeyGet(cfg, s, i); OnePerKeyMany(cfg, s, i); }
      case Loaded(j, _, _, _) => if j < |s.loaders| { OnePerKeyLoader(cfg, s, j, ev); }
      case LoadedBatch(j, _, _, _) => if j < |s.loaders| { OnePerKeyLoader(cfg, s, j, ev); }
      case StoreNext(j) => if j < |s.loaders| { OnePerKeyLoader(cfg, s, j, ev); }
      case StoreKey(j, _) => if j < |s.loaders| { OnePerKeyLoader(cfg, s, j, ev); }
      case _ =>
    }
  }

  ghost predicate NoEviction<K, V>(evs: seq<Event<K, V>>) {
    forall x :: 0 <= x < |evs| ==> !evs[x].Delete?
  }

  lemma {:induction false} OnePerKeyReachable<K, V>(cfg: Config<V>, n: nat, evs: seq<Event<K, V>>)
    requires NoEviction(evs)
    ensures OnePerKey(Exec(cfg, Begin<K, V>(n), evs))
  {
    if evs != [] {
      var init := evs[..|evs| - 1];
      assert NoEviction(init);
      OnePerKeyReachable(cfg, n, init);
      OnePerKeyStep(cfg, Exec(cfg, Begin(n), init), evs[|evs| - 1]);
    }
  }

  lemma {:induction false} KeyIsItem<K, V>(log: seq<Mark<V>>, items: seq<Item<K, V>>, k: K, id: nat)
    requires InRange(log, items) && forall x :: 0 <= x < |items| ==> (items[x].key == k <==> x == id)
    ensures KeyMarks(log, items, k) == Only(log, id)
  {
    if log != [] {
      KeyIsItem(log[..|log| - 1], items, k, id);
    }
  }

  lemma OneKeySpaced<K, V>(cfg: Config<V>, s: State<K, V>, k: K)
    requires OnePerKey(s) && AllSpaced(cfg, s.log)
    ensures DataCache.Spaced(Timing(cfg), KeyMarks(s.log, s.items, k))
  {
    var id := if k in s.index then s.index[k] else |s.items|;
    if k in s.index && Has(s, id) && s.items[id].key == k {
      KeyIsItem(s.log, s.items, k, id);
    } else {
      KeyIsItem(s.log, s.items, k, |s.items|);
    }
  }

  lemma ItemsSpacedKeys<K(!new), V>(cfg: Config<V>, s: State<K, V>)
    requires OnePerKey(s) && AllSpaced(cfg, s.log)
    ensures RunSpaced(cfg, s)
  {
    forall k: K ensures DataCache.Spaced(Timing(cfg), KeyMarks(s.log, s.items, k)) {
      OneKeySpaced(cfg, s, k);
    }
  }

  /** While nothing is evicted, runs of Get alone and runs of GetMany alone load each key at most once
      per retry interval. */
  lemma KeysAreSpaced<K(!new), V>(cfg: Config<V>, n: nat, evs: seq<Event<K, V>>)
    requires cfg.retryInterval > 0 && NoEviction(evs) && (NoGetMany(evs) || NoGet(evs))
    ensures RunSpaced(cfg, Exec(cfg, Begin<K, V>(n), evs))
  {
    OnePerKeyReachable(cfg, n, evs);
    ItemLoadsAreSpaced(cfg, n, evs);
    ItemsSpacedKeys(cfg, Exec(cfg, Begin<K, V>(n), evs));
  }
}
