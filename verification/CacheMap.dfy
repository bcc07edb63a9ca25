/** CacheMap: a map of cache items with background loads, batch loads and eviction, as a step
    system.  A step is one locked stretch on an item, one access to the map, or one unlocked access
    to an item field.  GetMany's second pass holds the map's lock over many steps, and a Get that
    claims an update holds the item's lock over two; who needs that lock meanwhile is blocked. */
module CacheMap {
  import opened FirstLoadWait
  import opened Options

  /** Normalised options in nanoseconds; `batched` says that LoadDataBatch was given, and `zero` is
      the zero value of V. */
  datatype Config<V> = Config(expiration: int, expirationOnErr: int, retryInterval: int, waitTimeout: int,
                              evictTimeout: int, batched: bool, zero: V)

  /** The conversion in NewCacheMap, from milliseconds. */
  function Configure<V>(expiration: int, expirationOnErr: int, evictTimeout: int, retryInterval: int, waitTimeout: int,
                        batched: bool, zero: V): (cfg: Config<V>)
    ensures cfg.expiration == 1_000_000 * expiration && cfg.expirationOnErr == 1_000_000 * expirationOnErr
    ensures cfg.retryInterval == if retryInterval > 0 then 1_000_000 * retryInterval else 1_000_000_000
    ensures cfg.waitTimeout == if waitTimeout > 0 then 1_000_000 * waitTimeout else 0
    ensures cfg.evictTimeout == if evictTimeout > expiration then 1_000_000 * evictTimeout else 2_000_000 * expiration
    ensures cfg.batched == batched && cfg.zero == zero && cfg.retryInterval > 0 && cfg.waitTimeout >= 0
    ensures expiration > 0 ==> cfg.evictTimeout > cfg.expiration
  {
    Config(expiration * MILLI, expirationOnErr * MILLI,
           if retryInterval * MILLI <= 0 then DEFAULT_RETRY_INTERVAL else retryInterval * MILLI,
           if waitTimeout * MILLI <= 0 then 0 else waitTimeout * MILLI,
           if evictTimeout * MILLI <= expiration * MILLI then expiration * MILLI * 2 else evictTimeout * MILLI,
           batched, zero)
  }

  /** A CacheItem; `key` and `touches`, the times of creation and completed accesses, are history. */
  datatype Item<K, V> = Item(key: K, data: Option<V>, next: int, cutoff: int, evict: int, touches: seq<int>)

  function NewItem<K, V>(cfg: Config<V>, k: K, now: int): Item<K, V> {
    Item(k, None, now + cfg.retryInterval, now + cfg.waitTimeout, now + cfg.evictTimeout, [now])
  }

  function Touch<K, V>(cfg: Config<V>, it: Item<K, V>, now: int): Item<K, V> {
    it.(evict := if now + cfg.evictTimeout > it.evict then now + cfg.evictTimeout else it.evict,
        touches := it.touches + [now])
  }

  function Store<K, V>(cfg: Config<V>, it: Item<K, V>, v: V, failed: bool, now: int): Item<K, V> {
    it.(data := Some(v), next := now + (if failed then cfg.expirationOnErr else cfg.expiration),
        cutoff := if now < it.cutoff then now else it.cutoff)
  }

  function ValueOf<K, V>(cfg: Config<V>, it: Item<K, V>): V {
    if it.data.None? then cfg.zero else it.data.value
  }

  predicate Drops<V>(cfg: Config<V>, failed: bool) {
    failed && cfg.expirationOnErr <= 0
  }

  // ----- goroutines

  datatype Proc<K, V> =
    | Resting
    | GetLookup(k: K, now: int)
    | GetCreate(k: K, now: int)                 // missed, before Lock
    | GetCheck(k: K, id: nat, now: int)               // before the read of nextUpdateTime
    | GetClaim(k: K, id: nat, now: int)               // due, before Lock
    | GetSet(k: K, id: nat, now: int)                 // still due, item locked, before the write
    | GetWait(k: K, id: nat, start: int, cut: int, sleeps: nat)
    | GetTouch(k: K, id: nat, now: int)
    | GetRead(k: K, id: nat)
    | ManyScan(now: int, todo: seq<K>, out: map<K, V>, miss: seq<K>)
    | ManyPeek(now: int, id: nat, todo: seq<K>, out: map<K, V>, miss: seq<K>)  // touched, before the read
    | ManyPick(now: int, miss: seq<K>, out: map<K, V>, pend: map<K, nat>, isNew: bool)
    | ManySet(now: int, id: nat, miss: seq<K>, out: map<K, V>, pend: map<K, nat>, isNew: bool) // due, before the write
    | ManyGo(now: int, left: map<K, nat>, out: map<K, V>, pend: map<K, nat>, isNew: bool)      // starting the loads
    | ManyWait(start: int, sleeps: nat, status: nat, out: map<K, V>, pend: map<K, nat>)
    | ManyRead(left: map<K, nat>, out: map<K, V>)
    | EvictScan(now: int, victims: seq<Victim<K>>)

  /** A key evictKeys collected, with the item it saw, its evictTime then, and how often it had
      been accessed. */
  datatype Victim<K> = Victim(k: K, id: nat, limit: int, seen: nat)

  predicate InMany<K, V>(p: Proc<K, V>) {
    p.ManyScan? || p.ManyPeek? || p.ManyPick? || p.ManySet? || p.ManyGo? || p.ManyWait? || p.ManyRead?
  }

  datatype Loader<K, V> =
    | LoadOne(k: K, id: nat)
    | StoreOne(k: K, id: nat, v: V, failed: bool, now: int)
    | LoadBatch(pend: map<K, nat>, status: nat)
    | StoreBatch(left: map<K, nat>, data: map<K, V>, failed: bool, now: int, status: nat)
    | Ended

  /** What finished loads returned. */
  datatype Load<K, V> = One(key: K, v: V, failed: bool) | Batch(data: map<K, V>, failed: bool)

  /** Load starts and completed stores per item. */
  datatype Mark<V> = Start(id: nat, captured: int) | Stored(id: nat, v: V, failed: bool, now: int)

  datatype Returned<K, V> = FromGet(k: K, v: V) | FromGetMany(out: map<K, V>)

  /** `statuses` holds the cut-offs GetMany calls wait for. */
  datatype State<K, V> = State(items: seq<Item<K, V>>, index: map<K, nat>, statuses: seq<int>, procs: seq<Proc<K, V>>,
                               loaders: seq<Loader<K, V>>, log: seq<Mark<V>>, loads: seq<Load<K, V>>,
                               returned: seq<Returned<K, V>>)

  /** `k` picks the next key where the source ranges over a map. */
  datatype Event<K, V> =
    | CallGet(i: nat, k: K, now: int)
    | CallGetMany(i: nat, keys: seq<K>, now: int)
    | CallEvict(i: nat, now: int)
    | Run(i: nat)
    | Pick(i: nat, k: K)
    | Delete(i: nat)
    | Loaded(j: nat, v: V, failed: bool, now: int)
    | LoadedBatch(j: nat, data: map<K, V>, failed: bool, now: int)
    | StoreNext(j: nat)
    | StoreKey(j: nat, k: K)

  function Goto<K, V>(s: State<K, V>, i: nat, p: Proc<K, V>): State<K, V>
    requires i < |s.procs|
  {
    s.(procs := s.procs[i := p])
  }

  function SetItem<K, V>(s: State<K, V>, id: nat, it: Item<K, V>): State<K, V>
    requires id < |s.items|
  {
    s.(items := s.items[id := it])
  }

  function AddItem<K, V>(s: State<K, V>, it: Item<K, V>): State<K, V> {
    s.(items := s.items + [it], index := s.index[it.key := |s.items|])
  }

  function Spawn<K, V>(s: State<K, V>, l: Loader<K, V>): State<K, V> {
    s.(loaders := s.loaders + [l])
  }

  function Started<K, V>(s: State<K, V>, id: nat, now: int): State<K, V> {
    s.(log := s.log + [Start(id, now)])
  }

  /** Start a load of one item. */
  function StartLoad<K, V>(s: State<K, V>, k: K, id: nat, now: int): State<K, V> {
    Spawn(Started(s, id, now), LoadOne(k, id))
  }

  /** A due item's next update time is moved, and its load starts. */
  function Claimed<K, V>(cfg: Config<V>, s: State<K, V>, k: K, id: nat, now: int): State<K, V>
    requires id < |s.items|
  {
    StartLoad(SetItem(s, id, s.items[id].(next := now + cfg.retryInterval)), k, id, now)
  }

  /** GetMany's write of a next update time, outside the item's lock. */
  function Marked<K, V>(cfg: Config<V>, s: State<K, V>, id: nat, now: int): State<K, V>
    requires id < |s.items|
  {
    SetItem(Started(s, id, now), id, s.items[id].(next := now + cfg.retryInterval))
  }

  /** The status GetMany waits on, and the batch load if there is one. */
  function Launched<K, V>(cfg: Config<V>, s: State<K, V>, pend: map<K, nat>, now: int): State<K, V> {
    var s' := s.(statuses := s.statuses + [now + cfg.waitTimeout]);
    if cfg.batched then Spawn(s', LoadBatch(pend, |s.statuses|)) else s'
  }

  /** Ids in range: an ill-formed state does not move. */
  predicate Has<K, V>(s: State<K, V>, id: nat) {
    id < |s.items|
  }

  function RunGet<K(==), V>(cfg: Config<V>, s: State<K, V>, i: nat): State<K, V>
    requires i < |s.procs|
  {
    match s.procs[i]
    case GetLookup(k, now) => Goto(s, i, if k in s.index then GetCheck(k, s.index[k], now) else GetCreate(k, now))
    case GetCreate(k, now) =>
      if k in s.index then Goto(s, i, GetCheck(k, s.index[k], now))
      else Goto(StartLoad(AddItem(s, NewItem(cfg, k, now)), k, |s.items|, now), i, GetCheck(k, |s.items|, now))
    case GetCheck(k, id, now) =>
      if !Has(s, id) then s
      else Goto(s, i, if now > s.items[id].next then GetClaim(k, id, now)
                      else GetWait(k, id, now, s.items[id].cutoff, 0))
    case GetClaim(k, id, now) =>
      if !Has(s, id) then s
      else Goto(s, i, if now > s.items[id].next then GetSet(k, id, now) else GetWait(k, id, now, s.items[id].cutoff, 0))
    case GetSet(k, id, now) =>
      if !Has(s, id) then s
      else Goto(Claimed(cfg, s, k, id, now), i, GetWait(k, id, now, s.items[id].cutoff, 0))
    case GetWait(k, id, start, cut, sleeps) =>
      if !Has(s, id) then s
      else Goto(s, i, if start + sleeps * MILLI > s.items[id].cutoff then GetTouch(k, id, start + sleeps * MILLI)
                      else GetWait(k, id, start, cut, sleeps + 1))
    case GetTouch(k, id, now) =>
      if !Has(s, id) then s else Goto(SetItem(s, id, Touch(cfg, s.items[id], now)), i, GetRead(k, id))
    case GetRead(k, id) =>
      if !Has(s, id) then s
      else Goto(s, i, Resting).(returned := s.returned + [FromGet(k, ValueOf(cfg, s.items[id]))])
    case _ => s
  }

  function RunMany<K(==), V>(cfg: Config<V>, s: State<K, V>, i: nat): State<K, V>
    requires i < |s.procs|
  {
    match s.procs[i]
    case ManyScan(now, todo, out, miss) =>
      if todo == [] then Goto(s, i, if miss == [] then ManyRead(map[], out) else ManyPick(now, miss, out, map[], false))
      else if todo[0] in s.index && Has(s, s.index[todo[0]]) then
        var id := s.index[todo[0]];
        Goto(SetItem(s, id, Touch(cfg, s.items[id], now)), i, ManyPeek(now, id, todo, out, miss))
      else Goto(s, i, ManyScan(now, todo[1..], out, miss + [todo[0]]))
    case ManyPeek(now, id, todo, out, miss) =>
      if !Has(s, id) || todo == [] then s
      else Goto(s, i, ManyScan(now, todo[1..], out[todo[0] := ValueOf(cfg, s.items[id])],
                               if now > s.items[id].next then miss + [todo[0]] else miss))
    case ManyPick(now, miss, out, pend, isNew) =>
      if miss == [] then Goto(s, i, ManyGo(now, pend, out, pend, isNew))
      else if miss[0] !in s.index then
        Goto(AddItem(Started(s, |s.items|, now), NewItem(cfg, miss[0], now)), i,
             ManyPick(now, miss[1..], out, pend[miss[0] := |s.items|], true))
      else if Has(s, s.index[miss[0]]) && now > s.items[s.index[miss[0]]].next then
        Goto(s, i, ManySet(now, s.index[miss[0]], miss, out, pend, isNew))
      else Goto(s, i, ManyPick(now, miss[1..], out, pend, isNew))
    case ManySet(now, id, miss, out, pend, isNew) =>
      if !Has(s, id) || miss == [] then s
      else Goto(Marked(cfg, s, id, now), i, ManyPick(now, miss[1..], out, pend[miss[0] := id], isNew))
    case ManyGo(now, left, out, pend, isNew) =>
      if pend == map[] then Goto(s, i, ManyRead(pend, out))
      else if !cfg.batched && left != map[] then s
      else Goto(Launched(cfg, s, pend, now), i,
                if isNew then ManyWait(now, 0, |s.statuses|, out, pend) else ManyRead(pend, out))
    case ManyWait(start, sleeps, status, out, pend) =>
      if status >= |s.statuses| then s
      else Goto(s, i, if start + sleeps * MILLI > s.statuses[status] then ManyRead(pend, out)
                      else ManyWait(start, sleeps + 1, status, out, pend))
    case ManyRead(left, out) =>
      if left == map[] then Goto(s, i, Resting).(returned := s.returned + [FromGetMany(out)]) else s
    case _ => s
  }

  function See<K(==), V>(s: State<K, V>, k: K): Victim<K>
    requires k in s.index && Has(s, s.index[k])
  {
    var it := s.items[s.index[k]];
    Victim(k, s.index[k], it.evict, |it.touches|)
  }

  /** GetMany's steps on a key `k` of a map it ranges over. */
  function PickKey<K(==), V>(cfg: Config<V>, s: State<K, V>, i: nat, k: K): State<K, V>
    requires i < |s.procs|
  {
    match s.procs[i]
    case ManyGo(now, left, out, pend, isNew) =>
      if k in left && !cfg.batched
      then Goto(Spawn(s, LoadOne(k, left[k])), i, ManyGo(now, left - {k}, out, pend, isNew)) else s
    case ManyRead(left, out) =>
      if k in left && Has(s, left[k])
      then Goto(s, i, ManyRead(left - {k}, out[k := ValueOf(cfg, s.items[left[k]])])) else s
    case EvictScan(now, victims) =>
      if k in s.index && Has(s, s.index[k]) && s.items[s.index[k]].evict < now
      then Goto(s, i, EvictScan(now, victims + [See(s, k)])) else s
    case _ => s
  }

  ghost function VictimKeys<K, V>(s: State<K, V>, victims: seq<Victim<K>>): set<K> {
    set k | k in s.index && exists v :: v in victims && v.k == k
  }

  ghost function LoaderStep<K, V>(cfg: Config<V>, s: State<K, V>, j: nat, ev: Event<K, V>): State<K, V>
    requires j < |s.loaders|
  {
    match (s.loaders[j], ev)
    case (LoadOne(k, id), Loaded(_, v, failed, now)) =>
      s.(loads := s.loads + [One(k, v, failed)],
         loaders := s.loaders[j := if Drops(cfg, failed) then Ended else StoreOne(k, id, v, failed, now)])
    case (LoadBatch(pend, status), LoadedBatch(_, data, failed, now)) =>
      s.(loads := s.loads + [Batch(data, failed)],
         loaders := s.loaders[j := if Drops(cfg, failed) then Ended else StoreBatch(pend, data, failed, now, status)])
    case (StoreOne(_, id, v, failed, now), StoreNext(_)) =>
      if !Has(s, id) then s
      else SetItem(s, id, Store(cfg, s.items[id], v, failed, now)).(
           loaders := s.loaders[j := Ended], log := s.log + [Stored(id, v, failed, now)])
    case (StoreBatch(left, data, failed, now, status), StoreKey(_, k)) =>
      if k !in left || !Has(s, left[k]) then s
      else
        var v := if k in data then data[k] else cfg.zero;
        SetItem(s, left[k], Store(cfg, s.items[left[k]], v, failed, now)).(
          loaders := s.loaders[j := StoreBatch(left - {k}, data, failed, now, status)],
          log := s.log + [Stored(left[k], v, failed, now)])
    case (StoreBatch(left, data, failed, now, status), StoreNext(_)) =>
      if left != map[] || status >= |s.statuses| then s
      else s.(statuses := s.statuses[status := now], loaders := s.loaders[j := Ended])
    case _ => s
  }

  // ----- locks

  /** GetMany's second pass, between Lock and Unlock of the map. */
  predicate HoldsMap<K, V>(p: Proc<K, V>) {
    p.ManyPick? || p.ManySet?
  }

  /** The next step locks the map, or goes on under its read lock. */
  predicate NeedsMap<K, V>(p: Proc<K, V>) {
    p.GetLookup? || p.GetCreate? || p.ManyScan? || p.EvictScan?
  }

  predicate MapBusy<K, V>(s: State<K, V>) {
    exists j :: 0 <= j < |s.procs| && HoldsMap(s.procs[j])
  }

  predicate HoldsItem<K, V>(p: Proc<K, V>, id: nat) {
    p.GetSet? && p.id == id
  }

  predicate ItemBusy<K, V>(s: State<K, V>, id: nat) {
    exists j :: 0 <= j < |s.procs| && HoldsItem(s.procs[j], id)
  }

  predicate Blocked<K, V>(s: State<K, V>, p: Proc<K, V>) {
    (NeedsMap(p) && MapBusy(s)) || (p.GetClaim? && ItemBusy(s, p.id))
  }

  /** A store waits for the item's lock. */
  predicate StoreBlocked<K, V>(s: State<K, V>, l: Loader<K, V>, ev: Event<K, V>) {
    match l
    case StoreOne(_, id, _, _, _) => ItemBusy(s, id)
    case StoreBatch(left, _, _, _, _) => ev.StoreKey? && ev.k in left && ItemBusy(s, left[ev.k])
    case _ => false
  }

  ghost function Apply<K, V>(cfg: Config<V>, s: State<K, V>, ev: Event<K, V>): State<K, V> {
    match ev
    case CallGet(i, k, now) => if i < |s.procs| && s.procs[i] == Resting then Goto(s, i, GetLookup(k, now)) else s
    case CallGetMany(i, keys, now) =>
      if i < |s.procs| && s.procs[i] == Resting then Goto(s, i, ManyScan(now, keys, map[], [])) else s
    case CallEvict(i, now) => if i < |s.procs| && s.procs[i] == Resting then Goto(s, i, EvictScan(now, [])) else s
    case Run(i) =>
      if i >= |s.procs| || Blocked(s, s.procs[i]) then s
      else if InMany(s.procs[i]) then RunMany(cfg, s, i) else RunGet(cfg, s, i)
    case Pick(i, k) => if i < |s.procs| && !Blocked(s, s.procs[i]) then PickKey(cfg, s, i, k) else s
    case Delete(i) =>
      if i < |s.procs| && s.procs[i].EvictScan? && !Blocked(s, s.procs[i])
      then Goto(s.(index := s.index - VictimKeys(s, s.procs[i].victims)), i, Resting) else s
    case Loaded(j, _, _, _) => if j < |s.loaders| then LoaderStep(cfg, s, j, ev) else s
    case LoadedBatch(j, _, _, _) => if j < |s.loaders| then LoaderStep(cfg, s, j, ev) else s
    case StoreNext(j) => if j < |s.loaders| && !StoreBlocked(s, s.loaders[j], ev) then LoaderStep(cfg, s, j, ev) else s
    case StoreKey(j, _) =>
      if j < |s.loaders| && !StoreBlocked(s, s.loaders[j], ev) then LoaderStep(cfg, s, j, ev) else s
  }

  function Begin<K, V>(n: nat): State<K, V> {
    State([], map[], [], seq(n, _ => Resting), [], [], [], [])
  }

  ghost function Exec<K, V>(cfg: Config<V>, s: State<K, V>, evs: seq<Event<K, V>>): State<K, V> {
    if evs == [] then s else Apply(cfg, Exec(cfg, s, evs[..|evs| - 1]), evs[|evs| - 1])
  }
}
