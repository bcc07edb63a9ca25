/** Runs of CacheMap that show where its guarantees end. */
module CacheMapRaces {
  import DataCache
  import opened CacheMap
  import opened CacheMapLoads
  import opened CacheMapRuns

  lemma Three<K, V>(cfg: Config<V>, s: State<K, V>, a: Event<K, V>, b: Event<K, V>, c: Event<K, V>)
    ensures Exec(cfg, s, [a, b, c]) == Apply(cfg, Apply(cfg, Apply(cfg, s, a), b), c)
  {
    assert [a, b, c][..2] == [a, b] && [a, b][..1] == [a] && [a][..0] == [];
    assert Exec(cfg, s, [a]) == Apply(cfg, s, a);
    assert Exec(cfg, s, [a, b]) == Apply(cfg, Exec(cfg, s, [a]), b);
  }

  // ----- a Get and a GetMany claim the same item

  /** A Get creates k's item at clock 0. */
  function Creates<K, V>(k: K): seq<Event<K, V>> {
    [CallGet(0, k, 0), Run(0), Run(0)]
  }

  /** A second Get at clock `late` finds the item due. */
  function GetFindsDue<K, V>(k: K, late: int): seq<Event<K, V>> {
    [CallGet(1, k, late), Run(1), Run(1)]
  }

  /** So does a GetMany at the same clock, which then writes the next update time outside the
      item's lock. */
  function ManyScans<K, V>(k: K, late: int): seq<Event<K, V>> {
    [CallGetMany(2, [k], late), Run(2), Run(2)]
  }

  function ManyFindsDue<K, V>(): seq<Event<K, V>> {
    [Run(2), Run(2), Run(1)]
  }

  /** The Get, which holds the item's lock, and the GetMany, which does not, write. */
  function BothWrite<K, V>(): seq<Event<K, V>> {
    [Run(1), Run(2)]
  }

  function Race<K, V>(k: K, late: int): seq<Event<K, V>> {
    Creates(k) + GetFindsDue(k, late) + ManyScans(k, late) + ManyFindsDue() + BothWrite()
  }

  function OneItem<K, V>(cfg: Config<V>, k: K): State<K, V> {
    State([NewItem(cfg, k, 0)],
          map[k := 0], [], [GetCheck(k, 0, 0), Resting, Resting], [LoadOne(k, 0)], [Start(0, 0)], [], [])
  }

  lemma RaceCreates<K, V>(cfg: Config<V>, k: K)
    ensures Exec(cfg, Begin(3), Creates(k)) == OneItem(cfg, k)
  {
    var s := Begin<K, V>(3);
    Three(cfg, s, CallGet(0, k, 0), Run(0), Run(0));
    assert Apply(cfg, s, CallGet(0, k, 0)).procs == [GetLookup(k, 0), Resting, Resting];
  }

  lemma RaceGets<K, V>(cfg: Config<V>, k: K, late: int)
    requires late > cfg.retryInterval
    ensures Exec(cfg, OneItem(cfg, k), GetFindsDue(k, late)) ==
            OneItem(cfg, k).(procs := [GetCheck(k, 0, 0), GetClaim(k, 0, late), Resting])
  {
    Three(cfg, OneItem(cfg, k), CallGet(1, k, late), Run(1), Run(1));
  }

  function Scanned<K, V>(cfg: Config<V>, k: K, late: int): State<K, V> {
    OneItem(cfg, k).(items := [Touch(cfg, NewItem(cfg, k, 0), late)],
                     procs := [GetCheck(k, 0, 0), GetClaim(k, 0, late), ManyScan(late, [], map[k := cfg.zero], [k])])
  }

  function Peeked<K, V>(cfg: Config<V>, k: K, late: int): State<K, V> {
    OneItem(cfg, k).(items := [Touch(cfg, NewItem(cfg, k, 0), late)],
                     procs := [GetCheck(k, 0, 0), GetClaim(k, 0, late), ManyPeek(late, 0, [k], map[], [])])
  }

  lemma PeekDue<K, V>(cfg: Config<V>, k: K, late: int)
    requires late > cfg.retryInterval
    ensures Apply(cfg, Peeked(cfg, k, late), Run(2)) == Scanned(cfg, k, late)
  {
    var s := Peeked(cfg, k, late);
    assert [k][1..] == [] && [] + [k] == [k] && map[][k := cfg.zero] == map[k := cfg.zero];
    assert RunMany(cfg, s, 2) == Goto(s, 2, ManyScan(late, [], map[k := cfg.zero], [k]));
  }

  lemma RaceScans<K, V>(cfg: Config<V>, k: K, late: int)
    requires late > cfg.retryInterval
    ensures Exec(cfg, OneItem(cfg, k).(procs := [GetCheck(k, 0, 0), GetClaim(k, 0, late), Resting]),
                 ManyScans(k, late)) ==
            Scanned(cfg, k, late)
  {
    var s := OneItem(cfg, k).(procs := [GetCheck(k, 0, 0), GetClaim(k, 0, late), Resting]);
    Three(cfg, s, CallGetMany(2, [k], late), Run(2), Run(2));
    var called := Goto(s, 2, ManyScan(late, [k], map[], []));
    assert Apply(cfg, s, CallGetMany(2, [k], late)) == called;
    assert Apply(cfg, called, Run(2)) ==
        Peeked(cfg, k, late) by { assert RunMany(cfg, called, 2) == Peeked(cfg, k, late); }
    PeekDue(cfg, k, late);
  }

  /** Both found the item due; the Get has locked it. */
  function BothClaim<K, V>(cfg: Config<V>, k: K, late: int): State<K, V> {
    Scanned(cfg, k, late).(procs := [GetCheck(k, 0, 0), GetSet(k, 0, late),
                                     ManySet(late, 0, [k], map[k := cfg.zero], map[], false)])
  }

  /** GetMany's two steps, then the Get's. */
  lemma ManyIsDue<K, V>(cfg: Config<V>, k: K, late: int)
    requires late > cfg.retryInterval
    ensures var s := Scanned(cfg, k, late);
            Apply(cfg, Apply(cfg, s, Run(2)), Run(2)) ==
                Goto(s, 2, ManySet(late, 0, [k], map[k := cfg.zero], map[], false))
  {
    var s := Scanned(cfg, k, late);
    assert RunMany(cfg, s, 2) == Goto(s, 2, ManyPick(late, [k], map[k := cfg.zero], map[], false));
  }

  lemma RaceClaims<K, V>(cfg: Config<V>, k: K, late: int)
    requires late > cfg.retryInterval
    ensures Exec(cfg, Scanned(cfg, k, late), ManyFindsDue()) == BothClaim(cfg, k, late)
  {
    var s := Scanned(cfg, k, late);
    Three(cfg, s, Run(2), Run(2), Run(1));
    ManyIsDue(cfg, k, late);
    var due := Goto(s, 2, ManySet(late, 0, [k], map[k := cfg.zero], map[], false));
    assert RunGet(cfg, due, 1) == BothClaim(cfg, k, late);
  }

  lemma RaceWrites<K, V>(cfg: Config<V>, k: K, late: int)
    ensures Exec(cfg, BothClaim(cfg, k, late), BothWrite()).log == [Start(0, 0), Start(0, late), Start(0, late)]
  {
    var s := BothClaim(cfg, k, late);
    var t := Apply(cfg, s, Run(1));
    var one: seq<Event<K, V>> := [Run(1)];
    assert BothWrite<K, V>()[..1] == one && one[..0] == [];
    assert Exec(cfg, s, one) == t;
    assert t.log == [Start(0, 0), Start(0, late)] && t.procs[2] == s.procs[2];
  }

  /** GetMany checks and writes an item's next update time outside the item's lock: after this run
      two loads of the item have started at the same clock with no store between them. */
  lemma GetManyBreaksSpacing<K, V>(cfg: Config<V>, k: K, late: int)
    requires 0 < cfg.retryInterval < late
    ensures Exec(cfg, Begin(3), Race(k, late)).log == [Start(0, 0), Start(0, late), Start(0, late)]
    ensures !DataCache.Spaced(Timing(cfg), Only(Exec(cfg, Begin<K, V>(3), Race(k, late)).log, 0))
  {
    var b := Begin<K, V>(3);
    RaceCreates(cfg, k);
    RaceGets(cfg, k, late);
    RaceScans(cfg, k, late);
    RaceClaims(cfg, k, late);
    RaceWrites(cfg, k, late);
    ExecAppend(cfg, b, Creates(k), GetFindsDue(k, late));
    ExecAppend(cfg, b, Creates(k) + GetFindsDue(k, late), ManyScans(k, late));
    ExecAppend(cfg, b, Creates(k) + GetFindsDue(k, late) + ManyScans(k, late), ManyFindsDue());
    ExecAppend(cfg, b, Creates(k) + GetFindsDue(k, late) + ManyScans(k, late) + ManyFindsDue(), BothWrite());
    SameClock(cfg, late);
  }

  lemma SameClock<V>(cfg: Config<V>, late: int)
    requires cfg.retryInterval > 0
    ensures !DataCache.Spaced(Timing(cfg), Only<V>([Start(0, 0), Start(0, late), Start(0, late)], 0))
  {
    var one, two: seq<Mark<V>> := [Start(0, 0)], [Start(0, 0), Start(0, late)];
    OnlyMore<V>([], Start(0, 0), 0);
    OnlyMore(one, Start(0, late), 0);
    OnlyMore(two, Start(0, late), 0);
    assert [] + [Start(0, 0)] == one && one + [Start(0, late)] == two;
    var all := two + [Start(0, late)];
    assert all == [Start(0, 0), Start(0, late), Start(0, late)];
    assert Only(all, 0) == [DataCache.Start(0), DataCache.Start(late), DataCache.Start(late)];
    assert DataCache.OpenStart(Only(all, 0), 1, 2);
  }

  // ----- an access between evictKeys' scan and its deletion

  /** evictKeys scans k's item at clock `late`. */
  function Scans<K, V>(k: K, late: int): seq<Event<K, V>> {
    [CallEvict(1, late), Pick(1, k), CallGetMany(2, [k], late)]
  }

  /** A GetMany touches it, then evictKeys deletes it. */
  function TouchedThenDeleted<K, V>(): seq<Event<K, V>> {
    [Run(2), Run(2), Delete(1)]
  }

  lemma EvictionScans<K, V>(cfg: Config<V>, k: K, late: int)
    requires late > cfg.evictTimeout
    ensures Exec(cfg, OneItem(cfg, k), Scans(k, late)) == Scanning(cfg, k, late)
  {
    var s := OneItem(cfg, k);
    Three(cfg, s, CallEvict(1, late), Pick(1, k), CallGetMany(2, [k], late));
    assert Apply(cfg, s, CallEvict(1, late)) == Goto(s, 1, EvictScan(late, []));
    EvictionSees(cfg, k, late);
  }

  lemma EvictionSees<K, V>(cfg: Config<V>, k: K, late: int)
    requires late > cfg.evictTimeout
    ensures var s := OneItem(cfg, k);
            PickKey(cfg, Goto(s, 1, EvictScan(late, [])), 1, k) ==
                Goto(s, 1, EvictScan(late, [Victim(k, 0, cfg.evictTimeout, 1)]))
  {
    var scanning := Goto(OneItem(cfg, k), 1, EvictScan(late, []));
    var v := Victim(k, 0, cfg.evictTimeout, 1);
    assert See(scanning, k) == v && [] + [v] == [v];
    assert PickKey(cfg, scanning, 1, k) == Goto(scanning, 1, EvictScan(late, [v]));
  }

  function Scanning<K, V>(cfg: Config<V>, k: K, late: int): State<K, V> {
    OneItem(cfg, k).(procs := [GetCheck(k, 0, 0), EvictScan(late, [Victim(k, 0, cfg.evictTimeout, 1)]),
                               ManyScan(late, [k], map[], [])])
  }

  /** The GetMany has accessed the item evictKeys scanned. */
  function Touched<K, V>(cfg: Config<V>, k: K, late: int, many: Proc<K, V>): State<K, V> {
    OneItem(cfg, k).(items := [Touch(cfg, NewItem(cfg, k, 0), late)],
                     procs := [GetCheck(k, 0, 0), EvictScan(late, [Victim(k, 0, cfg.evictTimeout, 1)]), many])
  }

  lemma ManyTouches<K, V>(cfg: Config<V>, k: K, late: int)
    ensures Apply(cfg, Scanning(cfg, k, late), Run(2)) == Touched(cfg, k, late, ManyPeek(late, 0, [k], map[], []))
  {
    var s := Scanning(cfg, k, late);
    assert RunMany(cfg, s, 2) == Touched(cfg, k, late, ManyPeek(late, 0, [k], map[], []));
  }

  lemma ManyPeeks<K, V>(cfg: Config<V>, k: K, late: int, miss: seq<K>)
    requires miss == if late > cfg.retryInterval then [k] else []
    ensures RunMany(cfg, Touched(cfg, k, late, ManyPeek(late, 0, [k], map[], [])), 2) ==
            Touched(cfg, k, late, ManyScan(late, [], map[k := cfg.zero], miss))
  {
    var s := Touched(cfg, k, late, ManyPeek(late, 0, [k], map[], []));
    var t := Touched(cfg, k, late, ManyScan(late, [], map[k := cfg.zero], miss));
    assert [k][1..] == [] && [] + [k] == [k];
    assert t.procs == s.procs[2 := ManyScan(late, [], map[k := cfg.zero], miss)];
  }

  lemma Deletes<K, V>(cfg: Config<V>, k: K, late: int, miss: seq<K>)
    ensures var s := Touched(cfg, k, late, ManyScan(late, [], map[k := cfg.zero], miss));
            Apply(cfg, s, Delete(1)).index == map[] && Apply(cfg, s, Delete(1)).items == s.items
  {
    var v := Victim(k, 0, cfg.evictTimeout, 1);
    assert v in [v];
  }

  lemma EvictionDeletes<K, V>(cfg: Config<V>, k: K, late: int)
    ensures var t := Exec(cfg, Scanning(cfg, k, late), TouchedThenDeleted());
            t.index == map[] && t.items == [Touch(cfg, NewItem(cfg, k, 0), late)]
  {
    Three(cfg, Scanning(cfg, k, late), Run(2), Run(2), Delete(1));
    ManyTouches(cfg, k, late);
    var miss := if late > cfg.retryInterval then [k] else [];
    ManyPeeks(cfg, k, late, miss);
    Deletes(cfg, k, late, miss);
  }

  /** evictKeys may delete a key that was accessed at its own clock: the scan and the deletion are
      two locked stretches. */
  lemma EvictsTouchedKey<K, V>(cfg: Config<V>, k: K, late: int)
    requires 0 < cfg.evictTimeout < late
    ensures var t := Exec(cfg, Begin(3), Creates(k) + Scans(k, late) + TouchedThenDeleted());
            k !in t.index && |t.items| == 1 && t.items[0].key == k && t.items[0].evict == late + cfg.evictTimeout
  {
    var b := Begin<K, V>(3);
    RaceCreates(cfg, k);
    EvictionScans(cfg, k, late);
    EvictionDeletes(cfg, k, late);
    ExecAppend(cfg, b, Creates(k), Scans(k, late));
    ExecAppend(cfg, b, Creates(k) + Scans(k, late), TouchedThenDeleted());
  }
}
