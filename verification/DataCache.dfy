/** The wait loop both caches end a Get with. */
module FirstLoadWait {
  const MILLI: int := 1_000_000
  const DEFAULT_RETRY_INTERVAL: int := 1_000_000_000

  /** How many sleeps the loop makes at most when it starts at `now` with cut-off `cut`. */
  function MaxSleeps(now: int, cut: int): nat {
    if now > cut then 0 else (cut - now) / MILLI + 1
  }

  /** `seen(k)` is the cut-off read after `k` sleeps; others may lower it meanwhile. */
  method Await(start: int, seen: nat -> int) returns (now: int, sleeps: nat)
    requires forall j: nat, k: nat :: j <= k ==> seen(k) <= seen(j)
    ensures now == start + sleeps * MILLI && now > seen(sleeps)
    ensures forall k: nat :: k < sleeps ==> start + k * MILLI <= seen(k)
    ensures sleeps <= MaxSleeps(start, seen(0))
    ensures (forall k: nat :: seen(k) == seen(0)) ==> sleeps == MaxSleeps(start, seen(0))
  {
    now, sleeps := start, 0;
    while now <= seen(sleeps)
      invariant now == start + sleeps * MILLI
      invariant forall k: nat :: k < sleeps ==> start + k * MILLI <= seen(k)
      decreases seen(0) - now
    {
      sleeps := sleeps + 1;
      now := now + MILLI;
    }
    if sleeps > 0 {
      assert start + (sleeps - 1) * MILLI <= seen(sleeps - 1) <= seen(0);
    }
  }
}

/** DataCache: one value, refreshed in the background by at most one load per retry interval. */
module DataCache {
  import opened FirstLoadWait

  /** Normalised options, in nanoseconds. */
  datatype Config = Config(expiration: int, expirationOnErr: int, retryInterval: int, waitTimeout: int)

  /** The conversion in NewDataCache, from milliseconds. */
  function Configure(expiration: int, expirationOnErr: int, retryInterval: int, waitTimeout: int): (cfg: Config)
    ensures cfg.expiration == 1_000_000 * expiration && cfg.expirationOnErr == 1_000_000 * expirationOnErr
    ensures cfg.retryInterval == if retryInterval > 0 then 1_000_000 * retryInterval else 1_000_000_000
    ensures cfg.waitTimeout == if waitTimeout > 0 then 1_000_000 * waitTimeout else 0
    ensures Sound(cfg)
  {
    Config(expiration * MILLI, expirationOnErr * MILLI,
           if retryInterval * MILLI <= 0 then DEFAULT_RETRY_INTERVAL else retryInterval * MILLI,
           if waitTimeout * MILLI <= 0 then 0 else waitTimeout * MILLI)
  }

  predicate Sound(cfg: Config) {
    cfg.retryInterval > 0 && cfg.waitTimeout >= 0
  }

  datatype Cache<V> = Cache(data: V, next: int, cutoff: int)

  /** Get's locked check: whether to load, and the new times. */
  function Claim<V>(cfg: Config, c: Cache<V>, now: int): (Cache<V>, bool) {
    (c.(next := if now >= c.next then now + cfg.retryInterval else c.next,
        cutoff := if c.cutoff == 0 then now + cfg.waitTimeout else c.cutoff),
     now >= c.next)
  }

  /** What a finished load does: nothing after an error that is not to be cached. */
  predicate Drops(cfg: Config, failed: bool) {
    failed && cfg.expirationOnErr <= 0
  }

  function Store<V>(cfg: Config, c: Cache<V>, v: V, failed: bool, now: int): Cache<V> {
    Cache(v, now + (if failed then cfg.expirationOnErr else cfg.expiration), if now < c.cutoff then now else c.cutoff)
  }

  // ----- any number of Gets and background loads

  datatype Getter =
    | Resting
    | Peeking(now: int)                       // clock read, before the read of nextUpdateTime
    | Claiming(now: int)
    | Waiting(start: int, cut: int, sleeps: nat)  // entered the loop at `start`, with cut-off `cut`
    | Reading                                 // left it, before the unlocked read of data

  datatype Loader<V> = Loading | Storing(v: V, failed: bool, now: int) | Finished

  datatype Mark<V> = Start(captured: int) | Stored(v: V, failed: bool, now: int)

  /** `log` lists load starts and completed stores in order, `returned` the results of Gets. */
  datatype State<V> = State(c: Cache<V>, getters: seq<Getter>, loaders: seq<Loader<V>>, log: seq<Mark<V>>,
                            returned: seq<V>)

  datatype Event<V> =
    | Call(i: nat, now: int)
    | Run(i: nat)
    | Loaded(j: nat, v: V, failed: bool, now: int)
    | Finish(j: nat)

  function Begin<V>(init: V, withData: bool, created: int, n: nat): State<V> {
    State(Cache(init, 0, if withData then created else 0), seq(n, _ => Resting), [], [], [])
  }

  function Put<V>(s: State<V>, i: nat, g: Getter): State<V>
    requires i < |s.getters|
  {
    s.(getters := s.getters[i := g])
  }

  function Advance<V>(cfg: Config, s: State<V>, i: nat): State<V>
    requires i < |s.getters|
  {
    match s.getters[i]
    case Resting => s
    case Peeking(now) => Put(s, i, if now >= s.c.next then Claiming(now) else Waiting(now, s.c.cutoff, 0))
    case Claiming(now) =>
      var (c, load) := Claim(cfg, s.c, now);
      var s' := Put(s.(c := c), i, Waiting(now, c.cutoff, 0));
      if load then s'.(loaders := s.loaders + [Loading], log := s.log + [Start(now)]) else s'
    case Waiting(start, cut, sleeps) =>
      if start + sleeps * MILLI > s.c.cutoff then Put(s, i, Reading) else Put(s, i, Waiting(start, cut, sleeps + 1))
    case Reading => Put(s, i, Resting).(returned := s.returned + [s.c.data])
  }

  /** Clock readings are positive: Unix times. */
  function Apply<V>(cfg: Config, s: State<V>, ev: Event<V>): State<V> {
    match ev
    case Call(i, now) => if i < |s.getters| && s.getters[i] == Resting && now > 0 then Put(s, i, Peeking(now)) else s
    case Run(i) => if i < |s.getters| then Advance(cfg, s, i) else s
    case Loaded(j, v, failed, now) =>
      if j < |s.loaders| && s.loaders[j].Loading? && now > 0
      then s.(loaders := s.loaders[j := if Drops(cfg, failed) then Finished else Storing(v, failed, now)]) else s
    case Finish(j) =>
      if j < |s.loaders| && s.loaders[j].Storing?
      then
        var l := s.loaders[j];
        s.(c := Store(cfg, s.c, l.v, l.failed, l.now), loaders := s.loaders[j := Finished],
           log := s.log + [Stored(l.v, l.failed, l.now)])
      else s
  }

  function Exec<V>(cfg: Config, s: State<V>, evs: seq<Event<V>>): State<V> {
    if evs == [] then s else Apply(cfg, Exec(cfg, s, evs[..|evs| - 1]), evs[|evs| - 1])
  }

  // ----- the first-load wait

  ghost predicate CutoffSet<V>(s: State<V>) {
    && s.c.cutoff >= 0
    && (s.c.next != 0 || s.loaders != [] ==> s.c.cutoff > 0)
    && (forall j :: 0 <= j < |s.loaders| && s.loaders[j].Storing? ==> s.loaders[j].now > 0)
  }

  ghost predicate GetterWaits<V>(s: State<V>, g: Getter) {
    match g
    case Resting => true
    case Peeking(now) => now > 0
    case Claiming(now) => now > 0
    case Waiting(start, cut, sleeps) =>
      && 0 < s.c.cutoff <= cut
      && (sleeps > 0 ==> start + (sleeps - 1) * MILLI <= cut)
    case Reading => true
  }

  ghost predicate WaitInv<V>(s: State<V>) {
    CutoffSet(s) && forall i :: 0 <= i < |s.getters| ==> GetterWaits(s, s.getters[i])
  }

  lemma WaitStep<V>(cfg: Config, s: State<V>, ev: Event<V>)
    requires Sound(cfg) && WaitInv(s)
    ensures WaitInv(Apply(cfg, s, ev))
    ensures s.c.cutoff > 0 ==> 0 < Apply(cfg, s, ev).c.cutoff <= s.c.cutoff
  {
  }

  lemma {:induction false} WaitReachable<V>(
      cfg: Config, init: V, withData: bool, created: int, n: nat, evs: seq<Event<V>>)
    requires Sound(cfg) && created > 0
    ensures WaitInv(Exec(cfg, Begin(init, withData, created, n), evs))
  {
    if evs != [] {
      WaitReachable(cfg, init, withData, created, n, evs[..|evs| - 1]);
      WaitStep(cfg, Exec(cfg, Begin(init, withData, created, n), evs[..|evs| - 1]), evs[|evs| - 1]);
    }
  }

  /** The first update sets the cut-off no later than the next update time; while it is set, no
      step raises it. */
  lemma CutoffIsSet<V>(cfg: Config, init: V, withData: bool, created: int, n: nat, evs: seq<Event<V>>, ev: Event<V>)
    requires Sound(cfg) && created > 0
    ensures var s := Exec(cfg, Begin(init, withData, created, n), evs);
            && (s.c.next != 0 ==> s.c.cutoff != 0)
            && (s.c.cutoff != 0 ==> 0 < Apply(cfg, s, ev).c.cutoff <= s.c.cutoff)
  {
    WaitReachable(cfg, init, withData, created, n, evs);
    WaitStep(cfg, Exec(cfg, Begin(init, withData, created, n), evs), ev);
  }

  /** Every Get that waits does so against a set cut-off, which never rises, goes on exactly once its
      clock is past it, and sleeps at most (cutoff - now)/1ms + 1 times, however loads and other Gets
      interfere; once it has, its next step ends the wait, and the one after returns the value it
      finds. */
  lemma WaitIsBounded<V>(cfg: Config, init: V, withData: bool, created: int, n: nat, evs: seq<Event<V>>, i: nat)
    requires Sound(cfg) && created > 0
    requires var s := Exec(cfg, Begin(init, withData, created, n), evs);
             i < |s.getters| && s.getters[i].Waiting?
    ensures var s := Exec(cfg, Begin(init, withData, created, n), evs);
            && 0 < s.c.cutoff <= s.getters[i].cut
            && s.getters[i].sleeps <= MaxSleeps(s.getters[i].start, s.getters[i].cut)
            && (Apply(cfg, s, Run(i)).getters[i] == Reading <==>
                  s.getters[i].start + s.getters[i].sleeps * 1_000_000 > s.c.cutoff)
            && (s.getters[i].sleeps == MaxSleeps(s.getters[i].start, s.getters[i].cut) ==>
                  Apply(cfg, s, Run(i)).getters[i] == Reading
                  && Apply(cfg, Apply(cfg, s, Run(i)), Run(i)).returned == s.returned + [s.c.data])
  {
    WaitReachable(cfg, init, withData, created, n, evs);
    var s := Exec(cfg, Begin(init, withData, created, n), evs);
    assert GetterWaits(s, s.getters[i]);
    assert s.getters[i].sleeps > 0 ==> s.getters[i].sleeps - 1 <= (s.getters[i].cut - s.getters[i].start) / MILLI;
  }

  // ----- load throttling

  /** Start of a load, with no store from `i` up to `j`. */
  ghost predicate OpenStart<V>(log: seq<Mark<V>>, i: int, j: int) {
    0 <= i < j <= |log| && log[i].Start? && forall k :: i < k < j ==> log[k].Start?
  }

  /** Two load starts with no completed store between them are a retry interval apart. */
  ghost predicate Spaced<V>(cfg: Config, log: seq<Mark<V>>) {
    forall i, j :: OpenStart(log, i, j) && j < |log| && log[j].Start? ==>
        log[i].captured + cfg.retryInterval <= log[j].captured
  }

  /** Starts are spaced, and the next is not due before a retry interval after the last open one. */
  ghost predicate Throttles<V>(cfg: Config, log: seq<Mark<V>>, next: int) {
    && Spaced(cfg, log)
    && (forall i :: OpenStart(log, i, |log|) ==> log[i].captured + cfg.retryInterval <= next)
  }

  ghost predicate Throttled<V>(cfg: Config, s: State<V>) {
    Throttles(cfg, s.log, s.c.next)
  }

  lemma SpacedMore<V>(cfg: Config, log: seq<Mark<V>>, m: Mark<V>)
    requires Spaced(cfg, log)
    requires m.Start? ==> forall i :: OpenStart(log, i, |log|) ==> log[i].captured + cfg.retryInterval <= m.captured
    ensures Spaced(cfg, log + [m])
  {
    var more := log + [m];
    forall i, j | OpenStart(more, i, j) && j < |more| && more[j].Start?
      ensures more[i].captured + cfg.retryInterval <= more[j].captured
    {
      assert forall k :: 0 <= k < |log| ==> more[k] == log[k];
      assert OpenStart(log, i, j);
    }
  }

  /** A store opens any interval; a start that is due moves the next one. */
  lemma ThrottlesMore<V>(cfg: Config, log: seq<Mark<V>>, next: int, m: Mark<V>, next': int)
    requires cfg.retryInterval > 0 && Throttles(cfg, log, next)
    requires m.Start? ==> next <= m.captured && next' == m.captured + cfg.retryInterval
    ensures Throttles(cfg, log + [m], next')
  {
    var more := log + [m];
    SpacedMore(cfg, log, m);
    forall i | OpenStart(more, i, |more|) ensures more[i].captured + cfg.retryInterval <= next' {
      if i < |log| {
        assert more[|log|].Start?;
        assert forall k :: i < k < |log| ==> more[k] == log[k];
        assert OpenStart(log, i, |log|);
      }
    }
  }

  lemma ThrottleStep<V>(cfg: Config, s: State<V>, ev: Event<V>)
    requires Sound(cfg) && Throttled(cfg, s)
    ensures Throttled(cfg, Apply(cfg, s, ev))
  {
    var s' := Apply(cfg, s, ev);
    if s'.log != s.log {
      var m := s'.log[|s.log|];
      assert s'.log == s.log + [m];
      ThrottlesMore(cfg, s.log, s.c.next, m, s'.c.next);
    }
  }

  lemma {:induction false} LoadsAreSpaced<V>(
      cfg: Config, init: V, withData: bool, created: int, n: nat, evs: seq<Event<V>>)
    requires Sound(cfg)
    ensures Throttled(cfg, Exec(cfg, Begin(init, withData, created, n), evs))
  {
    if evs != [] {
      LoadsAreSpaced(cfg, init, withData, created, n, evs[..|evs| - 1]);
      ThrottleStep(cfg, Exec(cfg, Begin(init, withData, created, n), evs[..|evs| - 1]), evs[|evs| - 1]);
    }
  }

  /** Starts whose captured time lies in [a, b]. */
  function StartsIn<V>(log: seq<Mark<V>>, a: int, b: int): nat {
    if log == [] then 0
    else
      var m := log[|log| - 1];
      StartsIn(log[..|log| - 1], a, b) + if m.Start? && a <= m.captured <= b then 1 else 0
  }

  ghost predicate NoStores<V>(log: seq<Mark<V>>) {
    forall k :: 0 <= k < |log| ==> log[k].Start?
  }

  /** `x` points at distances of `d` need a window of that length. */
  ghost predicate FitIn(x: nat, d: int, window: int) {
    x > 0 ==> (x - 1) * d <= window
  }

  /** Starts a retry interval apart in a window of length b - a. */
  lemma {:induction false} StartsBound<V>(cfg: Config, log: seq<Mark<V>>, a: int, b: int)
    requires cfg.retryInterval > 0 && Spaced(cfg, log) && NoStores(log)
    ensures FitIn(StartsIn(log, a, b), cfg.retryInterval, b - a)
  {
    if log != [] {
      var init, t := log[..|log| - 1], log[|log| - 1].captured;
      SpacedInit(cfg, log);
      if a <= t <= b {
        StartsBound(cfg, init, a, t - cfg.retryInterval);
        SameStarts(cfg, log, a, b);
        OneMoreFits(StartsIn(init, a, b), cfg.retryInterval, t - a, b - a);
      } else {
        StartsBound(cfg, init, a, b);
      }
    }
  }

  lemma OneMoreFits(x: nat, d: int, w: int, wider: int)
    requires d > 0 && 0 <= w <= wider && FitIn(x, d, w - d)
    ensures FitIn(x + 1, d, wider)
  {
    assert x * d == (x - 1) * d + d;
  }

  lemma SpacedInit<V>(cfg: Config, log: seq<Mark<V>>)
    requires log != [] && Spaced(cfg, log)
    ensures Spaced(cfg, log[..|log| - 1])
  {
  }

  /** The last start, if no store followed it, decides the next update time. */
  ghost predicate Decided<V>(cfg: Config, log: seq<Mark<V>>, next: int) {
    log != [] && log[|log| - 1].Start? ==> next == log[|log| - 1].captured + cfg.retryInterval
  }

  /** One more mark keeps a log spaced exactly if it is a store, follows one, or is a start that
      was due. */
  lemma SpacedIff<V>(cfg: Config, log: seq<Mark<V>>, next: int, m: Mark<V>)
    requires cfg.retryInterval > 0 && Decided(cfg, log, next)
    ensures Spaced(cfg, log + [m]) <==>
            Spaced(cfg, log) && (m.Stored? || log == [] || log[|log| - 1].Stored? || next <= m.captured)
  {
    var more, last := log + [m], |log| - 1;
    if Spaced(cfg, more) {
      SpacedInit(cfg, more);
      assert more[..|log|] == log;
      if m.Start? && log != [] && log[last].Start? {
        assert OpenStart(more, last, |log|);
      }
    } else if Spaced(cfg, log) && (m.Stored? || log == [] || log[last].Stored? || next <= m.captured) {
      forall i | m.Start? && OpenStart(log, i, |log|) ensures log[i].captured + cfg.retryInterval <= m.captured {
        if i < last {
          assert OpenStart(log, i, last);
        }
      }
      SpacedMore(cfg, log, m);
    }
  }

  /** All earlier starts lie a retry interval before the last one. */
  lemma {:induction false} SameStarts<V>(cfg: Config, log: seq<Mark<V>>, a: int, b: int)
    requires log != [] && cfg.retryInterval > 0 && Spaced(cfg, log) && NoStores(log) && log[|log| - 1].captured <= b
    ensures var init := log[..|log| - 1];
            StartsIn(init, a, log[|log| - 1].captured - cfg.retryInterval) == StartsIn(init, a, b)
  {
    var last := |log| - 1;
    forall i | 0 <= i < last ensures log[i].captured + cfg.retryInterval <= log[last].captured {
      assert OpenStart(log, i, last);
    }
    SameWindow(log[..last], a, log[last].captured - cfg.retryInterval, b);
  }

  lemma {:induction false} SameWindow<V>(log: seq<Mark<V>>, a: int, b: int, b': int)
    requires b <= b' && forall i :: 0 <= i < |log| ==> log[i].Start? && log[i].captured <= b
    ensures StartsIn(log, a, b) == StartsIn(log, a, b')
  {
    if log != [] {
      SameWindow(log[..|log| - 1], a, b, b');
    }
  }

  lemma StartsPerWindow<V>(cfg: Config, log: seq<Mark<V>>, a: int, b: int)
    requires cfg.retryInterval > 0 && Spaced(cfg, log) && NoStores(log) && a <= b
    ensures StartsIn(log, a, b) <= (b - a) / cfg.retryInterval + 1
  {
    StartsBound(cfg, log, a, b);
    Quotient(StartsIn(log, a, b) - 1, b - a, cfg.retryInterval);
  }

  /** The source failed every load in the run. */
  ghost predicate AlwaysFails<V>(evs: seq<Event<V>>) {
    forall k :: 0 <= k < |evs| && evs[k].Loaded? ==> evs[k].failed
  }

  lemma {:induction false} FailuresStoreNothing<V>(cfg: Config, s: State<V>, evs: seq<Event<V>>)
    requires AlwaysFails(evs) && cfg.expirationOnErr <= 0 && s.loaders == [] && s.log == []
    ensures var t := Exec(cfg, s, evs);
            NoStores(t.log) && t.c.data == s.c.data && forall j :: 0 <= j < |t.loaders| ==> !t.loaders[j].Storing?
  {
    if evs != [] {
      var init := evs[..|evs| - 1];
      forall k | 0 <= k < |init| && init[k].Loaded? ensures init[k].failed {
        assert evs[k] == init[k];
      }
      FailuresStoreNothing(cfg, s, init);
    }
  }

  /** A source that always fails, with failures not cached, is called at most (b - a)/retryInterval + 1
      times for captured times in [a, b], under any interleaving. */
  lemma FailingSourceIsThrottled<V>(
      cfg: Config, init: V, withData: bool, created: int, n: nat, evs: seq<Event<V>>, a: int, b: int)
    requires Sound(cfg) && AlwaysFails(evs) && cfg.expirationOnErr <= 0 && a <= b
    ensures StartsIn(Exec(cfg, Begin(init, withData, created, n), evs).log, a, b) <= (b - a) / cfg.retryInterval + 1
  {
    var s := Exec(cfg, Begin(init, withData, created, n), evs);
    LoadsAreSpaced(cfg, init, withData, created, n, evs);
    FailuresStoreNothing(cfg, Begin(init, withData, created, n), evs);
    StartsPerWindow(cfg, s.log, a, b);
  }

  lemma Quotient(x: int, y: int, d: int)
    requires d > 0 && y >= 0 && (x > 0 ==> x * d <= y)
    ensures x <= y / d
  {
    assert y < (y / d + 1) * d;
  }

  // ----- what the cache holds

  /** The value of the last load that was stored. */
  function LastValue<V>(log: seq<Mark<V>>, init: V): V {
    if log == [] then init
    else match log[|log| - 1]
      case Stored(v, _, _) => v
      case Start(_) => LastValue(log[..|log| - 1], init)
  }

  /** When the next load is due, from the latest start or store alone. */
  function DueAt<V>(cfg: Config, log: seq<Mark<V>>): int {
    if log == [] then 0
    else match log[|log| - 1]
      case Start(captured) => captured + cfg.retryInterval
      case Stored(_, failed, now) => now + if failed then cfg.expirationOnErr else cfg.expiration
  }

  ghost predicate Holds<V>(cfg: Config, init: V, s: State<V>) {
    s.c.data == LastValue(s.log, init) && s.c.next == DueAt(cfg, s.log)
  }

  lemma HoldsStep<V>(cfg: Config, init: V, s: State<V>, ev: Event<V>)
    requires Holds(cfg, init, s)
    ensures Holds(cfg, init, Apply(cfg, s, ev))
  {
    var s' := Apply(cfg, s, ev);
    assert s'.log == s.log || (s'.log == s.log + [s'.log[|s.log|]] && s'.log[..|s.log|] == s.log);
  }

  lemma {:induction false} HoldsReachable<V>(
      cfg: Config, init: V, withData: bool, created: int, n: nat, evs: seq<Event<V>>)
    ensures Holds(cfg, init, Exec(cfg, Begin(init, withData, created, n), evs))
  {
    if evs != [] {
      HoldsReachable(cfg, init, withData, created, n, evs[..|evs| - 1]);
      HoldsStep(cfg, init, Exec(cfg, Begin(init, withData, created, n), evs[..|evs| - 1]), evs[|evs| - 1]);
    }
  }

  /** In every interleaving the cache holds what the last stored load returned, the initial value
      before the first; that is what a Get past its wait returns, and a Get that claims an update
      starts a load exactly if its clock has reached the last start plus retryInterval, or the last
      store plus expiration (expirationOnErr if that load had failed). */
  lemma HoldsLastLoad<V>(cfg: Config, init: V, withData: bool, created: int, n: nat, evs: seq<Event<V>>, i: nat)
    requires i < |Exec(cfg, Begin(init, withData, created, n), evs).getters|
    ensures var s := Exec(cfg, Begin(init, withData, created, n), evs);
            && s.c.data == LastValue(s.log, init) && s.c.next == DueAt(cfg, s.log)
            && (s.getters[i].Reading? ==>
                  Apply(cfg, s, Run(i)).returned == s.returned + [LastValue(s.log, init)])
            && (s.getters[i].Claiming? ==>
                  Apply(cfg, s, Run(i)).log ==
                  s.log + if s.getters[i].now >= DueAt(cfg, s.log) then [Start(s.getters[i].now)] else [])
  {
    HoldsReachable(cfg, init, withData, created, n, evs);
  }

  /** Each value was the one last stored at some moment, and no moment lies before an earlier Get's. */
  ghost predicate ReturnedAt<V>(init: V, log: seq<Mark<V>>, returned: seq<V>, at: seq<nat>) {
    && |at| == |returned|
    && (forall k :: 0 <= k < |at| ==> at[k] <= |log| && returned[k] == LastValue(log[..at[k]], init))
    && (forall k, l :: 0 <= k < l < |at| ==> at[k] <= at[l])
  }

  /** Failures reach the log only if they are to be cached. */
  ghost predicate KeptOnly<V>(cfg: Config, s: State<V>) {
    && (forall k :: 0 <= k < |s.log| && s.log[k].Stored? && s.log[k].failed ==> cfg.expirationOnErr > 0)
    && (forall j :: 0 <= j < |s.loaders| && s.loaders[j].Storing? && s.loaders[j].failed ==> cfg.expirationOnErr > 0)
  }

  lemma KeptOnlyStep<V>(cfg: Config, s: State<V>, ev: Event<V>)
    requires KeptOnly(cfg, s)
    ensures KeptOnly(cfg, Apply(cfg, s, ev))
  {
  }

  lemma ReturnedAtMore<V>(init: V, s: State<V>, t: State<V>, at: seq<nat>)
    requires ReturnedAt(init, s.log, s.returned, at) && s.log <= t.log && t.returned == s.returned
    ensures ReturnedAt(init, t.log, t.returned, at)
  {
    forall k | 0 <= k < |at| ensures t.log[..at[k]] == s.log[..at[k]] {
    }
  }

  lemma LogGrows<V>(cfg: Config, s: State<V>, ev: Event<V>)
    ensures var t := Apply(cfg, s, ev);
            && s.log <= t.log
            && (t.returned == s.returned || (t.returned == s.returned + [s.c.data] && t.log == s.log))
  {
  }

  /** Every value a Get returns is the one the cache held at some moment: the initial one, or what the
      last stored load had returned, and a failed load only if failures are to be cached.  Gets that
      return later never go back to an older value. */
  lemma {:induction false} ReturnedAreGenuine<V>(
      cfg: Config, init: V, withData: bool, created: int, n: nat, evs: seq<Event<V>>) returns (at: seq<nat>)
    ensures var s := Exec(cfg, Begin(init, withData, created, n), evs);
            ReturnedAt(init, s.log, s.returned, at) && KeptOnly(cfg, s)
  {
    at := [];
    if evs != [] {
      var before := Exec(cfg, Begin(init, withData, created, n), evs[..|evs| - 1]);
      var t := Apply(cfg, before, evs[|evs| - 1]);
      at := ReturnedAreGenuine(cfg, init, withData, created, n, evs[..|evs| - 1]);
      HoldsReachable(cfg, init, withData, created, n, evs[..|evs| - 1]);
      KeptOnlyStep(cfg, before, evs[|evs| - 1]);
      LogGrows(cfg, before, evs[|evs| - 1]);
      if t.returned == before.returned {
        ReturnedAtMore(init, before, t, at);
      } else {
        assert t.log[..|t.log|] == before.log;
        at := at + [|before.log|];
      }
    }
  }

  /** A stored load ends the first wait: the cut-off is no later than its clock. */
  ghost predicate CutByStores<V>(s: State<V>) {
    && (s.log != [] ==> s.loaders != [])
    && forall k :: 0 <= k < |s.log| && s.log[k].Stored? ==> s.c.cutoff <= s.log[k].now
  }

  lemma CutStep<V>(cfg: Config, s: State<V>, ev: Event<V>)
    requires Sound(cfg) && WaitInv(s) && CutByStores(s)
    ensures CutByStores(Apply(cfg, s, ev))
  {
    WaitStep(cfg, s, ev);
  }

  lemma {:induction false} StoresEndTheWait<V>(
      cfg: Config, init: V, withData: bool, created: int, n: nat, evs: seq<Event<V>>)
    requires Sound(cfg) && created > 0
    ensures CutByStores(Exec(cfg, Begin(init, withData, created, n), evs))
  {
    if evs != [] {
      var init' := evs[..|evs| - 1];
      StoresEndTheWait(cfg, init, withData, created, n, init');
      WaitReachable(cfg, init, withData, created, n, init');
      CutStep(cfg, Exec(cfg, Begin(init, withData, created, n), init'), evs[|evs| - 1]);
    }
  }

  // ----- the object

  /** The fields and locked stretches of DataCache; the step system interleaves the same functions. */
  class DataCacheImpl<V> {
    const cfg: Config
    var data: V
    var nextUpdateTime: int
    var initCutOffTime: int

    function View(): Cache<V>
      reads this
    {
      Cache(data, nextUpdateTime, initCutOffTime)
    }

    /** NewDataCache; `withData` says that initial data was given or is not the zero value. */
    constructor (expiration: int, expirationOnErr: int, retryInterval: int, waitTimeout: int, initData: V,
                 withData: bool, now: int)
      ensures cfg == Configure(expiration, expirationOnErr, retryInterval, waitTimeout)
      ensures data == initData && nextUpdateTime == 0 && initCutOffTime == if withData then now else 0
      ensures View() == Begin(initData, withData, now, 0).c
    {
      cfg := Configure(expiration, expirationOnErr, retryInterval, waitTimeout);
      data, nextUpdateTime, initCutOffTime := initData, 0, if withData then now else 0;
    }

    /** Get's check; the caller starts a load exactly when `doUpdate`, and at most one caller per
        retry interval is told to. */
    method CheckUpdate(now: int) returns (doUpdate: bool)
      modifies this
      ensures doUpdate <==> now >= old(nextUpdateTime)
      ensures data == old(data) && nextUpdateTime == if doUpdate then now + cfg.retryInterval else old(nextUpdateTime)
      ensures initCutOffTime ==
              if doUpdate && old(initCutOffTime) == 0 then now + cfg.waitTimeout else old(initCutOffTime)
      ensures View() == if doUpdate then Claim(cfg, old(View()), now).0 else old(View())
      ensures Sound(cfg) && doUpdate ==> forall later :: later < now + cfg.retryInterval ==>
              !Claim(cfg, View(), later).1
    {
      doUpdate := false;
      if now >= nextUpdateTime {
        if now >= nextUpdateTime {
          nextUpdateTime := now + cfg.retryInterval;
          doUpdate := true;
        }
        if initCutOffTime == 0 {
          initCutOffTime := now + cfg.waitTimeout;
        }
      }
    }

    /** The end of a background load that returned `v`. */
    method FinishLoad(v: V, failed: bool, now: int)
      modifies this
      ensures failed && cfg.expirationOnErr <= 0 ==> View() == old(View())
      ensures !failed || cfg.expirationOnErr > 0 ==>
                && data == v && nextUpdateTime == now + (if failed then cfg.expirationOnErr else cfg.expiration)
                && initCutOffTime == if now < old(initCutOffTime) then now else old(initCutOffTime)
      ensures View() == if Drops(cfg, failed) then old(View()) else Store(cfg, old(View()), v, failed, now)
    {
      var expire := cfg.expiration;
      if failed {
        if cfg.expirationOnErr <= 0 {
          return;
        }
        expire := cfg.expirationOnErr;
      }
      data := v;
      nextUpdateTime := now + expire;
      if now < initCutOffTime {
        initCutOffTime := now;
      }
    }

    /** A Get nobody interferes with: a load due starts, and the result is the old data after the
        whole wait. */
    method Get(now: int) returns (v: V, doUpdate: bool, sleeps: nat)
      modifies this
      ensures doUpdate <==> now >= old(nextUpdateTime)
      ensures data == old(data) && nextUpdateTime == if doUpdate then now + cfg.retryInterval else old(nextUpdateTime)
      ensures initCutOffTime ==
              if doUpdate && old(initCutOffTime) == 0 then now + cfg.waitTimeout else old(initCutOffTime)
      ensures v == old(data) && sleeps == MaxSleeps(now, initCutOffTime)
    {
      doUpdate := CheckUpdate(now);
      var cut := initCutOffTime;
      var end;
      end, sleeps := Await(now, k => cut);
      v := data;
    }
  }
}
