/** The counter behind the ids: what snowflakeID computes over a whole history of clock readings,
    and why no two ids of a fleet are equal. */
module Snowflake {
  import opened Words
  import opened Cipher

  const EPOCH: int := 1577836800000
  const NODE_BITS: nat := 12
  const INSTANCE_INDEX_BITS: nat := 6
  const STEP_BITS: nat := 10
  const MAX_RESERVED_ID: nat := 0xffff_ffff
  const STEP_MAX: nat := 1023
  const NODE_MAX: nat := 4095

  /** One more than the largest time the 42 bits above node and step can hold. */
  const TIME_RANGE: nat := 0x400_0000_0000

  datatype Counter = Counter(lastTime: nat, step: nat)

  /** uint64(unixMilli) - epoch, with the wrap of a reading before the epoch. */
  function Elapsed(unixMilli: int): nat {
    (unixMilli - EPOCH) % TWO_64
  }

  /** The state change of snowflakeID. */
  function Tick(c: Counter, unixMilli: int): Counter {
    var now := Elapsed(unixMilli);
    if now <= c.lastTime then
      if c.step + 1 > STEP_MAX then Counter((c.lastTime + 1) % TWO_64, 0) else Counter(c.lastTime, c.step + 1)
    else Counter(now, 0)
  }

  /** Time, node and step packed into one word. */
  function Compose(c: Counter, node: nat): nat {
    Or(Or(Shl(c.lastTime, NODE_BITS + STEP_BITS), Shl(node, STEP_BITS)), c.step)
  }

  /** The counter after a history of readings. */
  function After(readings: seq<int>): Counter {
    if readings == [] then Counter(0, 0) else Tick(After(readings[..|readings| - 1]), readings[|readings| - 1])
  }

  function Plain(node: nat, readings: seq<int>): nat {
    Compose(After(readings), node)
  }

  function Id(block: Block, node: nat, readings: seq<int>): nat {
    Scramble(block, Plain(node, readings))
  }

  /** The ids NewID lets through over a history, in order. */
  function Ids(block: Block, node: nat, readings: seq<int>): seq<nat> {
    if readings == [] then []
    else
      var id := Id(block, node, readings);
      Ids(block, node, readings[..|readings| - 1]) + if id > MAX_RESERVED_ID then [id] else []
  }

  /** The reserved values NewID met over a history, and skipped. */
  function Skipped(block: Block, node: nat, readings: seq<int>): set<nat> {
    if readings == [] then {}
    else
      var id := Id(block, node, readings);
      Skipped(block, node, readings[..|readings| - 1]) + if id > MAX_RESERVED_ID then {} else {id}
  }

  // ----- the packed word

  lemma MulMod(a: nat, b: nat, m: nat)
    requires b > 0 && m > 0
    ensures (a * m) % (b * m) == (a % b) * m
  {
    var q, r := a / b, a % b;
    assert a * m == q * (b * m) + r * m;
    assert 0 <= r * m < b * m;
    RemainderUnique(a * m, b * m, q, r * m);
  }

  lemma RemainderUnique(x: nat, d: nat, q: nat, r: nat)
    requires d > 0 && x == q * d + r && r < d
    ensures x % d == r
  {
    var k := x / d - q;
    assert k * d == (x / d) * d - q * d;
    assert x % d == r - k * d;
  }

  lemma Powers()
    ensures Pow2(10) == 0x400 && Pow2(12) == 0x1000 && Pow2(22) == 0x40_0000
  {
  }

  lemma TimeField(t: nat)
    ensures Shl(t, NODE_BITS + STEP_BITS) == (t % TIME_RANGE) * 0x40_0000
  {
    Powers();
    MulMod(t, TIME_RANGE, 0x40_0000);
  }

  lemma NodeField(node: nat)
    requires node <= NODE_MAX
    ensures Shl(node, STEP_BITS) == node * 0x400
  {
  }

  /** Or-ing node and step below a time of 42 bits. */
  lemma OrFields(t: nat, node: nat, step: nat)
    requires step <= STEP_MAX && node <= NODE_MAX
    ensures Or(Or(t * 0x40_0000, node * 0x400), step) == t * 0x40_0000 + node * 0x400 + step
  {
    Powers();
    OrLow(t, node * 0x400, 22);
    OrLow(t * 0x1000 + node, step, 10);
  }

  /** The fields do not overlap; of the time only the low 42 bits survive. */
  lemma ComposeIs(c: Counter, node: nat)
    requires c.step <= STEP_MAX && node <= NODE_MAX
    ensures Compose(c, node) == (c.lastTime % TIME_RANGE) * 0x40_0000 + node * 0x400 + c.step < TWO_64
  {
    NodeField(node);
    TimeField(c.lastTime);
    OrFields(c.lastTime % TIME_RANGE, node, c.step);
  }

  lemma FieldsApart(t: nat, m: nat, x: nat, u: nat, n: nat, y: nat)
    requires x < 0x400 && y < 0x400 && m < 0x1000 && n < 0x1000
    requires t * 0x40_0000 + m * 0x400 + x == u * 0x40_0000 + n * 0x400 + y
    ensures t == u && m == n && x == y
  {
  }

  /** Two packed words are equal exactly when node and step are and the times agree modulo 2^42. */
  lemma ComposeEqual(c: Counter, m: nat, d: Counter, n: nat)
    requires c.step <= STEP_MAX && m <= NODE_MAX && d.step <= STEP_MAX && n <= NODE_MAX
    ensures Compose(c, m) == Compose(d, n) <==>
            m == n && c.step == d.step && c.lastTime % TIME_RANGE == d.lastTime % TIME_RANGE
  {
    ComposeIs(c, m);
    ComposeIs(d, n);
    if Compose(c, m) == Compose(d, n) {
      FieldsApart(c.lastTime % TIME_RANGE, m, c.step, d.lastTime % TIME_RANGE, n, d.step);
    }
  }

  // ----- the counter

  /** Time and step as one number. */
  function Value(c: Counter): nat {
    1024 * c.lastTime + c.step
  }

  /** A call moves the counter to the next value, or to the clock if that is further. */
  lemma TickIsMax(c: Counter, unixMilli: int)
    requires c.step <= STEP_MAX && c.lastTime < TWO_64 - 1
    ensures Tick(c, unixMilli).step <= STEP_MAX
    ensures var (v, t) := (Value(c) + 1, 1024 * Elapsed(unixMilli));
            Value(Tick(c, unixMilli)) == if v >= t then v else t
  {
    var now := Elapsed(unixMilli);
    assert (c.lastTime + 1) % TWO_64 == c.lastTime + 1;
    assert now <= c.lastTime ==> 1024 * now <= Value(c);
    assert now > c.lastTime ==> 1024 * now >= Value(c) + 1;
  }

  /** All readings lie within `limit` milliseconds after the epoch. */
  ghost predicate Timely(readings: seq<int>, limit: nat) {
    forall i :: 0 <= i < |readings| ==> EPOCH <= readings[i] <= EPOCH + limit
  }

  /** The clock leaves the 42-bit time field room for `calls` calls. */
  predicate Room(limit: nat, calls: nat) {
    1024 * limit + calls < 1024 * TIME_RANGE
  }

  /** The clock leaves a 64-bit time room for `calls` calls. */
  predicate Room64(limit: nat, calls: nat) {
    1024 * limit + calls < 1024 * (TWO_64 - 1)
  }

  /** How far the counter would be after the whole history if reading `i` decided it. */
  function Reach(readings: seq<int>, i: nat): int
    requires i < |readings|
  {
    1024 * (readings[i] - EPOCH) + |readings| - 1 - i
  }

  lemma {:induction false} CounterBound(readings: seq<int>, limit: nat)
    requires Timely(readings, limit) && Room64(limit, |readings|)
    ensures After(readings).step <= STEP_MAX && Value(After(readings)) <= 1024 * limit + |readings|
  {
    if readings != [] {
      CounterBound(readings[..|readings| - 1], limit);
      TickBound(After(readings[..|readings| - 1]), readings[|readings| - 1], limit, |readings| - 1);
    }
  }

  lemma TickBound(c: Counter, unixMilli: int, limit: nat, calls: nat)
    requires c.step <= STEP_MAX && Value(c) <= 1024 * limit + calls && Room64(limit, calls + 1)
             && EPOCH <= unixMilli <= EPOCH + limit
    ensures Tick(c, unixMilli).step <= STEP_MAX && Value(Tick(c, unixMilli)) <= 1024 * limit + calls + 1
  {
  }

  /** Reading `i`, or the number of calls, decides the counter. */
  ghost predicate Decides(readings: seq<int>, i: int, v: int) {
    if 0 <= i < |readings| then v == Reach(readings, i) else v == |readings|
  }

  lemma ElapsedIs(unixMilli: int, limit: nat)
    requires EPOCH <= unixMilli <= EPOCH + limit && limit < TWO_64
    ensures Elapsed(unixMilli) == unixMilli - EPOCH
  {
  }

  lemma OneMore(readings: seq<int>, limit: nat)
    requires readings != [] && Timely(readings, limit) && Room64(limit, |readings|)
    ensures var (v, w) := (Value(After(readings[..|readings| - 1])) + 1, Reach(readings, |readings| - 1));
            Value(After(readings)) == if v >= w then v else w
  {
    CounterBound(readings[..|readings| - 1], limit);
    ElapsedIs(readings[|readings| - 1], limit);
    TickIsMax(After(readings[..|readings| - 1]), readings[|readings| - 1]);
  }

  /** After k calls the counter is the maximum of k and, over the readings, 1024 times the reading
      plus the number of later calls; `i` is the reading that decides it, or -1. */
  lemma {:induction false} CounterFormula(readings: seq<int>, limit: nat) returns (i: int)
    requires Timely(readings, limit) && Room64(limit, |readings|)
    ensures var v := Value(After(readings));
            && v >= |readings|
            && (forall j :: 0 <= j < |readings| ==> v >= Reach(readings, j))
            && Decides(readings, i, v)
  {
    i := -1;
    if readings != [] {
      var init, last := readings[..|readings| - 1], |readings| - 1;
      i := CounterFormula(init, limit);
      OneMore(readings, limit);
      assert forall j :: 0 <= j < last ==> Reach(readings, j) == Reach(init, j) + 1;
      if Value(After(readings)) != Value(After(init)) + 1 {
        i := last;
      } else if i == last {
        i := -1;
      }
    }
  }

  /** So it never runs ahead of the largest reading by more than k/1024 milliseconds, however the
      clock jumps. */
  lemma RunsAheadAtMost(readings: seq<int>, limit: nat)
    requires Timely(readings, limit) && Room64(limit, |readings|)
    ensures After(readings).lastTime <= limit + |readings| / 1024
  {
    CounterBound(readings, limit);
  }

  /** Every call advances the counter. */
  lemma {:induction false} CounterGrows(readings: seq<int>, k: nat, limit: nat)
    requires k <= |readings| && Timely(readings, limit) && Room64(limit, |readings|)
    ensures Value(After(readings[..k])) + (|readings| - k) <= Value(After(readings))
  {
    if k == |readings| {
      assert readings[..k] == readings;
    } else {
      var init := readings[..|readings| - 1];
      assert init[..k] == readings[..k];
      CounterGrows(init, k, limit);
      CounterBound(init, limit);
      TickIsMax(After(init), readings[|readings| - 1]);
    }
  }

  lemma SameCounter(c: Counter, d: Counter)
    requires c.step <= STEP_MAX && d.step <= STEP_MAX && Value(c) < 1024 * TIME_RANGE && Value(d) < 1024 * TIME_RANGE
    requires c.step == d.step && c.lastTime % TIME_RANGE == d.lastTime % TIME_RANGE
    ensures c == d
  {
  }

  lemma {:induction false} StepFits(readings: seq<int>)
    ensures After(readings).step <= STEP_MAX
  {
  }

  /** Two packed words are equal exactly when their nodes are and the counter values differ by a
      multiple of 2^52. */
  lemma ComposeEqualIff(c: Counter, m: nat, d: Counter, n: nat)
    requires c.step <= STEP_MAX && m <= NODE_MAX && d.step <= STEP_MAX && n <= NODE_MAX
    ensures Compose(c, m) == Compose(d, n) <==> m == n && (Value(c) - Value(d)) % (1024 * TIME_RANGE) == 0
  {
    ComposeEqual(c, m, d, n);
    SameRemainder(c.lastTime, c.step, d.lastTime, d.step);
  }

  lemma SameRemainder(t: nat, x: nat, u: nat, y: nat)
    requires x < 1024 && y < 1024
    ensures (1024 * t + x - (1024 * u + y)) % (1024 * TIME_RANGE) == 0 <==> x == y && t % TIME_RANGE == u % TIME_RANGE
  {
  }

  /** What CounterFormula says of a history: `v` is the largest of the number of calls and the
      reaches of its readings. */
  ghost predicate CounterIs(readings: seq<int>, v: int) {
    && v >= |readings|
    && (forall j :: 0 <= j < |readings| ==> v >= Reach(readings, j))
    && (exists i :: Decides(readings, i, v))
  }

  lemma CounterUnique(readings: seq<int>, v: int, w: int)
    requires CounterIs(readings, v) && CounterIs(readings, w)
    ensures v == w
  {
    var i :| Decides(readings, i, v);
    var j :| Decides(readings, j, w);
  }

  lemma CounterIsValue(readings: seq<int>, limit: nat) returns (v: int)
    requires Timely(readings, limit) && Room64(limit, |readings|)
    ensures v == Value(After(readings)) && CounterIs(readings, v)
  {
    var i := CounterFormula(readings, limit);
    v := Value(After(readings));
    assert Decides(readings, i, v);
  }

  /** When plain ids repeat, in terms of the readings, while a 64-bit time has room: exactly on one
      node, for two histories whose counters, the maxima above, differ by a multiple of 2^52. */
  lemma PlainEqualIff(m: nat, a: seq<int>, v: nat, n: nat, b: seq<int>, w: nat, limit: nat)
    requires m <= NODE_MAX && n <= NODE_MAX && Timely(a, limit) && Timely(b, limit)
    requires Room64(limit, |a|) && Room64(limit, |b|) && CounterIs(a, v) && CounterIs(b, w)
    ensures Plain(m, a) == Plain(n, b) <==> m == n && (v - w) % (1024 * TIME_RANGE) == 0
  {
    var x := CounterIsValue(a, limit);
    var y := CounterIsValue(b, limit);
    CounterUnique(a, v, x);
    CounterUnique(b, w, y);
    StepFits(a);
    StepFits(b);
    ComposedIff(After(a), m, v, After(b), n, w);
  }

  lemma ComposedIff(c: Counter, m: nat, v: nat, d: Counter, n: nat, w: nat)
    requires c.step <= STEP_MAX && m <= NODE_MAX && d.step <= STEP_MAX && n <= NODE_MAX
    requires v == Value(c) && w == Value(d)
    ensures Compose(c, m) == Compose(d, n) <==> m == n && (v - w) % (1024 * TIME_RANGE) == 0
  {
    ComposeEqualIff(c, m, d, n);
  }

  /** The first plain id, in digits: milliseconds since the start of 2020 (1577836800000 in Unix time)
      above 12 bits of node and 10 of step. */
  lemma FirstPlain(node: nat, t: nat)
    requires node <= 4095 && 0 < t < 0x400_0000_0000
    ensures Plain(node, [1_577_836_800_000 + t]) == 4_194_304 * t + 1024 * node
  {
    var one := [1_577_836_800_000 + t];
    assert one[..0] == [];
    ElapsedIs(1_577_836_800_000 + t, t);
    assert After(one) == Counter(t, 0);
    ComposeIs(Counter(t, 0), node);
  }

  /** Plain ids never repeat: not on different nodes, and not on one node whose readings leave room. */
  lemma PlainDistinct(m: nat, a: seq<int>, n: nat, b: seq<int>, limit: nat)
    requires m <= NODE_MAX && n <= NODE_MAX
    requires m != n || (OneHistory(a, b) && Timely(a, limit) && Timely(b, limit) && Room(limit, |a|)
                        && Room(limit, |b|))
    ensures Plain(m, a) != Plain(n, b)
  {
    StepFits(a);
    StepFits(b);
    ComposeEqual(After(a), m, After(b), n);
    if m == n && Plain(m, a) == Plain(n, b) {
      CounterBound(a, limit);
      CounterBound(b, limit);
      SameCounter(After(a), After(b));
      if |a| < |b| {
        assert b[..|a|] == a;
        CounterGrows(b, |a|, limit);
      } else {
        assert a[..|b|] == b;
        CounterGrows(a, |b|, limit);
      }
    }
  }

  /** Two moments of one generator's life. */
  ghost predicate OneHistory(a: seq<int>, b: seq<int>) {
    |a| != |b| && (a <= b || b <= a)
  }

  lemma IdDistinct(block: Block, m: nat, a: seq<int>, n: nat, b: seq<int>, limit: nat)
    requires m <= NODE_MAX && n <= NODE_MAX
    requires m != n || (OneHistory(a, b) && Timely(a, limit) && Timely(b, limit) && Room(limit, |a|)
                        && Room(limit, |b|))
    ensures Id(block, m, a) != Id(block, n, b)
  {
    PlainDistinct(m, a, n, b, limit);
    StepFits(a);
    StepFits(b);
    ComposeIs(After(a), m);
    ComposeIs(After(b), n);
    if Id(block, m, a) == Id(block, n, b) {
      ScrambleInjective(block, Plain(m, a), Plain(n, b));
    }
  }

  /** Without room in the time field the promise fails: two calls 2^42 ms apart repeat a plain id. */
  lemma PlainRepeats(node: nat)
    requires node <= NODE_MAX
    ensures Plain(node, [EPOCH + 1]) == Plain(node, [EPOCH + 1, EPOCH + 1 + TIME_RANGE])
  {
    var a, b := [EPOCH + 1], [EPOCH + 1, EPOCH + 1 + TIME_RANGE];
    assert a[..0] == [] && b[..1] == a;
    assert After(a) == Counter(1, 0);
    assert After(b) == Counter(1 + TIME_RANGE, 0);
    ComposeEqual(After(a), node, After(b), node);
  }
}
