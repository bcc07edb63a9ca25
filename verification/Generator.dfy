/** The generator object, its node id, and what a fleet of generators sharing a key promises. */
module Generator {
  import opened Words
  import opened Cipher
  import opened Snowflake
  import HexId

  datatype Result<T> = Ok(value: T) | Err(message: string)

  // ----- node ids

  /** The checks and the packing of NewGeneratorFromHostName, given the parsed instance index. */
  function NodeIdOf(serviceId: int, instanceIndex: int): (r: Result<nat>)
    ensures r.Ok? <==> 0 <= serviceId <= 63 && 0 <= instanceIndex <= 63
    ensures r.Ok? ==> r.value == 64 * serviceId + instanceIndex <= 4095
    ensures !(0 <= serviceId <= 63) ==> r == Err("service_id_overflow")
    ensures 0 <= serviceId <= 63 && r.Err? ==> r == Err("instance_index_overflow")
  {
    if serviceId < 0 || serviceId > 63 then Err("service_id_overflow")
    else if instanceIndex < 0 || instanceIndex > 63 then Err("instance_index_overflow")
    else
      NodeFieldsApart(serviceId, instanceIndex);
      Ok(Or(Shl(serviceId, INSTANCE_INDEX_BITS), instanceIndex))
  }

  lemma NodeFieldsApart(serviceId: nat, instanceIndex: nat)
    requires serviceId <= 63 && instanceIndex <= 63
    ensures Or(Shl(serviceId, INSTANCE_INDEX_BITS), instanceIndex) == 64 * serviceId + instanceIndex
  {
    assert Pow2(6) == 64;
    assert Shl(serviceId, 6) == serviceId * 64;
    OrLow(serviceId, instanceIndex, 6);
  }

  /** Different (service, instance) pairs get different node ids, and every node id is some pair's. */
  lemma NodeIdsBijective(s: int, i: int, s': int, i': int, node: nat)
    requires NodeIdOf(s, i).Ok? && NodeIdOf(s', i').Ok?
    ensures NodeIdOf(s, i) == NodeIdOf(s', i') <==> s == s' && i == i'
    ensures node <= NODE_MAX ==> NodeIdOf(node / 64, node % 64) == Ok(node)
  {
    NodeFieldsApart(s, i);
    NodeFieldsApart(s', i');
    if node <= NODE_MAX {
      NodeFieldsApart(node / 64, node % 64);
    }
  }

  // ----- ids over histories

  /** The `a`-th id let through was made by some call, after which `a + 1` had been let through. */
  lemma {:induction false} IdMadeBy(block: Block, node: nat, readings: seq<int>, a: nat) returns (k: nat)
    requires a < |Ids(block, node, readings)|
    ensures 0 < k <= |readings| && Ids(block, node, readings)[a] == Id(block, node, readings[..k]) > MAX_RESERVED_ID
    ensures |Ids(block, node, readings[..k])| == a + 1
  {
    var init := readings[..|readings| - 1];
    if a < |Ids(block, node, init)| {
      k := IdMadeBy(block, node, init, a);
      assert init[..k] == readings[..k];
    } else {
      k := |readings|;
      assert readings[..k] == readings;
    }
  }

  lemma {:induction false} SkippedMadeBy(block: Block, node: nat, readings: seq<int>, id: nat) returns (k: nat)
    requires id in Skipped(block, node, readings)
    ensures 0 < k <= |readings| && id == Id(block, node, readings[..k]) <= MAX_RESERVED_ID
  {
    var init := readings[..|readings| - 1];
    if id in Skipped(block, node, init) {
      k := SkippedMadeBy(block, node, init, id);
      assert init[..k] == readings[..k];
    } else {
      k := |readings|;
      assert readings[..k] == readings;
    }
  }

  lemma TimelyPrefix(readings: seq<int>, k: nat, limit: nat)
    requires k <= |readings| && Timely(readings, limit) && Room(limit, |readings|)
    ensures Timely(readings[..k], limit) && Room(limit, k)
  {
  }

  lemma PrefixesOrdered(s: seq<int>, k: nat, l: nat)
    requires k <= l <= |s|
    ensures s[..k] <= s[..l]
  {
  }

  lemma OwnPairDistinct(block: Block, node: nat, readings: seq<int>, limit: nat, a: nat, b: nat)
    requires node <= NODE_MAX && Timely(readings, limit) && Room(limit, |readings|)
    requires a < b < |Ids(block, node, readings)|
    ensures Ids(block, node, readings)[a] != Ids(block, node, readings)[b]
  {
    var k := IdMadeBy(block, node, readings, a);
    var l := IdMadeBy(block, node, readings, b);
    TimelyPrefix(readings, k, limit);
    TimelyPrefix(readings, l, limit);
    PrefixesOrdered(readings, if k < l then k else l, if k < l then l else k);
    IdDistinct(block, node, readings[..k], node, readings[..l], limit);
  }

  /** One generator never returns an id twice, and never a reserved one. */
  lemma OwnIdsDistinct(block: Block, node: nat, readings: seq<int>, limit: nat)
    requires node <= NODE_MAX && Timely(readings, limit) && Room(limit, |readings|)
    ensures var ids := Ids(block, node, readings);
            && (forall a, b :: 0 <= a < |ids| && 0 <= b < |ids| && a != b ==> ids[a] != ids[b])
            && (forall a :: 0 <= a < |ids| ==> ids[a] > 0xffff_ffff)
  {
    var ids := Ids(block, node, readings);
    forall a, b | 0 <= a < |ids| && 0 <= b < |ids| && a != b ensures ids[a] != ids[b] {
      OwnPairDistinct(block, node, readings, limit, if a < b then a else b, if a < b then b else a);
    }
    forall a | 0 <= a < |ids| ensures ids[a] > MAX_RESERVED_ID {
      var k := IdMadeBy(block, node, readings, a);
    }
  }

  /** A returned id fits 64 bits and never renders as the absent id. */
  lemma ReturnedIdRenders(block: Block, node: nat, readings: seq<int>, a: nat)
    requires node <= NODE_MAX && a < |Ids(block, node, readings)|
    ensures var id := Ids(block, node, readings)[a];
            id < TWO_64 && HexId.StringOrEmpty(id) != ""
                && HexId.ParseIDOptional(HexId.StringOrEmpty(id)) == HexId.Value(id)
  {
    var k := IdMadeBy(block, node, readings, a);
    StepFits(readings[..k]);
    ComposeIs(After(readings[..k]), node);
    ScrambleInvertible(block, Plain(node, readings[..k]));
    HexId.RoundTrip(Ids(block, node, readings)[a]);
  }

  /** A generator's deployment and the clock readings it has made. */
  datatype Instance = Instance(serviceId: int, instanceIndex: int, readings: seq<int>)

  ghost predicate FleetFits(fleet: seq<Instance>) {
    && (forall i :: 0 <= i < |fleet| ==> NodeIdOf(fleet[i].serviceId, fleet[i].instanceIndex).Ok?)
    && (forall i, j :: 0 <= i < j < |fleet| ==>
          fleet[i].serviceId != fleet[j].serviceId || fleet[i].instanceIndex != fleet[j].instanceIndex)
  }

  function IdsOf(block: Block, g: Instance): seq<nat>
    requires NodeIdOf(g.serviceId, g.instanceIndex).Ok?
  {
    Ids(block, NodeIdOf(g.serviceId, g.instanceIndex).value, g.readings)
  }

  lemma PairApart(block: Block, m: nat, xs: seq<int>, n: nat, ys: seq<int>, a: nat, b: nat)
    requires m <= NODE_MAX && n <= NODE_MAX && m != n
    requires a < |Ids(block, m, xs)| && b < |Ids(block, n, ys)|
    ensures Ids(block, m, xs)[a] != Ids(block, n, ys)[b]
  {
    var k := IdMadeBy(block, m, xs, a);
    var l := IdMadeBy(block, n, ys, b);
    IdDistinct(block, m, xs[..k], n, ys[..l], 0);
  }

  lemma NodesApart(block: Block, m: nat, xs: seq<int>, n: nat, ys: seq<int>)
    requires m <= NODE_MAX && n <= NODE_MAX && m != n
    ensures forall a, b :: 0 <= a < |Ids(block, m, xs)| && 0 <= b < |Ids(block, n, ys)| ==>
            Ids(block, m, xs)[a] != Ids(block, n, ys)[b]
  {
    forall a, b | 0 <= a < |Ids(block, m, xs)| && 0 <= b < |Ids(block, n, ys)|
      ensures Ids(block, m, xs)[a] != Ids(block, n, ys)[b]
    {
      PairApart(block, m, xs, n, ys, a, b);
    }
  }

  /** Global uniqueness: over any histories of any fleet with one key and distinct (service,
      instance) pairs no id is returned twice, whatever the clocks do; only two ids of one
      generator need its readings to leave room in the time field. */
  lemma FleetIdsDistinct(block: Block, fleet: seq<Instance>, limit: nat, i: nat, j: nat)
    requires FleetFits(fleet) && i < |fleet| && j < |fleet|
    requires i == j ==> Timely(fleet[i].readings, limit) && Room(limit, |fleet[i].readings|)
    ensures var (xs, ys) := (IdsOf(block, fleet[i]), IdsOf(block, fleet[j]));
            forall a, b :: 0 <= a < |xs| && 0 <= b < |ys| && (i != j || a != b) ==> xs[a] != ys[b]
  {
    var g, h := fleet[i], fleet[j];
    var m, n := NodeIdOf(g.serviceId, g.instanceIndex).value, NodeIdOf(h.serviceId, h.instanceIndex).value;
    if i == j {
      OwnIdsDistinct(block, m, g.readings, limit);
      assert IdsOf(block, fleet[j]) == Ids(block, m, g.readings);
    } else {
      assert m != n by { NodeIdsBijective(g.serviceId, g.instanceIndex, h.serviceId, h.instanceIndex, 0); }
      NodesApart(block, m, g.readings, n, h.readings);
    }
  }

  // ----- the reserved values can be met only so often

  /** A set of naturals below n has at most n elements. */
  lemma {:induction false} AtMost(s: set<nat>, n: nat)
    requires forall x :: x in s ==> x < n
    ensures |s| <= n
  {
    if n == 0 {
      assert s == {};
    } else {
      AtMost(s - {n - 1}, n - 1);
      assert s <= s - {n - 1} + {n - 1};
      assert |s - {n - 1}| >= |s| - 1;
    }
  }

  /** There are only 2^32 reserved values to meet. */
  lemma SkippedAtMost(block: Block, node: nat, readings: seq<int>)
    ensures |Skipped(block, node, readings)| <= TWO_32
  {
    var s := Skipped(block, node, readings);
    forall x | x in s ensures x < TWO_32 {
      var k := SkippedMadeBy(block, node, readings, x);
    }
    AtMost(s, TWO_32);
  }

  /** A call that meets a reserved value meets a new one. */
  lemma RetryUsesUp(block: Block, node: nat, readings: seq<int>, reading: int, limit: nat)
    requires node <= NODE_MAX && Timely(readings + [reading], limit) && Room(limit, |readings| + 1)
    requires Id(block, node, readings + [reading]) <= MAX_RESERVED_ID
    ensures |Skipped(block, node, readings + [reading])| == |Skipped(block, node, readings)| + 1
  {
    var next := readings + [reading];
    var id := Id(block, node, next);
    assert next[..|next| - 1] == readings;
    if id in Skipped(block, node, readings) {
      var k := SkippedMadeBy(block, node, readings, id);
      assert readings[..k] <= next;
      TimelyPrefix(next, k, limit);
      assert next[..k] == readings[..k];
      IdDistinct(block, node, readings[..k], node, next, limit);
    }
  }

  /** Every call of snowflakeID either lets an id through or meets a reserved value not met before, so
      a generator retries at most 2^32 times in its life. */
  lemma {:induction false} RetriesAtMost(block: Block, node: nat, readings: seq<int>, limit: nat)
    requires node <= NODE_MAX && Timely(readings, limit) && Room(limit, |readings|)
    ensures |readings| == |Ids(block, node, readings)| + |Skipped(block, node, readings)|
    ensures |readings| - |Ids(block, node, readings)| <= TWO_32
  {
    SkippedAtMost(block, node, readings);
    if readings != [] {
      var init, last := readings[..|readings| - 1], readings[|readings| - 1];
      assert init + [last] == readings;
      TimelyPrefix(readings, |init|, limit);
      RetriesAtMost(block, node, init, limit);
      if Id(block, node, readings) <= MAX_RESERVED_ID {
        RetryUsesUp(block, node, init, last, limit);
      }
    }
  }

  /** Calls of snowflakeID so far, plus those that reserved values may still waste. */
  function Budget(block: Block, node: nat, readings: seq<int>): nat {
    SkippedAtMost(block, node, readings);
    |readings| + TWO_32 - |Skipped(block, node, readings)|
  }

  lemma BudgetStep(block: Block, node: nat, readings: seq<int>, reading: int, limit: nat)
    requires node <= NODE_MAX && Timely(readings, limit) && EPOCH <= reading <= EPOCH + limit
    requires Room(limit, Budget(block, node, readings) + 1)
    ensures Timely(readings + [reading], limit)
    ensures Ids(block, node, readings + [reading]) ==
            Ids(block, node, readings) +
            if Id(block, node, readings + [reading]) > MAX_RESERVED_ID
            then [Id(block, node, readings + [reading])] else []
    ensures var (next, id) := (readings + [reading], Id(block, node, readings + [reading]));
            && Budget(block, node, next) == Budget(block, node, readings) + (if id > MAX_RESERVED_ID then 1 else 0)
            && (id <= MAX_RESERVED_ID ==>
                  |Skipped(block, node, next)| == |Skipped(block, node, readings)| + 1 <= TWO_32)
  {
    var next := readings + [reading];
    SkippedAtMost(block, node, readings);
    SkippedAtMost(block, node, next);
    assert next[..|next| - 1] == readings;
    if Id(block, node, next) <= MAX_RESERVED_ID {
      RetryUsesUp(block, node, readings, reading, limit);
    }
  }

  function FirstOf(clock: nat -> int, n: nat): (r: seq<int>)
    ensures |r| == n
  {
    if n == 0 then [] else FirstOf(clock, n - 1) + [clock(n - 1)]
  }

  /** NewID after `calls` rounds that all met reserved values. */
  ghost predicate Rounds(block: Block, node: nat, start: seq<int>, clock: nat -> int, calls: nat, limit: nat) {
    var readings := start + FirstOf(clock, calls);
    && Timely(readings, limit)
    && Ids(block, node, readings) == Ids(block, node, start)
    && Budget(block, node, readings) == Budget(block, node, start)
  }

  lemma FirstOfMore(start: seq<int>, clock: nat -> int, n: nat)
    ensures start + FirstOf(clock, n + 1) == start + FirstOf(clock, n) + [clock(n)]
  {
  }

  /** One more round either uses up a reserved value or lets one id through. */
  lemma OneRound(block: Block, node: nat, start: seq<int>, clock: nat -> int, calls: nat, limit: nat)
    requires node <= NODE_MAX && Rounds(block, node, start, clock, calls, limit)
             && EPOCH <= clock(calls) <= EPOCH + limit
    requires Room(limit, Budget(block, node, start) + 1)
    ensures var next := start + FirstOf(clock, calls + 1);
            var id := Id(block, node, next);
            && next == start + FirstOf(clock, calls) + [clock(calls)]
            && (id <= MAX_RESERVED_ID ==>
                  && Rounds(block, node, start, clock, calls + 1, limit)
                  && |Skipped(block, node, next)| ==
                     |Skipped(block, node, start + FirstOf(clock, calls))| + 1 <= TWO_32)
            && (id > MAX_RESERVED_ID ==>
                  && Timely(next, limit)
                  && Ids(block, node, next) == Ids(block, node, start) + [id]
                  && Budget(block, node, next) == Budget(block, node, start) + 1)
  {
    FirstOfMore(start, clock, calls);
    BudgetStep(block, node, start + FirstOf(clock, calls), clock(calls), limit);
  }

  class GeneratorImpl {
    const nodeID: nat
    const block: Block
    var lastTime: nat
    var step: nat
    ghost var readings: seq<int>   // every clock reading so far, in Unix milliseconds

    ghost predicate Valid()
      reads this
    {
      nodeID <= NODE_MAX && Counter(lastTime, step) == After(readings)
    }

    ghost function Returned(): seq<nat>
      reads this
    {
      Ids(block, nodeID, readings)
    }

    constructor (block: Block, nodeID: nat)
      requires nodeID <= NODE_MAX
      ensures Valid() && this.block == block && this.nodeID == nodeID && readings == []
      ensures Budget(block, nodeID, readings) == TWO_32
    {
      this.block, this.nodeID := block, nodeID;
      lastTime, step, readings := 0, 0, [];
    }

    /** NewGenerator; `key` is the cipher xtea.NewCipher makes of the key, or its error. */
    static method NewGenerator(key: Result<Block>, nodeID: int) returns (r: Result<GeneratorImpl>)
      ensures r.Ok? <==> 0 <= nodeID <= 4095 && key.Ok?
      ensures r.Err? ==> r == Err(if 0 <= nodeID <= 4095 then "new_xtea_cipher_error" else "invalid_node_id")
      ensures r.Ok? ==>
                && fresh(r.value) && r.value.Valid()
                && r.value.nodeID == nodeID && r.value.block == key.value && r.value.readings == []
    {
      if nodeID < 0 || nodeID > NODE_MAX {
        return Err("invalid_node_id");
      }
      if key.Err? {
        return Err("new_xtea_cipher_error");
      }
      var g := new GeneratorImpl(key.value, nodeID);
      r := Ok(g);
    }

    method SnowflakeID(unixMilli: int) returns (id: nat)
      requires Valid()
      modifies this
      ensures Valid() && readings == old(readings) + [unixMilli] && id == Plain(nodeID, readings)
    {
      var now := Elapsed(unixMilli);
      if now <= lastTime {
        step := step + 1;
        if step > STEP_MAX {
          lastTime := (lastTime + 1) % TWO_64;
          step := 0;
        }
      } else {
        lastTime := now;
        step := 0;
      }
      readings := readings + [unixMilli];
      assert readings[..|readings| - 1] == old(readings);
      id := Or(Or(Shl(lastTime, NODE_BITS + STEP_BITS), Shl(nodeID, STEP_BITS)), step);
    }

    /** One round of NewID's loop. */
    method CipherID(unixMilli: int) returns (id: nat)
      requires Valid()
      modifies this
      ensures Valid() && readings == old(readings) + [unixMilli] && id == Id(block, nodeID, readings)
    {
      var plainID := SnowflakeID(unixMilli);
      var cipherBuf := BigEndian(plainID, 8);
      cipherBuf := Encrypt(block, cipherBuf);
      id := FromBigEndian(cipherBuf);
    }

    /** NewID, with `clock(i)` the i-th reading of this call.  It returns after finitely many calls
        of snowflakeID, with one more id than before and nothing else, and uses up one unit of the
        budget that starts at 2^32. */
    method NewID(clock: nat -> int, ghost limit: nat) returns (id: nat)
      requires Valid() && Timely(readings, limit) && (forall i :: EPOCH <= clock(i) <= EPOCH + limit)
      requires Room(limit, Budget(block, nodeID, readings) + 1)
      modifies this
      ensures Valid() && Timely(readings, limit)
      ensures Returned() == old(Returned()) + [id] && id > 0xffff_ffff
      ensures |readings| > |old(readings)|
      ensures readings == old(readings) + FirstOf(clock, |readings| - |old(readings)|)
      ensures Budget(block, nodeID, readings) == old(Budget(block, nodeID, readings)) + 1
    {
      var calls := 0;
      ghost var start := readings;
      assert start == start + FirstOf(clock, 0);
      while true
        invariant Valid() && readings == start + FirstOf(clock, calls)
        invariant Rounds(block, nodeID, start, clock, calls, limit)
        decreases TWO_32 - |Skipped(block, nodeID, readings)|
      {
        OneRound(block, nodeID, start, clock, calls, limit);
        id := CipherID(clock(calls));
        if id > MAX_RESERVED_ID {
          return;
        }
        calls := calls + 1;
      }
    }
  }
}
