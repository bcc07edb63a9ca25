/** Which keys a GetMany answers and when it waits, over every run. */
module CacheMapAnswers {
  import opened CacheMap
  import Calls = CacheMapCalls

  /** What a goroutine's latest GetMany did: the keys asked for, those its first pass found and
      missed, those its second pass is to load, those of them it made items for, and those it passed
      over because it found an item that was not due. */
  datatype Ask<K> = Ask(keys: set<K>, found: set<K>, missed: set<K>, loading: set<K>, created: set<K>, passed: set<K>)

  ghost function NewAsk<K>(keys: seq<K>): Ask<K> {
    Ask(Calls.Elems(keys), {}, {}, {}, {}, {})
  }

  /** The first pass looks at `k`. */
  ghost function Looked<K, V>(s: State<K, V>, a: Ask<K>, k: K): Ask<K> {
    if k in s.index && Has(s, s.index[k]) then a.(found := a.found + {k}) else a.(missed := a.missed + {k})
  }

  /** The second pass looks at `k`; one that is due is loaded only at its next step. */
  ghost function Picked<K, V>(s: State<K, V>, a: Ask<K>, k: K, now: int): Ask<K> {
    if k !in s.index then a.(loading := a.loading + {k}, created := a.created + {k})
    else if Has(s, s.index[k]) && now > s.items[s.index[k]].next then a
    else a.(passed := a.passed + {k})
  }

  /** What a step of goroutine `i` adds. */
  ghost function Observed<K, V>(s: State<K, V>, i: nat, a: Ask<K>, ev: Event<K, V>): Ask<K>
    requires i < |s.procs|
  {
    var p := s.procs[i];
    if ev.CallGetMany? && ev.i == i && p == Resting then NewAsk(ev.keys)
    else if !ev.Run? || ev.i != i || Blocked(s, p) then a
    else if p.ManyScan? && p.todo != [] then Looked(s, a, p.todo[0])
    else if p.ManyPick? && p.miss != [] then Picked(s, a, p.miss[0], p.now)
    else if p.ManySet? && Has(s, p.id) && p.miss != [] then a.(loading := a.loading + {p.miss[0]})
    else a
  }

  ghost predicate Within<K>(a: Ask<K>) {
    a.found <= a.keys && a.missed <= a.keys && a.loading <= a.keys && a.created <= a.loading && a.passed <= a.keys
  }

  /** Where a GetMany stands, and what it has observed so far. */
  ghost predicate Stands<K, V>(p: Proc<K, V>, a: Ask<K>) {
    match p
    case ManyScan(_, todo, out, miss) =>
      && Within(a) && out.Keys == a.found && a.keys == a.found + a.missed + Calls.Elems(todo)
      && a.missed <= Calls.Elems(miss) <= a.found + a.missed && a.loading == a.passed == {}
    case ManyPeek(_, _, todo, out, miss) =>
      && todo != [] && Within(a) && out.Keys + {todo[0]} == a.found && a.keys == a.found + a.missed + Calls.Elems(todo)
      && a.missed <= Calls.Elems(miss) <= a.found + a.missed && a.loading == a.passed == {}
    case ManyPick(_, miss, out, pend, isNew) =>
      && Within(a) && out.Keys == a.found && a.keys == a.found + a.missed && pend.Keys == a.loading
      && a.missed <= Calls.Elems(miss) + a.loading + a.passed && Calls.Elems(miss) <= a.keys
         && (isNew <==> a.created != {})
    case ManySet(_, _, miss, out, pend, isNew) =>
      && Within(a) && out.Keys == a.found && a.keys == a.found + a.missed && pend.Keys == a.loading
      && a.missed <= Calls.Elems(miss) + a.loading + a.passed && Calls.Elems(miss) <= a.keys
         && (isNew <==> a.created != {})
    case ManyGo(_, left, out, pend, isNew) =>
      && Within(a) && out.Keys == a.found && a.keys == a.found + a.missed && pend.Keys == a.loading
      && a.missed <= a.loading + a.passed && (isNew <==> a.created != {})
    case ManyWait(_, _, _, out, pend) =>
      && Within(a) && out.Keys == a.found && a.keys == a.found + a.missed && pend.Keys == a.loading
      && a.missed <= a.loading + a.passed && a.created != {}
    case ManyRead(left, out) =>
      && Within(a) && out.Keys + left.Keys == a.found + a.loading && a.keys == a.found + a.missed
      && a.missed <= a.loading + a.passed
    case _ => true
  }

  // ----- one step

  lemma ElemsFirst<K>(keys: seq<K>)
    requires keys != []
    ensures Calls.Elems(keys) == {keys[0]} + Calls.Elems(keys[1..])
  {
    assert keys == [keys[0]] + keys[1..];
  }

  lemma ElemsLast<K>(keys: seq<K>, k: K)
    ensures Calls.Elems(keys + [k]) == Calls.Elems(keys) + {k}
  {
  }

  lemma ScanStands<K, V>(cfg: Config<V>, s: State<K, V>, i: nat, a: Ask<K>)
    requires i < |s.procs| && s.procs[i].ManyScan? && Stands(s.procs[i], a) && !Blocked(s, s.procs[i])
    ensures Stands(RunMany(cfg, s, i).procs[i], Observed(s, i, a, Run(i)))
  {
    var p := s.procs[i];
    if p.todo != [] {
      ElemsFirst(p.todo);
      ElemsLast(p.miss, p.todo[0]);
    }
  }

  lemma PeekStands<K, V>(cfg: Config<V>, s: State<K, V>, i: nat, a: Ask<K>)
    requires i < |s.procs| && s.procs[i].ManyPeek? && Stands(s.procs[i], a)
    ensures Stands(RunMany(cfg, s, i).procs[i], Observed(s, i, a, Run(i)))
  {
    var p := s.procs[i];
    ElemsFirst(p.todo);
    ElemsLast(p.miss, p.todo[0]);
  }

  lemma PickStands<K, V>(cfg: Config<V>, s: State<K, V>, i: nat, a: Ask<K>)
    requires i < |s.procs| && s.procs[i].ManyPick? && Stands(s.procs[i], a)
    ensures Stands(RunMany(cfg, s, i).procs[i], Observed(s, i, a, Run(i)))
  {
    var p := s.procs[i];
    if p.miss != [] {
      ElemsFirst(p.miss);
    }
  }

  lemma SetStands<K, V>(cfg: Config<V>, s: State<K, V>, i: nat, a: Ask<K>)
    requires i < |s.procs| && s.procs[i].ManySet? && Stands(s.procs[i], a)
    ensures Stands(RunMany(cfg, s, i).procs[i], Observed(s, i, a, Run(i)))
  {
    var p := s.procs[i];
    if p.miss != [] {
      ElemsFirst(p.miss);
    }
  }

  lemma EndStands<K, V>(cfg: Config<V>, s: State<K, V>, i: nat, a: Ask<K>)
    requires i < |s.procs| && Stands(s.procs[i], a)
    requires s.procs[i].ManyGo? || s.procs[i].ManyWait? || s.procs[i].ManyRead?
    ensures Stands(RunMany(cfg, s, i).procs[i], Observed(s, i, a, Run(i)))
  {
  }

  lemma PickKeyStands<K, V>(cfg: Config<V>, s: State<K, V>, i: nat, a: Ask<K>, k: K)
    requires i < |s.procs| && Stands(s.procs[i], a)
    ensures Stands(PickKey(cfg, s, i, k).procs[i], a)
  {
    var p := s.procs[i];
    if p.ManyRead? && k in p.left {
      assert p.left.Keys == (p.left - {k}).Keys + {k};
    }
  }

  lemma RunStands<K, V>(cfg: Config<V>, s: State<K, V>, i: nat, a: Ask<K>)
    requires i < |s.procs| && InMany(s.procs[i]) && Stands(s.procs[i], a) && !Blocked(s, s.procs[i])
    ensures |RunMany(cfg, s, i).procs| == |s.procs|
    ensures Stands(RunMany(cfg, s, i).procs[i], Observed(s, i, a, Run(i)))
  {
    var p := s.procs[i];
    if p.ManyScan? {
      ScanStands(cfg, s, i, a);
    } else if p.ManyPeek? {
      PeekStands(cfg, s, i, a);
    } else if p.ManyPick? {
      PickStands(cfg, s, i, a);
    } else if p.ManySet? {
      SetStands(cfg, s, i, a);
    } else {
      EndStands(cfg, s, i, a);
    }
  }

  lemma GetNotMany<K, V>(cfg: Config<V>, s: State<K, V>, i: nat)
    requires i < |s.procs| && !InMany(s.procs[i])
    ensures |RunGet(cfg, s, i).procs| == |s.procs| && !InMany(RunGet(cfg, s, i).procs[i])
  {
  }

  /** Events that are not goroutine `i`'s leave it where it is. */
  lemma GetElsewhere<K, V>(cfg: Config<V>, s: State<K, V>, i: nat, j: nat)
    requires i < |s.procs| && j < |s.procs| && i != j
    ensures |RunGet(cfg, s, j).procs| == |s.procs| && RunGet(cfg, s, j).procs[i] == s.procs[i]
  {
  }

  lemma ManyElsewhere<K, V>(cfg: Config<V>, s: State<K, V>, i: nat, j: nat)
    requires i < |s.procs| && j < |s.procs| && i != j
    ensures |RunMany(cfg, s, j).procs| == |s.procs| && RunMany(cfg, s, j).procs[i] == s.procs[i]
  {
  }

  lemma LoaderElsewhere<K, V>(cfg: Config<V>, s: State<K, V>, j: nat, ev: Event<K, V>)
    requires j < |s.loaders|
    ensures LoaderStep(cfg, s, j, ev).procs == s.procs
  {
  }

  lemma OtherStands<K, V>(cfg: Config<V>, s: State<K, V>, i: nat, a: Ask<K>, ev: Event<K, V>)
    requires i < |s.procs| && Stands(s.procs[i], a)
    requires ev.CallGet? || ev.CallGetMany? || ev.CallEvict? || ev.Delete? || (ev.Pick? && ev.i != i)
    ensures |Apply(cfg, s, ev).procs| == |s.procs|
    ensures Stands(Apply(cfg, s, ev).procs[i], Observed(s, i, a, ev))
  {
  }

  lemma {:induction false} StandsStep<K, V>(cfg: Config<V>, s: State<K, V>, i: nat, a: Ask<K>, ev: Event<K, V>)
    requires i < |s.procs| && Stands(s.procs[i], a)
    ensures |Apply(cfg, s, ev).procs| == |s.procs|
    ensures Stands(Apply(cfg, s, ev).procs[i], Observed(s, i, a, ev))
  {
    match ev {
      case Run(j) =>
        if j < |s.procs| && !Blocked(s, s.procs[j]) {
          if j != i {
            GetElsewhere(cfg, s, i, j);
            ManyElsewhere(cfg, s, i, j);
          } else if InMany(s.procs[i]) {
            RunStands(cfg, s, i, a);
          } else {
            GetNotMany(cfg, s, i);
          }
        }
      case Pick(j, k) => if j == i { PickKeyStands(cfg, s, i, a, k); } else { OtherStands(cfg, s, i, a, ev); }
      case Loaded(j, _, _, _) => if j < |s.loaders| { LoaderElsewhere(cfg, s, j, ev); }
      case LoadedBatch(j, _, _, _) => if j < |s.loaders| { LoaderElsewhere(cfg, s, j, ev); }
      case StoreNext(j) => if j < |s.loaders| { LoaderElsewhere(cfg, s, j, ev); }
      case StoreKey(j, _) => if j < |s.loaders| { LoaderElsewhere(cfg, s, j, ev); }
      case _ => OtherStands(cfg, s, i, a, ev);
    }
  }

  // ----- every run

  /** The latest GetMany of goroutine `i` in a run. */
  ghost function AskOf<K, V>(cfg: Config<V>, n: nat, evs: seq<Event<K, V>>, i: nat): Ask<K> {
    if evs == [] then NewAsk([])
    else
      var init := evs[..|evs| - 1];
      var s, a := Exec(cfg, Begin(n), init), AskOf(cfg, n, init, i);
      if i < |s.procs| then Observed(s, i, a, evs[|evs| - 1]) else a
  }

  ghost predicate StandsAt<K, V>(s: State<K, V>, n: nat, i: nat, a: Ask<K>) {
    |s.procs| == n && (i < n ==> Stands(s.procs[i], a))
  }

  lemma {:induction false} StandsReachable<K, V>(cfg: Config<V>, n: nat, evs: seq<Event<K, V>>, i: nat)
    requires i < n
    ensures StandsAt(Exec(cfg, Begin<K, V>(n), evs), n, i, AskOf(cfg, n, evs, i))
  {
    if evs != [] {
      var init := evs[..|evs| - 1];
      StandsReachable(cfg, n, init, i);
      StandsStep(cfg, Exec(cfg, Begin(n), init), i, AskOf(cfg, n, init, i), evs[|evs| - 1]);
    }
  }

  /** A GetMany about to return `out`. */
  ghost predicate Returns<K, V>(cfg: Config<V>, s: State<K, V>, i: nat, out: map<K, V>) {
    i < |s.procs| && s.procs[i] == ManyRead(map[], out)
  }

  /** `out` answers keys asked for and no others, and leaves out exactly those the first pass missed
      and the second found an item for that was not due. */
  ghost predicate Answers<K, V>(a: Ask<K>, out: map<K, V>) {
    && out.Keys == a.found + a.loading && out.Keys <= a.keys
    && forall k :: k in a.keys ==>
         (k !in out <==> k in a.missed && k in a.passed && k !in a.found && k !in a.loading)
  }

  ghost predicate ReturnsNext<K, V>(cfg: Config<V>, s: State<K, V>, i: nat, out: map<K, V>) {
    Apply(cfg, s, Run(i)).returned == s.returned + [FromGetMany(out)]
  }

  lemma ReadAnswers<K, V>(cfg: Config<V>, s: State<K, V>, n: nat, i: nat, a: Ask<K>, out: map<K, V>)
    requires i < n && StandsAt(s, n, i, a) && Returns(cfg, s, i, out)
    ensures Answers(a, out) && ReturnsNext(cfg, s, i, out)
  {
  }

  /** Over every run, a GetMany answers keys asked for and no others, and of these leaves out exactly
      those its first pass missed and its second found an item for that was not due. */
  lemma GetManyAnswers<K, V>(cfg: Config<V>, n: nat, evs: seq<Event<K, V>>, i: nat, out: map<K, V>)
    requires i < n && Returns(cfg, Exec(cfg, Begin<K, V>(n), evs), i, out)
    ensures Answers(AskOf(cfg, n, evs, i), out) && ReturnsNext(cfg, Exec(cfg, Begin<K, V>(n), evs), i, out)
  {
    StandsReachable(cfg, n, evs, i);
    ReadAnswers(cfg, Exec(cfg, Begin<K, V>(n), evs), n, i, AskOf(cfg, n, evs, i), out);
  }

  /** A GetMany that has collected what to load, and started it. */
  ghost predicate Collected<K, V>(cfg: Config<V>, s: State<K, V>, i: nat) {
    i < |s.procs| && s.procs[i].ManyGo? && (cfg.batched || s.procs[i].left == map[])
  }

  ghost predicate WaitsNext<K, V>(cfg: Config<V>, s: State<K, V>, i: nat) {
    var t := Apply(cfg, s, Run(i));
    i < |t.procs| && t.procs[i].ManyWait?
  }

  lemma CollectedWaits<K, V>(cfg: Config<V>, s: State<K, V>, n: nat, i: nat, a: Ask<K>)
    requires i < n && StandsAt(s, n, i, a) && Collected(cfg, s, i)
    ensures WaitsNext(cfg, s, i) <==> a.created != {}
  {
    assert s.procs[i].pend == map[] <==> s.procs[i].pend.Keys == {};
  }

  /** And it waits if and only if it made an item itself: not for a key whose first load another call
      started and that is still in flight. */
  lemma GetManyWaitsIff<K, V>(cfg: Config<V>, n: nat, evs: seq<Event<K, V>>, i: nat)
    requires i < n && Collected(cfg, Exec(cfg, Begin<K, V>(n), evs), i)
    ensures WaitsNext(cfg, Exec(cfg, Begin<K, V>(n), evs), i) <==> AskOf(cfg, n, evs, i).created != {}
  {
    StandsReachable(cfg, n, evs, i);
    CollectedWaits(cfg, Exec(cfg, Begin<K, V>(n), evs), n, i, AskOf(cfg, n, evs, i));
  }
}
