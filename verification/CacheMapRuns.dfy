/** Uninterrupted calls on a CacheMap are runs of the step system: what the objects do, and the
    functions of CacheMapCalls say, is among the interleavings. */
module CacheMapRuns {
  import opened FirstLoadWait
  import opened CacheMap

  ghost predicate Reaches<K(!new), V(!new)>(cfg: Config<V>, s: State<K, V>, t: State<K, V>) {
    exists evs: seq<Event<K, V>> :: Exec(cfg, s, evs) == t
  }

  lemma {:induction false} ExecAppend<K, V>(
      cfg: Config<V>, s: State<K, V>, before: seq<Event<K, V>>, evs: seq<Event<K, V>>)
    ensures Exec(cfg, s, before + evs) == Exec(cfg, Exec(cfg, s, before), evs)
  {
    if evs == [] {
      assert before + evs == before;
    } else {
      assert (before + evs)[..|before + evs| - 1] == before + evs[..|evs| - 1];
      ExecAppend(cfg, s, before, evs[..|evs| - 1]);
    }
  }

  lemma ReachesStep<K(!new), V(!new)>(cfg: Config<V>, s: State<K, V>, ev: Event<K, V>)
    ensures Reaches(cfg, s, Apply(cfg, s, ev))
  {
    assert [ev][..0] == [];
    assert Exec(cfg, s, []) == s;
    assert Exec(cfg, s, [ev]) == Apply(cfg, s, ev);
  }

  lemma ReachesTrans<K(!new), V(!new)>(cfg: Config<V>, s: State<K, V>, t: State<K, V>, u: State<K, V>)
    requires Reaches(cfg, s, t) && Reaches(cfg, t, u)
    ensures Reaches(cfg, s, u)
  {
    var a :| Exec(cfg, s, a) == t;
    var b :| Exec(cfg, t, b) == u;
    ExecAppend(cfg, s, a, b);
  }

  lemma ReachesSame<K(!new), V(!new)>(cfg: Config<V>, s: State<K, V>)
    ensures Reaches(cfg, s, s)
  {
    assert Exec(cfg, s, []) == s;
  }

  /** Nobody but `i` holds a lock. */
  ghost predicate Free<K, V>(s: State<K, V>, i: nat) {
    forall j :: 0 <= j < |s.procs| && j != i ==> !HoldsMap(s.procs[j]) && !s.procs[j].GetSet?
  }

  lemma NotBlocked<K, V>(s: State<K, V>, i: nat, p: Proc<K, V>)
    requires i < |s.procs| && Free(s, i)
    ensures !Blocked(Goto(s, i, p), p)
  {
  }

  lemma GetStep<K(!new), V(!new)>(cfg: Config<V>, s: State<K, V>, i: nat)
    requires i < |s.procs| && !InMany(s.procs[i]) && !Blocked(s, s.procs[i])
    ensures Reaches(cfg, s, RunGet(cfg, s, i))
  {
    ReachesStep(cfg, s, Run(i));
  }

  /** Get's next step, and whatever follows it. */
  lemma GetThen<K(!new), V(!new)>(cfg: Config<V>, s: State<K, V>, i: nat, u: State<K, V>)
    requires i < |s.procs| && !InMany(s.procs[i]) && !Blocked(s, s.procs[i]) && Reaches(cfg, RunGet(cfg, s, i), u)
    ensures Reaches(cfg, s, u)
  {
    GetStep(cfg, s, i);
    ReachesTrans(cfg, s, RunGet(cfg, s, i), u);
  }

  // ----- Get

  /** `max` is the number of sleeps a wait from `start` takes. */
  ghost predicate Lasts(start: int, cut: int, max: nat) {
    start + max * MILLI > cut && (max > 0 ==> start + (max - 1) * MILLI <= cut)
  }

  lemma MaxLasts(start: int, cut: int)
    ensures Lasts(start, cut, MaxSleeps(start, cut))
  {
  }

  lemma GotoTwice<K, V>(s: State<K, V>, i: nat, p: Proc<K, V>, q: Proc<K, V>)
    requires i < |s.procs|
    ensures Goto(Goto(s, i, p), i, q) == Goto(s, i, q)
  {
    assert s.procs[i := p][i := q] == s.procs[i := q];
  }

  lemma LastsUntil(start: int, cut: int, x: nat, max: nat)
    requires Lasts(start, cut, max) && x <= max
    ensures start + x * MILLI > cut <==> x == max
  {
  }

  lemma WaitNext<K, V>(cfg: Config<V>, s: State<K, V>, i: nat, k: K, id: nat, start: int, cut: int, x: nat)
    requires i < |s.procs| && Has(s, id)
    ensures RunGet(cfg, Goto(s, i, GetWait(k, id, start, cut, x)), i) ==
            Goto(s, i, if start + x * MILLI > s.items[id].cutoff then GetTouch(k, id, start + x * MILLI)
                 else GetWait(k, id, start, cut, x + 1))
  {
    GotoTwice(s, i, GetWait(k, id, start, cut, x), GetWait(k, id, start, cut, x + 1));
    GotoTwice(s, i, GetWait(k, id, start, cut, x), GetTouch(k, id, start + x * MILLI));
  }

  lemma {:induction false} WaitRun<K(!new), V(!new)>(cfg: Config<V>, s: State<K, V>, i: nat, k: K, id: nat, start: int,
                                                     cut: int, x: nat, max: nat, u: State<K, V>)
    requires i < |s.procs| && Has(s, id) && Lasts(start, s.items[id].cutoff, max) && x <= max
    requires Reaches(cfg, Goto(s, i, GetTouch(k, id, start + max * MILLI)), u)
    ensures Reaches(cfg, Goto(s, i, GetWait(k, id, start, cut, x)), u)
    decreases max - x
  {
    LastsUntil(start, s.items[id].cutoff, x, max);
    WaitNext(cfg, s, i, k, id, start, cut, x);
    if x < max {
      WaitRun(cfg, s, i, k, id, start, cut, x + 1, max, u);
    }
    GetThen(cfg, Goto(s, i, GetWait(k, id, start, cut, x)), i, u);
  }

  /** The item accessed at `end`, and its value returned. */
  function Read<K, V>(cfg: Config<V>, s: State<K, V>, i: nat, k: K, id: nat, end: int): State<K, V>
    requires i < |s.procs| && Has(s, id)
  {
    s.(items := s.items[id := Touch(cfg, s.items[id], end)], procs := s.procs[i := Resting],
       returned := s.returned + [FromGet(k, ValueOf(cfg, s.items[id]))])
  }

  /** The end of Get, from its wait loop on. */
  function Finished<K, V>(cfg: Config<V>, s: State<K, V>, i: nat, k: K, id: nat, start: int): State<K, V>
    requires i < |s.procs| && Has(s, id)
  {
    Read(cfg, s, i, k, id, start + MaxSleeps(start, s.items[id].cutoff) * MILLI)
  }

  lemma TouchAndRead<K(!new), V(!new)>(cfg: Config<V>, s: State<K, V>, i: nat, k: K, id: nat, end: int)
    requires i < |s.procs| && Has(s, id)
    ensures Reaches(cfg, Goto(s, i, GetTouch(k, id, end)), Read(cfg, s, i, k, id, end))
  {
    var u := Goto(SetItem(s, id, Touch(cfg, s.items[id], end)), i, GetRead(k, id));
    assert RunGet(cfg, Goto(s, i, GetTouch(k, id, end)), i) == u;
    assert RunGet(cfg, u, i) ==
        Read(cfg, s, i, k, id, end) by { assert u.procs[i := Resting] == s.procs[i := Resting]; }
    GetStep(cfg, u, i);
    GetThen(cfg, Goto(s, i, GetTouch(k, id, end)), i, Read(cfg, s, i, k, id, end));
  }

  lemma FinishRun<K(!new), V(!new)>(cfg: Config<V>, s: State<K, V>, i: nat, k: K, id: nat, start: int, cut: int)
    requires i < |s.procs| && Has(s, id)
    ensures Reaches(cfg, Goto(s, i, GetWait(k, id, start, cut, 0)), Finished(cfg, s, i, k, id, start))
  {
    var max := MaxSleeps(start, s.items[id].cutoff);
    MaxLasts(start, s.items[id].cutoff);
    TouchAndRead(cfg, s, i, k, id, start + max * MILLI);
    WaitRun(cfg, s, i, k, id, start, cut, 0, max, Finished(cfg, s, i, k, id, start));
  }

  /** Get's check, and its claim if the item is due. */
  function Checked<K, V>(cfg: Config<V>, s: State<K, V>, k: K, id: nat, now: int): State<K, V>
    requires Has(s, id)
  {
    if now > s.items[id].next
    then s.(items := s.items[id := s.items[id].(next := now + cfg.retryInterval)], log := s.log + [Start(id, now)],
            loaders := s.loaders + [LoadOne(k, id)])
    else s
  }

  lemma ClaimRun<K(!new), V(!new)>(cfg: Config<V>, s: State<K, V>, i: nat, k: K, id: nat, now: int)
    requires i < |s.procs| && Has(s, id) && Free(s, i) && now > s.items[id].next
    ensures Reaches(cfg, Goto(s, i, GetClaim(k, id, now)),
                    Goto(Checked(cfg, s, k, id, now), i, GetWait(k, id, now, s.items[id].cutoff, 0)))
  {
    NotBlocked(s, i, GetClaim(k, id, now));
    GotoTwice(s, i, GetClaim(k, id, now), GetSet(k, id, now));
    GotoTwice(Checked(cfg, s, k, id, now), i, GetSet(k, id, now), GetWait(k, id, now, s.items[id].cutoff, 0));
    GetStep(cfg, Goto(s, i, GetSet(k, id, now)), i);
    GetThen(cfg, Goto(s, i, GetClaim(k, id, now)), i,
            Goto(Checked(cfg, s, k, id, now), i, GetWait(k, id, now, s.items[id].cutoff, 0)));
  }

  lemma CheckRun<K(!new), V(!new)>(cfg: Config<V>, s: State<K, V>, i: nat, k: K, id: nat, now: int)
    requires i < |s.procs| && Has(s, id) && Free(s, i)
    ensures Reaches(cfg, Goto(s, i, GetCheck(k, id, now)),
                    Goto(Checked(cfg, s, k, id, now), i, GetWait(k, id, now, s.items[id].cutoff, 0)))
  {
    var c := Goto(s, i, GetCheck(k, id, now));
    GetStep(cfg, c, i);
    if now > s.items[id].next {
      GotoTwice(s, i, GetCheck(k, id, now), GetClaim(k, id, now));
      ClaimRun(cfg, s, i, k, id, now);
      ReachesTrans(cfg, c, Goto(s, i, GetClaim(k, id, now)),
                   Goto(Checked(cfg, s, k, id, now), i, GetWait(k, id, now, s.items[id].cutoff, 0)));
    } else {
      GotoTwice(s, i, GetCheck(k, id, now), GetWait(k, id, now, s.items[id].cutoff, 0));
    }
  }

  /** From the check to the end. */
  lemma FromCheck<K(!new), V(!new)>(cfg: Config<V>, s: State<K, V>, i: nat, k: K, id: nat, now: int)
    requires i < |s.procs| && Has(s, id) && Free(s, i)
    ensures Reaches(cfg, Goto(s, i, GetCheck(k, id, now)), Finished(cfg, Checked(cfg, s, k, id, now), i, k, id, now))
  {
    CheckRun(cfg, s, i, k, id, now);
    FinishRun(cfg, Checked(cfg, s, k, id, now), i, k, id, now, s.items[id].cutoff);
    ReachesTrans(cfg, Goto(s, i, GetCheck(k, id, now)),
                 Goto(Checked(cfg, s, k, id, now), i, GetWait(k, id, now, s.items[id].cutoff, 0)),
                 Finished(cfg, Checked(cfg, s, k, id, now), i, k, id, now));
  }

  /** The map with a new item, its load started. */
  function Created<K, V>(cfg: Config<V>, s: State<K, V>, k: K, now: int): State<K, V> {
    s.(items := s.items + [NewItem(cfg, k, now)], index := s.index[k := |s.items|],
       log := s.log + [Start(|s.items|, now)],
       loaders := s.loaders + [LoadOne(k, |s.items|)])
  }

  lemma CallGetRun<K(!new), V(!new)>(cfg: Config<V>, s: State<K, V>, i: nat, k: K, now: int)
    requires i < |s.procs| && s.procs[i] == Resting && Free(s, i)
    ensures Reaches(cfg, s, Goto(s, i, if k in s.index then GetCheck(k, s.index[k], now) else GetCreate(k, now)))
  {
    NotBlocked(s, i, GetLookup(k, now));
    ReachesStep(cfg, s, CallGet(i, k, now));
    var t := Goto(s, i, GetLookup(k, now));
    GetStep(cfg, t, i);
    GotoTwice(s, i, GetLookup(k, now), if k in s.index then GetCheck(k, s.index[k], now) else GetCreate(k, now));
    ReachesTrans(cfg, s, t, RunGet(cfg, t, i));
  }

  lemma CreateRun<K(!new), V(!new)>(cfg: Config<V>, s: State<K, V>, i: nat, k: K, now: int)
    requires i < |s.procs| && k !in s.index && Free(s, i)
    ensures Reaches(cfg, Goto(s, i, GetCreate(k, now)), Goto(Created(cfg, s, k, now), i, GetCheck(k, |s.items|, now)))
  {
    NotBlocked(s, i, GetCreate(k, now));
    GetStep(cfg, Goto(s, i, GetCreate(k, now)), i);
    GotoTwice(s, i, GetCreate(k, now), GetCheck(k, |s.items|, now));
  }

  /** An uninterrupted Get is a run, and leaves what the object's Get leaves: a missing item created
      and loading, a due one postponed and loading, the end of the wait as access time, and the old
      value returned. */
  lemma GetIsARun<K(!new), V(!new)>(cfg: Config<V>, s: State<K, V>, i: nat, k: K, now: int)
    requires i < |s.procs| && s.procs[i] == Resting && Free(s, i) && cfg.retryInterval >= 0
    requires k in s.index ==> Has(s, s.index[k])
    ensures var s1 := if k in s.index then s else Created(cfg, s, k, now);
            Reaches(cfg, s, Finished(cfg, Checked(cfg, s1, k, s1.index[k], now), i, k, s1.index[k], now))
  {
    CallGetRun(cfg, s, i, k, now);
    if k in s.index {
      var id := s.index[k];
      FromCheck(cfg, s, i, k, id, now);
      ReachesTrans(cfg, s, Goto(s, i, GetCheck(k, id, now)), Finished(cfg, Checked(cfg, s, k, id, now), i, k, id, now));
    } else {
      var s1, id := Created(cfg, s, k, now), |s.items|;
      CreateRun(cfg, s, i, k, now);
      ReachesTrans(cfg, s, Goto(s, i, GetCreate(k, now)), Goto(s1, i, GetCheck(k, id, now)));
      FromCheck(cfg, s1, i, k, id, now);
      ReachesTrans(cfg, s, Goto(s1, i, GetCheck(k, id, now)),
                   Finished(cfg, Checked(cfg, s1, k, id, now), i, k, id, now));
    }
  }
}
