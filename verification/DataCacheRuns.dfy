/** An uninterrupted Get of a DataCache, and the end of a load that nothing interrupts, are runs of the
    step system with the outcome of the object. */
module DataCacheRuns {
  import opened FirstLoadWait
  import opened DataCache

  ghost predicate Reaches<V(!new)>(cfg: Config, s: State<V>, t: State<V>) {
    exists evs: seq<Event<V>> :: Exec(cfg, s, evs) == t
  }

  lemma ExecLast<V>(cfg: Config, s: State<V>, evs: seq<Event<V>>, ev: Event<V>)
    ensures Exec(cfg, s, evs + [ev]) == Apply(cfg, Exec(cfg, s, evs), ev)
  {
    assert (evs + [ev])[..|evs|] == evs;
  }

  lemma ExecOne<V>(cfg: Config, s: State<V>, ev: Event<V>)
    ensures Exec(cfg, s, [ev]) == Apply(cfg, s, ev)
  {
    assert [ev][..0] == [];
  }

  lemma {:induction false} ExecFirst<V>(cfg: Config, s: State<V>, ev: Event<V>, evs: seq<Event<V>>)
    ensures Exec(cfg, s, [ev] + evs) == Exec(cfg, Apply(cfg, s, ev), evs)
  {
    if evs == [] {
      assert [ev] + evs == [ev];
      ExecOne(cfg, s, ev);
    } else {
      ExecFirst(cfg, s, ev, evs[..|evs| - 1]);
      ExecLast(cfg, s, [ev] + evs[..|evs| - 1], evs[|evs| - 1]);
      assert [ev] + evs[..|evs| - 1] + [evs[|evs| - 1]] == [ev] + evs;
    }
  }

  /** One event, and whatever follows it. */
  lemma StepThen<V(!new)>(cfg: Config, s: State<V>, ev: Event<V>, u: State<V>)
    requires Reaches(cfg, Apply(cfg, s, ev), u)
    ensures Reaches(cfg, s, u)
  {
    var evs :| Exec(cfg, Apply(cfg, s, ev), evs) == u;
    ExecFirst(cfg, s, ev, evs);
  }

  lemma ReachesSame<V(!new)>(cfg: Config, s: State<V>)
    ensures Reaches(cfg, s, s)
  {
    assert Exec(cfg, s, []) == s;
  }

  lemma PutTwice<V>(s: State<V>, i: nat, g: Getter, h: Getter)
    requires i < |s.getters|
    ensures Put(Put(s, i, g), i, h) == Put(s, i, h)
  {
    assert s.getters[i := g][i := h] == s.getters[i := h];
  }

  lemma {:induction false} WaitRun<V(!new)>(cfg: Config, s: State<V>, i: nat, start: int, cut: int, x: nat)
    requires i < |s.getters| && x <= MaxSleeps(start, s.c.cutoff)
    ensures Reaches(cfg, Put(s, i, Waiting(start, cut, x)), Put(s, i, Resting).(returned := s.returned + [s.c.data]))
    decreases MaxSleeps(start, s.c.cutoff) - x
  {
    var w, u := Put(s, i, Waiting(start, cut, x)), Put(s, i, Resting).(returned := s.returned + [s.c.data]);
    assert start + x * MILLI <= s.c.cutoff <==> x < MaxSleeps(start, s.c.cutoff);
    if x < MaxSleeps(start, s.c.cutoff) {
      PutTwice(s, i, Waiting(start, cut, x), Waiting(start, cut, x + 1));
      WaitRun(cfg, s, i, start, cut, x + 1);
    } else {
      PutTwice(s, i, Waiting(start, cut, x), Reading);
      PutTwice(s, i, Reading, Resting);
      ReachesSame(cfg, u);
      StepThen(cfg, Put(s, i, Reading), Run(i), u);
    }
    StepThen(cfg, w, Run(i), u);
  }

  /** The cache once a Get has claimed its update, if one is due. */
  function Checked<V>(cfg: Config, s: State<V>, now: int): State<V> {
    if now < s.c.next then s
    else s.(c := Cache(s.c.data, now + cfg.retryInterval,
                       if s.c.cutoff == 0 then now + cfg.waitTimeout else s.c.cutoff),
            loaders := s.loaders + [Loading], log := s.log + [Start(now)])
  }

  /** A load starts exactly if the update is due, and the old value is returned. */
  lemma GetIsARun<V(!new)>(cfg: Config, s: State<V>, i: nat, now: int)
    requires i < |s.getters| && s.getters[i] == Resting && now > 0
    ensures Reaches(cfg, s, Checked(cfg, s, now).(returned := s.returned + [s.c.data]))
  {
    var s1 := Checked(cfg, s, now);
    var u := Put(s1, i, Resting).(returned := s.returned + [s.c.data]);
    assert s.getters[i := Resting] == s.getters;
    WaitRun(cfg, s1, i, now, s1.c.cutoff, 0);
    PutTwice(s, i, Peeking(now), Waiting(now, s.c.cutoff, 0));
    if now >= s.c.next {
      PutTwice(s, i, Peeking(now), Claiming(now));
      PutTwice(s1, i, Claiming(now), Waiting(now, s1.c.cutoff, 0));
      StepThen(cfg, Put(s, i, Claiming(now)), Run(i), u);
    }
    StepThen(cfg, Put(s, i, Peeking(now)), Run(i), u);
    StepThen(cfg, s, Call(i, now), u);
  }

  /** After load `j` has returned: nothing but that after a failure that is not cached, and
      otherwise the value, the next update time from the load's clock, and no wait past it. */
  function AfterLoad<V>(cfg: Config, s: State<V>, j: nat, v: V, failed: bool, now: int): State<V>
    requires j < |s.loaders|
  {
    var done := s.(loaders := s.loaders[j := Finished]);
    if failed && cfg.expirationOnErr <= 0 then done
    else done.(c := Cache(v, now + (if failed then cfg.expirationOnErr else cfg.expiration),
                          if now < s.c.cutoff then now else s.c.cutoff),
               log := s.log + [Stored(v, failed, now)])
  }

  /** One load's end, and whatever follows it. */
  lemma LoadThen<V(!new)>(cfg: Config, s: State<V>, j: nat, v: V, failed: bool, now: int, u: State<V>)
    requires j < |s.loaders| && s.loaders[j].Loading? && now > 0
    requires Reaches(cfg, AfterLoad(cfg, s, j, v, failed, now), u)
    ensures Reaches(cfg, s, u)
  {
    if !(failed && cfg.expirationOnErr <= 0) {
      var mid := s.(loaders := s.loaders[j := Storing(v, failed, now)]);
      assert mid.loaders[j := Finished] == s.loaders[j := Finished];
      StepThen(cfg, mid, Finish(j), u);
    }
    StepThen(cfg, s, Loaded(j, v, failed, now), u);
  }

  lemma LoadIsARun<V(!new)>(cfg: Config, s: State<V>, j: nat, v: V, failed: bool, now: int)
    requires j < |s.loaders| && s.loaders[j].Loading? && now > 0
    ensures Reaches(cfg, s, AfterLoad(cfg, s, j, v, failed, now))
  {
    ReachesSame(cfg, AfterLoad(cfg, s, j, v, failed, now));
    LoadThen(cfg, s, j, v, failed, now, AfterLoad(cfg, s, j, v, failed, now));
  }

  /** The next undisturbed Get after a load that is kept returns that load's value, and starts
      another exactly from the load's clock plus expiration (expirationOnErr after a failure) on.
      After a failure that is not kept it returns the old value, due as before. */
  lemma LoadThenGet<V(!new)>(cfg: Config, s: State<V>, j: nat, v: V, failed: bool, loaded: int, i: nat, now: int)
      returns (t: State<V>)
    requires j < |s.loaders| && s.loaders[j].Loading? && loaded > 0
    requires i < |s.getters| && s.getters[i] == Resting && now > 0
    ensures Reaches(cfg, s, t)
    ensures t.getters == s.getters && s.loaders[j := Finished] <= t.loaders <= s.loaders[j := Finished] + [Loading]
    ensures !failed || cfg.expirationOnErr > 0 ==>
              && t.returned == s.returned + [v] && t.c.data == v
              && (|t.loaders| > |s.loaders| <==>
                    now >= loaded + if failed then cfg.expirationOnErr else cfg.expiration)
    ensures failed && cfg.expirationOnErr <= 0 ==>
              && t.returned == s.returned + [s.c.data] && t.c.data == s.c.data
              && (|t.loaders| > |s.loaders| <==> now >= s.c.next)
  {
    var u := AfterLoad(cfg, s, j, v, failed, loaded);
    t := Checked(cfg, u, now).(returned := u.returned + [u.c.data]);
    GetIsARun(cfg, u, i, now);
    LoadThen(cfg, s, j, v, failed, loaded, t);
  }
}
