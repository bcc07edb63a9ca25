/** What the pool promises its callers, over every run of any number of goroutines. */
module PoolTheorems {
  import opened PoolModel
  import opened PoolSteps
  import opened PoolProofs

  /** The state after the events, from an unused pool. */
  function After(cfg: Config, n: nat, now: Time, evs: seq<Event>): State {
    Exec(cfg, Start(n, now), evs)
  }

  /** `active` is exact, never negative, and never above MaxActive, although a waiting get does not
      compare the two. */
  lemma ActiveWithinLimit(cfg: Config, n: nat, now: Time, evs: seq<Event>)
    ensures var s := After(cfg, n, now, evs);
            && s.sh.active == |s.sh.idle| + |s.sh.out| + Total(s.procs, Slots)
            && |s.sh.idle| + |s.sh.out| <= s.sh.active
            && (cfg.maxActive > 0 ==> s.sh.active <= cfg.maxActive)
  {
    Reachable(cfg, n, now, evs);
  }

  /** Tokens are conserved while the pool is open, so no send made under the mutex ever blocks or
      meets a closed channel, and the channel is closed at most once. */
  lemma TokensConserved(cfg: Config, n: nat, now: Time, evs: seq<Event>)
    ensures var s := After(cfg, n, now, evs);
            && (cfg.wait && cfg.maxActive > 0 && !s.sh.closed && s.sh.ch.Channel? ==>
                  s.sh.ch.tokens + |s.sh.out| + Total(s.procs, Tokens) == cfg.maxActive)
            && (s.sh.ch.Channel? ==> s.sh.ch.closed == s.sh.closed)
            && s.fault !in {SendOnClosed, SendBlocked, CloseOfClosed}
  {
    Reachable(cfg, n, now, evs);
  }

  /** Every connection ever dialed is in exactly one place: idle, checked out, with exactly one
      goroutine, or closed exactly once; nothing else is anywhere. */
  lemma OnePlaceEach(cfg: Config, n: nat, now: Time, evs: seq<Event>, c: Conn)
    ensures var s := After(cfg, n, now, evs);
            Occurs(s.sh.idle, c) + One(c in s.sh.out) + Total(s.procs, Copies(c)) + s.closes[c] == One(c in s.dialed)
  {
    Reachable(cfg, n, now, evs);
    assert Places(After(cfg, n, now, evs), c) == One(c in After(cfg, n, now, evs).dialed);
  }

  /** A connection one goroutine is about to hand out, test or close is with no other goroutine,
      not checked out, not idle and not closed. */
  lemma SoleHolder(cfg: Config, n: nat, now: Time, evs: seq<Event>, i: nat, j: nat, c: Conn)
    requires var s := After(cfg, n, now, evs);
             i < |s.procs| && j < |s.procs| && i != j && Owns(s.procs[i], Copies(c)) > 0
    ensures var s := After(cfg, n, now, evs);
            Owns(s.procs[j], Copies(c)) == 0 && c !in s.sh.out && Occurs(s.sh.idle, c) == 0 && s.closes[c] == 0
  {
    var s := After(cfg, n, now, evs);
    Reachable(cfg, n, now, evs);
    PrivateCopy(s, i, c);
    TotalUpdate(s.procs, i, Ready, Copies(c));
    TotalUpdate(s.procs[i := Ready], j, Ready, Copies(c));
    assert Places(s, c) == One(c in s.dialed);
  }

  lemma StepStaysClosed(cfg: Config, s: State, i: nat, ev: Event)
    requires i < |s.procs| && (s.sh.closed || s.procs[i] == CloseEnter)
    ensures var t := Apply(cfg, s, ev);
            |t.procs| == |s.procs| && (t.sh.closed || t.procs[i] == CloseEnter) && (s.sh.closed ==> t.sh.closed)
    ensures s.fault == NoFault && ev.Run? && ev.i == i ==> Apply(cfg, s, ev).sh.closed
  {
  }

  lemma {:induction false} StaysClosed(cfg: Config, s: State, i: nat, evs: seq<Event>)
    requires i < |s.procs| && (s.sh.closed || s.procs[i] == CloseEnter)
    ensures var t := Exec(cfg, s, evs);
            |t.procs| == |s.procs| && (t.sh.closed || t.procs[i] == CloseEnter) && (s.sh.closed ==> t.sh.closed)
  {
    if evs != [] {
      var init := evs[..|evs| - 1];
      StaysClosed(cfg, s, i, init);
      StepStaysClosed(cfg, Exec(cfg, s, init), i, evs[|evs| - 1]);
    }
  }

  /** Once goroutine `i` has called Close, the pool is closed in every later state in which that
      call is past its locked stretch, and from that stretch on for good. */
  lemma CloseTakesHold(cfg: Config, n: nat, now: Time, evs: seq<Event>, i: nat, between: seq<Event>,
                       env: Env, more: seq<Event>)
    requires var s := After(cfg, n, now, evs); i < |s.procs| && s.procs[i] == Ready && s.fault == NoFault
    ensures var t := After(cfg, n, now, evs + [CallClose(i)] + between);
            |t.procs| > i && (t.sh.closed || t.procs[i] == CloseEnter)
    ensures After(cfg, n, now, evs + [CallClose(i)] + between).fault == NoFault ==>
              After(cfg, n, now, evs + [CallClose(i)] + between + [Run(i, env)] + more).sh.closed
  {
    var s, called := Start(n, now), evs + [CallClose(i)];
    var u, t := Exec(cfg, s, called), Exec(cfg, s, called + between);
    assert called[..|called| - 1] == evs;
    assert u == Apply(cfg, After(cfg, n, now, evs), CallClose(i));
    ExecAppend(cfg, s, called, between);
    StaysClosed(cfg, u, i, between);
    var run := called + between + [Run(i, env)];
    assert run[..|run| - 1] == called + between;
    if t.fault == NoFault {
      StepStaysClosed(cfg, t, i, Run(i, env));
      ExecAppend(cfg, s, run, more);
      StaysClosed(cfg, Exec(cfg, s, run), i, more);
    }
  }

  /** After a call of Close, once every call has returned and every borrower has put back, the pool
      is closed, each connection has been closed exactly once and none counts as active. */
  lemma ClosedPoolDrains(cfg: Config, n: nat, now: Time, before: seq<Event>, i: nat, later: seq<Event>)
    requires var s := After(cfg, n, now, before); i < |s.procs| && s.procs[i] == Ready && s.fault == NoFault
    requires var s := After(cfg, n, now, before + [CallClose(i)] + later);
             s.sh.out == map[] && forall j :: 0 <= j < |s.procs| ==> s.procs[j] == Ready
    ensures var s := After(cfg, n, now, before + [CallClose(i)] + later);
            && s.sh.closed && s.sh.idle == []
            && s.sh.active == 0
            && s.closes == multiset(s.dialed)
  {
    CloseTakesHold(cfg, n, now, before, i, later, Env(true, true, 0), []);
    Drained(cfg, n, now, before + [CallClose(i)] + later);
  }

  lemma Drained(cfg: Config, n: nat, now: Time, evs: seq<Event>)
    requires var s := After(cfg, n, now, evs);
             s.sh.closed && s.sh.out == map[] && forall i :: 0 <= i < |s.procs| ==> s.procs[i] == Ready
    ensures var s := After(cfg, n, now, evs);
            s.sh.idle == [] && s.sh.active == 0 && s.closes == multiset(s.dialed)
  {
    var s := After(cfg, n, now, evs);
    Reachable(cfg, n, now, evs);
    TotalReady(s.procs, Slots);
    forall c ensures s.closes[c] == multiset(s.dialed)[c] {
      TotalReady(s.procs, Copies(c));
      assert Places(s, c) == One(c in s.dialed);
    }
  }

  /** An open pool at rest has all its tokens back and counts exactly its idle connections. */
  lemma OpenPoolRefills(cfg: Config, n: nat, now: Time, evs: seq<Event>)
    requires var s := After(cfg, n, now, evs);
             !s.sh.closed && s.sh.out == map[] && forall i :: 0 <= i < |s.procs| ==> s.procs[i] == Ready
    ensures var s := After(cfg, n, now, evs);
            && s.sh.active == |s.sh.idle|
            && (s.sh.ch.Channel? ==> s.sh.ch.tokens == cfg.maxActive)
  {
    var s := After(cfg, n, now, evs);
    Reachable(cfg, n, now, evs);
    TotalReady(s.procs, Slots);
    TotalReady(s.procs, Tokens);
  }

  lemma {:induction false} SomeHolder(ps: seq<Phase>) returns (j: nat)
    requires Total(ps, Tokens) > 0
    ensures j < |ps| && Owns(ps[j], Tokens) == 1
  {
    if Owns(ps[0], Tokens) == 1 {
      j := 0;
    } else {
      j := SomeHolder(ps[1..]);
      j := j + 1;
    }
  }

  /** No token is lost: a get blocked on the channel always has somebody to wait for, a checked-out
      connection or a call in progress that holds a token. */
  lemma BlockedGetHasSupplier(cfg: Config, n: nat, now: Time, evs: seq<Event>, i: nat, env: Env)
    requires var s := After(cfg, n, now, evs);
             i < |s.procs| && s.procs[i] == GetRecv && s.fault == NoFault
                 && Apply(cfg, s, Run(i, env)).procs[i] == GetRecv
    ensures var s := After(cfg, n, now, evs);
            !s.sh.closed && (s.sh.out != map[] || exists j :: 0 <= j < |s.procs| && Owns(s.procs[j], Tokens) == 1)
  {
    var s := After(cfg, n, now, evs);
    Reachable(cfg, n, now, evs);
    assert PhaseFits(cfg, s.sh, s.procs[i]);
    if s.sh.out == map[] {
      var j := SomeHolder(s.procs);
    }
  }

  /** The idle list is ordered by time of return, newest first, never longer than MaxIdle, and
      empty once the pool is closed. */
  lemma IdleListOrdered(cfg: Config, n: nat, now: Time, evs: seq<Event>)
    ensures var s := After(cfg, n, now, evs);
            Sorted(s.sh.idle) && (s.sh.closed ==> s.sh.idle == [])
            && |s.sh.idle| <= if cfg.maxIdle > 0 then cfg.maxIdle else 0
  {
    Reachable(cfg, n, now, evs);
  }

  /** Every Put in the run is of a connection that is checked out at that moment. */
  ghost predicate BorrowersBehave(cfg: Config, s: State, evs: seq<Event>) {
    forall k :: 0 <= k < |evs| && evs[k].CallPut? ==> evs[k].c in Exec(cfg, s, evs[..k]).sh.out
  }

  lemma StepWithoutNil(cfg: Config, s: State, ev: Event)
    requires s.fault == NoFault && PutNil !in s.procs
    requires ev.CallPut? ==> ev.c in s.sh.out
    ensures Apply(cfg, s, ev).fault != NilPut && PutNil !in Apply(cfg, s, ev).procs
  {
  }

  /** Such a run never dies or hangs under the mutex. */
  lemma {:induction false} BehavedRunsNeverFault(cfg: Config, n: nat, now: Time, evs: seq<Event>)
    requires BorrowersBehave(cfg, Start(n, now), evs)
    ensures After(cfg, n, now, evs).fault == NoFault && PutNil !in After(cfg, n, now, evs).procs
  {
    if evs != [] {
      var init := evs[..|evs| - 1];
      forall k | 0 <= k < |init| && init[k].CallPut? ensures init[k].c in Exec(cfg, Start(n, now), init[..k]).sh.out {
        assert init[..k] == evs[..k] && evs[k] == init[k];
      }
      BehavedRunsNeverFault(cfg, n, now, init);
      StepWithoutNil(cfg, After(cfg, n, now, init), evs[|evs| - 1]);
      Reachable(cfg, n, now, evs);
    }
  }

  lemma ApplyLeavesPhase(cfg: Config, s: State, i: nat, ev: Event)
    requires i < |s.procs| && (ev.Tick? || ev.i != i)
    ensures |Apply(cfg, s, ev).procs| == |s.procs| && Apply(cfg, s, ev).procs[i] == s.procs[i]
  {
  }

  lemma {:induction false} OthersLeavePhase(cfg: Config, s: State, i: nat, evs: seq<Event>)
    requires i < |s.procs|
    requires forall k :: 0 <= k < |evs| ==> evs[k].Tick? || evs[k].i != i
    ensures |Exec(cfg, s, evs).procs| == |s.procs| && Exec(cfg, s, evs).procs[i] == s.procs[i]
  {
    if evs != [] {
      OthersLeavePhase(cfg, s, i, evs[..|evs| - 1]);
      ApplyLeavesPhase(cfg, Exec(cfg, s, evs[..|evs| - 1]), i, evs[|evs| - 1]);
    }
  }

  lemma NilStep(cfg: Config, s: State, i: nat, env: Env)
    requires s.fault == NoFault && i < |s.procs| && s.procs[i] == PutNil
    ensures (Apply(cfg, s, Run(i, env)).fault == NilPut) <==> !s.sh.closed
    ensures s.sh.closed ==> Apply(cfg, s, Run(i, env)) == s.(procs := s.procs[i := Ready])
  {
  }

  /** Putting a connection the pool did not hand out dies exactly when the pool is still open by
      the time put takes the mutex, whatever the other goroutines did in between; otherwise it does
      nothing. */
  lemma ForeignPut(cfg: Config, s: State, i: nat, c: Conn, between: seq<Event>, env: Env)
    requires s.fault == NoFault && i < |s.procs| && s.procs[i] == Ready && c !in s.sh.out
    requires forall k :: 0 <= k < |between| ==> between[k].Tick? || between[k].i != i
    requires Exec(cfg, Apply(cfg, s, CallPut(i, c)), between).fault == NoFault
    ensures var t := Exec(cfg, Apply(cfg, s, CallPut(i, c)), between);
            && (Apply(cfg, t, Run(i, env)).fault == NilPut <==> !t.sh.closed)
            && i < |t.procs| && (t.sh.closed ==> Apply(cfg, t, Run(i, env)) == t.(procs := t.procs[i := Ready]))
  {
    var s' := Apply(cfg, s, CallPut(i, c));
    assert s'.procs[i] == PutNil;
    OthersLeavePhase(cfg, s', i, between);
    NilStep(cfg, Exec(cfg, s', between), i, env);
  }
}
