/** A health status. */
module HealthStatus {

  datatype Health = Unknown | Healthy | Unhealthy

  /** `error` is the identity of the error value, 0 for nil. */
  datatype Status = Status(state: Health, error: nat, source: string)
}

/** compositeChecker.Check: checkers run concurrently and merge their statuses into one shared
    variable without a lock. */
module HealthCheck {
  import opened HealthStatus

  const ALL_WELL := Status(Healthy, 0, "")

  // ----- reference: the worst of the checkers' states

  ghost predicate AnyWith(results: seq<Status>, h: Health) {
    exists i :: 0 <= i < |results| && results[i].state == h
  }

  ghost function Worst(results: seq<Status>): Health {
    if AnyWith(results, Unhealthy) then Unhealthy
    else if AnyWith(results, Unknown) then Unknown
    else Healthy
  }

  // ----- each merge taken as one step

  function Merge(final: Status, status: Status): Status {
    if status.state != Healthy && (status.state == Unhealthy || final.state == Healthy) then status else final
  }

  /** The statuses merged in the order given. */
  function MergeAll(arrived: seq<Status>): Status {
    if arrived == [] then ALL_WELL else Merge(MergeAll(arrived[..|arrived| - 1]), arrived[|arrived| - 1])
  }

  lemma {:induction false} MergeAllIsWorst(arrived: seq<Status>)
    ensures MergeAll(arrived).state == Worst(arrived)
    ensures MergeAll(arrived) == ALL_WELL || MergeAll(arrived) in arrived
  {
    if arrived != [] {
      var init, last := arrived[..|arrived| - 1], arrived[|arrived| - 1];
      MergeAllIsWorst(init);
      forall h ensures AnyWith(arrived, h) <==> AnyWith(init, h) || last.state == h {
        if AnyWith(init, h) {
          var i :| 0 <= i < |init| && init[i].state == h;
          assert arrived[i].state == h;
        }
        assert arrived[|arrived| - 1] == last;
      }
    }
  }

  /** `i` is the last of the statuses in state `h`, or the first if not `last`. */
  ghost predicate Picks(arrived: seq<Status>, h: Health, i: int, last: bool) {
    && 0 <= i < |arrived| && arrived[i].state == h
    && forall j :: (if last then i < j < |arrived| else 0 <= j < i) ==> arrived[j].state != h
  }

  /** The last Unhealthy that arrived; if there is none the first Unknown; if neither, all is well. */
  ghost predicate Reports(arrived: seq<Status>, final: Status) {
    if AnyWith(arrived, Unhealthy) then exists i :: Picks(arrived, Unhealthy, i, true) && final == arrived[i]
    else if AnyWith(arrived, Unknown) then exists i :: Picks(arrived, Unknown, i, false) && final == arrived[i]
    else final == Status(Healthy, 0, "")
  }

  lemma AnyWithMore(init: seq<Status>, last: Status, h: Health)
    ensures AnyWith(init + [last], h) <==> AnyWith(init, h) || last.state == h
  {
    assert (init + [last])[|init|] == last;
    if AnyWith(init, h) {
      var i :| 0 <= i < |init| && init[i].state == h;
      assert (init + [last])[i].state == h;
    }
  }

  lemma ReportsMore(init: seq<Status>, last: Status, final: Status)
    requires Reports(init, final) && final.state == Worst(init)
    ensures Reports(init + [last], Merge(final, last))
  {
    var all := init + [last];
    AnyWithMore(init, last, Unhealthy);
    AnyWithMore(init, last, Unknown);
    if last.state == Unhealthy {
      assert Picks(all, Unhealthy, |init|, true);
    } else if AnyWith(init, Unhealthy) {
      var i :| Picks(init, Unhealthy, i, true) && final == init[i];
      assert Picks(all, Unhealthy, i, true);
    } else if AnyWith(init, Unknown) {
      var i :| Picks(init, Unknown, i, false) && final == init[i];
      assert Picks(all, Unknown, i, false);
    } else if last.state == Unknown {
      assert Picks(all, Unknown, |init|, false);
    }
  }

  /** With atomic merges, which status is reported for an order of arrival. */
  lemma {:induction false} MergeAllReports(arrived: seq<Status>)
    ensures Reports(arrived, MergeAll(arrived))
  {
    if arrived != [] {
      var init, last := arrived[..|arrived| - 1], arrived[|arrived| - 1];
      MergeAllReports(init);
      MergeAllIsWorst(init);
      ReportsMore(init, last, MergeAll(init));
      assert init + [last] == arrived;
    }
  }

  /** With atomic merges every completion order gives the worst state, in a status some checker
      returned. */
  lemma AnyOrderIsWorst(results: seq<Status>, order: seq<nat>, arrived: seq<Status>)
    requires |arrived| == |order| && forall k :: 0 <= k < |order| ==>
             order[k] < |results| && arrived[k] == results[order[k]]
    requires forall i: nat :: i < |results| ==> i in order
    ensures MergeAll(arrived).state == Worst(results)
    ensures MergeAll(arrived) == ALL_WELL || MergeAll(arrived) in results
  {
    MergeAllIsWorst(arrived);
    forall h ensures AnyWith(arrived, h) <==> AnyWith(results, h) {
      if AnyWith(results, h) {
        var i: nat :| i < |results| && results[i].state == h;
        assert i in order;
        var k :| 0 <= k < |order| && order[k] == i;
        assert arrived[k].state == h;
      }
      if AnyWith(arrived, h) {
        var k :| 0 <= k < |arrived| && arrived[k].state == h;
        assert results[order[k]].state == h;
      }
    }
  }

  /** Check when the checkers happen to finish one after another. */
  method CheckInOrder(results: seq<Status>) returns (final: Status)
    ensures final.state == Worst(results) && Reports(results, final)
  {
    final := ALL_WELL;
    for i := 0 to |results|
      invariant final == MergeAll(results[..i])
    {
      var status := results[i];
      if status.state != Healthy {
        if status.state == Unhealthy || final.state == Healthy {
          final := status;
        }
      }
      assert results[..i + 1][..i] == results[..i];
    }
    assert results[..|results|] == results;
    MergeAllIsWorst(results);
    MergeAllReports(results);
  }

  // ----- reads and writes of finalStatus as separate steps

  /** A checker's goroutine: checking; about to read finalStatus.State; about to write; done. */
  datatype Phase = Checking | Reading | Writing | Done

  datatype State = State(final: Status, procs: seq<Phase>)

  function Start(n: nat): State {
    State(ALL_WELL, seq(n, _ => Checking))
  }

  /** Checker `i`'s next step; an unhealthy status is written without reading. */
  function Step(results: seq<Status>, s: State, i: nat): State
    requires |s.procs| == |results|
  {
    if i >= |s.procs| then s
    else match s.procs[i]
      case Checking =>
        var next := match results[i].state
                    case Healthy => Done
                    case Unknown => Reading
                    case Unhealthy => Writing;
        s.(procs := s.procs[i := next])
      case Reading => s.(procs := s.procs[i := if s.final.state == Healthy then Writing else Done])
      case Writing => State(results[i], s.procs[i := Done])
      case Done => s
  }

  function Exec(results: seq<Status>, schedule: seq<nat>): (s: State)
    ensures |s.procs| == |results|
  {
    if schedule == [] then Start(|results|)
    else Step(results, Exec(results, schedule[..|schedule| - 1]), schedule[|schedule| - 1])
  }

  ghost predicate Finished(s: State) {
    forall i :: 0 <= i < |s.procs| ==> s.procs[i] == Done
  }

  ghost predicate Inv(results: seq<Status>, s: State)
    requires |s.procs| == |results|
  {
    && (s.final == ALL_WELL || (s.final.state != Healthy && s.final in results))
    && (forall i :: 0 <= i < |results| && s.procs[i] in {Reading, Writing} ==> results[i].state != Healthy)
    && (forall i :: 0 <= i < |results| && s.procs[i] == Done && results[i].state != Healthy ==>
        s.final.state != Healthy)
  }

  lemma {:induction false} Reachable(results: seq<Status>, schedule: seq<nat>)
    ensures Inv(results, Exec(results, schedule))
  {
    if schedule != [] {
      Reachable(results, schedule[..|schedule| - 1]);
    }
  }

  /** However reads and writes interleave, the outcome is Healthy exactly when every checker said
      so, and otherwise a status some checker returned. */
  lemma HealthyIffAllHealthy(results: seq<Status>, schedule: seq<nat>)
    requires Finished(Exec(results, schedule))
    ensures var final := Exec(results, schedule).final;
            && (final.state == Healthy <==> forall i :: 0 <= i < |results| ==> results[i].state == Healthy)
            && (final == ALL_WELL || final in results)
  {
    var s := Exec(results, schedule);
    Reachable(results, schedule);
    if s.final.state != Healthy {
      var i :| 0 <= i < |results| && results[i] == s.final;
    }
  }

  // ----- checkers that finish one after another

  /** Each checker of `order` runs from start to end. */
  function Turns(order: seq<nat>): seq<nat> {
    if order == [] then []
    else
      var last := order[|order| - 1];
      Turns(order[..|order| - 1]) + [last, last, last]
  }

  /** Different checkers, in the order in which they finish. */
  ghost predicate Ordered(results: seq<Status>, order: seq<nat>) {
    && (forall k :: 0 <= k < |order| ==> order[k] < |results|)
    && (forall k, l :: 0 <= k < l < |order| ==> order[k] != order[l])
  }

  function Arrived(results: seq<Status>, order: seq<nat>): (r: seq<Status>)
    requires forall k :: 0 <= k < |order| ==> order[k] < |results|
    ensures |r| == |order| && forall k :: 0 <= k < |order| ==> r[k] == results[order[k]]
  {
    seq(|order|, k requires 0 <= k < |order| => results[order[k]])
  }

  lemma OneTurn(results: seq<Status>, s: State, i: nat)
    requires |s.procs| == |results| && i < |results| && s.procs[i] == Checking
    ensures Step(results, Step(results, Step(results, s, i), i), i) ==
            State(Merge(s.final, results[i]), s.procs[i := Done])
  {
    StepsToDone(results, s, i);
  }

  lemma TurnThen(results: seq<Status>, schedule: seq<nat>, i: nat)
    ensures Exec(results, schedule + [i, i, i]) ==
            Step(results, Step(results, Step(results, Exec(results, schedule), i), i), i)
  {
    var one, two := schedule + [i], schedule + [i] + [i];
    ExecThen(results, schedule, i);
    ExecThen(results, one, i);
    ExecThen(results, two, i);
    assert two + [i] == schedule + [i, i, i];
  }

  lemma {:induction false} TurnsMerge(results: seq<Status>, order: seq<nat>)
    requires Ordered(results, order)
    ensures var s := Exec(results, Turns(order));
            && s.final == MergeAll(Arrived(results, order))
            && forall i: nat :: i < |results| ==> s.procs[i] == if i in order then Done else Checking
  {
    if order != [] {
      var init, last := order[..|order| - 1], order[|order| - 1];
      assert order == init + [last];
      TurnsMerge(results, init);
      TurnThen(results, Turns(init), last);
      OneTurn(results, Exec(results, Turns(init)), last);
      assert Arrived(results, order)[..|init|] == Arrived(results, init);
    }
  }

  /** At read/write granularity too, checkers that finish one after another give the merge of their
      statuses in that order: the last Unhealthy, or else the first Unknown. */
  lemma TurnsReport(results: seq<Status>, order: seq<nat>)
    requires Ordered(results, order) && forall i: nat :: i < |results| ==> i in order
    ensures var s := Exec(results, Turns(order)); Finished(s) && Reports(Arrived(results, order), s.final)
  {
    TurnsMerge(results, order);
    MergeAllReports(Arrived(results, order));
  }

  // ----- exactly when the unlocked merge reports the worst state

  ghost predicate AlwaysWorst(results: seq<Status>) {
    forall schedule :: Finished(Exec(results, schedule)) ==> Exec(results, schedule).final.state == Worst(results)
  }

  /** Everybody but `u` runs to the end, up to checker `n`. */
  function Others(n: nat, u: nat): seq<nat> {
    if n == 0 then [] else Others(n - 1, u) + if n - 1 == u then [] else [n - 1, n - 1, n - 1]
  }

  lemma ExecThen(results: seq<Status>, schedule: seq<nat>, i: nat)
    ensures Exec(results, schedule + [i]) == Step(results, Exec(results, schedule), i)
  {
  }

  lemma StepsToDone(results: seq<Status>, s: State, i: nat)
    requires |s.procs| == |results| && i < |results|
    ensures Step(results, Step(results, Step(results, s, i), i), i).procs == s.procs[i := Done]
  {
  }

  lemma ThreeSteps(results: seq<Status>, schedule: seq<nat>, i: nat)
    requires i < |results|
    ensures Exec(results, schedule + [i, i, i]).procs == Exec(results, schedule).procs[i := Done]
  {
    TurnThen(results, schedule, i);
    StepsToDone(results, Exec(results, schedule), i);
  }

  lemma {:induction false} OthersFinish(results: seq<Status>, n: nat, u: nat)
    requires u < |results| && n <= |results| && results[u].state == Unknown
    ensures var s := Exec(results, [u, u] + Others(n, u));
            && s.procs[u] == Writing
            && (forall i :: 0 <= i < n && i != u ==> s.procs[i] == Done)
  {
    if n == 0 {
      assert [] + [u] == [u] && [u] + [u] == [u, u] && [u, u] + Others(0, u) == [u, u];
      ExecThen(results, [], u);
      ExecThen(results, [u], u);
    } else {
      OthersFinish(results, n - 1, u);
      if n - 1 == u {
        assert [u, u] + Others(n, u) == [u, u] + Others(n - 1, u);
      } else {
        ThreeSteps(results, [u, u] + Others(n - 1, u), n - 1);
        assert [u, u] + Others(n, u) == [u, u] + Others(n - 1, u) + [n - 1, n - 1, n - 1];
      }
    }
  }

  /** One checker reads Healthy, all others finish, then it writes its Unknown over them. */
  lemma {:induction false} LateUnknownWins(results: seq<Status>, u: nat)
    requires u < |results| && results[u].state == Unknown
    ensures var schedule := [u, u] + Others(|results|, u) + [u];
            Finished(Exec(results, schedule)) && Exec(results, schedule).final == results[u]
  {
    OthersFinish(results, |results|, u);
    ExecThen(results, [u, u] + Others(|results|, u), u);
  }

  /** The outcome is the worst state under every schedule exactly when the results do not hold both
      an Unknown and an Unhealthy; else some schedule hides the Unhealthy. */
  lemma AlwaysWorstIff(results: seq<Status>)
    ensures AlwaysWorst(results) <==> !(AnyWith(results, Unknown) && AnyWith(results, Unhealthy))
  {
    if AnyWith(results, Unknown) && AnyWith(results, Unhealthy) {
      var u :| 0 <= u < |results| && results[u].state == Unknown;
      LateUnknownWins(results, u);
      var schedule := [u, u] + Others(|results|, u) + [u];
      assert Exec(results, schedule).final.state != Worst(results);
    } else {
      forall schedule | Finished(Exec(results, schedule))
        ensures Exec(results, schedule).final.state == Worst(results)
      {
        OneKindIsWorst(results, schedule);
      }
    }
  }

  lemma OneKindIsWorst(results: seq<Status>, schedule: seq<nat>)
    requires Finished(Exec(results, schedule)) && !(AnyWith(results, Unknown) && AnyWith(results, Unhealthy))
    ensures Exec(results, schedule).final.state == Worst(results)
  {
    var final := Exec(results, schedule).final;
    HealthyIffAllHealthy(results, schedule);
    if final.state != Healthy {
      var i :| 0 <= i < |results| && results[i] == final;
      assert AnyWith(results, final.state);
    } else {
      assert !AnyWith(results, Unknown) && !AnyWith(results, Unhealthy);
    }
  }
}
