/** runnerImpl: Start and every tick call runHealthCheck, possibly at once; a compare-and-swap lets
    one cycle run, which stores a changed status and offers it to a channel of capacity one. */
module HealthRunner {
  import opened HealthStatus

  datatype Phase =
    | Resting                  // no call in progress
    | Entering                 // before the compare-and-swap
    | Probing                  // won it, inside compositeChecker.Check
    | Comparing(status: Status)
    | Storing(status: Status)  // the status changed, before the assignment to lastStatus
    | Sending(status: Status)  // before the select
    | Leaving                  // before the deferred compare-and-swap back

  /** `changes` lists the stored statuses, `sent` says of each whether the channel took it, and
      `delivered` what was received from the channel. */
  datatype State = State(lastStatus: Status, running: bool, chan: seq<Status>, procs: seq<Phase>, crashed: bool,
                         changes: seq<Status>, sent: seq<bool>, delivered: seq<Status>)

  datatype Event = Call(i: nat) | Run(i: nat, result: Status) | Receive

  const FIRST := Status(Unknown, 0, "")

  function Start(n: nat): State {
    State(FIRST, false, [], seq(n, _ => Resting), false, [], [], [])
  }

  function Goto(s: State, i: nat, ph: Phase): State
    requires i < |s.procs|
  {
    s.(procs := s.procs[i := ph])
  }

  function Advance(panicOnError: bool, s: State, i: nat, result: Status): State
    requires i < |s.procs|
  {
    match s.procs[i]
    case Resting => s
    case Entering => if s.running then Goto(s, i, Resting) else Goto(s.(running := true), i, Probing)
    case Probing => Goto(s, i, Comparing(result))
    case Comparing(st) =>
      if st == s.lastStatus then Goto(s, i, Leaving)
      else if st.state == Unhealthy && panicOnError then s.(crashed := true)
      else Goto(s, i, Storing(st))
    case Storing(st) => Goto(s.(lastStatus := st, changes := s.changes + [st]), i, Sending(st))
    case Sending(st) =>
      if |s.chan| < 1 then Goto(s.(chan := s.chan + [st], sent := s.sent + [true]), i, Leaving)
      else Goto(s.(sent := s.sent + [false]), i, Leaving)
    case Leaving => Goto(s.(running := false), i, Resting)
  }

  function Apply(panicOnError: bool, s: State, ev: Event): State {
    if s.crashed then s
    else match ev
      case Call(i) => if i < |s.procs| && s.procs[i] == Resting then Goto(s, i, Entering) else s
      case Run(i, result) => if i < |s.procs| then Advance(panicOnError, s, i, result) else s
      case Receive => if |s.chan| > 0 then s.(chan := s.chan[1..], delivered := s.delivered + [s.chan[0]]) else s
  }

  function Exec(panicOnError: bool, n: nat, evs: seq<Event>): State {
    if evs == [] then Start(n) else Apply(panicOnError, Exec(panicOnError, n, evs[..|evs| - 1]), evs[|evs| - 1])
  }

  predicate InCycle(ph: Phase) {
    !ph.Resting? && !ph.Entering?
  }

  /** The changes the channel took, in order. */
  function Kept(changes: seq<Status>, sent: seq<bool>): seq<Status>
    requires |sent| <= |changes|
  {
    if sent == [] then []
    else
      var k := |sent| - 1;
      Kept(changes, sent[..k]) + if sent[k] then [changes[k]] else []
  }

  ghost predicate Alternating(changes: seq<Status>) {
    && (changes != [] ==> changes[0] != FIRST)
    && (forall k :: 0 <= k < |changes| - 1 ==> changes[k] != changes[k + 1])
  }

  /** Call `h`, and no other, is in a cycle; none if `h` is -1.  The flag is up exactly then. */
  ghost predicate Exclusive(s: State, h: int) {
    && -1 <= h < |s.procs|
    && (s.running <==> h >= 0)
    && (forall i :: 0 <= i < |s.procs| ==> (InCycle(s.procs[i]) <==> i == h))
  }

  /** The stored changes, those the channel took, and what was delivered. */
  ghost predicate Books(
      last: Status, changes: seq<Status>, sent: seq<bool>, chan: seq<Status>, delivered: seq<Status>) {
    && Alternating(changes)
    && last == (if changes == [] then FIRST else changes[|changes| - 1])
    && |chan| <= 1
    && |sent| <= |changes|
    && delivered + chan == Kept(changes, sent)
  }

  ghost predicate Ledger(s: State, h: int)
    requires -1 <= h < |s.procs|
  {
    && Books(s.lastStatus, s.changes, s.sent, s.chan, s.delivered)
    && (if h >= 0 && s.procs[h].Sending? then s.procs[h].status == s.lastStatus && |s.sent| + 1 == |s.changes|
        else |s.sent| == |s.changes|)
    && (h >= 0 && s.procs[h].Storing? ==> s.procs[h].status != s.lastStatus)
  }

  lemma {:induction false} KeptPrefix(changes: seq<Status>, more: seq<Status>, sent: seq<bool>)
    requires |sent| <= |changes|
    ensures Kept(changes + more, sent) == Kept(changes, sent)
  {
    if sent != [] {
      KeptPrefix(changes, more, sent[..|sent| - 1]);
    }
  }

  /** The cycle holder after an event. */
  function Holder(s: State, h: int, ev: Event): int {
    if s.crashed || !ev.Run? || ev.i >= |s.procs| then h
    else if s.procs[ev.i].Entering? && !s.running then ev.i
    else if s.procs[ev.i].Leaving? then -1
    else h
  }

  lemma ExclusiveStep(panicOnError: bool, s: State, h: int, ev: Event)
    requires Exclusive(s, h)
    ensures Exclusive(Apply(panicOnError, s, ev), Holder(s, h, ev))
  {
  }

  lemma KeptGrows(changes: seq<Status>, sent: seq<bool>, took: bool)
    requires |sent| < |changes|
    ensures Kept(changes, sent + [took]) == Kept(changes, sent) + if took then [changes[|sent|]] else []
  {
  }

  lemma StoreStep(panicOnError: bool, s: State, h: nat, result: Status)
    requires h < |s.procs| && Ledger(s, h) && s.procs[h].Storing?
    ensures Ledger(Advance(panicOnError, s, h, result), h)
  {
    KeptPrefix(s.changes, [s.procs[h].status], s.sent);
  }

  lemma SendStep(panicOnError: bool, s: State, h: nat, result: Status)
    requires h < |s.procs| && Ledger(s, h) && s.procs[h].Sending?
    ensures Ledger(Advance(panicOnError, s, h, result), h)
  {
    KeptGrows(s.changes, s.sent, |s.chan| < 1);
  }

  /** Steps that neither store nor send. */
  lemma QuietStep(panicOnError: bool, s: State, h: int, i: nat, result: Status)
    requires Exclusive(s, h) && Ledger(s, h) && i < |s.procs| && !s.procs[i].Storing? && !s.procs[i].Sending?
             && !s.crashed
    ensures Ledger(Advance(panicOnError, s, i, result), Holder(s, h, Run(i, result)))
  {
  }

  lemma ReceiveStep(s: State, h: int)
    requires -1 <= h < |s.procs| && Ledger(s, h) && |s.chan| > 0
    ensures Ledger(s.(chan := s.chan[1..], delivered := s.delivered + [s.chan[0]]), h)
  {
  }

  lemma LedgerStep(panicOnError: bool, s: State, h: int, ev: Event)
    requires Exclusive(s, h) && Ledger(s, h)
    ensures Exclusive(Apply(panicOnError, s, ev), Holder(s, h, ev))
    ensures Ledger(Apply(panicOnError, s, ev), Holder(s, h, ev))
  {
    ExclusiveStep(panicOnError, s, h, ev);
    if ev.Run? && ev.i < |s.procs| && !s.crashed {
      if s.procs[ev.i].Storing? {
        StoreStep(panicOnError, s, h, ev.result);
      } else if s.procs[ev.i].Sending? {
        SendStep(panicOnError, s, h, ev.result);
      } else {
        QuietStep(panicOnError, s, h, ev.i, ev.result);
      }
    } else if ev.Receive? && |s.chan| > 0 {
      ReceiveStep(s, h);
    }
  }

  lemma {:induction false} Reachable(panicOnError: bool, n: nat, evs: seq<Event>) returns (h: int)
    ensures var s := Exec(panicOnError, n, evs);
            Exclusive(s, h) && Ledger(s, h)
  {
    if evs == [] {
      h := -1;
    } else {
      var before := Exec(panicOnError, n, evs[..|evs| - 1]);
      h := Reachable(panicOnError, n, evs[..|evs| - 1]);
      LedgerStep(panicOnError, before, h, evs[|evs| - 1]);
      h := Holder(before, h, evs[|evs| - 1]);
    }
  }

  // ----- what the runner promises

  /** Cycles never overlap, in any interleaving of Start and ticks. */
  lemma CyclesNeverOverlap(panicOnError: bool, n: nat, evs: seq<Event>, i: nat, j: nat)
    requires var s := Exec(panicOnError, n, evs);
             i < j < |s.procs| && InCycle(s.procs[i])
    ensures !InCycle(Exec(panicOnError, n, evs).procs[j])
  {
    var h := Reachable(panicOnError, n, evs);
  }

  /** `picks` names strictly increasing positions of `all`, whose elements are `some`. */
  ghost predicate Subsequence(some: seq<Status>, all: seq<Status>, picks: seq<nat>) {
    && |picks| == |some|
    && (forall k :: 0 <= k < |picks| ==> picks[k] < |all| && all[picks[k]] == some[k])
    && (forall k, l :: 0 <= k < l < |picks| ==> picks[k] < picks[l])
  }

  lemma {:induction false} KeptIsSubsequence(changes: seq<Status>, sent: seq<bool>) returns (picks: seq<nat>)
    requires |sent| <= |changes|
    ensures Subsequence(Kept(changes, sent), changes, picks)
    ensures forall k :: 0 <= k < |picks| ==> picks[k] < |sent|
  {
    if sent == [] {
      picks := [];
    } else {
      var k := |sent| - 1;
      picks := KeptIsSubsequence(changes, sent[..k]);
      if sent[k] {
        picks := picks + [k];
      }
    }
  }

  lemma {:induction false} AllKept(changes: seq<Status>, sent: seq<bool>)
    requires |sent| <= |changes| && forall k :: 0 <= k < |sent| ==> sent[k]
    ensures Kept(changes, sent) == changes[..|sent|]
  {
    if sent != [] {
      AllKept(changes, sent[..|sent| - 1]);
    }
  }

  /** Delivered statuses come in the order of the stored changes, and none is made up; if no send
      found the channel full, every change but those still in the channel or about to be sent was
      delivered. */
  lemma DeliveredInOrder(panicOnError: bool, n: nat, evs: seq<Event>) returns (picks: seq<nat>)
    ensures var s := Exec(panicOnError, n, evs);
            && Subsequence(s.delivered + s.chan, s.changes, picks)
            && |s.changes| - 1 <= |s.sent| <= |s.changes|
            && ((forall k :: 0 <= k < |s.sent| ==> s.sent[k]) ==> s.delivered + s.chan == s.changes[..|s.sent|])
  {
    var s := Exec(panicOnError, n, evs);
    var h := Reachable(panicOnError, n, evs);
    picks := KeptIsSubsequence(s.changes, s.sent);
    if forall k :: 0 <= k < |s.sent| ==> s.sent[k] {
      AllKept(s.changes, s.sent);
    }
  }

  ghost predicate NoUnhealthy(s: State) {
    && (forall k :: 0 <= k < |s.changes| ==> s.changes[k].state != Unhealthy)
    && (forall i :: 0 <= i < |s.procs| && s.procs[i].Storing? ==> s.procs[i].status.state != Unhealthy)
  }

  lemma NoUnhealthyStep(s: State, ev: Event)
    requires NoUnhealthy(s)
    ensures NoUnhealthy(Apply(true, s, ev))
  {
  }

  /** With panicOnError no unhealthy status is ever stored: the process dies first. */
  lemma {:induction false} NeverStoresUnhealthy(n: nat, evs: seq<Event>)
    ensures NoUnhealthy(Exec(true, n, evs))
  {
    if evs != [] {
      NeverStoresUnhealthy(n, evs[..|evs| - 1]);
      NoUnhealthyStep(Exec(true, n, evs[..|evs| - 1]), evs[|evs| - 1]);
    }
  }

  // ----- every change is stored, and nothing else

  /** Whether the event is the end of a Check. */
  predicate Ends(s: State, ev: Event) {
    !s.crashed && ev.Run? && ev.i < |s.procs| && s.procs[ev.i].Probing?
  }

  /** What the Checks of the run returned, in order. */
  function Probes(panicOnError: bool, n: nat, evs: seq<Event>): seq<Status> {
    if evs == [] then []
    else
      var init, ev := evs[..|evs| - 1], evs[|evs| - 1];
      Probes(panicOnError, n, init) + if Ends(Exec(panicOnError, n, init), ev) then [ev.result] else []
  }

  /** A new runner's status, or the latest result. */
  function Latest(probes: seq<Status>): Status {
    if probes == [] then Status(Unknown, 0, "") else probes[|probes| - 1]
  }

  /** The results that differ from the one before. */
  function Changed(probes: seq<Status>): seq<Status> {
    if probes == [] then []
    else
      var init, last := probes[..|probes| - 1], probes[|probes| - 1];
      Changed(init) + if last != Latest(init) then [last] else []
  }

  lemma ProbesMore(probes: seq<Status>, result: Status)
    ensures Changed(probes + [result]) == Changed(probes) + if result != Latest(probes) then [result] else []
    ensures Latest(probes + [result]) == result && (probes + [result])[..|probes|] == probes
  {
  }

  ghost predicate Dies(panicOnError: bool, s: State, result: Status) {
    panicOnError && result.state == Unhealthy && result != s.lastStatus
  }

  /** The cycle holder has a result it has not compared, or not stored yet. */
  predicate Pending(s: State, h: int)
    requires -1 <= h < |s.procs|
  {
    h >= 0 && (s.procs[h].Comparing? || s.procs[h].Storing?)
  }

  /** All results but a pending one are accounted for in the stored changes. */
  ghost predicate Follows(panicOnError: bool, s: State, h: int, probes: seq<Status>)
    requires -1 <= h < |s.procs|
  {
    && (Pending(s, h) ==> probes != [] && s.procs[h].status == Latest(probes))
    && (var settled := if Pending(s, h) && probes != [] then probes[..|probes| - 1] else probes;
        s.lastStatus == Latest(settled) && s.changes == Changed(settled))
    && (h >= 0 && s.procs[h].Storing? ==>
          s.procs[h].status != s.lastStatus && !Dies(panicOnError, s, s.procs[h].status))
    && (h >= 0 && s.procs[h].Sending? ==> s.procs[h].status == s.lastStatus)
    && (s.crashed ==> h >= 0 && s.procs[h].Comparing? && Dies(panicOnError, s, s.procs[h].status))
  }

  lemma ProbeFollows(panicOnError: bool, s: State, h: int, result: Status, probes: seq<Status>)
    requires Exclusive(s, h) && Follows(panicOnError, s, h, probes) && h >= 0 && s.procs[h].Probing? && !s.crashed
    ensures Follows(panicOnError, Advance(panicOnError, s, h, result), h, probes + [result])
  {
    ProbesMore(probes, result);
  }

  lemma CompareFollows(panicOnError: bool, s: State, h: int, result: Status, probes: seq<Status>)
    requires Exclusive(s, h) && Follows(panicOnError, s, h, probes) && Pending(s, h) && !s.crashed
    ensures Follows(panicOnError, Advance(panicOnError, s, h, result), h, probes)
  {
    assert probes == probes[..|probes| - 1] + [Latest(probes)];
    ProbesMore(probes[..|probes| - 1], Latest(probes));
  }

  /** Steps outside the holder's cycle, and the holder's start, send and end. */
  lemma OtherFollows(panicOnError: bool, s: State, h: int, i: nat, result: Status, probes: seq<Status>)
    requires Exclusive(s, h) && Follows(panicOnError, s, h, probes) && i < |s.procs| && !s.crashed
    requires !s.procs[i].Probing? && !(i == h && Pending(s, h))
    ensures Follows(panicOnError, Advance(panicOnError, s, i, result), Holder(s, h, Run(i, result)), probes)
  {
  }

  lemma FollowsStep(panicOnError: bool, s: State, h: int, ev: Event, probes: seq<Status>)
    requires Exclusive(s, h) && Follows(panicOnError, s, h, probes)
    ensures var t := Apply(panicOnError, s, ev);
            && Exclusive(t, Holder(s, h, ev))
            && Follows(panicOnError, t, Holder(s, h, ev), probes + if Ends(s, ev) then [ev.result] else [])
  {
    ExclusiveStep(panicOnError, s, h, ev);
    assert probes + [] == probes;
    if Ends(s, ev) {
      ProbeFollows(panicOnError, s, h, ev.result, probes);
    } else if !s.crashed && ev.Run? && ev.i == h && Pending(s, h) {
      CompareFollows(panicOnError, s, h, ev.result, probes);
    } else if !s.crashed && ev.Run? && ev.i < |s.procs| {
      OtherFollows(panicOnError, s, h, ev.i, ev.result, probes);
    }
  }

  lemma {:induction false} FollowsReachable(panicOnError: bool, n: nat, evs: seq<Event>) returns (h: int)
    ensures var s := Exec(panicOnError, n, evs);
            Exclusive(s, h) && Follows(panicOnError, s, h, Probes(panicOnError, n, evs))
  {
    if evs == [] {
      h := -1;
    } else {
      var init, ev := evs[..|evs| - 1], evs[|evs| - 1];
      h := FollowsReachable(panicOnError, n, init);
      FollowsStep(panicOnError, Exec(panicOnError, n, init), h, ev, Probes(panicOnError, n, init));
      h := Holder(Exec(panicOnError, n, init), h, ev);
    }
  }

  /** The stored statuses are exactly the changes among the results of Check, in order, and lastStatus
      is the latest result, but for a result a cycle has still to compare or store; so whenever no cycle
      is in progress, for all of them. */
  lemma StoredStatusesChange(panicOnError: bool, n: nat, evs: seq<Event>)
    ensures var s := Exec(panicOnError, n, evs);
            var probes := Probes(panicOnError, n, evs);
            && ((s.changes == Changed(probes) && s.lastStatus == Latest(probes))
                || (s.running && probes != []
                    && s.changes == Changed(probes[..|probes| - 1]) && s.lastStatus == Latest(probes[..|probes| - 1])))
            && Alternating(s.changes)
  {
    var h := FollowsReachable(panicOnError, n, evs);
    var h' := Reachable(panicOnError, n, evs);
  }

  /** The steps that matter: a comparison kills the process if and only if the latest result is a new
      Unhealthy with panicOnError, and that is the only way it dies; a send finds the latest result
      stored, and puts it on an empty channel. */
  lemma EveryChangeIsReported(panicOnError: bool, n: nat, evs: seq<Event>, i: nat, result: Status)
    requires i < |Exec(panicOnError, n, evs).procs|
    ensures var s := Exec(panicOnError, n, evs);
            var latest := Latest(Probes(panicOnError, n, evs));
            && (s.crashed ==> panicOnError && latest.state == Unhealthy && latest != s.lastStatus)
            && (!s.crashed && s.procs[i].Comparing? ==>
                  (Apply(panicOnError, s, Run(i, result)).crashed <==>
                     panicOnError && latest.state == Unhealthy && latest != s.lastStatus))
            && (!s.crashed && s.procs[i].Sending? ==>
                  s.lastStatus == latest
                  && Apply(panicOnError, s, Run(i, result)).chan == if s.chan == [] then [latest] else s.chan)
  {
    var h := FollowsReachable(panicOnError, n, evs);
    var h' := Reachable(panicOnError, n, evs);
  }

  // ----- the object, one call at a time

  /** What one uninterrupted runHealthCheck leaves: last status, channel, and whether it panicked. */
  datatype Outcome = Outcome(lastStatus: Status, chan: seq<Status>, panicked: bool)

  function Cycle(panicOnError: bool, running: bool, lastStatus: Status, chan: seq<Status>, result: Status): Outcome {
    if running || result == lastStatus then Outcome(lastStatus, chan, false)
    else if result.state == Unhealthy && panicOnError then Outcome(lastStatus, chan, true)
    else Outcome(result, if |chan| < 1 then chan + [result] else chan, false)
  }

  class RunnerImpl {
    const panicOnError: bool
    var lastStatus: Status
    var runningCheckCycle: bool
    var reportChan: seq<Status>

    constructor (panicOnError: bool)
      ensures this.panicOnError == panicOnError && lastStatus == Status(Unknown, 0, "")
              && !runningCheckCycle && reportChan == []
    {
      this.panicOnError := panicOnError;
      lastStatus, runningCheckCycle, reportChan := FIRST, false, [];
    }

    /** `result` is what the composite check returns, if it is asked. */
    method RunHealthCheck(result: Status) returns (panicked: bool)
      modifies this
      ensures Outcome(lastStatus, reportChan, panicked) ==
              Cycle(panicOnError, old(runningCheckCycle), old(lastStatus), old(reportChan), result)
      ensures runningCheckCycle == old(runningCheckCycle)
      ensures panicked <==>
              !old(runningCheckCycle) && panicOnError && result.state == Unhealthy && result != old(lastStatus)
      ensures lastStatus == if old(runningCheckCycle) || panicked then old(lastStatus) else result
      ensures reportChan == if lastStatus != old(lastStatus) && old(reportChan) == [] then [result] else old(reportChan)
    {
      panicked := false;
      if runningCheckCycle {
        return;
      }
      runningCheckCycle := true;
      var status := result;
      if status != lastStatus {
        if status.state == Unhealthy && panicOnError {
          panicked := true;
        } else {
          lastStatus := status;
          if |reportChan| < 1 {
            reportChan := reportChan + [status];
          }
        }
      }
      runningCheckCycle := false;
    }
  }

  function Runs(panicOnError: bool, s: State, i: nat, result: Status, k: nat): (t: State)
    ensures |t.procs| == |s.procs|
  {
    if k == 0 then s else Apply(panicOnError, Runs(panicOnError, s, i, result, k - 1), Run(i, result))
  }

  /** From the comparison on, a cycle takes at most four more steps. */
  lemma FromComparing(panicOnError: bool, s: State, i: nat, result: Status)
    requires i < |s.procs| && s.procs[i] == Comparing(result) && !s.crashed && s.running
    ensures var (t, o) := (Runs(panicOnError, s, i, result, 4),
                           Cycle(panicOnError, false, s.lastStatus, s.chan, result));
            && t.lastStatus == o.lastStatus && t.chan == o.chan && t.crashed == o.panicked
            && (!t.crashed ==> !t.running && t.procs[i] == Resting)
  {
    var ev := Run(i, result);
    var s1 := Apply(panicOnError, s, ev);
    var s2 := Apply(panicOnError, s1, ev);
    var s3 := Apply(panicOnError, s2, ev);
    assert Runs(panicOnError, s, i, result, 1) == s1;
    assert Runs(panicOnError, s, i, result, 2) == s2;
    assert Runs(panicOnError, s, i, result, 3) == s3;
    if result == s.lastStatus {
      assert s1.procs[i] == Leaving;
      assert s2.procs[i] == Resting;
      assert s3 == s2;
    } else if result.state == Unhealthy && panicOnError {
      assert s1.crashed;
      assert s2 == s1 && s3 == s2;
    } else {
      assert s1.procs[i] == Storing(result);
      assert s2.procs[i] == Sending(result);
      assert s3.procs[i] == Leaving;
    }
  }

  /** An uninterrupted call is a run of the step system with the same outcome: unless another cycle
      runs, or the result is a new Unhealthy with panicOnError, it is stored, and if it is new offered
      to the channel. */
  lemma CycleIsARun(panicOnError: bool, s: State, i: nat, result: Status)
    requires i < |s.procs| && s.procs[i] == Resting && !s.crashed
    ensures var t := Runs(panicOnError, Runs(panicOnError, Apply(panicOnError, s, Call(i)), i, result, 2), i, result,
                          4);
            && Outcome(t.lastStatus, t.chan, t.crashed) == Cycle(panicOnError, s.running, s.lastStatus, s.chan, result)
            && (t.crashed <==> !s.running && panicOnError && result.state == Unhealthy && result != s.lastStatus)
            && t.lastStatus == (if s.running || t.crashed then s.lastStatus else result)
            && t.chan == (if t.lastStatus != s.lastStatus && s.chan == [] then [result] else s.chan)
            && (!t.crashed ==> t.running == s.running && t.procs[i] == Resting)
  {
    var s0 := Apply(panicOnError, s, Call(i));
    var s1 := Apply(panicOnError, s0, Run(i, result));
    var s2 := Apply(panicOnError, s1, Run(i, result));
    assert Runs(panicOnError, s0, i, result, 1) == s1;
    assert Runs(panicOnError, s0, i, result, 2) == s2;
    assert s0.procs[i] == Entering;
    if s.running {
      assert s1.procs[i] == Resting;
      assert s2 == s1;
      RestingStays(panicOnError, s2, i, result, 4);
    } else {
      assert s1.procs[i] == Probing;
      assert s2.procs[i] == Comparing(result);
      FromComparing(panicOnError, s2, i, result);
    }
  }

  lemma {:induction false} RestingStays(panicOnError: bool, s: State, i: nat, result: Status, k: nat)
    requires i < |s.procs| && s.procs[i] == Resting
    ensures Runs(panicOnError, s, i, result, k) == s
  {
    if k > 0 {
      RestingStays(panicOnError, s, i, result, k - 1);
    }
  }
}
