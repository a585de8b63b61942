/** Properties of every run of the prober, over all interleavings. */
module ProberTheorems {
  import opened Types
  import opened ProbeRound
  import opened ProberSystem
  import Invariant = ProbeRoundInvariant
  import Theorems = ProbeRoundTheorems

  /**
   * Exact accounting. In every reachable state a round's counter is the number of its pods that were
   * not written off by a cancellation; every pod is in one of three states that its own counter tells
   * apart; the callback was called at most once per pod, and the two paths to it exclude each other.
   */
  lemma ExactAccounting(run: seq<Label>, t: nat)
    requires Exec(INIT, run).Some? && t < |Exec(INIT, run).value.rounds|
    ensures var r := Exec(INIT, run).value.rounds[t];
            && r.pendingCount == |r.probedPods - Invariant.DiscountedPods(r)|
            && (forall ip :: ip in r.probes ==>
                  && -1 <= r.probes[ip].counter <= 1
                  && (r.probes[ip].counter == 1 <==> r.probes[ip].settlement.Pending?)
                  && (r.probes[ip].settlement.BySuccess? ==> r.probes[ip].counter == 0))
            && |r.calls| <= |r.probedPods|
            && (forall ip :: ByCanceller(ip) in r.calls ==>
                  && r.calls == [ByCanceller(ip)]
                  && forall jp :: jp in r.probedPods ==>
                       jp in r.probes && r.probes[jp].settlement.ByCancellation?)
            && (forall ip :: ByWorker(ip) in r.calls ==>
                  ip in r.probes && r.probes[ip].settlement.BySuccess?)
  {
    ReachableInv(run);
    var r := Exec(INIT, run).value.rounds[t];
    Theorems.PendingCountExact(r);
    Theorems.CallbackBound(r);
    forall ip | ip in r.probes ensures Invariant.ProbeInv(r.probes[ip]) {}
    forall ip | ByCanceller(ip) in r.calls
      ensures r.calls == [ByCanceller(ip)]
      ensures forall jp :: jp in r.probedPods ==>
                jp in r.probes && r.probes[jp].settlement.ByCancellation?
    {
      Theorems.CallbackPathsExclusive(r, ip);
    }
  }

  /** A pod that was settled, by its worker or by a cancellation, is settled that way for good. */
  lemma {:induction false} SettledForGood(run: seq<Label>, rest: seq<Label>, t: nat, ip: IP)
    requires Exec(INIT, run).Some?
    requires var s := Exec(INIT, run).value;
             && t < |s.rounds| && ip in s.rounds[t].probes && !s.rounds[t].probes[ip].settlement.Pending?
             && Exec(s, rest).Some?
    ensures var s, s' := Exec(INIT, run).value, Exec(Exec(INIT, run).value, rest).value;
            && t < |s'.rounds| && ip in s'.rounds[t].probes
            && s'.rounds[t].probes[ip].settlement == s.rounds[t].probes[ip].settlement
            && s'.rounds[t].probes[ip].counter <= s.rounds[t].probes[ip].counter
    decreases |rest|
  {
    if rest != [] {
      var front, l := rest[..|rest| - 1], rest[|rest| - 1];
      SettledForGood(run, front, t, ip);
      ExecConcat(INIT, run, front);
      ReachableInv(run + front);
      var before := Exec(Exec(INIT, run).value, front).value;
      assert Invariant.ProbeInv(before.rounds[t].probes[ip]);
      LabelKeepsSettlement(before, l, t, ip);
    }
  }

  lemma LabelKeepsSettlement(s: Sys, l: Label, t: nat, ip: IP)
    requires Enabled(s, l) && t < |s.rounds| && ip in s.rounds[t].probes
    requires Invariant.ProbeInv(s.rounds[t].probes[ip]) && !s.rounds[t].probes[ip].settlement.Pending?
    ensures var s' := Apply(s, l);
            && t < |s'.rounds| && ip in s'.rounds[t].probes
            && s'.rounds[t].probes[ip].settlement == s.rounds[t].probes[ip].settlement
            && s'.rounds[t].probes[ip].counter <= s.rounds[t].probes[ip].counter
  {
    if l.Act? && l.t == t {
      Theorems.SettledOnce(s.rounds[t], l.act, ip);
    } else {
      OtherLabelLeaves(s, l, t, ip);
    }
  }

  // Wake-ups

  /** The round, if it has been made, is attended: once complete, a callback is on its way or made. */
  ghost predicate AttendedAt(s: Sys, t: nat) {
    t < |s.rounds| ==> Invariant.Attended(s.rounds[t])
  }

  /** The step loses the wake-up of the round. */
  ghost predicate LosesAt(s: Sys, l: Label, t: nat)
    requires Enabled(s, l)
  {
    l.Act? && l.t == t && Invariant.Loses(s.rounds[t], l.act)
  }

  /** A step leaves a round unattended exactly when it is one that loses its wake-up. */
  lemma LabelAttended(s: Sys, l: Label, t: nat)
    requires Enabled(s, l) && AttendedAt(s, t)
    ensures AttendedAt(Apply(s, l), t) <==> !LosesAt(s, l, t)
  {
    if l.Act? && l.t == t {
      Invariant.StepAttended(s.rounds[t], l.act);
    } else if t < |s.rounds| {
      OtherLabelCarries(s, l, t);
    }
  }

  lemma OtherLabelCarries(s: Sys, l: Label, t: nat)
    requires Enabled(s, l) && t < |s.rounds| && !(l.Act? && l.t == t) && AttendedAt(s, t)
    ensures AttendedAt(Apply(s, l), t)
  {
    var r, r' := s.rounds[t], Apply(s, l).rounds[t];
    assert r'.channel == r.channel && r'.readyPartitions == r.readyPartitions && r'.calls == r.calls;
    forall ip | ip in r.probes ensures ip in r'.probes && r'.probes[ip] == r.probes[ip] {
      OtherLabelLeaves(s, l, t, ip);
    }
    Invariant.SameCarriers(r, r');
  }

  /** The round is attended at every point of the run. */
  ghost predicate AlwaysAttended(run: seq<Label>, t: nat)
    requires Exec(INIT, run).Some?
  {
    AttendedAt(Exec(INIT, run).value, t) && (run == [] || AlwaysAttended(run[..|run| - 1], t))
  }

  /** No step of the run loses the wake-up of the round. */
  ghost predicate NeverLoses(run: seq<Label>, t: nat)
    requires Exec(INIT, run).Some?
  {
    run == [] ||
    var front, l := run[..|run| - 1], run[|run| - 1];
    NeverLoses(front, t) && !LosesAt(Exec(INIT, front).value, l, t)
  }

  /**
   * When wake-ups are lost, exactly: a round has, at every point of a run, called back or a worker that
   * will, once its partition set is complete, if and only if no step of the run is one in which the last
   * such worker finds its context done, or its pod already written off.
   */
  lemma {:induction false} AttendedIffNeverLost(run: seq<Label>, t: nat)
    requires Exec(INIT, run).Some?
    ensures AlwaysAttended(run, t) <==> NeverLoses(run, t)
  {
    if run != [] {
      var front, l := run[..|run| - 1], run[|run| - 1];
      AttendedIffNeverLost(front, t);
      if NeverLoses(front, t) {
        LabelAttended(Exec(INIT, front).value, l, t);
      }
    }
  }

  /**
   * When the set is complete and all workers are through, a round that takes no such step has called
   * back; so a round that has not called back then has taken one.
   */
  lemma NeverLostIsCalled(run: seq<Label>, t: nat)
    requires Exec(INIT, run).Some? && t < |Exec(INIT, run).value.rounds|
    requires var r := Exec(INIT, run).value.rounds[t];
             && Invariant.Complete(r)
             && forall ip :: ip in r.probes ==> !Invariant.Carries(r.probes[ip].worker)
    ensures NeverLoses(run, t) ==> Exec(INIT, run).value.rounds[t].calls != []
  {
    AttendedIffNeverLost(run, t);
  }

  /** No step loses the wake-up of a round that nothing outside it has cancelled. */
  lemma {:induction false} UndisturbedNeverLost(run: seq<Label>, t: nat)
    requires Exec(INIT, run).Some? && t < |Exec(INIT, run).value.rounds|
    requires !Exec(INIT, run).value.rounds[t].disturbed
    ensures NeverLoses(run, t)
  {
    if run != [] {
      var front, l := run[..|run| - 1], run[|run| - 1];
      var before := Exec(INIT, front).value;
      if t < |before.rounds| {
        StepEffect(before, l);
        assert Evolves(before.rounds[t], Exec(INIT, run).value.rounds[t]);
        UndisturbedNeverLost(front, t);
        NextNotLost(front, l, t);
      } else {
        UnmadeNeverLost(front, t);
      }
    }
  }

  lemma NextNotLost(run: seq<Label>, l: Label, t: nat)
    requires Exec(INIT, run).Some? && Enabled(Exec(INIT, run).value, l)
    requires t < |Exec(INIT, run).value.rounds| && !Exec(INIT, run).value.rounds[t].disturbed
    ensures !LosesAt(Exec(INIT, run).value, l, t)
  {
    ReachableInv(run);
    if l.Act? && l.t == t {
      Invariant.UndisturbedNeverLoses(Exec(INIT, run).value.rounds[t], l.act);
    }
  }

  lemma {:induction false} UnmadeNeverLost(run: seq<Label>, t: nat)
    requires Exec(INIT, run).Some? && t >= |Exec(INIT, run).value.rounds|
    ensures NeverLoses(run, t)
  {
    if run != [] {
      var front := run[..|run| - 1];
      StepEffect(Exec(INIT, front).value, run[|run| - 1]);
      UnmadeNeverLost(front, t);
    }
  }

  /**
   * No lost wake-up. A round that is registered or being built, none of whose pods was cancelled,
   * takes no step that loses its wake-up, so it has called the callback as soon as its partition set
   * is complete and no worker is between an accepted reply and the callback.
   */
  lemma NoLostWakeUp(run: seq<Label>, t: nat)
    requires Exec(INIT, run).Some? && t < |Exec(INIT, run).value.rounds|
    requires var s := Exec(INIT, run).value;
             && (Registered(s, t) || t in s.building)
             && !SomePodCancelled(s, t)
    ensures NeverLoses(run, t)
    ensures var r := Exec(INIT, run).value.rounds[t];
            && Invariant.Complete(r)
            && (forall ip :: ip in r.probes ==> !Invariant.Carries(r.probes[ip].worker))
            ==> r.calls != []
  {
    ReachableInv(run);
    UndisturbedNeverLost(run, t);
    AttendedIffNeverLost(run, t);
  }

  /** One more label at the end of a run. */
  lemma Extend(run: seq<Label>, s: Sys, l: Label) returns (run': seq<Label>, s': Sys)
    requires Exec(INIT, run) == Some(s) && Enabled(s, l)
    ensures run' == run + [l] && s' == Apply(s, l)
    ensures Exec(INIT, run') == Some(s')
  {
    run', s' := run + [l], Apply(s, l);
    ExecSnoc(INIT, run, l);
  }

  // Draining

  function CountActs(run: seq<Label>, t: nat, ip: IP): nat {
    if run == [] then 0
    else
      var l := run[|run| - 1];
      CountActs(run[..|run| - 1], t, ip) + if l.Act? && l.t == t && l.act.ip == ip then 1 else 0
  }

  function CountDequeues(run: seq<Label>, t: nat, ip: IP): nat {
    if run == [] then 0
    else CountDequeues(run[..|run| - 1], t, ip) + if run[|run| - 1] == Act(t, Dequeue(ip)) then 1 else 0
  }

  /** What one label does to a probe whose context is done. */
  lemma LabelDrains(s: Sys, l: Label, t: nat, ip: IP)
    requires Inv(s) && Enabled(s, l)
    requires t < |s.rounds| && ip in s.rounds[t].probes && ContextDone(s.rounds[t], ip)
    ensures var s' := Apply(s, l);
            && t < |s'.rounds| && ip in s'.rounds[t].probes && ContextDone(s'.rounds[t], ip)
            && var p, p' := s.rounds[t].probes[ip], s'.rounds[t].probes[ip];
               if l.Act? && l.t == t && l.act.ip == ip then
                 && Theorems.Rank(p') < Theorems.Rank(p)
                 && Theorems.DequeuesLeft(p') + (if l.act.Dequeue? then 1 else 0) <= Theorems.DequeuesLeft(p)
               else p' == p
  {
    if l.Act? && l.t == t {
      ActDrains(s.rounds[t], l.act, ip);
    } else {
      OtherLabelLeaves(s, l, t, ip);
    }
  }

  lemma ActDrains(r: Round, a: ProbeRound.Act, ip: IP)
    requires Invariant.Inv(r) && CanAct(r, a) && ip in r.probes && ContextDone(r, ip)
    ensures var r' := Perform(r, a);
            && ip in r'.probes && ContextDone(r', ip)
            && var p, p' := r.probes[ip], r'.probes[ip];
               if a.ip == ip then
                 && Theorems.Rank(p') < Theorems.Rank(p)
                 && Theorems.DequeuesLeft(p') + (if a.Dequeue? then 1 else 0) <= Theorems.DequeuesLeft(p)
               else p' == p
  {
    Theorems.StepKeepsDone(r, a, ip);
    if a.ip == ip {
      assert Invariant.ProbeInv(r.probes[ip]);
      Theorems.StepDrains(r, a);
    }
  }

  /** Only acts of its round touch a probe that exists. */
  lemma OtherLabelLeaves(s: Sys, l: Label, t: nat, ip: IP)
    requires Enabled(s, l) && !(l.Act? && l.t == t)
    requires t < |s.rounds| && ip in s.rounds[t].probes
    ensures var s' := Apply(s, l);
            && t < |s'.rounds| && ip in s'.rounds[t].probes
            && s'.rounds[t].probes[ip] == s.rounds[t].probes[ip]
            && (s.rounds[t].cancelled ==> s'.rounds[t].cancelled)
  {
  }

  /** Every continuation lowers the rank of a probe whose context is done. */
  lemma {:induction false} DoneProbeDrains(run: seq<Label>, rest: seq<Label>, t: nat, ip: IP)
    requires Exec(INIT, run).Some?
    requires var s := Exec(INIT, run).value;
             && t < |s.rounds| && ip in s.rounds[t].probes && ContextDone(s.rounds[t], ip)
             && Exec(s, rest).Some?
    ensures var s, s' := Exec(INIT, run).value, Exec(Exec(INIT, run).value, rest).value;
            && t < |s'.rounds| && ip in s'.rounds[t].probes && ContextDone(s'.rounds[t], ip)
            && CountActs(rest, t, ip) + Theorems.Rank(s'.rounds[t].probes[ip])
               <= Theorems.Rank(s.rounds[t].probes[ip])
            && CountDequeues(rest, t, ip) + Theorems.DequeuesLeft(s'.rounds[t].probes[ip])
               <= Theorems.DequeuesLeft(s.rounds[t].probes[ip])
    ensures CountActs(rest, t, ip) <= Theorems.MAX_RANK
    ensures CountDequeues(rest, t, ip) <= 1
    decreases |rest|
  {
    var s := Exec(INIT, run).value;
    Theorems.RankBound(s.rounds[t].probes[ip]);
    if rest != [] {
      var front, l := rest[..|rest| - 1], rest[|rest| - 1];
      DoneProbeDrains(run, front, t, ip);
      ExecConcat(INIT, run, front);
      ReachableInv(run + front);
      LabelDrains(Exec(s, front).value, l, t, ip);
    }
  }

  lemma {:induction false} CountActsIsCount(run: seq<Label>, t: nat, ip: IP)
    ensures CountActs(run, t, ip) == |set i | 0 <= i < |run| && run[i].Act? && run[i].t == t && run[i].act.ip == ip|
  {
    var all := set i | 0 <= i < |run| && run[i].Act? && run[i].t == t && run[i].act.ip == ip;
    if run != [] {
      var front, last := run[..|run| - 1], |run| - 1;
      var before := set i | 0 <= i < |front| && front[i].Act? && front[i].t == t && front[i].act.ip == ip;
      CountActsIsCount(front, t, ip);
      assert front == run[..last];
      if run[last].Act? && run[last].t == t && run[last].act.ip == ip {
        assert all == before + {last};
      } else {
        assert all == before;
      }
    }
  }

  lemma {:induction false} TwoDequeues(run: seq<Label>, t: nat, ip: IP, i: nat, j: nat)
    requires i <= j < |run| && run[i] == run[j] == Act(t, Dequeue(ip))
    ensures CountDequeues(run, t, ip) >= if i < j then 2 else 1
  {
    var front := run[..|run| - 1];
    if j < |front| {
      TwoDequeues(front, t, ip, i, j);
    } else if i < |front| {
      TwoDequeues(front, t, ip, i, i);
    }
  }

  /**
   * A cancelled probe drains. From any reachable state in which its target is cancelled, or its pod, every
   * continuation dequeues its work item at most once more and makes at most 16 atomic operations for it.
   */
  lemma CancelledProbeDrains(run: seq<Label>, rest: seq<Label>, t: nat, ip: IP)
    requires Exec(INIT, run).Some?
    requires var s := Exec(INIT, run).value;
             && t < |s.rounds| && ip in s.rounds[t].probes
             && (s.rounds[t].cancelled || s.rounds[t].probes[ip].cancelled)
             && Exec(s, rest).Some?
    ensures forall i, j :: 0 <= i < j < |rest| && rest[i] == Act(t, Dequeue(ip)) ==> rest[j] != Act(t, Dequeue(ip))
    ensures |set i | 0 <= i < |rest| && rest[i].Act? && rest[i].t == t && rest[i].act.ip == ip| <= 16
  {
    DoneProbeDrains(run, rest, t, ip);
    CountActsIsCount(rest, t, ip);
    forall i, j | 0 <= i < j < |rest| && rest[i] == Act(t, Dequeue(ip))
      ensures rest[j] != Act(t, Dequeue(ip))
    {
      if rest[j] == Act(t, Dequeue(ip)) { TwoDequeues(rest, t, ip, i, j); }
    }
  }

  // The registry

  /** Every round is registered under its UID, cancelled, or still being built by some call. */
  ghost predicate FullyTracked(s: Sys) {
    forall t :: 0 <= t < |s.rounds| ==> s.rounds[t].cancelled || Registered(s, t) || t in s.building
  }

  /** The step registers a round over another one that is still probing. */
  ghost predicate Forgets(s: Sys, l: Label)
    requires RegistryInv(s) && Enabled(s, l)
  {
    && l.Register?
    && s.rounds[l.t].sub.uid in s.targetStates
    && !s.rounds[s.targetStates[s.rounds[l.t].sub.uid]].cancelled
  }

  /**
   * Registered or cancelled, with any number of interface calls in flight: a step keeps every round
   * accounted for exactly when it does not register over a round that is still probing.
   */
  lemma TrackedIffNotForgotten(s: Sys, l: Label)
    requires Inv(s) && Enabled(s, l) && FullyTracked(s)
    ensures FullyTracked(Apply(s, l)) <==> !Forgets(s, l)
  {
    StepEffect(s, l);
    var s' := Apply(s, l);
    if Forgets(s, l) {
      var forgotten := s.targetStates[s.rounds[l.t].sub.uid];
      assert s'.rounds[forgotten] == s.rounds[forgotten];
      assert !Registered(s', forgotten) && forgotten !in s'.building;
    } else {
      TrackedUnlessForgotten(s, l, s');
    }
  }

  lemma TrackedUnlessForgotten(s: Sys, l: Label, s': Sys)
    requires RegistryInv(s) && Enabled(s, l) && Effect(s, l, s') && FullyTracked(s) && !Forgets(s, l)
    ensures FullyTracked(s')
  {
    forall t | 0 <= t < |s'.rounds|
      ensures s'.rounds[t].cancelled || Registered(s', t) || t in s'.building
    {
      if t < |s.rounds| { assert Evolves(s.rounds[t], s'.rounds[t]); }
    }
  }

  /** Every round is accounted for at every point of the run. */
  ghost predicate AlwaysTracked(run: seq<Label>)
    requires Exec(INIT, run).Some?
  {
    FullyTracked(Exec(INIT, run).value) && (run == [] || AlwaysTracked(run[..|run| - 1]))
  }

  /** No step of the run registers a round over another one that is still probing. */
  ghost predicate NeverForgets(run: seq<Label>)
    requires Exec(INIT, run).Some?
  {
    run == [] ||
    var front, l := run[..|run| - 1], run[|run| - 1];
    ReachableInv(front);
    NeverForgets(front) && !Forgets(Exec(INIT, front).value, l)
  }

  /** When rounds are forgotten, exactly, in any run of any number of overlapping calls. */
  lemma {:induction false} TrackedIffNeverForgotten(run: seq<Label>)
    requires Exec(INIT, run).Some?
    ensures AlwaysTracked(run) <==> NeverForgets(run)
  {
    if run != [] {
      var front, l := run[..|run| - 1], run[|run| - 1];
      TrackedIffNeverForgotten(front);
      ReachableInv(front);
      if NeverForgets(front) {
        TrackedIffNotForgotten(Exec(INIT, front).value, l);
      }
    }
  }

  /**
   * Two overlapping calls for one subscription do forget a round: both find the UID unregistered,
   * both build a round, and the second registration replaces the first, which nobody can cancel.
   */
  lemma OverlappingCallsForget(sub: Subscriber, channel: Channel, ip: IP) returns (run: seq<Label>)
    ensures Exec(INIT, run).Some? && !FullyTracked(Exec(INIT, run).value)
    ensures run == [Build(sub, channel, {ip}), Build(sub, channel, {ip}),
                    Spawn(0, ip), Spawn(1, ip), Register(0), Register(1)]
  {
    var s;
    run, s := OverlappingSpawns(sub, channel, ip);
    run, s := Extend(run, s, Register(0));
    run, s := Extend(run, s, Register(1));
    assert !s.rounds[0].cancelled && !Registered(s, 0) && 0 !in s.building;
  }

  lemma OverlappingSpawns(sub: Subscriber, channel: Channel, ip: IP) returns (run: seq<Label>, s: Sys)
    ensures run == [Build(sub, channel, {ip}), Build(sub, channel, {ip}), Spawn(0, ip), Spawn(1, ip)]
    ensures Exec(INIT, run) == Some(s)
    ensures s.targetStates == map[] && s.building == {0, 1} && |s.rounds| == 2
    ensures forall t :: 0 <= t < 2 ==>
              !s.rounds[t].cancelled && s.rounds[t].sub == sub && s.rounds[t].probes.Keys == s.rounds[t].probedPods
  {
    run, s := OverlappingBuilds(sub, channel, ip);
    run, s := Extend(run, s, Spawn(0, ip));
    run, s := Extend(run, s, Spawn(1, ip));
  }

  lemma OverlappingBuilds(sub: Subscriber, channel: Channel, ip: IP) returns (run: seq<Label>, s: Sys)
    ensures run == [Build(sub, channel, {ip}), Build(sub, channel, {ip})]
    ensures Exec(INIT, run) == Some(s)
    ensures s == INIT.(rounds := [NewRound(sub, channel, {ip}), NewRound(sub, channel, {ip})], building := {0, 1})
  {
    run, s := Extend([], INIT, Build(sub, channel, {ip}));
    run, s := Extend(run, s, Build(sub, channel, {ip}));
  }

  /**
   * The overlap this repository has: `RefreshPodProbing`, called for a pod event, has ejected a round and
   * released the lock when `IsReady`, called by a reconcile, finds the UID unregistered. Both probe, and
   * the second registration replaces the first, which nobody can cancel.
   */
  lemma RefreshOverlapForgets(sub: Subscriber, channel: Channel, ip: IP) returns (run: seq<Label>)
    ensures Exec(INIT, run).Some? && !FullyTracked(Exec(INIT, run).value) && !NeverForgets(run)
    ensures run == [Build(sub, channel, {ip}), Spawn(0, ip), Register(0),
                    Eject(sub.uid),
                    Build(sub, channel, {ip}), Build(sub, channel, {ip}),
                    Spawn(1, ip), Spawn(2, ip), Register(1), Register(2)]
  {
    var s;
    run, s := BothBuilt(sub, channel, ip);
    run, s := BothRegister(run, s, ip);
    TrackedIffNeverForgotten(run);
  }

  lemma EjectedRound(sub: Subscriber, channel: Channel, ip: IP) returns (run: seq<Label>, s: Sys)
    ensures run == [Build(sub, channel, {ip}), Spawn(0, ip), Register(0), Eject(sub.uid)]
    ensures Exec(INIT, run) == Some(s)
    ensures s.targetStates == map[] && s.building == {} && |s.rounds| == 1
  {
    run, s := ProbedRound(sub, channel, ip);
    run, s := Extend(run, s, Eject(sub.uid));
    assert map[sub.uid := 0] - {sub.uid} == map[];
  }

  /** One pod is probed for a subscription, and nothing has happened yet. */
  lemma ProbedRound(sub: Subscriber, channel: Channel, ip: IP) returns (run: seq<Label>, s: Sys)
    ensures run == [Build(sub, channel, {ip}), Spawn(0, ip), Register(0)]
    ensures Exec(INIT, run) == Some(s) && s.targetStates == map[sub.uid := 0] && s.building == {}
    ensures s.rounds == [Spawned(NewRound(sub, channel, {ip}), ip, 0)]
  {
    run, s := Extend([], INIT, Build(sub, channel, {ip}));
    run, s := Extend(run, s, Spawn(0, ip));
    run, s := Extend(run, s, Register(0));
  }

  lemma BothBuilt(sub: Subscriber, channel: Channel, ip: IP) returns (run: seq<Label>, s: Sys)
    ensures run == [Build(sub, channel, {ip}), Spawn(0, ip), Register(0), Eject(sub.uid),
                    Build(sub, channel, {ip}), Build(sub, channel, {ip})]
    ensures Exec(INIT, run) == Some(s) && |s.rounds| == 3 && s.building == {1, 2}
    ensures s.rounds[1] == s.rounds[2] == NewRound(sub, channel, {ip})
  {
    run, s := EjectedRound(sub, channel, ip);
    run, s := Extend(run, s, Build(sub, channel, {ip}));
    run, s := Extend(run, s, Build(sub, channel, {ip}));
  }

  /** Two rounds under construction for one UID start their probes and register, one after the other. */
  lemma BothRegister(run: seq<Label>, s: Sys, ip: IP) returns (run': seq<Label>, s': Sys)
    requires Exec(INIT, run) == Some(s) && |s.rounds| == 3 && s.building == {1, 2}
    requires s.rounds[1] == s.rounds[2] == NewRound(s.rounds[1].sub, s.rounds[1].channel, {ip})
    ensures run' == run + [Spawn(1, ip), Spawn(2, ip), Register(1), Register(2)]
    ensures Exec(INIT, run') == Some(s') && !FullyTracked(s')
  {
    run', s' := BothSpawn(run, s, ip);
    run', s' := Extend(run', s', Register(1));
    run', s' := Extend(run', s', Register(2));
    assert !s'.rounds[1].cancelled && !Registered(s', 1) && 1 !in s'.building;
  }

  lemma BothSpawn(run: seq<Label>, s: Sys, ip: IP) returns (run': seq<Label>, s': Sys)
    requires Exec(INIT, run) == Some(s) && |s.rounds| == 3 && s.building == {1, 2}
    requires s.rounds[1] == s.rounds[2] == NewRound(s.rounds[1].sub, s.rounds[1].channel, {ip})
    ensures run' == run + [Spawn(1, ip), Spawn(2, ip)]
    ensures Exec(INIT, run') == Some(s') && |s'.rounds| == 3 && s'.building == {1, 2}
    ensures forall t :: 1 <= t < 3 ==>
              && !s'.rounds[t].cancelled && s'.rounds[t].sub == s.rounds[1].sub
              && s'.rounds[t].probes.Keys == s'.rounds[t].probedPods
  {
    run', s' := Extend(run, s, Spawn(1, ip));
    run', s' := Extend(run', s', Spawn(2, ip));
  }

  /** What serial calls add: one builder at a time, for a UID that is not registered. */
  ghost predicate SerialInv(s: Sys) {
    && FullyTracked(s)
    && s.overwritten == {}
    && (forall t, u :: t in s.building && u in s.building ==> t == u)
    && (forall t :: t in s.building && t < |s.rounds| ==> s.rounds[t].sub.uid !in s.targetStates)
  }

  lemma SerialStep(s: Sys, l: Label, s': Sys)
    requires Inv(s) && SerialInv(s) && Enabled(s, l) && Effect(s, l, s')
    requires l.Build? ==> s.building == {} && l.sub.uid !in s.targetStates
    ensures SerialInv(s')
  {
    TrackedUnlessForgotten(s, l, s');
    forall t | t in s'.building && t < |s'.rounds|
      ensures s'.rounds[t].sub.uid !in s'.targetStates
    {
      if t < |s.rounds| { assert Evolves(s.rounds[t], s'.rounds[t]); }
    }
  }

  lemma {:induction false} SerialRunInv(run: seq<Label>)
    requires Exec(INIT, run).Some? && Serial(INIT, run)
    ensures SerialInv(Exec(INIT, run).value)
  {
    if run != [] {
      var front, l := run[..|run| - 1], run[|run| - 1];
      SerialRunInv(front);
      ReachableInv(front);
      StepEffect(Exec(INIT, front).value, l);
      SerialStep(Exec(INIT, front).value, l, Exec(INIT, run).value);
    }
  }

  /**
   * Registered or cancelled. When interface calls do not overlap, every round ever created is, between
   * calls, registered under its UID or cancelled; so a subscription has at most one uncancelled round,
   * and one whose UID is not registered has none.
   */
  lemma RegisteredOrCancelled(run: seq<Label>)
    requires Exec(INIT, run).Some? && Serial(INIT, run)
    requires Exec(INIT, run).value.building == {}
    ensures var s := Exec(INIT, run).value;
            && (forall t :: 0 <= t < |s.rounds| ==> s.rounds[t].cancelled || Registered(s, t))
            && (forall t, u ::
                  && 0 <= t < |s.rounds| && 0 <= u < |s.rounds|
                  && !s.rounds[t].cancelled && !s.rounds[u].cancelled
                  && s.rounds[t].sub.uid == s.rounds[u].sub.uid
                  ==> t == u)
            && (forall t :: 0 <= t < |s.rounds| && s.rounds[t].sub.uid !in s.targetStates
                  ==> s.rounds[t].cancelled)
  {
    SerialRunInv(run);
  }

  // Pod contexts

  /**
   * Pod cancellation reaches everything. In every reachable state each probe of an IP watches either
   * a cancelled context or the current one of that IP, so cancelling the IP leaves no probe of it
   * with a live context, changes the context of no probe of another IP, and gives a later probe of the
   * IP a fresh context.
   */
  lemma PodCancellationReaches(run: seq<Label>, ip: IP)
    requires Exec(INIT, run).Some?
    ensures var s := Exec(INIT, run).value;
            && Enabled(s, CancelPod(ip))
            && var s' := Apply(s, CancelPod(ip));
               && s'.rounds == s.rounds && s'.targetStates == s.targetStates
               && ip !in s'.podContexts
               && ContextFor(s', ip) == |s'.contexts|
               && (forall t, jp :: 0 <= t < |s.rounds| && jp in s.rounds[t].probes ==>
                     var c := s.rounds[t].probes[jp].ipContext;
                     && c < |s.contexts| == |s'.contexts|
                     && (s.contexts[c].cancelled || (jp in s.podContexts && s.podContexts[jp] == c))
                     && (jp == ip ==> s'.contexts[c].cancelled)
                     && (jp != ip ==> s'.contexts[c] == s.contexts[c]))
  {
    ReachableInv(run);
  }

  // Readiness

  /** The UID is registered at the generation with a round that has been found ready. */
  predicate ReadyFor(s: Sys, uid: UID, generation: int) {
    && uid in s.targetStates
    && s.targetStates[uid] < |s.rounds|
    && s.rounds[s.targetStates[uid]].sub.generation == generation
    && s.rounds[s.targetStates[uid]].ready
  }

  lemma StepKeepsReady(s: Sys, l: Label, uid: UID, generation: int)
    requires Enabled(s, l) && ReadyFor(s, uid, generation)
    requires l != Eject(uid) && !(l.Register? && s.rounds[l.t].sub.uid == uid)
    ensures ReadyFor(Apply(s, l), uid, generation)
    ensures Apply(s, l).targetStates[uid] == s.targetStates[uid]
  {
    StepEffect(s, l);
    assert Evolves(s.rounds[s.targetStates[uid]], Apply(s, l).rounds[s.targetStates[uid]]);
  }

  /**
   * Readiness never came from anywhere but this round's own answers: it has at least `numPartitions`
   * ready partitions, and each was named by a 200 answer to the probe of one of its pods.
   */
  lemma ReadyIsWitnessed(run: seq<Label>, t: nat)
    requires Exec(INIT, run).Some? && t < |Exec(INIT, run).value.rounds|
    requires Exec(INIT, run).value.rounds[t].ready
    ensures var r := Exec(INIT, run).value.rounds[t];
            && |r.readyPartitions| >= r.channel.numPartitions
            && (forall p :: p in r.readyPartitions ==>
                  exists i :: 0 <= i < |r.answers| && Lists(r.sub.uid, r.answers[i].reply)
                              && r.answers[i].ip in r.probedPods
                              && p in r.answers[i].reply.response.body.value[r.sub.uid])
  {
    ReachableInv(run);
    Theorems.ReadinessIsWitnessed(Exec(INIT, run).value.rounds[t]);
  }

  lemma ReadyForOwnUid(run: seq<Label>, s: Sys, uid: UID, generation: int)
    requires Exec(INIT, run) == Some(s) && ReadyFor(s, uid, generation)
    ensures s.rounds[s.targetStates[uid]].sub == Subscriber(uid, generation)
  {
    ReachableInv(run);
  }
}
