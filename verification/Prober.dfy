/**
 * The prober as the program it is: the interface calls and the bodies of its goroutines, over mutable
 * fields. `Interfere` stands at every point where goroutines may run in an interface call, and
 * `InterfereWithCalls` where others and interface calls may run in a goroutine. Every atomic operation
 * appends its label to the ghost field `trace`, so a valid prober is always at the end of a run of
 * `ProberSystem`, and everything proved about runs holds of it.
 */
module ProberObject {
  import opened Types
  import opened ProbeRound
  import opened ProberSystem
  import opened ProberTheorems
  import opened ProberCalls
  import opened ProbeReplies
  import Invariant = ProbeRoundInvariant
  import Theorems = ProbeRoundTheorems

  /** A goroutine that works on one probe. */
  datatype Goroutine = Goroutine(t: nat, ip: IP, role: Role)

  /** What the others leave alone: the program counter of a goroutine that is running. */
  ghost predicate Untouched(s: Sys, s': Sys, g: Goroutine) {
    g.t < |s.rounds| && g.t < |s'.rounds| && g.ip in s.rounds[g.t].probes && g.ip in s'.rounds[g.t].probes ==>
      var p, p' := s.rounds[g.t].probes[g.ip], s'.rounds[g.t].probes[g.ip];
      && p'.counter <= p.counter
      && match g.role
         case Worker => p'.worker == p.worker
         case Joiner => p'.joiner == p.joiner
         case Canceller => p'.canceller == p.canceller
  }

  ghost predicate Stepped(s: Sys, l: Label, s': Sys) {
    Enabled(s, l) && s' == Apply(s, l)
  }

  lemma ActDrifts(s: Sys, t: nat, a: ProbeRound.Act)
    requires Inv(s) && Enabled(s, Act(t, a))
    ensures Drifts(s, Apply(s, Act(t, a)))
  {
    var s' := Apply(s, Act(t, a));
    forall u | 0 <= u < |s.rounds|
      ensures Evolves(s.rounds[u], s'.rounds[u]) && s'.rounds[u].probes.Keys == s.rounds[u].probes.Keys
    {
      if u == t { ActEvolves(s.rounds[t], a); }
    }
  }

  lemma OnlyRound(s: Sys, t: nat, a: ProbeRound.Act)
    requires Enabled(s, Act(t, a))
    ensures Apply(s, Act(t, a)).rounds == s.rounds[t := Perform(s.rounds[t], a)]
  {
  }

  lemma ActLeavesOthers(s: Sys, t: nat, a: ProbeRound.Act, g: Goroutine)
    requires RoundsInv(s) && Enabled(s, Act(t, a)) && g != Goroutine(t, a.ip, RoleOf(a))
    ensures Untouched(s, Apply(s, Act(t, a)), g)
  {
    if g.t == t && g.ip in s.rounds[t].probes {
      assert Invariant.ProbeInv(s.rounds[t].probes[g.ip]);
      Theorems.SettledOnce(s.rounds[t], a, g.ip);
      Theorems.ActMovesOne(s.rounds[t], a, g.ip);
      OnlyRound(s, t, a);
    }
  }

  /** Steps that may come between two operations of the goroutine; calls of the interface do not overlap. */
  predicate MayInterfere(s: Sys, l: Label, me: Goroutine) {
    && Enabled(s, l)
    && (l.Act? ==> Goroutine(l.t, l.act.ip, RoleOf(l.act)) != me)
    && (l.Build? ==> s.building == {} && l.sub.uid !in s.targetStates)
  }

  lemma OthersLeave(s: Sys, l: Label, me: Goroutine)
    requires Inv(s) && MayInterfere(s, l, me)
    requires me.t < |s.rounds| && me.ip in s.rounds[me.t].probes
    ensures Grows(s, Apply(s, l)) && Untouched(s, Apply(s, l), me)
  {
    StepEffect(s, l);
    if l.Act? {
      ActLeavesOthers(s, l.t, l.act, me);
    } else {
      OtherLabelLeaves(s, l, me.t, me.ip);
    }
  }

  lemma EjectSpec(s: Sys, uid: UID)
    requires Enabled(s, Eject(uid))
    ensures CancelSpec(s, Apply(s, Eject(uid)), uid)
    ensures |Apply(s, Eject(uid)).rounds| == |s.rounds|
  {
    StepEffect(s, Eject(uid));
  }

  /** `probeTarget` has started the goroutines of all pods of its new round but those in `todo`. */
  ghost predicate Underway(s: Sys, s': Sys, t: nat, sub: Subscriber, channel: Channel, pods: set<IP>, todo: set<IP>) {
    && Grows(s, s')
    && t == |s.rounds| && |s'.rounds| == t + 1
    && s'.building == {t} && s'.targetStates == s.targetStates
    && s'.rounds[t].sub == sub && s'.rounds[t].channel == channel && s'.rounds[t].probedPods == pods
    && todo <= pods && s'.rounds[t].probes.Keys == pods - todo
    && OnCurrentContexts(s', t)
  }

  /** Every probe of the round watches the current context of its IP. */
  ghost predicate OnCurrentContexts(s: Sys, t: nat)
    requires t < |s.rounds|
  {
    forall ip :: ip in s.rounds[t].probes ==>
      ip in s.podContexts && s.rounds[t].probes[ip].ipContext == s.podContexts[ip]
  }

  lemma DriftsUnderway(s: Sys, s1: Sys, s2: Sys, t: nat, sub: Subscriber, channel: Channel, pods: set<IP>, todo: set<IP>)
    requires Underway(s, s1, t, sub, channel, pods, todo) && Drifts(s1, s2)
    ensures Underway(s, s2, t, sub, channel, pods, todo)
  {
    GrowsTransitive(s, s1, s2);
    assert Evolves(s1.rounds[t], s2.rounds[t]);
  }

  lemma SpawnUnderway(s: Sys, s1: Sys, s2: Sys, t: nat, ip: IP, sub: Subscriber, channel: Channel, pods: set<IP>, todo: set<IP>)
    requires Underway(s, s1, t, sub, channel, pods, todo) && ip in todo && Stepped(s1, Spawn(t, ip), s2)
    ensures Underway(s, s2, t, sub, channel, pods, todo - {ip})
  {
    forall u | 0 <= u < |s.rounds| ensures Evolves(s.rounds[u], s2.rounds[u]) {
      assert Evolves(s.rounds[u], s1.rounds[u]);
    }
    assert s2.rounds[t].probes.Keys == pods - (todo - {ip});
  }

  lemma DriftsTransitive(s: Sys, s1: Sys, s2: Sys)
    requires Drifts(s, s1) && Drifts(s1, s2)
    ensures Drifts(s, s2)
  {
    GrowsTransitive(s, s1, s2);
  }

  lemma KeptByCheck(s: Sys, s1: Sys, s2: Sys, s3: Sys, sub: Subscriber, pods: set<IP>, ready: bool)
    requires Drifts(s, s1) && Drifts(s1, s2) && Drifts(s2, s3)
    requires sub.uid in s.targetStates && s.targetStates[sub.uid] < |s.rounds|
    requires var t := s.targetStates[sub.uid];
             && !IsOutdated(s1.rounds[t], sub, pods)
             && ready == s3.rounds[t].ready
             && (|s3.rounds[t].readyPartitions| == s3.rounds[t].channel.numPartitions ==> ready)
    ensures Grows(s, s3) && Kept(s, s3, sub, pods, ready)
  {
    DriftsTransitive(s, s1, s2);
    DriftsTransitive(s, s2, s3);
    var t := s.targetStates[sub.uid];
    assert Evolves(s.rounds[t], s1.rounds[t]) && Evolves(s1.rounds[t], s2.rounds[t]);
    assert Evolves(s2.rounds[t], s3.rounds[t]);
  }

  lemma ReplacedAfterEject(s: Sys, s1: Sys, s2: Sys, s3: Sys, s4: Sys, sub: Subscriber, channel: Channel, pods: set<IP>)
    requires Drifts(s, s1) && Drifts(s1, s2) && CancelSpec(s2, s3, sub.uid) && |s3.rounds| == |s2.rounds|
    requires Grows(s3, s4) && Replaced(s3, s4, sub, channel, pods)
    requires sub.uid in s.targetStates && s.targetStates[sub.uid] < |s.rounds|
    requires IsOutdated(s1.rounds[s.targetStates[sub.uid]], sub, pods)
    ensures Grows(s, s4) && Replaced(s, s4, sub, channel, pods)
  {
    GrowsTransitive(s, s1, s2);
    GrowsTransitive(s, s2, s3);
    GrowsTransitive(s, s3, s4);
    var t := s.targetStates[sub.uid];
    assert Evolves(s.rounds[t], s1.rounds[t]) && Evolves(s1.rounds[t], s2.rounds[t]);
    assert Evolves(s3.rounds[t], s4.rounds[t]);
  }

  lemma ReplacedAfterDrift(s: Sys, s1: Sys, s2: Sys, sub: Subscriber, channel: Channel, pods: set<IP>)
    requires Drifts(s, s1) && Grows(s1, s2) && Replaced(s1, s2, sub, channel, pods)
    requires sub.uid !in s.targetStates
    ensures Grows(s, s2) && Replaced(s, s2, sub, channel, pods)
  {
    GrowsTransitive(s, s1, s2);
  }

  /** `isOutdatedTargetState` */
  predicate IsOutdated(state: Round, sub: Subscriber, pods: set<IP>) {
    state.sub.generation != sub.generation || (!state.ready && state.probedPods != pods)
  }

  lemma RefreshDrifts(s: Sys, s1: Sys, s2: Sys, order: seq<UID>, listings: seq<Result<set<IP>>>, visited: nat)
    requires RefreshSpec(s, s1, order, listings, visited) && Drifts(s1, s2)
    ensures RefreshSpec(s, s2, order, listings, visited)
  {
    GrowsTransitive(s, s1, s2);
    forall uid | uid in s.targetStates ensures Refreshed(s, s2, order, listings, visited, uid) {
      assert Refreshed(s, s1, order, listings, visited, uid);
      assert Evolves(s1.rounds[s1.targetStates[uid]], s2.rounds[s1.targetStates[uid]]);
      var t := s.targetStates[uid];
      assert Evolves(s.rounds[t], s1.rounds[t]) && Evolves(s1.rounds[t], s2.rounds[t]);
      HasAllBetween(s.rounds[t], s1.rounds[t], s2.rounds[t]);
    }
    forall k | 0 <= k < visited
      ensures s2.rounds[s2.targetStates[order[k]]].ready || s2.targetStates[order[k]] >= |s.rounds|
    {
      assert Evolves(s1.rounds[s1.targetStates[order[k]]], s2.rounds[s1.targetStates[order[k]]]);
    }
  }

  lemma RefreshKeeps(s: Sys, s1: Sys, order: seq<UID>, listings: seq<Result<set<IP>>>, visited: nat)
    requires RefreshSpec(s, s1, order, listings, visited) && visited < |order|
    requires order[visited] in s1.targetStates && s1.targetStates[order[visited]] < |s1.rounds|
    requires s1.rounds[s1.targetStates[order[visited]]].ready
    ensures RefreshSpec(s, s1, order, listings, visited + 1)
  {
    forall uid | uid in s.targetStates ensures Refreshed(s, s1, order, listings, visited + 1, uid) {
      assert Refreshed(s, s1, order, listings, visited, uid);
    }
  }

  /** A visit of the refresh: the round of `uid` was cancelled and a new one has taken its place. */
  ghost predicate Renewed(s: Sys, s': Sys, uid: UID, pods: set<IP>) {
    && Grows(s, s')
    && uid in s.targetStates && s.targetStates[uid] < |s.rounds|
    && s'.targetStates == s.targetStates[uid := |s.rounds|] && |s'.rounds| == |s.rounds| + 1
    && var t := s.targetStates[uid];
    && !s.rounds[t].ready && !HasAll(s.rounds[t])
    && s'.rounds[t].cancelled
    && s'.rounds[|s.rounds|].sub == s.rounds[t].sub
    && s'.rounds[|s.rounds|].channel == s.rounds[t].channel
    && s'.rounds[|s.rounds|].probedPods == pods
  }

  lemma RenewedByEject(s: Sys, s1: Sys, s2: Sys, uid: UID, pods: set<IP>)
    requires uid in s.targetStates && s.targetStates[uid] < |s.rounds|
    requires var state := s.rounds[s.targetStates[uid]];
             && !state.ready && !HasAll(state) && state.sub.uid == uid
             && CancelSpec(s, s1, uid) && |s1.rounds| == |s.rounds|
             && Grows(s1, s2) && Replaced(s1, s2, state.sub, state.channel, pods)
    ensures Renewed(s, s2, uid, pods)
  {
    GrowsTransitive(s, s1, s2);
    assert Evolves(s1.rounds[s.targetStates[uid]], s2.rounds[s.targetStates[uid]]);
    assert s2.targetStates == s.targetStates[uid := |s.rounds|];
  }

  lemma RefreshRenews(s: Sys, s1: Sys, s2: Sys, order: seq<UID>, listings: seq<Result<set<IP>>>, visited: nat)
    requires RefreshSpec(s, s1, order, listings, visited) && visited < |order| && listings[visited].Ok?
    requires Renewed(s1, s2, order[visited], listings[visited].value)
    ensures RefreshSpec(s, s2, order, listings, visited + 1)
  {
    GrowsTransitive(s, s1, s2);
    assert s2.targetStates.Keys == s.targetStates.Keys;
    forall uid | uid in s.targetStates ensures Refreshed(s, s2, order, listings, visited + 1, uid) {
      RefreshedAfter(s, s1, s2, order, listings, visited, uid);
    }
    forall k | 0 <= k < visited + 1
      ensures order[k] in s2.targetStates && s2.targetStates[order[k]] < |s2.rounds|
      ensures s2.rounds[s2.targetStates[order[k]]].ready || s2.targetStates[order[k]] >= |s.rounds|
    {
      VisitedAfter(s, s1, s2, order, listings, visited, k);
    }
  }

  lemma RefreshedAfter(s: Sys, s1: Sys, s2: Sys, order: seq<UID>, listings: seq<Result<set<IP>>>, visited: nat, uid: UID)
    requires RefreshSpec(s, s1, order, listings, visited) && visited < |order| && listings[visited].Ok?
    requires Renewed(s1, s2, order[visited], listings[visited].value)
    requires Grows(s, s2) && s2.targetStates.Keys == s.targetStates.Keys && uid in s.targetStates
    ensures Refreshed(s, s2, order, listings, visited + 1, uid)
  {
    var t, t1, t2 := s.targetStates[uid], s1.targetStates[uid], s2.targetStates[uid];
    assert Refreshed(s, s1, order, listings, visited, uid);
    assert Evolves(s.rounds[t], s1.rounds[t]) && Evolves(s1.rounds[t], s2.rounds[t]);
    assert Evolves(s1.rounds[t1], s2.rounds[t1]);
    HasAllBetween(s.rounds[t], s1.rounds[t], s2.rounds[t]);
    if uid == order[visited] {
      assert listings[visited] == Ok(s2.rounds[t2].probedPods);
    } else if t1 != t {
      var k :| 0 <= k < visited && order[k] == uid && listings[k] == Ok(s1.rounds[t1].probedPods);
      assert listings[k] == Ok(s2.rounds[t2].probedPods);
    }
  }

  lemma VisitedAfter(s: Sys, s1: Sys, s2: Sys, order: seq<UID>, listings: seq<Result<set<IP>>>, visited: nat, k: nat)
    requires RefreshSpec(s, s1, order, listings, visited) && visited < |order| && listings[visited].Ok?
    requires Renewed(s1, s2, order[visited], listings[visited].value) && k <= visited
    ensures order[k] in s2.targetStates && s2.targetStates[order[k]] < |s2.rounds|
    ensures s2.rounds[s2.targetStates[order[k]]].ready || s2.targetStates[order[k]] >= |s.rounds|
  {
    if order[k] != order[visited] {
      assert Evolves(s1.rounds[s1.targetStates[order[k]]], s2.rounds[s1.targetStates[order[k]]]);
    }
  }

  /** What the verifier writes is the step `Answer`. */
  lemma VerifierPerforms(r: Round, ip: IP, response: Response, partitions: set<Partition>, ok: bool)
    requires CanAct(r, Answer(ip, Replied(response)))
    requires partitions == Named(r.sub.uid, Replied(response)) && ok == Accepted(r.sub.uid, Replied(response))
    ensures Perform(r, Answer(ip, Replied(response))) ==
            r.(readyPartitions := r.readyPartitions + partitions,
               probes := r.probes[ip := r.probes[ip].(worker := Verified(ok))],
               answers := r.answers + [Answered(ip, Replied(response))])
  {
  }

  class Prober {
    var targetStates: map<UID, nat>
    var podContexts: map<IP, nat>
    // every targetState and every context ever allocated; an index is a pointer
    var rounds: seq<Round>
    var contexts: seq<Context>
    // the local variables of the running call of probeTarget, and which registrations were replaced
    var building: set<nat>
    var overwritten: set<nat>
    ghost var trace: seq<Label>

    function View(): Sys
      reads this
    {
      Sys(rounds, targetStates, podContexts, contexts, building, overwritten)
    }

    ghost predicate Valid()
      reads this
    {
      Exec(INIT, trace) == Some(View()) && Serial(INIT, trace)
    }

    /** No call of the interface is in progress. */
    ghost predicate Idle()
      reads this
    {
      building == {}
    }

    /** `NewProber` */
    constructor ()
      ensures Valid() && Idle() && View() == INIT && trace == []
    {
      targetStates, podContexts, rounds, contexts := map[], map[], [], [];
      building, overwritten, trace := {}, {}, [];
    }

    /** A valid prober satisfies the invariants of reachable states. */
    lemma ValidInv()
      requires Valid()
      ensures Inv(View()) && SerialInv(View())
    {
      ReachableInv(trace);
      SerialRunInv(trace);
    }

    /** The registry and the current contexts point at allocated objects. */
    lemma InRange()
      requires Valid()
      ensures forall uid :: uid in targetStates ==> targetStates[uid] < |rounds|
      ensures forall ip :: ip in podContexts ==> podContexts[ip] < |contexts|
    {
      ReachableInv(trace);
    }

    /** Records that the state changed by `l`. */
    ghost method Record(l: Label, before: Sys)
      requires Exec(INIT, trace) == Some(before) && Serial(INIT, trace)
      requires Stepped(before, l, View())
      requires l.Build? ==> before.building == {} && l.sub.uid !in before.targetStates
      modifies this`trace
      ensures trace == old(trace) + [l] && Valid()
    {
      ExecSnoc(INIT, trace, l);
      assert (trace + [l])[..|trace + [l]| - 1] == trace;
      trace := trace + [l];
    }

    /** One atomic operation of a goroutine of round `t`. */
    method Take(t: nat, a: ProbeRound.Act)
      requires Valid() && Enabled(View(), Act(t, a))
      modifies this`rounds, this`trace
      ensures Valid() && Stepped(old(View()), Act(t, a), View())
      ensures trace == old(trace) + [Act(t, a)]
      ensures Drifts(old(View()), View())
    {
      ValidInv();
      ghost var before := View();
      ActDrifts(before, t, a);
      rounds := rounds[t := Perform(rounds[t], a)];
      Record(Act(t, a), before);
    }

    /** Any number of operations of any goroutines, while an interface call runs. */
    method Interfere()
      requires Valid()
      modifies this`rounds, this`trace
      ensures Valid() && old(trace) <= trace
      ensures Drifts(old(View()), View())
    {
      var n: nat := *;
      while n > 0
        invariant Valid() && old(trace) <= trace
        invariant Drifts(old(View()), View())
      {
        var t: nat, a: ProbeRound.Act := *, *;
        if Enabled(View(), Act(t, a)) {
          ghost var before := View();
          Take(t, a);
          GrowsTransitive(old(View()), before, View());
        }
        n := n - 1;
      }
    }

    /** Any step, of a goroutine or of an interface call. */
    method TakeAny(l: Label)
      requires Valid() && Enabled(View(), l)
      requires l.Build? ==> building == {} && l.sub.uid !in targetStates
      modifies this
      ensures Valid() && Stepped(old(View()), l, View()) && trace == old(trace) + [l]
    {
      ghost var before := View();
      var s := Apply(View(), l);
      rounds, targetStates, podContexts, contexts := s.rounds, s.targetStates, s.podContexts, s.contexts;
      building, overwritten := s.building, s.overwritten;
      Record(l, before);
    }

    /** Any number of steps of other goroutines and of interface calls, while the goroutine `me` runs. */
    method InterfereWithCalls(me: Goroutine)
      requires Valid() && Probed(me.t, me.ip)
      modifies this
      ensures Valid() && old(trace) <= trace && Probed(me.t, me.ip)
      ensures Grows(old(View()), View()) && Untouched(old(View()), View(), me)
    {
      var n: nat := *;
      while n > 0
        invariant Valid() && old(trace) <= trace && Probed(me.t, me.ip)
        invariant Grows(old(View()), View()) && Untouched(old(View()), View(), me)
      {
        var l: Label := *;
        if MayInterfere(View(), l, me) {
          ghost var before := View();
          ValidInv();
          OthersLeave(before, l, me);
          TakeAny(l);
          GrowsTransitive(old(View()), before, View());
        }
        n := n - 1;
      }
    }

    /** `checkReadiness`, called by the interface */
    method CheckReadiness(t: nat) returns (ready: bool)
      requires Valid() && t < |rounds|
      modifies this`rounds, this`trace
      ensures Valid() && trace == old(trace) + [Check(t)]
      ensures ready == rounds[t].ready
      ensures ready <==> old(rounds[t].ready) || |rounds[t].readyPartitions| == rounds[t].channel.numPartitions
      ensures Drifts(old(View()), View())
    {
      ghost var before := View();
      var state := rounds[t];
      if !state.ready {
        state := state.(ready := |state.readyPartitions| == state.channel.numPartitions);
      }
      rounds := rounds[t := state];
      ready := state.ready;
      Record(Check(t), before);
    }

    /** `ejectStateUnsafe` */
    method EjectStateUnsafe(uid: UID)
      requires Valid() && Idle()
      modifies this`rounds, this`targetStates, this`trace
      ensures Valid() && Idle() && trace == old(trace) + [Eject(uid)]
      ensures Stepped(old(View()), Eject(uid), View())
      ensures CancelSpec(old(View()), View(), uid)
      ensures |rounds| == |old(rounds)|
    {
      InRange();
      ghost var before := View();
      if uid in targetStates {
        var t := targetStates[uid];
        rounds := rounds[t := rounds[t].(cancelled := true, disturbed := true)];
        targetStates := targetStates - {uid};
      }
      Record(Eject(uid), before);
      EjectSpec(before, uid);
    }

    /** `CancelProbing` */
    method CancelProbing(uid: UID)
      requires Valid() && Idle()
      modifies this`rounds, this`targetStates, this`trace
      ensures Valid() && Idle() && trace == old(trace) + [Eject(uid)]
      ensures Stepped(old(View()), Eject(uid), View())
      ensures CallSpec(old(View()), CallCancelProbing(uid), View())
    {
      EjectStateUnsafe(uid);
    }

    /** `CancelPodProbing` */
    method CancelPodProbing(ip: IP)
      requires Valid() && Idle()
      modifies this`podContexts, this`contexts, this`trace
      ensures Valid() && Idle() && trace == old(trace) + [CancelPod(ip)]
      ensures Stepped(old(View()), CancelPod(ip), View())
      ensures CallSpec(old(View()), CallCancelPodProbing(ip), View())
    {
      InRange();
      ghost var before := View();
      if ip in podContexts {
        var c := podContexts[ip];
        contexts := contexts[c := contexts[c].(cancelled := true)];
        podContexts := podContexts - {ip};
      }
      Record(CancelPod(ip), before);
    }

    /** `probeTarget` */
    method ProbeTarget(channel: Channel, sub: Subscriber, pods: set<IP>)
      requires Valid() && Idle() && sub.uid !in targetStates
      modifies this
      ensures Valid() && Idle() && old(trace) <= trace
      ensures Grows(old(View()), View())
      ensures Replaced(old(View()), View(), sub, channel, pods)
      ensures rounds[|old(rounds)|].probes.Keys == pods
      ensures forall ip :: ip in pods ==>
                ip in podContexts && rounds[|old(rounds)|].probes[ip].ipContext == podContexts[ip]
    {
      ghost var start := View();
      var t := BuildRound(channel, sub, pods);
      var todo := pods;
      while todo != {}
        invariant Valid() && old(trace) <= trace
        invariant Underway(start, View(), t, sub, channel, pods, todo)
      {
        ghost var before := View();
        Interfere();
        DriftsUnderway(start, before, View(), t, sub, channel, pods, todo);
        var ip :| ip in todo;
        SpawnProbe(t, ip, start, sub, channel, pods, todo);
        todo := todo - {ip};
      }
      ghost var before := View();
      Interfere();
      DriftsUnderway(start, before, View(), t, sub, channel, pods, todo);
      RegisterRound(t, start, sub, channel, pods);
    }

    /** The first part of `probeTarget`: the target state, before any goroutine. */
    method BuildRound(channel: Channel, sub: Subscriber, pods: set<IP>) returns (t: nat)
      requires Valid() && Idle() && sub.uid !in targetStates
      modifies this`rounds, this`building, this`trace
      ensures Valid() && trace == old(trace) + [Build(sub, channel, pods)]
      ensures Underway(old(View()), View(), t, sub, channel, pods, pods)
    {
      ghost var before := View();
      t := |rounds|;
      rounds := rounds + [NewRound(sub, channel, pods)];
      building := building + {t};
      Record(Build(sub, channel, pods), before);
    }

    /** The body of the loop of `probeTarget`: the context of the IP, the pod state and its goroutines. */
    method SpawnProbe(t: nat, ip: IP, ghost start: Sys, ghost sub: Subscriber, ghost channel: Channel,
                      ghost pods: set<IP>, ghost todo: set<IP>)
      requires Valid() && Underway(start, View(), t, sub, channel, pods, todo) && ip in todo
      modifies this`rounds, this`podContexts, this`contexts, this`trace
      ensures Valid() && trace == old(trace) + [Spawn(t, ip)]
      ensures Underway(start, View(), t, sub, channel, pods, todo - {ip})
    {
      InRange();
      ghost var before := View();
      var ipContext: nat;
      if ip in podContexts {
        ipContext := podContexts[ip];
      } else {
        ipContext := |contexts|;
        contexts := contexts + [Context(ip, false)];
        podContexts := podContexts[ip := ipContext];
      }
      rounds := rounds[t := Spawned(rounds[t], ip, ipContext)];
      Record(Spawn(t, ip), before);
      SpawnUnderway(start, before, View(), t, ip, sub, channel, pods, todo);
    }

    /** The last part of `probeTarget`. */
    method RegisterRound(t: nat, ghost start: Sys, ghost sub: Subscriber, ghost channel: Channel,
                         ghost pods: set<IP>)
      requires Valid() && Underway(start, View(), t, sub, channel, pods, {}) && sub.uid !in targetStates
      modifies this`targetStates, this`building, this`trace
      ensures Valid() && Idle() && trace == old(trace) + [Register(t)]
      ensures Grows(start, View()) && Replaced(start, View(), sub, channel, pods)
      ensures t == |start.rounds| && rounds == old(rounds) && rounds[t].probes.Keys == pods
      ensures OnCurrentContexts(View(), t)
    {
      ghost var before := View();
      targetStates := targetStates[rounds[t].sub.uid := t];
      building := building - {t};
      Record(Register(t), before);
    }

    /** The branch of `IsReady` for a registered round that is not outdated. */
    method AnswerFrom(t: nat, sub: Subscriber, pods: set<IP>, ghost start: Sys) returns (ready: bool)
      requires Valid() && Idle() && Drifts(start, View())
      requires sub.uid in targetStates && targetStates[sub.uid] == t < |rounds|
      requires !IsOutdated(rounds[t], sub, pods)
      modifies this`rounds, this`trace
      ensures Valid() && Idle() && old(trace) <= trace
      ensures Grows(start, View()) && Kept(start, View(), sub, pods, ready)
    {
      ghost var seen := View();
      Interfere();
      ghost var unchecked := View();
      ready := CheckReadiness(t);
      KeptByCheck(start, seen, unchecked, View(), sub, pods, ready);
    }

    /** The branch of `IsReady` for a registered round that is outdated. */
    method Reprobe(t: nat, channel: Channel, sub: Subscriber, pods: set<IP>, ghost start: Sys)
      requires Valid() && Idle() && Drifts(start, View())
      requires sub.uid in targetStates && targetStates[sub.uid] == t < |rounds|
      requires IsOutdated(rounds[t], sub, pods)
      modifies this
      ensures Valid() && Idle() && old(trace) <= trace
      ensures Grows(start, View()) && Replaced(start, View(), sub, channel, pods)
    {
      ghost var seen := View();
      Interfere();
      ghost var before := View();
      EjectStateUnsafe(sub.uid);
      ghost var ejected := View();
      ProbeTarget(channel, sub, pods);
      ReplacedAfterEject(start, seen, before, ejected, View(), sub, channel, pods);
    }

    /** `IsReady`, given what the lister answered */
    method IsReady(channel: Channel, sub: Subscriber, listing: Result<set<IP>>) returns (answer: Result<bool>)
      requires Valid() && Idle()
      modifies this
      ensures Valid() && Idle() && old(trace) <= trace
      ensures CallSpec(old(View()), CallIsReady(channel, sub, listing, answer), View())
      ensures listing.Err? ==> View() == old(View()) && trace == old(trace)
    {
      if listing.Err? {
        return Err(listing.message);
      }
      ghost var start := View();
      Interfere();
      ghost var seen := View();
      if sub.uid in targetStates {
        InRange();
        var t := targetStates[sub.uid];
        Interfere();
        DriftsTransitive(start, seen, View());
        seen := View();
        if !IsOutdated(rounds[t], sub, listing.value) {
          var ready := AnswerFrom(t, sub, listing.value, start);
          return Ok(ready);
        }
        Reprobe(t, channel, sub, listing.value, start);
        return Ok(false);
      }
      ProbeTarget(channel, sub, listing.value);
      ReplacedAfterDrift(start, seen, View(), sub, channel, listing.value);
      return Ok(false);
    }

    /**
     * `RefreshPodProbing`. `order` is the sequence of keys the map iteration produces: every key at
     * least once, and a key that was re-inserted possibly again; `listings` is what the lister answers
     * at each visit, used only when the state is not ready.
     */
    method RefreshPodProbing(order: seq<UID>, listings: seq<Result<set<IP>>>) returns (visited: nat)
      requires Valid() && Idle() && |order| == |listings|
      requires Elements(order) == targetStates.Keys
      modifies this
      ensures Valid() && Idle() && old(trace) <= trace
      ensures CallSpec(old(View()), CallRefreshPodProbing(order, listings, visited), View())
      ensures visited < |order| ==>
                && listings[visited].Err?
                && order[visited] in targetStates && targetStates[order[visited]] < |rounds|
                && !rounds[targetStates[order[visited]]].ready
    {
      InRange();
      ghost var start := View();
      visited := 0;
      while visited < |order|
        invariant visited <= |order|
        invariant Valid() && Idle() && old(trace) <= trace
        invariant RefreshSpec(start, View(), order, listings, visited)
      {
        assert order[visited] in Elements(order);
        var ok := RefreshOne(order, listings, visited, start);
        if !ok {
          return;
        }
        visited := visited + 1;
      }
    }

    /** The body of the loop of `RefreshPodProbing`. */
    method RefreshOne(order: seq<UID>, listings: seq<Result<set<IP>>>, visited: nat, ghost start: Sys)
      returns (ok: bool)
      requires Valid() && Idle() && visited < |order| == |listings| && order[visited] in targetStates
      requires RefreshSpec(start, View(), order, listings, visited)
      modifies this
      ensures Valid() && Idle() && old(trace) <= trace
      ensures RefreshSpec(start, View(), order, listings, if ok then visited + 1 else visited)
      ensures !ok ==>
                && listings[visited].Err?
                && order[visited] in targetStates && targetStates[order[visited]] < |rounds|
                && !rounds[targetStates[order[visited]]].ready
    {
      ghost var before := View();
      var ready := CheckRegistered(order[visited]);
      RefreshDrifts(start, before, View(), order, listings, visited);
      if ready {
        RefreshKeeps(start, View(), order, listings, visited);
        return true;
      }
      if listings[visited].Err? {
        return false;
      }
      ghost var unready := View();
      Renew(order[visited], listings[visited].value);
      RefreshRenews(start, unready, View(), order, listings, visited);
      return true;
    }

    /** Goroutines run, and the round of a key is checked for readiness. */
    method CheckRegistered(uid: UID) returns (ready: bool)
      requires Valid() && uid in targetStates
      modifies this`rounds, this`trace
      ensures Valid() && old(trace) <= trace && Drifts(old(View()), View())
      ensures targetStates[uid] < |rounds| && ready == rounds[targetStates[uid]].ready
      ensures HasAll(rounds[targetStates[uid]]) ==> ready
    {
      ghost var before := View();
      Interfere();
      InRange();
      ghost var unchecked := View();
      ready := CheckReadiness(targetStates[uid]);
      DriftsTransitive(before, unchecked, View());
    }

    /** Eject the round of a key and probe again for the same subscriber and channel. */
    method Renew(uid: UID, pods: set<IP>)
      requires Valid() && Idle() && uid in targetStates && targetStates[uid] < |rounds|
      requires !rounds[targetStates[uid]].ready && !HasAll(rounds[targetStates[uid]])
      modifies this
      ensures Valid() && Idle() && old(trace) <= trace
      ensures Renewed(old(View()), View(), uid, pods)
    {
      Registry(uid);
      ghost var before := View();
      var t := targetStates[uid];
      var sub, channel := rounds[t].sub, rounds[t].channel;
      EjectStateUnsafe(sub.uid);
      ghost var ejected := View();
      ProbeTarget(channel, sub, pods);
      RenewedByEject(before, ejected, View(), uid, pods);
    }

    /** A key of the registry is the UID of its round. */
    lemma Registry(uid: UID)
      requires Valid() && uid in targetStates
      ensures targetStates[uid] < |rounds| && rounds[targetStates[uid]].sub.uid == uid
    {
      ReachableInv(trace);
    }

    // The goroutines of a probe

    predicate Probed(t: nat, ip: IP)
      reads this
    {
      t < |rounds| && ip in rounds[t].probes
    }

    /** The target is cancelled, or the pod. */
    predicate Cancelled(t: nat, ip: IP)
      requires Probed(t, ip)
      reads this
    {
      rounds[t].cancelled || rounds[t].probes[ip].cancelled
    }

    function Worker(t: nat, ip: IP): WorkerPc
      requires Probed(t, ip)
      reads this
    {
      rounds[t].probes[ip].worker
    }

    function Canceller(t: nat, ip: IP): CancellerPc
      requires Probed(t, ip)
      reads this
    {
      rounds[t].probes[ip].canceller
    }

    /** Other goroutines and interface calls run; a goroutine of a probe stays where it is. */
    method Preempt(me: Goroutine)
      requires Valid() && Probed(me.t, me.ip)
      modifies this
      ensures Valid() && old(trace) <= trace && Probed(me.t, me.ip)
      ensures me.role.Worker? ==> Worker(me.t, me.ip) == old(Worker(me.t, me.ip))
      ensures me.role.Canceller? ==> Canceller(me.t, me.ip) == old(Canceller(me.t, me.ip))
      ensures rounds[me.t].probes[me.ip].counter <= old(rounds[me.t].probes[me.ip].counter)
      ensures rounds[me.t].sub == old(rounds[me.t].sub)
      ensures old(Cancelled(me.t, me.ip)) ==> Cancelled(me.t, me.ip)
    {
      InterfereWithCalls(me);
    }

    /** The goroutine performs one operation. */
    method Do(me: Goroutine, a: ProbeRound.Act)
      requires Valid() && Probed(me.t, me.ip) && a.ip == me.ip && RoleOf(a) == me.role
      requires CanAct(rounds[me.t], a) && !a.JoinerFire?
      modifies this`rounds, this`trace
      ensures Valid() && trace == old(trace) + [Act(me.t, a)]
      ensures CanAct(old(rounds[me.t]), a) && Probed(me.t, me.ip) && rounds[me.t] == Perform(old(rounds[me.t]), a)
    {
      Take(me.t, a);
    }

    /** Others run, and then the goroutine performs one operation. */
    method Next(me: Goroutine, a: ProbeRound.Act)
      requires Valid() && Probed(me.t, me.ip) && a.ip == me.ip && RoleOf(a) == me.role
      requires CanAct(rounds[me.t], a) && !me.role.Joiner? && !a.Wake?
      modifies this
      ensures Valid() && old(trace) <= trace
      ensures Probed(me.t, me.ip) && Theorems.Leaves(a, rounds[me.t])
      ensures old(Cancelled(me.t, me.ip)) ==> Cancelled(me.t, me.ip)
      ensures rounds[me.t].sub == old(rounds[me.t].sub)
    {
      Preempt(me);
      Theorems.PerformLeaves(rounds[me.t], a);
      Theorems.StepKeepsDone(rounds[me.t], a, me.ip);
      ActEvolves(rounds[me.t], a);
      Do(me, a);
    }

    /** Others run, and then the worker looks at the pod context. */
    method ContextIsDone(me: Goroutine) returns (done: bool)
      requires Valid() && me.role.Worker? && Probed(me.t, me.ip) && Worker(me.t, me.ip).Verified?
      modifies this
      ensures Valid() && old(trace) <= trace && Probed(me.t, me.ip)
      ensures old(Cancelled(me.t, me.ip)) ==> done
      ensures done ==> Cancelled(me.t, me.ip)
      ensures Worker(me.t, me.ip) ==
              if done then Dropped else if old(Worker(me.t, me.ip)).ok then Succeeding else Retrying
    {
      Preempt(me);
      done := ContextDone(rounds[me.t], me.ip);
      Theorems.PerformCheckContext(rounds[me.t], me.ip);
      Do(me, CheckContext(me.ip));
    }

    /** Others run, and then the canceller loads the pod counter. */
    method LoadCounter(me: Goroutine) returns (value: int)
      requires Valid() && me.role.Canceller? && Probed(me.t, me.ip) && Canceller(me.t, me.ip).Loading?
      modifies this
      ensures Valid() && old(trace) <= trace && Probed(me.t, me.ip)
      ensures Canceller(me.t, me.ip) == if value <= 0 then Ended else Swapping(value)
      ensures value == rounds[me.t].probes[me.ip].counter <= old(rounds[me.t].probes[me.ip].counter)
    {
      Preempt(me);
      value := rounds[me.t].probes[me.ip].counter;
      Do(me, Load(me.ip));
    }

    /** Others run, and then the canceller compares the pod counter with `value` and swaps in 0. */
    method CompareAndSwap(me: Goroutine, value: int) returns (swapped: bool)
      requires Valid() && me.role.Canceller? && Probed(me.t, me.ip) && Canceller(me.t, me.ip) == Swapping(value)
      requires rounds[me.t].probes[me.ip].counter <= value
      modifies this
      ensures Valid() && old(trace) <= trace && Probed(me.t, me.ip)
      ensures swapped ==> Canceller(me.t, me.ip).Decrementing? && rounds[me.t].probes[me.ip].counter == 0
      ensures !swapped ==> Canceller(me.t, me.ip).Loading? && rounds[me.t].probes[me.ip].counter < value
    {
      Preempt(me);
      swapped := rounds[me.t].probes[me.ip].counter == value;
      Do(me, Swap(me.ip));
    }

    /** The verifier of `probeVerifier`, which runs under the target's lock; then `prober.Do` returns. */
    method ProbeVerifier(t: nat, ip: IP, response: Response) returns (ok: bool)
      requires Valid() && Probed(t, ip) && Worker(t, ip).Probing?
      modifies this`rounds, this`trace
      ensures Valid() && trace == old(trace) + [Act(t, Answer(ip, Replied(response)))]
      ensures Probed(t, ip) && Worker(t, ip) == Verified(ok)
      ensures var uid := old(rounds[t].sub.uid);
              && (ok <==> if response.status == 200 then response.body.Some? && uid in response.body.value
                          else response.status != 404 && response.status != 503)
              && forall p :: p in rounds[t].readyPartitions <==>
                             || p in old(rounds[t].readyPartitions)
                             || (response.status == 200 && response.body.Some? && uid in response.body.value
                                 && p in response.body.value[uid])
      ensures old(Cancelled(t, ip)) ==> Cancelled(t, ip)
    {
      ghost var before := View();
      var state := rounds[t];
      var partitions: set<Partition> := {};
      if response.status == STATUS_OK {
        if response.body.Some? && state.sub.uid in response.body.value {
          partitions := Elements(response.body.value[state.sub.uid]);
          ok := true;
        } else {
          ok := false;
        }
      } else if response.status == STATUS_NOT_FOUND || response.status == STATUS_UNAVAILABLE {
        ok := false;
      } else {
        ok := true;
      }
      VerifierPerforms(state, ip, response, partitions, ok);
      rounds := rounds[t := state.(readyPartitions := state.readyPartitions + partitions,
                                   probes := state.probes[ip := state.probes[ip].(worker := Verified(ok))],
                                   answers := state.answers + [Answered(ip, Replied(response))])];
      Record(Act(t, Answer(ip, Replied(response))), before);
    }

    /** `prober.Do` with the verifier; `reply` is what the network yields. */
    method DoProbe(me: Goroutine, reply: Reply) returns (ok: bool)
      requires Valid() && me.role.Worker? && Probed(me.t, me.ip) && Worker(me.t, me.ip).Probing?
      modifies this
      ensures Valid() && old(trace) <= trace && |trace| > 0 && trace[|trace| - 1] == Act(me.t, Answer(me.ip, reply))
      ensures Probed(me.t, me.ip) && Worker(me.t, me.ip) == Verified(ok)
      ensures ok == Passes(old(rounds[me.t].sub.uid), reply)
      ensures old(Cancelled(me.t, me.ip)) ==> Cancelled(me.t, me.ip)
    {
      Preempt(me);
      match reply
      case NoReply =>
        Do(me, Answer(me.ip, reply));
        ok := false;
      case Replied(response) =>
        ok := ProbeVerifier(me.t, me.ip, response);
    }

    /**
     * `processWorkItem` for the item of a probe. An item whose context is done when it is dequeued is
     * forgotten, whatever the reply; otherwise it is put back unless the reply was accepted.
     */
    method ProcessWorkItem(t: nat, ip: IP, reply: Reply)
      requires Valid() && Probed(t, ip) && Worker(t, ip).Queued?
      modifies this
      ensures Valid() && old(trace) <= trace && Probed(t, ip)
      ensures Worker(t, ip).Queued? || Worker(t, ip).Dropped?
      ensures old(Cancelled(t, ip)) ==> Worker(t, ip).Dropped?
      ensures Passes(old(rounds[t].sub.uid), reply) ==> Worker(t, ip).Dropped?
      ensures Worker(t, ip).Dropped? ==> Cancelled(t, ip) || Passes(old(rounds[t].sub.uid), reply)
    {
      var me := Goroutine(t, ip, Role.Worker);
      Next(me, Dequeue(ip));
      var ok := DoProbe(me, reply);
      var done := ContextIsDone(me);
      if done {
        return;
      }
      if !ok {
        Next(me, Requeue(ip));
      } else {
        OnProbingSuccess(t, ip);
      }
    }

    /** `onProbingSuccess` */
    method OnProbingSuccess(t: nat, ip: IP)
      requires Valid() && Probed(t, ip) && Worker(t, ip).Succeeding?
      modifies this
      ensures Valid() && old(trace) <= trace && Probed(t, ip)
      ensures Worker(t, ip).Dropped?
    {
      var me := Goroutine(t, ip, Role.Worker);
      Next(me, Decrement(ip));
      if rounds[t].probes[ip].counter == 0 {
        PodIsDone(me);
      }
    }

    /** The branch of `onProbingSuccess` for the pod's last probe: cancel the pod and check readiness. */
    method PodIsDone(me: Goroutine)
      requires Valid() && me.role.Worker? && Probed(me.t, me.ip) && Worker(me.t, me.ip).Releasing?
      modifies this
      ensures Valid() && old(trace) <= trace && Probed(me.t, me.ip)
      ensures Worker(me.t, me.ip).Dropped?
    {
      Next(me, ReleasePod(me.ip));
      Next(me, CheckReady(me.ip));
      if rounds[me.t].ready {
        Announce(me);
      }
    }

    /** The inner branch of `onProbingSuccess`: cancel the target and call back. */
    method Announce(me: Goroutine)
      requires Valid() && me.role.Worker? && Probed(me.t, me.ip) && Worker(me.t, me.ip).Stopping?
      modifies this
      ensures Valid() && old(trace) <= trace && Probed(me.t, me.ip)
      ensures Worker(me.t, me.ip).Dropped? && ByWorker(me.ip) in rounds[me.t].calls
    {
      Next(me, StopTarget(me.ip));
      Next(me, Notify(me.ip));
    }

    /** `onProbingCancellation`: the retry loop ends because the pod counter only ever decreases. */
    method OnProbingCancellation(t: nat, ip: IP)
      requires Valid() && Probed(t, ip) && Canceller(t, ip).Loading?
      modifies this
      ensures Valid() && old(trace) <= trace && Probed(t, ip)
      ensures Canceller(t, ip).Ended?
    {
      var me := Goroutine(t, ip, Role.Canceller);
      while true
        invariant Valid() && old(trace) <= trace && Probed(t, ip) && Canceller(t, ip).Loading?
        decreases rounds[t].probes[ip].counter
      {
        var pendingCount := LoadCounter(me);
        if pendingCount <= 0 {
          return;
        }
        var swapped := CompareAndSwap(me, pendingCount);
        if swapped {
          WriteOff(t, ip);
          return;
        }
      }
    }

    /** The branch of `onProbingCancellation` after a successful compare-and-swap. */
    method WriteOff(t: nat, ip: IP)
      requires Valid() && Probed(t, ip) && Canceller(t, ip).Decrementing?
      modifies this
      ensures Valid() && old(trace) <= trace && Probed(t, ip)
      ensures Canceller(t, ip).Ended?
    {
      var me := Goroutine(t, ip, Role.Canceller);
      Next(me, DecrementTarget(ip));
      if rounds[t].pendingCount == 0 {
        LastWrittenOff(me);
      }
    }

    /** The inner branch of `onProbingCancellation`: check readiness and call back. */
    method LastWrittenOff(me: Goroutine)
      requires Valid() && me.role.Canceller? && Probed(me.t, me.ip) && Canceller(me.t, me.ip).Reviewing?
      modifies this
      ensures Valid() && old(trace) <= trace && Probed(me.t, me.ip)
      ensures Canceller(me.t, me.ip).Ended?
    {
      Next(me, Review(me.ip));
      if rounds[me.t].ready {
        Next(me, Call(me.ip));
      }
    }
  }
}
