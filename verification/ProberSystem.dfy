/**
 * The whole prober: every target state ever created, the registry keyed by subscription UID, the
 * contexts keyed by pod IP, and any number of interface calls in flight. Interface calls are cut
 * into the pieces that hold the mutex; the goroutines of the rounds run between any two pieces.
 */
module ProberSystem {
  import opened Types
  import opened ProbeRound
  import Invariant = ProbeRoundInvariant

  /** A cancellable context made for a pod IP. */
  datatype Context = Context(ip: IP, cancelled: bool)

  /**
   * `rounds` and `contexts` hold every object ever allocated, and an index into them stands for a
   * pointer. `building` are the rounds whose `probeTarget` call is still running; `overwritten` is
   * history: the rounds whose registration was replaced while it was in place.
   */
  datatype Sys = Sys(
    rounds: seq<Round>,
    targetStates: map<UID, nat>,
    podContexts: map<IP, nat>,
    contexts: seq<Context>,
    building: set<nat>,
    overwritten: set<nat>)

  const INIT := Sys([], map[], map[], [], {}, {})

  datatype Label =
    | Act(t: nat, act: ProbeRound.Act)                            // a goroutine of round t
    | Check(t: nat)                                               // checkReadiness by an interface call
    | Build(sub: Subscriber, channel: Channel, pods: set<IP>)     // probeTarget allocates a round
    | Spawn(t: nat, ip: IP)                                       // probeTarget starts a pod's goroutines
    | Register(t: nat)                                            // probeTarget registers the round
    | Eject(uid: UID)                                             // ejectStateUnsafe
    | CancelPod(ip: IP)                                           // CancelPodProbing

  predicate Enabled(s: Sys, l: Label) {
    match l
    case Act(t, a) =>
      && t < |s.rounds|
      && CanAct(s.rounds[t], a)
      && (a.JoinerFire? ==>
            var c := s.rounds[t].probes[a.ip].ipContext;
            c < |s.contexts| && s.contexts[c].cancelled)
    case Check(t) => t < |s.rounds|
    case Build(_, _, _) => true
    case Spawn(t, ip) =>
      && t < |s.rounds| && t in s.building
      && ip in s.rounds[t].probedPods && ip !in s.rounds[t].probes
    case Register(t) =>
      && t < |s.rounds| && t in s.building
      && s.rounds[t].probes.Keys == s.rounds[t].probedPods
    case Eject(uid) => uid in s.targetStates ==> s.targetStates[uid] < |s.rounds|
    case CancelPod(ip) => ip in s.podContexts ==> s.podContexts[ip] < |s.contexts|
  }

  /** The context `probeTarget` uses for a pod: the current one of its IP, or a new one. */
  function ContextFor(s: Sys, ip: IP): nat {
    if ip in s.podContexts then s.podContexts[ip] else |s.contexts|
  }

  function WithContext(s: Sys, ip: IP): Sys {
    if ip in s.podContexts then s
    else s.(podContexts := s.podContexts[ip := |s.contexts|],
            contexts := s.contexts + [Context(ip, false)])
  }

  function Apply(s: Sys, l: Label): Sys
    requires Enabled(s, l)
  {
    match l
    case Act(t, a) =>
      s.(rounds := s.rounds[t := Perform(s.rounds[t], a)])
    case Check(t) =>
      s.(rounds := s.rounds[t := Readied(s.rounds[t])])
    case Build(sub, channel, pods) =>
      s.(rounds := s.rounds + [NewRound(sub, channel, pods)], building := s.building + {|s.rounds|})
    case Spawn(t, ip) =>
      WithContext(s, ip).(rounds := s.rounds[t := Spawned(s.rounds[t], ip, ContextFor(s, ip))])
    case Register(t) =>
      var uid := s.rounds[t].sub.uid;
      s.(targetStates := s.targetStates[uid := t],
         building := s.building - {t},
         overwritten := s.overwritten + if uid in s.targetStates then {s.targetStates[uid]} else {})
    case Eject(uid) =>
      if uid in s.targetStates then
        var t := s.targetStates[uid];
        s.(rounds := s.rounds[t := Abandoned(s.rounds[t])], targetStates := s.targetStates - {uid})
      else s
    case CancelPod(ip) =>
      if ip in s.podContexts then
        var c := s.podContexts[ip];
        s.(contexts := s.contexts[c := s.contexts[c].(cancelled := true)],
           podContexts := s.podContexts - {ip})
      else s
  }

  /** The state a run reaches, or `None` when one of its labels is not enabled. */
  ghost function Exec(s: Sys, run: seq<Label>): Option<Sys> {
    if run == [] then Some(s)
    else
      var before := Exec(s, run[..|run| - 1]);
      if before.Some? && Enabled(before.value, run[|run| - 1])
      then Some(Apply(before.value, run[|run| - 1]))
      else None
  }

  lemma ExecSnoc(s: Sys, run: seq<Label>, l: Label)
    ensures Exec(s, run + [l]) ==
            var before := Exec(s, run);
            if before.Some? && Enabled(before.value, l) then Some(Apply(before.value, l)) else None
  {
    assert (run + [l])[..|run + [l]| - 1] == run;
  }

  lemma {:induction false} ExecConcat(s: Sys, first: seq<Label>, second: seq<Label>)
    requires Exec(s, first).Some?
    ensures Exec(s, first + second) == Exec(Exec(s, first).value, second)
  {
    if second == [] {
      assert first + second == first;
    } else {
      var front, l := second[..|second| - 1], second[|second| - 1];
      ExecConcat(s, first, front);
      assert first + second == (first + front) + [l];
      ExecSnoc(s, first + front, l);
    }
  }

  /** Interface calls do not overlap, and `probeTarget` is called only for an unregistered UID. */
  ghost predicate Serial(s: Sys, run: seq<Label>)
    requires Exec(s, run).Some?
  {
    run == [] ||
    var front, l := run[..|run| - 1], run[|run| - 1];
    var before := Exec(s, front).value;
    && Serial(s, front)
    && (l.Build? ==> before.building == {} && l.sub.uid !in before.targetStates)
  }

  // The invariant

  predicate Registered(s: Sys, t: nat)
    requires t < |s.rounds|
  {
    var uid := s.rounds[t].sub.uid;
    uid in s.targetStates && s.targetStates[uid] == t
  }

  ghost predicate RoundsInv(s: Sys) {
    forall t :: 0 <= t < |s.rounds| ==> Invariant.Inv(s.rounds[t])
  }

  ghost predicate RegistryInv(s: Sys) {
    && (forall uid :: uid in s.targetStates ==>
          && s.targetStates[uid] < |s.rounds|
          && s.rounds[s.targetStates[uid]].sub.uid == uid
          && s.targetStates[uid] !in s.building)
    && (forall t :: t in s.building ==> t < |s.rounds|)
    && (forall t :: 0 <= t < |s.rounds| && t !in s.building ==>
          s.rounds[t].probes.Keys == s.rounds[t].probedPods)
  }

  /** A live context is the current one of its IP, and every probe watches a context of its own IP. */
  ghost predicate ContextsInv(s: Sys) {
    && (forall ip :: ip in s.podContexts ==>
          && s.podContexts[ip] < |s.contexts|
          && s.contexts[s.podContexts[ip]] == Context(ip, false))
    && (forall c :: 0 <= c < |s.contexts| && !s.contexts[c].cancelled ==>
          s.contexts[c].ip in s.podContexts && s.podContexts[s.contexts[c].ip] == c)
    && (forall t, ip :: 0 <= t < |s.rounds| && ip in s.rounds[t].probes ==>
          && s.rounds[t].probes[ip].ipContext < |s.contexts|
          && s.contexts[s.rounds[t].probes[ip].ipContext].ip == ip)
  }

  /** No round is forgotten while it still probes, unless its registration was overwritten. */
  ghost predicate TrackedInv(s: Sys) {
    forall t :: 0 <= t < |s.rounds| ==>
      s.rounds[t].cancelled || Registered(s, t) || t in s.building || t in s.overwritten
  }

  ghost predicate SomePodCancelled(s: Sys, t: nat)
    requires t < |s.rounds|
  {
    exists ip :: ip in s.rounds[t].probes
                 && s.rounds[t].probes[ip].ipContext < |s.contexts|
                 && s.contexts[s.rounds[t].probes[ip].ipContext].cancelled
  }

  /** A round that was disturbed has been ejected, or one of its pods' contexts was cancelled. */
  ghost predicate DisturbedInv(s: Sys) {
    forall t :: 0 <= t < |s.rounds| && s.rounds[t].disturbed ==>
      (!Registered(s, t) && t !in s.building) || SomePodCancelled(s, t)
  }

  ghost predicate Inv(s: Sys) {
    RoundsInv(s) && RegistryInv(s) && ContextsInv(s) && TrackedInv(s) && DisturbedInv(s)
  }

  lemma InitInv()
    ensures Inv(INIT)
  {
  }

  lemma StepRounds(s: Sys, l: Label)
    requires RoundsInv(s) && RegistryInv(s) && Enabled(s, l)
    ensures RoundsInv(Apply(s, l))
  {
    match l
    case Act(t, a) => ActRounds(s, t, a);
    case Check(t) => CheckRounds(s, t);
    case Build(sub, channel, pods) => Invariant.NewRoundInv(sub, channel, pods);
    case Spawn(t, ip) => SpawnRounds(s, t, ip);
    case Register(_) =>
    case Eject(uid) => EjectRounds(s, uid);
    case CancelPod(_) =>
  }

  lemma ActRounds(s: Sys, t: nat, a: ProbeRound.Act)
    requires RoundsInv(s) && Enabled(s, Act(t, a))
    ensures RoundsInv(Apply(s, Act(t, a)))
  {
    Invariant.StepInv(s.rounds[t], a);
  }

  lemma CheckRounds(s: Sys, t: nat)
    requires RoundsInv(s) && Enabled(s, Check(t))
    ensures RoundsInv(Apply(s, Check(t)))
  {
    Invariant.ReadiedInv(s.rounds[t]);
  }

  lemma SpawnRounds(s: Sys, t: nat, ip: IP)
    requires RoundsInv(s) && Enabled(s, Spawn(t, ip))
    ensures RoundsInv(Apply(s, Spawn(t, ip)))
  {
    Invariant.SpawnedInv(s.rounds[t], ip, ContextFor(s, ip));
  }

  lemma EjectRounds(s: Sys, uid: UID)
    requires RoundsInv(s) && RegistryInv(s) && Enabled(s, Eject(uid))
    ensures RoundsInv(Apply(s, Eject(uid)))
  {
    if uid in s.targetStates {
      Invariant.AbandonedInv(s.rounds[s.targetStates[uid]]);
    }
  }

  /** What a step keeps of a round that exists. */
  ghost predicate Evolves(r: Round, r': Round) {
    && r'.sub == r.sub
    && r'.channel == r.channel
    && r'.probedPods == r.probedPods
    && (r.ready ==> r'.ready)
    && (r.cancelled ==> r'.cancelled)
    && (r.disturbed ==> r'.disturbed)
    && r.readyPartitions <= r'.readyPartitions
    && r.answers <= r'.answers
    && r.calls <= r'.calls
    && r'.pendingCount <= r.pendingCount
    && (forall ip :: ip in r.probes ==>
          && ip in r'.probes
          && r'.probes[ip].ipContext == r.probes[ip].ipContext
          && (r.probes[ip].cancelled ==> r'.probes[ip].cancelled))
  }

  lemma ActEvolves(r: Round, a: ProbeRound.Act)
    requires CanAct(r, a)
    ensures Evolves(r, Perform(r, a))
    ensures Perform(r, a).probes.Keys == r.probes.Keys
    ensures Perform(r, a).disturbed ==> r.disturbed || a.JoinerFire?
  {
    Invariant.StepFields(r, a);
    ActKeeps(r, a);
  }

  lemma ActKeeps(r: Round, a: ProbeRound.Act)
    requires CanAct(r, a)
    ensures var r' := Perform(r, a);
            && r'.sub == r.sub && r'.channel == r.channel
            && r.readyPartitions <= r'.readyPartitions && r.answers <= r'.answers && r.calls <= r'.calls
            && (r'.disturbed ==> r.disturbed || a.JoinerFire?)
            && r'.probes[a.ip].ipContext == r.probes[a.ip].ipContext
            && (r.probes[a.ip].cancelled ==> r'.probes[a.ip].cancelled)
  {
    match RoleOf(a)
    case Worker =>
    case Joiner =>
    case Canceller =>
  }

  function TargetStatesAfter(s: Sys, l: Label): map<UID, nat>
    requires Enabled(s, l)
  {
    match l
    case Register(t) => s.targetStates[s.rounds[t].sub.uid := t]
    case Eject(uid) => s.targetStates - {uid}
    case _ => s.targetStates
  }

  function BuildingAfter(s: Sys, l: Label): set<nat> {
    match l
    case Build(_, _, _) => s.building + {|s.rounds|}
    case Register(t) => s.building - {t}
    case _ => s.building
  }

  function OverwrittenAfter(s: Sys, l: Label): set<nat>
    requires Enabled(s, l)
  {
    if l.Register? && s.rounds[l.t].sub.uid in s.targetStates
    then s.overwritten + {s.targetStates[s.rounds[l.t].sub.uid]} else s.overwritten
  }

  /** What a label does, apart from the details of the probes. */
  ghost predicate Effect(s: Sys, l: Label, s': Sys)
    requires Enabled(s, l)
  {
    && |s'.rounds| == |s.rounds| + (if l.Build? then 1 else 0)
    && (l.Build? ==> s'.rounds[|s.rounds|] == NewRound(l.sub, l.channel, l.pods))
    && (forall t :: 0 <= t < |s.rounds| ==> Evolves(s.rounds[t], s'.rounds[t]))
    && (forall t :: 0 <= t < |s.rounds| && !(l.Spawn? && l.t == t) ==>
          s'.rounds[t].probes.Keys == s.rounds[t].probes.Keys)
    && (forall t :: 0 <= t < |s.rounds| && s'.rounds[t].disturbed && !s.rounds[t].disturbed ==>
          || (l.Eject? && l.uid in s.targetStates && s.targetStates[l.uid] == t)
          || (l.Act? && l.t == t && l.act.JoinerFire?))
    && (l.Eject? && l.uid in s.targetStates ==> s'.rounds[s.targetStates[l.uid]].cancelled)
    && s'.targetStates == TargetStatesAfter(s, l)
    && s'.building == BuildingAfter(s, l)
    && s'.overwritten == OverwrittenAfter(s, l)
    && (forall c :: 0 <= c < |s.contexts| && s.contexts[c].cancelled ==>
          c < |s'.contexts| && s'.contexts[c].cancelled)
  }

  lemma ActEffect(s: Sys, t: nat, a: ProbeRound.Act, r': Round)
    requires Enabled(s, Act(t, a))
    requires Evolves(s.rounds[t], r') && r'.probes.Keys == s.rounds[t].probes.Keys
    requires r'.disturbed ==> s.rounds[t].disturbed || a.JoinerFire?
    ensures Effect(s, Act(t, a), s.(rounds := s.rounds[t := r']))
  {
  }

  lemma StepEffect(s: Sys, l: Label)
    requires Enabled(s, l)
    ensures Effect(s, l, Apply(s, l))
  {
    match l
    case Act(t, a) =>
      ActEvolves(s.rounds[t], a);
      ActEffect(s, t, a, Perform(s.rounds[t], a));
    case Check(t) => CheckEffect(s, t);
    case Build(_, _, _) => OtherEffect(s, l);
    case Spawn(t, ip) => SpawnEffect(s, t, ip);
    case Register(_) => OtherEffect(s, l);
    case Eject(uid) => EjectEffect(s, uid);
    case CancelPod(_) => OtherEffect(s, l);
  }

  lemma CheckEffect(s: Sys, t: nat)
    requires Enabled(s, Check(t))
    ensures Effect(s, Check(t), Apply(s, Check(t)))
  {
  }

  lemma SpawnEffect(s: Sys, t: nat, ip: IP)
    requires Enabled(s, Spawn(t, ip))
    ensures Effect(s, Spawn(t, ip), Apply(s, Spawn(t, ip)))
  {
  }

  lemma EjectEffect(s: Sys, uid: UID)
    requires Enabled(s, Eject(uid))
    ensures Effect(s, Eject(uid), Apply(s, Eject(uid)))
  {
    assert uid !in s.targetStates ==> s.targetStates - {uid} == s.targetStates;
  }

  lemma OtherEffect(s: Sys, l: Label)
    requires Enabled(s, l) && (l.Build? || l.Register? || l.CancelPod?)
    ensures Effect(s, l, Apply(s, l))
  {
  }

  lemma StepRegistry(s: Sys, l: Label, s': Sys)
    requires RegistryInv(s) && Enabled(s, l) && Effect(s, l, s')
    ensures RegistryInv(s')
  {
  }

  lemma StepContexts(s: Sys, l: Label)
    requires ContextsInv(s) && Enabled(s, l) && Effect(s, l, Apply(s, l))
    ensures ContextsInv(Apply(s, l))
  {
    if l.Spawn? {
      SpawnContexts(s, l.t, l.ip);
    } else if l.CancelPod? {
      CancelPodContexts(s, l.ip);
    } else {
      SameContexts(s, l, Apply(s, l));
    }
  }

  lemma SpawnContexts(s: Sys, t: nat, ip: IP)
    requires ContextsInv(s) && Enabled(s, Spawn(t, ip))
    ensures ContextsInv(Apply(s, Spawn(t, ip)))
  {
  }

  lemma CancelPodContexts(s: Sys, ip: IP)
    requires ContextsInv(s) && Enabled(s, CancelPod(ip))
    ensures ContextsInv(Apply(s, CancelPod(ip)))
  {
  }

  lemma SameContexts(s: Sys, l: Label, s': Sys)
    requires ContextsInv(s) && Enabled(s, l) && Effect(s, l, s') && !l.Spawn?
    requires s'.contexts == s.contexts && s'.podContexts == s.podContexts
    ensures ContextsInv(s')
  {
    forall t, ip | 0 <= t < |s'.rounds| && ip in s'.rounds[t].probes
      ensures s'.rounds[t].probes[ip].ipContext < |s'.contexts|
      ensures s'.contexts[s'.rounds[t].probes[ip].ipContext].ip == ip
    {
      assert t < |s.rounds| && Evolves(s.rounds[t], s'.rounds[t]);
      assert ip in s.rounds[t].probes.Keys;
    }
  }

  lemma StepTracked(s: Sys, l: Label, s': Sys)
    requires RegistryInv(s) && TrackedInv(s) && Enabled(s, l) && Effect(s, l, s')
    ensures TrackedInv(s')
  {
    forall t | 0 <= t < |s'.rounds|
      ensures s'.rounds[t].cancelled || Registered(s', t) || t in s'.building || t in s'.overwritten
    {
      if t < |s.rounds| { assert Evolves(s.rounds[t], s'.rounds[t]); }
    }
  }

  lemma StepDisturbed(s: Sys, l: Label, s': Sys)
    requires RegistryInv(s) && ContextsInv(s) && DisturbedInv(s) && Enabled(s, l) && Effect(s, l, s')
    ensures DisturbedInv(s')
  {
    forall t | 0 <= t < |s'.rounds| && s'.rounds[t].disturbed
      ensures (!Registered(s', t) && t !in s'.building) || SomePodCancelled(s', t)
    {
      assert t < |s.rounds|;
      if s.rounds[t].disturbed {
        if SomePodCancelled(s, t) { SomePodStaysCancelled(s, l, s', t); }
      } else if l.Act? {
        JoinerSawCancelled(s, l, s');
      }
    }
  }

  lemma SomePodStaysCancelled(s: Sys, l: Label, s': Sys, t: nat)
    requires Enabled(s, l) && Effect(s, l, s') && t < |s.rounds| && SomePodCancelled(s, t)
    ensures SomePodCancelled(s', t)
  {
    assert Evolves(s.rounds[t], s'.rounds[t]);
    var ip :| ip in s.rounds[t].probes && s.rounds[t].probes[ip].ipContext < |s.contexts|
              && s.contexts[s.rounds[t].probes[ip].ipContext].cancelled;
    assert ip in s'.rounds[t].probes;
    assert s'.contexts[s'.rounds[t].probes[ip].ipContext].cancelled;
  }

  /** The goroutine that joins the contexts fires only when the context of the IP is cancelled. */
  lemma JoinerSawCancelled(s: Sys, l: Label, s': Sys)
    requires ContextsInv(s) && Enabled(s, l) && Effect(s, l, s') && l.Act? && l.act.JoinerFire?
    ensures SomePodCancelled(s', l.t)
  {
    assert Evolves(s.rounds[l.t], s'.rounds[l.t]);
    assert l.act.ip in s'.rounds[l.t].probes;
    assert s'.contexts[s'.rounds[l.t].probes[l.act.ip].ipContext].cancelled;
  }

  lemma StepInv(s: Sys, l: Label)
    requires Inv(s) && Enabled(s, l)
    ensures Inv(Apply(s, l))
  {
    StepEffect(s, l);
    StepRounds(s, l);
    StepRegistry(s, l, Apply(s, l));
    StepContexts(s, l);
    StepTracked(s, l, Apply(s, l));
    StepDisturbed(s, l, Apply(s, l));
  }

  /** The invariant holds in every state that any interleaving reaches. */
  lemma {:induction false} ReachableInv(run: seq<Label>)
    requires Exec(INIT, run).Some?
    ensures Inv(Exec(INIT, run).value)
  {
    if run == [] {
      InitInv();
    } else {
      ReachableInv(run[..|run| - 1]);
      StepInv(Exec(INIT, run[..|run| - 1]).value, run[|run| - 1]);
    }
  }
}
