/** What the invariant of a probing round means for its callers, and how a cancelled round drains. */
module ProbeRoundTheorems {
  import opened Types
  import opened ProbeRound
  import opened ProbeRoundInvariant

  /** A probe is settled once: a settlement is never changed. */
  lemma SettledOnce(r: Round, a: Act, ip: IP)
    requires CanAct(r, a) && ip in r.probes && ProbeInv(r.probes[ip])
    ensures var p, p' := r.probes[ip], Perform(r, a).probes[ip];
            && (!p.settlement.Pending? ==> p'.settlement == p.settlement)
            && p'.counter <= p.counter
            && (p.counter == 1 && p'.counter != 1 ==>
                  if p'.settlement.BySuccess? then a == Decrement(ip) else a == Swap(ip))
  {
    if a.ip == ip {
      match RoleOf(a)
      case Worker =>
      case Joiner =>
      case Canceller =>
    }
  }

  /** A goroutine moves only its own program counter. */
  lemma ActMovesOne(r: Round, a: Act, ip: IP)
    requires CanAct(r, a) && ip in r.probes
    ensures var p, p' := r.probes[ip], Perform(r, a).probes[ip];
            && (RoleOf(a) != Worker || a.ip != ip ==> p'.worker == p.worker)
            && (RoleOf(a) != Joiner || a.ip != ip ==> p'.joiner == p.joiner)
            && (RoleOf(a) != Canceller || a.ip != ip ==> p'.canceller == p.canceller)
  {
    StepFields(r, a);
    if a.ip == ip {
      match RoleOf(a)
      case Worker =>
      case Joiner =>
      case Canceller =>
    }
  }

  /** Where an act leaves its worker or canceller, when that does not depend on the state it found. */
  predicate Leaves(a: Act, r': Round)
    requires a.ip in r'.probes
  {
    var p' := r'.probes[a.ip];
    match a
    case Dequeue(_) => p'.worker.Probing?
    case Requeue(_) => p'.worker.Queued?
    case Decrement(_) => p'.worker == if p'.counter == 0 then Releasing else Dropped
    case ReleasePod(_) => p'.worker.Checking?
    case CheckReady(_) => p'.worker == if r'.ready then Stopping else Dropped
    case StopTarget(_) => p'.worker.Notifying?
    case Notify(ip) => ByWorker(ip) in r'.calls && p'.worker.Dropped?
    case DecrementTarget(_) => p'.canceller == if r'.pendingCount == 0 then Reviewing else Ended
    case Review(_) => p'.canceller == if r'.ready then Calling else Ended
    case Call(ip) => ByCanceller(ip) in r'.calls && p'.canceller.Ended?
    case _ => true
  }

  lemma PerformLeaves(r: Round, a: Act)
    requires CanAct(r, a)
    ensures a.ip in Perform(r, a).probes && Leaves(a, Perform(r, a))
  {
  }

  lemma PerformCheckContext(r: Round, ip: IP)
    requires CanAct(r, CheckContext(ip))
    ensures var r' := Perform(r, CheckContext(ip));
            && ip in r'.probes
            && r'.probes[ip].worker ==
               if ContextDone(r, ip) then Dropped else if r.probes[ip].worker.ok then Succeeding else Retrying
  {
  }

  /** The target counter is the number of pods not yet written off, so it never becomes negative. */
  lemma PendingCountExact(r: Round)
    requires Inv(r)
    ensures r.pendingCount == |r.probedPods - DiscountedPods(r)|
    ensures r.pendingCount == 0 <==> forall ip :: ip in r.probedPods ==> ip in r.probes && Discounted(r.probes[ip])
  {
    assert |r.probedPods| == |r.probedPods - DiscountedPods(r)| + |DiscountedPods(r)| by {
      assert r.probedPods == (r.probedPods - DiscountedPods(r)) + DiscountedPods(r);
    }
    if r.pendingCount == 0 {
      assert r.probedPods - DiscountedPods(r) == {};
      forall ip | ip in r.probedPods ensures ip in DiscountedPods(r) {}
    }
    if forall ip :: ip in r.probedPods ==> ip in r.probes && Discounted(r.probes[ip]) {
      assert r.probedPods - DiscountedPods(r) == {};
    }
  }

  /**
   * The cancellation path calls the callback only when every pod was cancelled, and then it is the
   * only call ever made; otherwise all calls come from distinct workers that succeeded.
   */
  lemma CallbackPathsExclusive(r: Round, ip: IP)
    requires Inv(r) && ByCanceller(ip) in r.calls
    ensures forall jp :: jp in r.probedPods ==> jp in r.probes && r.probes[jp].settlement.ByCancellation?
    ensures r.calls == [ByCanceller(ip)]
  {
    PendingCountExact(r);
    forall c | c in r.calls
      ensures c == ByCanceller(ip)
    {
      assert c.ip in r.probedPods;
      assert ReachedZero(r, ip) && (c.ByCanceller? ==> ReachedZero(r, c.ip));
    }
    assert Elements(r.calls) == {ByCanceller(ip)};
    NoDuplicatesCardinality(r.calls);
  }

  lemma CallbackBound(r: Round)
    requires Inv(r)
    ensures |r.calls| <= |r.probedPods|
    ensures forall i, j :: 0 <= i < j < |r.calls| ==> r.calls[i].ip != r.calls[j].ip
  {
    if i :| 0 <= i < |r.calls| && r.calls[i].ByCanceller? {
      var c := r.calls[i];
      assert c in r.calls;
      CallbackPathsExclusive(r, c.ip);
      SubsetCardinality({c.ip}, r.probedPods);
    } else {
      forall i, j | 0 <= i < j < |r.calls|
        ensures r.calls[i].ip != r.calls[j].ip
      {
        assert r.calls[i] == ByWorker(r.calls[i].ip) && r.calls[j] == ByWorker(r.calls[j].ip);
      }
      var ips := seq(|r.calls|, i requires 0 <= i < |r.calls| => r.calls[i].ip);
      NoDuplicatesCardinality(ips);
      forall ip | ip in ips ensures ip in r.probedPods {
        var i :| 0 <= i < |r.calls| && r.calls[i].ip == ip;
        assert r.calls[i] in r.calls;
      }
      SubsetCardinality(Elements(ips), r.probedPods);
    }
  }

  /**
   * No lost wake-up: if nothing outside the round cancelled it or one of its probes, no worker is on
   * its way from an accepted reply to the callback, and the partition set is complete, then the
   * callback was called. It holds before every pod has answered, too.
   */
  lemma NoLostWakeUp(r: Round)
    requires Inv(r)
    requires !r.disturbed && Complete(r)
    requires forall ip :: ip in r.probes ==> !Carries(r.probes[ip].worker)
    ensures r.calls != []
  {
  }

  lemma {:induction false} NamedByAllMembers(uid: UID, answers: seq<Answered>, p: Partition)
    ensures p in NamedByAll(uid, answers) <==>
            exists i :: 0 <= i < |answers| && p in Named(uid, answers[i].reply)
  {
    if answers != [] {
      var front := answers[..|answers| - 1];
      NamedByAllMembers(uid, front, p);
      if i :| 0 <= i < |front| && p in Named(uid, front[i].reply) {
        assert p in Named(uid, answers[i].reply);
      }
      if i :| 0 <= i < |answers| && p in Named(uid, answers[i].reply) {
        if i < |front| { assert front[i] == answers[i]; }
      }
    }
  }

  /** Readiness is backed by 200 answers to this round's own work items, for this subscription. */
  lemma ReadinessIsWitnessed(r: Round)
    requires Inv(r) && r.ready
    ensures |r.readyPartitions| >= r.channel.numPartitions
    ensures forall p :: p in r.readyPartitions ==>
              exists i :: 0 <= i < |r.answers| && Lists(r.sub.uid, r.answers[i].reply)
                          && r.answers[i].ip in r.probedPods
                          && p in r.answers[i].reply.response.body.value[r.sub.uid]
  {
    forall p | p in r.readyPartitions
      ensures exists i :: 0 <= i < |r.answers| && Lists(r.sub.uid, r.answers[i].reply)
                          && r.answers[i].ip in r.probedPods
                          && p in r.answers[i].reply.response.body.value[r.sub.uid]
    {
      NamedByAllMembers(r.sub.uid, r.answers, p);
      var i :| 0 <= i < |r.answers| && p in Named(r.sub.uid, r.answers[i].reply);
      assert Lists(r.sub.uid, r.answers[i].reply);
    }
  }

  // Draining

  /** An upper bound on the acts a probe still makes once its context is done. */
  function Rank(p: Probe): nat {
    WorkerRank(p.worker) + CancellerRank(p) + (if p.joiner then 1 else 0)
  }

  function WorkerRank(pc: WorkerPc): nat {
    match pc
    case Retrying => 9
    case Queued => 8
    case Probing => 7
    case Verified(_) => 6
    case Succeeding => 5
    case Releasing => 4
    case Checking => 3
    case Stopping => 2
    case Notifying => 1
    case Dropped => 0
  }

  /** The compare-and-swap fails at most once, because the counter it missed has dropped for good. */
  function CancellerRank(p: Probe): nat {
    match p.canceller
    case Blocked => 6
    case Loading => if p.counter > 0 then 5 else 1
    case Swapping(_) => if p.counter > 0 then 4 else 2
    case Decrementing => 3
    case Reviewing => 2
    case Calling => 1
    case Ended => 0
  }

  const MAX_RANK := 16

  /** How many times the work item can still be dequeued once the context is done. */
  function DequeuesLeft(p: Probe): nat {
    if p.worker.Queued? || p.worker.Retrying? then 1 else 0
  }

  lemma RankBound(p: Probe)
    ensures Rank(p) <= MAX_RANK
  {
  }

  /** Every act of a probe whose context is done brings it closer to its end. */
  lemma StepDrains(r: Round, a: Act)
    requires CanAct(r, a) && ProbeInv(r.probes[a.ip]) && ContextDone(r, a.ip)
    ensures var p, p' := r.probes[a.ip], Perform(r, a).probes[a.ip];
            && Rank(p') < Rank(p)
            && DequeuesLeft(p') + (if a.Dequeue? then 1 else 0) <= DequeuesLeft(p)
  {
    match RoleOf(a)
    case Worker => WorkerDrains(r, a);
    case Joiner => JoinerDrains(r, a);
    case Canceller => CancellerDrains(r, a);
  }

  lemma WorkerDrains(r: Round, a: Act)
    requires CanAct(r, a) && ContextDone(r, a.ip) && RoleOf(a).Worker?
    ensures var p, p' := r.probes[a.ip], Perform(r, a).probes[a.ip];
            && Rank(p') < Rank(p)
            && DequeuesLeft(p') + (if a.Dequeue? then 1 else 0) <= DequeuesLeft(p)
  {
    var p, p' := r.probes[a.ip], Perform(r, a).probes[a.ip];
    assert p'.canceller == p.canceller && p'.joiner == p.joiner && p'.counter <= p.counter;
    assert CancellerRank(p') <= CancellerRank(p) by { FewerForCanceller(p, p'); }
  }

  lemma FewerForCanceller(p: Probe, p': Probe)
    requires p'.canceller == p.canceller && p'.counter <= p.counter
    ensures CancellerRank(p') <= CancellerRank(p)
  {
  }

  lemma JoinerDrains(r: Round, a: Act)
    requires CanAct(r, a) && RoleOf(a).Joiner?
    ensures var p, p' := r.probes[a.ip], Perform(r, a).probes[a.ip];
            Rank(p') < Rank(p) && DequeuesLeft(p') == DequeuesLeft(p)
  {
    var p, p' := r.probes[a.ip], Perform(r, a).probes[a.ip];
    assert p' == p.(cancelled := p'.cancelled, joiner := false);
  }

  lemma CancellerDrains(r: Round, a: Act)
    requires CanAct(r, a) && ProbeInv(r.probes[a.ip]) && RoleOf(a).Canceller?
    ensures var p, p' := r.probes[a.ip], Perform(r, a).probes[a.ip];
            Rank(p') < Rank(p) && DequeuesLeft(p') == DequeuesLeft(p)
  {
    var p, p' := r.probes[a.ip], Perform(r, a).probes[a.ip];
    assert p'.worker == p.worker && p'.joiner == p.joiner;
    assert CancellerRank(p') < CancellerRank(p);
  }

  /** A context that is done stays done, and a step leaves the other probes alone. */
  lemma StepKeepsDone(r: Round, a: Act, ip: IP)
    requires CanAct(r, a) && ip in r.probes
    ensures ip in Perform(r, a).probes
    ensures ip != a.ip ==> Perform(r, a).probes[ip] == r.probes[ip]
    ensures ContextDone(r, ip) ==> ContextDone(Perform(r, a), ip)
  {
    StepFields(r, a);
    StepKeepsCancelled(r, a);
  }

  lemma StepKeepsCancelled(r: Round, a: Act)
    requires CanAct(r, a)
    ensures r.probes[a.ip].cancelled ==> Perform(r, a).probes[a.ip].cancelled
  {
    match RoleOf(a)
    case Worker =>
    case Joiner =>
    case Canceller =>
  }

  /** The probe has no goroutine left and its work item is forgotten. */
  predicate Finished(p: Probe) {
    p.worker.Dropped? && !p.joiner && p.canceller.Ended?
  }

  /** No goroutine of a probe whose context is done is ever stuck. */
  lemma DoneNeverStuck(r: Round, ip: IP) returns (a: Act)
    requires ip in r.probes && (r.cancelled || r.probes[ip].cancelled) && !Finished(r.probes[ip])
    ensures a.ip == ip && CanAct(r, a) && !a.JoinerFire?
  {
    var p := r.probes[ip];
    if p.joiner { return JoinerLeave(ip); }
    match p.canceller {
      case Blocked => return Wake(ip);
      case Loading => return Load(ip);
      case Swapping(_) => return Swap(ip);
      case Decrementing => return DecrementTarget(ip);
      case Reviewing => return Review(ip);
      case Calling => return Call(ip);
      case Ended =>
    }
    match p.worker {
      case Queued => return Dequeue(ip);
      case Probing => return Answer(ip, NoReply);
      case Verified(_) => return CheckContext(ip);
      case Retrying => return Requeue(ip);
      case Succeeding => return Decrement(ip);
      case Releasing => return ReleasePod(ip);
      case Checking => return CheckReady(ip);
      case Stopping => return StopTarget(ip);
      case Notifying => return Notify(ip);
      case Dropped => assert false;
    }
  }
}
