/** The inductive invariant of a probing round, and its preservation by every atomic operation. */
module ProbeRoundInvariant {
  import opened Types
  import opened ProbeRound

  /** The worker has not yet tried to settle the probe. */
  predicate Unreleased(pc: WorkerPc) {
    pc.Queued? || pc.Probing? || pc.Verified? || pc.Retrying? || pc.Succeeding?
  }

  /** The worker settled the probe and is on its way to the callback. */
  predicate PastRelease(pc: WorkerPc) {
    pc.Releasing? || pc.Checking? || pc.Stopping? || pc.Notifying?
  }

  /** The pod counter, the settlement and the two program counters agree. */
  predicate ProbeInv(p: Probe) {
    && -1 <= p.counter <= 1
    && (p.counter == 1 <==> p.settlement.Pending?)
    && (p.counter == -1 ==> p.settlement.ByCancellation? && p.worker.Dropped?)
    && (Unreleased(p.worker) ==> !p.settlement.BySuccess?)
    && (PastRelease(p.worker) ==> p.settlement.BySuccess?)
    && (p.settlement.BySuccess? && !p.worker.Releasing? ==> p.cancelled)
    && (p.canceller.Swapping? ==> p.canceller.seen == 1)
    && (p.canceller.Decrementing? || p.canceller.Reviewing? || p.canceller.Calling?
        ==> p.settlement.ByCancellation?)
    && (p.canceller.Blocked? || p.canceller.Loading? || p.canceller.Swapping?
        ==> !p.settlement.ByCancellation?)
    && (p.canceller.Ended? ==> !p.settlement.Pending?)
  }

  /** How a probe depends on the fields its siblings share. */
  predicate SharedInv(r: Round, p: Probe) {
    && (!p.canceller.Blocked? || !p.joiner ==> r.cancelled || p.cancelled)
    && (p.canceller.Reviewing? || p.canceller.Calling? ==> r.pendingCount == 0)
    && (p.worker.Stopping? || p.worker.Notifying? || p.canceller.Calling? ==> r.ready)
    && (p.worker.Notifying? ==> r.cancelled)
    && (p.cancelled && !r.disturbed ==> p.settlement.BySuccess?)
  }

  predicate ProbesInv(r: Round) {
    && r.probes.Keys <= r.probedPods
    && (forall ip :: ip in r.probes ==> ProbeInv(r.probes[ip]))
    && (forall ip :: ip in r.probes ==> SharedInv(r, r.probes[ip]))
  }

  /** The probe has been settled by cancellation and the target counter says so. */
  predicate Discounted(p: Probe) {
    p.settlement.ByCancellation? && !p.canceller.Decrementing?
  }

  function DiscountedPods(r: Round): set<IP> {
    set ip | ip in r.probes && Discounted(r.probes[ip])
  }

  /** The target counter is the number of pods that are not settled by cancellation. */
  predicate CountInv(r: Round) {
    && r.pendingCount == |r.probedPods| - |DiscountedPods(r)|
  }

  /** Every call of the callback has one caller, that caller's probe says so, and calls once. */
  ghost predicate CallsInv(r: Round) {
    && NoDuplicates(r.calls)
    && (forall c :: c in r.calls ==> c.ip in r.probes)
    && (forall ip :: ByWorker(ip) in r.calls ==>
          r.probes[ip].settlement.BySuccess? && r.probes[ip].worker.Dropped?)
    && (forall ip :: ByCanceller(ip) in r.calls ==>
          r.pendingCount == 0 && r.probes[ip].canceller.Ended?)
    && (forall ip, jp :: ReachedZero(r, ip) && ReachedZero(r, jp) ==> ip == jp)
    && (r.calls != [] ==> r.ready)
  }

  /** This canceller brought the target counter to zero and calls, or has called, the callback. */
  predicate ReachedZero(r: Round, ip: IP) {
    || (ip in r.probes && (r.probes[ip].canceller.Reviewing? || r.probes[ip].canceller.Calling?))
    || ByCanceller(ip) in r.calls
  }

  /** The ready partitions are those that the replies named; readiness needs enough of them. */
  predicate EvidenceInv(r: Round) {
    && r.readyPartitions == NamedByAll(r.sub.uid, r.answers)
    && (r.ready ==> |r.readyPartitions| >= r.channel.numPartitions)
  }

  /** The replies come from pods of this round. */
  predicate AnswersInv(r: Round) {
    forall i :: 0 <= i < |r.answers| ==> r.answers[i].ip in r.probes
  }

  /** A pod was accepted, or is about to be, only with a reply of its own that was. */
  ghost predicate AcceptedInv(r: Round) {
    forall ip :: ip in r.probes && Passing(r.probes[ip]) ==> Passed(r, ip)
  }

  predicate Passing(p: Probe) {
    p.worker == Verified(true) || p.worker.Succeeding? || p.settlement.BySuccess?
  }

  ghost predicate Passed(r: Round, ip: IP) {
    exists i :: 0 <= i < |r.answers| && r.answers[i].ip == ip && Accepted(r.sub.uid, r.answers[i].reply)
  }

  /** The item of a pod that is not settled is dropped only when the pod's context is done. */
  predicate StillProbedInv(r: Round) {
    forall ip :: ip in r.probes && r.probes[ip].settlement.Pending? && r.probes[ip].worker.Dropped? ==>
      ContextDone(r, ip)
  }

  /** A worker that will still check readiness, or is about to call the callback. */
  predicate Carries(pc: WorkerPc) {
    || (pc.Verified? && pc.ok)
    || pc.Succeeding?
    || PastRelease(pc)
  }

  ghost predicate CarriedOrCalled(r: Round) {
    r.calls != [] || exists ip :: ip in r.probes && Carries(r.probes[ip].worker)
  }

  ghost predicate NotifyingOrCalled(r: Round) {
    r.calls != [] || exists ip :: ip in r.probes && r.probes[ip].worker.Notifying?
  }

  /** The partition set is what `checkReadiness` waits for. */
  predicate Complete(r: Round) {
    r.channel.numPartitions >= 1 && |r.readyPartitions| == r.channel.numPartitions
  }

  /** A complete partition set has a callback on its way, or behind it. */
  ghost predicate Attended(r: Round) {
    Complete(r) ==> CarriedOrCalled(r)
  }

  /** Without outside interference, every cancellation and every complete set has its callback. */
  ghost predicate WakeUpInv(r: Round) {
    && (!r.disturbed && r.cancelled ==> NotifyingOrCalled(r))
    && (!r.disturbed ==> Attended(r))
  }

  /**
   * The act loses the wake-up of a complete round: nobody has called and no other worker will, and
   * this one gives up, because its context is done or its pod was already written off.
   */
  ghost predicate Loses(r: Round, a: Act)
    requires CanAct(r, a)
  {
    && Complete(r)
    && r.calls == []
    && (forall jp :: jp in r.probes && jp != a.ip ==> !Carries(r.probes[jp].worker))
    && GivesUp(r, a)
  }

  /** The two branches in which a worker with an accepted reply goes no further. */
  predicate GivesUp(r: Round, a: Act)
    requires CanAct(r, a)
  {
    || (a.CheckContext? && r.probes[a.ip].worker.ok && ContextDone(r, a.ip))
    || (a.Decrement? && r.probes[a.ip].counter != 1)
  }

  ghost predicate Inv(r: Round) {
    && ProbesInv(r) && CountInv(r) && CallsInv(r) && EvidenceInv(r) && AnswersInv(r)
    && AcceptedInv(r) && StillProbedInv(r) && WakeUpInv(r)
  }

  lemma NewRoundInv(sub: Subscriber, channel: Channel, pods: set<IP>)
    ensures Inv(NewRound(sub, channel, pods))
  {
    assert DiscountedPods(NewRound(sub, channel, pods)) == {};
  }

  lemma SpawnedInv(r: Round, ip: IP, ipContext: nat)
    requires Inv(r) && ip in r.probedPods && ip !in r.probes
    ensures Inv(Spawned(r, ip, ipContext))
  {
    assert DiscountedPods(Spawned(r, ip, ipContext)) == DiscountedPods(r);
    SpawnedProbes(r, ip, ipContext);
    SpawnedCalls(r, ip, ipContext);
    SameCarriers(r, Spawned(r, ip, ipContext));
    SameReplies(r, Spawned(r, ip, ipContext));
  }

  lemma SpawnedProbes(r: Round, ip: IP, ipContext: nat)
    requires ProbesInv(r) && ip in r.probedPods && ip !in r.probes
    ensures ProbesInv(Spawned(r, ip, ipContext))
  {
  }

  lemma SpawnedCalls(r: Round, ip: IP, ipContext: nat)
    requires CallsInv(r) && ip !in r.probes
    ensures CallsInv(Spawned(r, ip, ipContext))
  {
    SameCallers(r, Spawned(r, ip, ipContext));
  }

  lemma ReadiedInv(r: Round)
    requires Inv(r)
    ensures Inv(Readied(r))
  {
    assert DiscountedPods(Readied(r)) == DiscountedPods(r);
    SameCallers(r, Readied(r));
    SameCarriers(r, Readied(r));
    SameReplies(r, Readied(r));
  }

  lemma AbandonedInv(r: Round)
    requires Inv(r)
    ensures Inv(Abandoned(r))
  {
    assert DiscountedPods(Abandoned(r)) == DiscountedPods(r);
    SameCallers(r, Abandoned(r));
    SameReplies(r, Abandoned(r));
  }

  /** No canceller reaches zero by a change that leaves existing probes and calls alone. */
  lemma SameCallers(r: Round, r': Round)
    requires CallsInv(r) && r'.calls == r.calls
    requires forall ip :: ip in r'.probes ==>
               if ip in r.probes then r'.probes[ip] == r.probes[ip] else r'.probes[ip].canceller.Blocked?
    ensures forall ip, jp :: ReachedZero(r', ip) && ReachedZero(r', jp) ==> ip == jp
  {
    forall ip | ReachedZero(r', ip) ensures ReachedZero(r, ip) {}
  }

  lemma SameReplies(r: Round, r': Round)
    requires AcceptedInv(r) && StillProbedInv(r)
    requires r'.answers == r.answers && r'.sub == r.sub && (r.cancelled ==> r'.cancelled)
    requires forall ip :: ip in r'.probes ==>
               if ip in r.probes then r'.probes[ip] == r.probes[ip]
               else r'.probes[ip].worker.Queued? && r'.probes[ip].settlement.Pending?
    ensures AcceptedInv(r') && StillProbedInv(r')
  {
    forall ip | ip in r'.probes && Passing(r'.probes[ip]) ensures Passed(r', ip) {
      StaysPassed(r, r', ip);
    }
  }

  lemma SameCarriers(r: Round, r': Round)
    requires r'.calls == r.calls
    requires forall ip :: ip in r.probes ==> ip in r'.probes && r'.probes[ip] == r.probes[ip]
    ensures CarriedOrCalled(r) ==> CarriedOrCalled(r')
    ensures NotifyingOrCalled(r) ==> NotifyingOrCalled(r')
  {
    if CarriedOrCalled(r) && r.calls == [] {
      var ip :| ip in r.probes && Carries(r.probes[ip].worker);
      assert Carries(r'.probes[ip].worker);
    }
    if NotifyingOrCalled(r) && r.calls == [] {
      var ip :| ip in r.probes && r.probes[ip].worker.Notifying?;
      assert r'.probes[ip].worker.Notifying?;
    }
  }

  lemma StepOwnProbe(r: Round, a: Act)
    requires CanAct(r, a) && ProbeInv(r.probes[a.ip])
    ensures ProbeInv(Perform(r, a).probes[a.ip])
  {
    match RoleOf(a)
    case Worker => WorkerProbe(r, a);
    case Joiner =>
    case Canceller => CancellerProbe(r, a);
  }

  lemma WorkerProbe(r: Round, a: Act)
    requires CanAct(r, a) && RoleOf(a).Worker? && ProbeInv(r.probes[a.ip])
    ensures ProbeInv(Perform(r, a).probes[a.ip])
  {
  }

  lemma CancellerProbe(r: Round, a: Act)
    requires CanAct(r, a) && RoleOf(a).Canceller? && ProbeInv(r.probes[a.ip])
    ensures ProbeInv(Perform(r, a).probes[a.ip])
  {
  }

  lemma StepOwnShared(r: Round, a: Act)
    requires ProbesInv(r) && CountInv(r) && CanAct(r, a)
    ensures SharedInv(Perform(r, a), Perform(r, a).probes[a.ip])
  {
    assert ProbeInv(r.probes[a.ip]) && SharedInv(r, r.probes[a.ip]);
    if a.DecrementTarget? { NotAllDiscounted(r, a.ip); }
  }

  /** What a step does to the fields the siblings share. */
  lemma StepFields(r: Round, a: Act)
    requires CanAct(r, a)
    ensures var r' := Perform(r, a);
            && r'.probes == r.probes[a.ip := r'.probes[a.ip]]
            && (r.ready ==> r'.ready)
            && (r.cancelled ==> r'.cancelled)
            && (r.disturbed ==> r'.disturbed)
            && r'.pendingCount == (if a.DecrementTarget? then r.pendingCount - 1 else r.pendingCount)
            && r'.probedPods == r.probedPods
  {
    match RoleOf(a)
    case Worker =>
    case Joiner =>
    case Canceller =>
  }

  lemma StepShared(r: Round, a: Act)
    requires ProbesInv(r) && CountInv(r) && CanAct(r, a)
    ensures r.pendingCount == 0 ==> Perform(r, a).pendingCount == 0
  {
    StepFields(r, a);
    if a.DecrementTarget? {
      assert ProbeInv(r.probes[a.ip]);
      NotAllDiscounted(r, a.ip);
    }
  }

  lemma StepProbes(r: Round, a: Act)
    requires ProbesInv(r) && CountInv(r) && CanAct(r, a)
    ensures ProbesInv(Perform(r, a))
  {
    StepOwnProbe(r, a);
    StepOwnShared(r, a);
    StepFields(r, a);
    StepShared(r, a);
  }

  /** A canceller that is about to decrement the target counter finds it positive. */
  lemma NotAllDiscounted(r: Round, ip: IP)
    requires ProbesInv(r) && CountInv(r)
    requires ip in r.probes && !Discounted(r.probes[ip])
    ensures r.pendingCount > 0
  {
    SubsetCardinality(DiscountedPods(r), r.probedPods - {ip});
  }

  lemma StepCount(r: Round, a: Act)
    requires CountInv(r) && CanAct(r, a) && ProbeInv(r.probes[a.ip])
    ensures CountInv(Perform(r, a))
  {
    StepFields(r, a);
    StepDiscounts(r, a);
    SameDiscounts(r, Perform(r, a), a.ip);
  }

  /** Only the decrement of the target counter changes whether a probe is discounted. */
  lemma StepDiscounts(r: Round, a: Act)
    requires CanAct(r, a) && ProbeInv(r.probes[a.ip])
    ensures Discounted(Perform(r, a).probes[a.ip]) <==> Discounted(r.probes[a.ip]) || a.DecrementTarget?
    ensures a.DecrementTarget? ==> !Discounted(r.probes[a.ip])
  {
    match RoleOf(a)
    case Worker => WorkerDiscounts(r, a);
    case Joiner =>
    case Canceller =>
  }

  lemma WorkerDiscounts(r: Round, a: Act)
    requires CanAct(r, a) && ProbeInv(r.probes[a.ip]) && RoleOf(a).Worker?
    ensures Discounted(Perform(r, a).probes[a.ip]) <==> Discounted(r.probes[a.ip])
  {
  }

  lemma SameDiscounts(r: Round, r': Round, ip: IP)
    requires ip in r.probes && ip in r'.probes && r'.probes == r.probes[ip := r'.probes[ip]]
    ensures Discounted(r'.probes[ip]) == Discounted(r.probes[ip]) ==> DiscountedPods(r') == DiscountedPods(r)
    ensures Discounted(r'.probes[ip]) && !Discounted(r.probes[ip]) ==>
              ip !in DiscountedPods(r) && DiscountedPods(r') == DiscountedPods(r) + {ip}
  {
  }

  /** The only act that brings a canceller to zero is its own decrement of a target counter of one. */
  lemma StepReachedZero(r: Round, a: Act, ip: IP)
    requires CanAct(r, a)
    requires ReachedZero(Perform(r, a), ip)
    ensures ReachedZero(r, ip) || (a == DecrementTarget(ip) && r.pendingCount == 1)
  {
  }

  lemma ZeroWhenReached(r: Round, ip: IP)
    requires ProbesInv(r) && CallsInv(r) && ReachedZero(r, ip)
    ensures r.pendingCount == 0
  {
    if ip in r.probes { assert SharedInv(r, r.probes[ip]); }
  }

  lemma StepUniqueZero(r: Round, a: Act, ip: IP, jp: IP)
    requires ProbesInv(r) && CallsInv(r) && CanAct(r, a)
    requires ReachedZero(Perform(r, a), ip) && ReachedZero(Perform(r, a), jp)
    ensures ip == jp
  {
    StepReachedZero(r, a, ip);
    StepReachedZero(r, a, jp);
    if ReachedZero(r, ip) { ZeroWhenReached(r, ip); }
    if ReachedZero(r, jp) { ZeroWhenReached(r, jp); }
  }

  lemma StepCalls(r: Round, a: Act)
    requires ProbesInv(r) && CountInv(r) && CallsInv(r) && CanAct(r, a)
    ensures CallsInv(Perform(r, a))
  {
    assert ProbeInv(r.probes[a.ip]) && SharedInv(r, r.probes[a.ip]);
    StepFields(r, a);
    StepShared(r, a);
    forall ip, jp | ReachedZero(Perform(r, a), ip) && ReachedZero(Perform(r, a), jp) ensures ip == jp {
      StepUniqueZero(r, a, ip, jp);
    }
  }

  lemma StepEvidence(r: Round, a: Act)
    requires EvidenceInv(r) && CanAct(r, a)
    ensures EvidenceInv(Perform(r, a))
  {
    var r' := Perform(r, a);
    if a.Answer? {
      assert r'.answers[..|r'.answers| - 1] == r.answers;
      SubsetCardinality(r.readyPartitions, r'.readyPartitions);
    } else {
      StepNoAnswer(r, a);
    }
  }

  /** Only a reply adds partitions, and only a check of readiness makes the round ready. */
  lemma StepNoAnswer(r: Round, a: Act)
    requires CanAct(r, a) && !a.Answer?
    ensures var r' := Perform(r, a);
            && r'.sub == r.sub && r'.channel == r.channel
            && r'.readyPartitions == r.readyPartitions && r'.answers == r.answers
            && (r'.ready ==> r.ready || |r.readyPartitions| == r.channel.numPartitions)
  {
    match RoleOf(a)
    case Worker =>
    case Joiner =>
    case Canceller =>
  }

  lemma StepAnswers(r: Round, a: Act)
    requires AnswersInv(r) && CanAct(r, a)
    ensures AnswersInv(Perform(r, a))
  {
  }

  lemma StepAccepted(r: Round, a: Act)
    requires AcceptedInv(r) && CanAct(r, a) && ProbeInv(r.probes[a.ip])
    ensures AcceptedInv(Perform(r, a))
  {
    var r' := Perform(r, a);
    StepFields(r, a);
    StepPassing(r, a);
    forall ip | ip in r'.probes && Passing(r'.probes[ip]) ensures Passed(r', ip) {
      if ip == a.ip && a.Answer? && !Passing(r.probes[ip]) {
        assert r'.answers[|r.answers|] == Answered(ip, a.reply);
      } else {
        assert Passing(r.probes[ip]);
        StaysPassed(r, r', ip);
      }
    }
  }

  lemma StaysPassed(r: Round, r': Round, ip: IP)
    requires Passed(r, ip) && r.answers <= r'.answers && r'.sub == r.sub
    ensures Passed(r', ip)
  {
    var i :| 0 <= i < |r.answers| && r.answers[i].ip == ip && Accepted(r.sub.uid, r.answers[i].reply);
    assert r'.answers[i] == r.answers[i];
  }

  lemma StepPassing(r: Round, a: Act)
    requires CanAct(r, a) && ProbeInv(r.probes[a.ip])
    ensures var r' := Perform(r, a);
            && r.answers <= r'.answers && r'.sub == r.sub
            && (Passing(r'.probes[a.ip]) && !Passing(r.probes[a.ip]) ==>
                  a.Answer? && Accepted(r.sub.uid, a.reply) && r'.answers == r.answers + [Answered(a.ip, a.reply)])
  {
    match RoleOf(a)
    case Worker =>
    case Joiner =>
    case Canceller =>
  }

  lemma StepStillProbed(r: Round, a: Act)
    requires StillProbedInv(r) && CanAct(r, a) && ProbeInv(r.probes[a.ip])
    ensures StillProbedInv(Perform(r, a))
  {
    StepFields(r, a);
    StepOwnStillProbed(r, a);
  }

  lemma StepOwnStillProbed(r: Round, a: Act)
    requires StillProbedInv(r) && CanAct(r, a) && ProbeInv(r.probes[a.ip])
    ensures var r' := Perform(r, a);
            r'.probes[a.ip].settlement.Pending? && r'.probes[a.ip].worker.Dropped? ==> ContextDone(r', a.ip)
  {
    match RoleOf(a)
    case Worker =>
    case Joiner =>
    case Canceller =>
  }

  /** A worker of a complete round loses what it carries only by calling, or when it gives up. */
  lemma StepCarries(r: Round, a: Act)
    requires CanAct(r, a) && Complete(r) && Carries(r.probes[a.ip].worker)
    ensures Carries(Perform(r, a).probes[a.ip].worker) || Perform(r, a).calls != [] || GivesUp(r, a)
  {
    match RoleOf(a)
    case Worker => WorkerCarries(r, a);
    case Joiner =>
    case Canceller =>
  }

  lemma WorkerCarries(r: Round, a: Act)
    requires CanAct(r, a) && Complete(r) && Carries(r.probes[a.ip].worker) && RoleOf(a).Worker?
    ensures Carries(Perform(r, a).probes[a.ip].worker) || Perform(r, a).calls != [] || GivesUp(r, a)
  {
  }

  lemma StepGivesUp(r: Round, a: Act)
    requires CanAct(r, a) && GivesUp(r, a)
    ensures Perform(r, a).probes[a.ip].worker.Dropped? && Perform(r, a).calls == r.calls
  {
  }

  /** A complete round stays attended exactly when the step does not lose its wake-up. */
  lemma StepAttended(r: Round, a: Act)
    requires CanAct(r, a) && Attended(r)
    ensures Attended(Perform(r, a)) <==> !Loses(r, a)
  {
    var r' := Perform(r, a);
    StepFields(r, a);
    StepNotifying(r, a);
    if Loses(r, a) {
      StepGivesUp(r, a);
      StepNoAnswer(r, a);
      assert Complete(r');
    } else if Complete(r') && r'.calls == [] {
      if !Complete(r) {
        StepCompletes(r, a);
        assert Carries(r'.probes[a.ip].worker);
      } else {
        StaysCarried(r, a);
      }
    }
  }

  lemma StaysCarried(r: Round, a: Act)
    requires CanAct(r, a) && Attended(r) && Complete(r) && !Loses(r, a)
    requires Perform(r, a).calls == [] && r.calls == []
    ensures CarriedOrCalled(Perform(r, a))
  {
    var r' := Perform(r, a);
    StepFields(r, a);
    var ip :| ip in r.probes && Carries(r.probes[ip].worker);
    if jp :| jp in r.probes && jp != a.ip && Carries(r.probes[jp].worker) {
      assert Carries(r'.probes[jp].worker);
    } else {
      assert ip == a.ip;
      StepCarries(r, a);
      assert Carries(r'.probes[ip].worker);
    }
  }

  /** Without outside interference no step loses the wake-up. */
  lemma UndisturbedNeverLoses(r: Round, a: Act)
    requires ProbesInv(r) && WakeUpInv(r) && CanAct(r, a) && !r.disturbed
    ensures !Loses(r, a)
  {
    assert ProbeInv(r.probes[a.ip]) && SharedInv(r, r.probes[a.ip]);
    assert GivesUp(r, a) ==> r.cancelled;
    if r.cancelled && r.calls == [] {
      var ip :| ip in r.probes && r.probes[ip].worker.Notifying?;
      assert Carries(r.probes[ip].worker);
    }
  }

  /** A worker that is notifying goes on or calls, and the target is only cancelled by a worker that notifies. */
  lemma StepNotifying(r: Round, a: Act)
    requires CanAct(r, a)
    ensures var r' := Perform(r, a);
            && (r.probes[a.ip].worker.Notifying? ==> r'.probes[a.ip].worker.Notifying? || r'.calls != [])
            && (r'.cancelled && !r.cancelled ==> r'.probes[a.ip].worker.Notifying?)
            && (r.calls != [] ==> r'.calls != [])
  {
  }

  lemma StepCancelled(r: Round, a: Act)
    requires WakeUpInv(r) && CanAct(r, a)
    requires !Perform(r, a).disturbed && Perform(r, a).cancelled
    ensures NotifyingOrCalled(Perform(r, a))
  {
    var r' := Perform(r, a);
    StepFields(r, a);
    StepNotifying(r, a);
    assert a.ip in r'.probes;
    if r.cancelled && r'.calls == [] {
      var ip :| ip in r.probes && r.probes[ip].worker.Notifying?;
      assert r'.probes[ip].worker.Notifying?;
    }
  }

  /** Partitions are only added by a reply whose worker carries them on. */
  lemma StepCompletes(r: Round, a: Act)
    requires CanAct(r, a)
    requires Complete(Perform(r, a)) && !Complete(r)
    ensures Carries(Perform(r, a).probes[a.ip].worker)
  {
    assert Perform(r, a).channel == r.channel;
    assert Perform(r, a).readyPartitions != r.readyPartitions;
    assert Lists(r.sub.uid, a.reply);
  }

  lemma StepWakeUp(r: Round, a: Act)
    requires ProbesInv(r) && WakeUpInv(r) && CanAct(r, a)
    ensures WakeUpInv(Perform(r, a))
  {
    var r' := Perform(r, a);
    StepFields(r, a);
    StepNotifying(r, a);
    if !r'.disturbed && r'.cancelled { StepCancelled(r, a); }
    if !r.disturbed {
      UndisturbedNeverLoses(r, a);
      StepAttended(r, a);
    }
  }

  lemma StepInv(r: Round, a: Act)
    requires Inv(r) && CanAct(r, a)
    ensures Inv(Perform(r, a))
  {
    StepProbes(r, a);
    assert ProbeInv(r.probes[a.ip]);
    StepCount(r, a);
    StepCalls(r, a);
    StepEvidence(r, a);
    StepAnswers(r, a);
    StepAccepted(r, a);
    StepStillProbed(r, a);
    StepWakeUp(r, a);
  }
}
