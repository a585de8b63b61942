/** What a reply to a probe does, in terms of the reply itself, in every run of the prober. */
module ProbeReplies {
  import opened Types
  import opened ProbeRound
  import opened ProberSystem
  import opened ProberTheorems
  import Invariant = ProbeRoundInvariant
  import Theorems = ProbeRoundTheorems

  /** The reply lets the pod pass: a 200 that lists the subscription, or a status nobody expects. */
  predicate Passes(uid: UID, reply: Reply) {
    && reply.Replied?
    && var response := reply.response;
       if response.status == 200 then response.body.Some? && uid in response.body.value
       else response.status != 404 && response.status != 503
  }

  /** The reply is a 200 that lists the partition for the subscription. */
  predicate Reports(uid: UID, reply: Reply, p: Partition) {
    && reply.Replied?
    && reply.response.status == 200
    && reply.response.body.Some?
    && uid in reply.response.body.value
    && p in reply.response.body.value[uid]
  }

  /** The verdict on a reply, case by case. */
  lemma VerdictExact(uid: UID, reply: Reply)
    ensures Accepted(uid, reply) <==> Passes(uid, reply)
    ensures reply.NoReply? ==> !Accepted(uid, reply)
    ensures reply.Replied? ==>
              var status, body := reply.response.status, reply.response.body;
              && (status == 200 && body.Some? && uid in body.value ==> Accepted(uid, reply))
              && (status == 200 && (body.None? || uid !in body.value) ==> !Accepted(uid, reply))
              && (status == 404 || status == 503 ==> !Accepted(uid, reply))
              && (status != 200 && status != 404 && status != 503 ==> Accepted(uid, reply))
  {
  }

  /** What a worker does when it looks at its context: go on if and only if that is live. */
  lemma CheckContextExact(r: Round, ip: IP)
    requires CanAct(r, CheckContext(ip))
    ensures var r' := Perform(r, CheckContext(ip));
            && ip in r'.probes
            && (r'.probes[ip].worker.Dropped? <==> r.cancelled || r.probes[ip].cancelled)
            && (!r.cancelled && !r.probes[ip].cancelled ==>
                  r'.probes[ip].worker == if r.probes[ip].worker.ok then Succeeding else Retrying)
  {
  }

  /** A worker goes on with the verdict on the reply it got. */
  lemma AnswerExact(r: Round, ip: IP, reply: Reply)
    requires CanAct(r, Answer(ip, reply))
    ensures var r' := Perform(r, Answer(ip, reply));
            && ip in r'.probes
            && r'.probes[ip].worker == Verified(Passes(r.sub.uid, reply))
            && r'.answers == r.answers + [Answered(ip, reply)]
            && forall p :: p in r'.readyPartitions <==> p in r.readyPartitions || Reports(r.sub.uid, reply, p)
  {
    VerdictExact(r.sub.uid, reply);
  }

  /** The goroutines that wait for the pod's context go on exactly when the target or the pod is cancelled. */
  lemma WaitersExact(r: Round, ip: IP)
    requires ip in r.probes
    ensures CanAct(r, Wake(ip)) <==> r.probes[ip].canceller.Blocked? && (r.cancelled || r.probes[ip].cancelled)
    ensures CanAct(r, JoinerLeave(ip)) <==> r.probes[ip].joiner && (r.cancelled || r.probes[ip].cancelled)
  {
  }

  /** In every run a round's ready partitions are exactly those that a reply to it reported. */
  lemma PartitionsExact(run: seq<Label>, t: nat, p: Partition)
    requires Exec(INIT, run).Some? && t < |Exec(INIT, run).value.rounds|
    ensures var r := Exec(INIT, run).value.rounds[t];
            p in r.readyPartitions <==>
            exists i :: 0 <= i < |r.answers| && Reports(r.sub.uid, r.answers[i].reply, p)
  {
    ReachableInv(run);
    var r := Exec(INIT, run).value.rounds[t];
    Theorems.NamedByAllMembers(r.sub.uid, r.answers, p);
    if i :| 0 <= i < |r.answers| && p in Named(r.sub.uid, r.answers[i].reply) {
      assert Reports(r.sub.uid, r.answers[i].reply, p);
    }
    if i :| 0 <= i < |r.answers| && Reports(r.sub.uid, r.answers[i].reply, p) {
      assert p in Named(r.sub.uid, r.answers[i].reply);
    }
  }

  /** The replies that a run delivers to the workers of a round, in order. */
  function RepliesTo(run: seq<Label>, t: nat): seq<Answered> {
    if run == [] then []
    else
      var l := run[|run| - 1];
      RepliesTo(run[..|run| - 1], t) +
      if l.Act? && l.t == t && l.act.Answer? then [Answered(l.act.ip, l.act.reply)] else []
  }

  /** The recorded replies are those of the run, none lost and none invented. */
  lemma {:induction false} AnswersAreReplies(run: seq<Label>, t: nat)
    requires Exec(INIT, run).Some?
    ensures var s := Exec(INIT, run).value;
            RepliesTo(run, t) == if t < |s.rounds| then s.rounds[t].answers else []
  {
    if run != [] {
      var front, l := run[..|run| - 1], run[|run| - 1];
      AnswersAreReplies(front, t);
      LabelAnswers(Exec(INIT, front).value, l, t);
    }
  }

  lemma LabelAnswers(s: Sys, l: Label, t: nat)
    requires Enabled(s, l)
    ensures var s' := Apply(s, l);
            && |s.rounds| <= |s'.rounds|
            && (t < |s.rounds| ==>
                  s'.rounds[t].answers ==
                  s.rounds[t].answers +
                  if l.Act? && l.t == t && l.act.Answer? then [Answered(l.act.ip, l.act.reply)] else [])
            && (|s.rounds| <= t < |s'.rounds| ==> s'.rounds[t].answers == [])
            && (t >= |s.rounds| ==> !(l.Act? && l.t == t))
  {
    StepEffect(s, l);
    if l.Act? && l.t == t && !l.act.Answer? {
      Invariant.StepNoAnswer(s.rounds[t], l.act);
    }
  }

  /** In every run a pod that was settled by success got a reply that lets it pass. */
  lemma SuccessIsWitnessed(run: seq<Label>, t: nat, ip: IP)
    requires Exec(INIT, run).Some? && t < |Exec(INIT, run).value.rounds|
    requires var r := Exec(INIT, run).value.rounds[t];
             ip in r.probes && r.probes[ip].settlement.BySuccess?
    ensures var r := Exec(INIT, run).value.rounds[t];
            exists i :: 0 <= i < |r.answers| && r.answers[i].ip == ip && Passes(r.sub.uid, r.answers[i].reply)
  {
    ReachableInv(run);
    var r := Exec(INIT, run).value.rounds[t];
    assert Invariant.Passing(r.probes[ip]);
    var i :| 0 <= i < |r.answers| && r.answers[i].ip == ip && Accepted(r.sub.uid, r.answers[i].reply);
    VerdictExact(r.sub.uid, r.answers[i].reply);
  }

  /**
   * In every run a pod that is neither settled nor cancelled is still being probed: its item is not
   * dropped, and its worker has a next operation.
   */
  lemma PendingIsProbed(run: seq<Label>, t: nat, ip: IP) returns (a: ProbeRound.Act)
    requires Exec(INIT, run).Some? && t < |Exec(INIT, run).value.rounds|
    requires var r := Exec(INIT, run).value.rounds[t];
             ip in r.probes && r.probes[ip].settlement.Pending? && !r.cancelled && !r.probes[ip].cancelled
    ensures var s := Exec(INIT, run).value;
            && !s.rounds[t].probes[ip].worker.Dropped?
            && a.ip == ip && RoleOf(a).Worker? && Enabled(s, Act(t, a))
  {
    ReachableInv(run);
    var p := Exec(INIT, run).value.rounds[t].probes[ip];
    assert Invariant.ProbeInv(p);
    match p.worker
    case Queued => a := Dequeue(ip);
    case Probing => a := Answer(ip, NoReply);
    case Verified(_) => a := CheckContext(ip);
    case Retrying => a := Requeue(ip);
    case _ => a := Decrement(ip);
  }

  /**
   * Cancelling a pod reaches its probes: in every run a probe whose IP context is cancelled is cancelled
   * itself, or the goroutine that joins the contexts can cancel it, and only then can.
   */
  lemma JoinerFires(run: seq<Label>, t: nat, ip: IP)
    requires Exec(INIT, run).Some? && t < |Exec(INIT, run).value.rounds|
    requires ip in Exec(INIT, run).value.rounds[t].probes
    ensures var s := Exec(INIT, run).value;
            var p := s.rounds[t].probes[ip];
            && p.ipContext < |s.contexts|
            && (Enabled(s, Act(t, JoinerFire(ip))) <==> p.joiner && s.contexts[p.ipContext].cancelled)
            && (s.contexts[p.ipContext].cancelled && !s.rounds[t].cancelled && !p.cancelled ==> p.joiner)
  {
    var s := Exec(INIT, run).value;
    WatchesContext(run, t, ip);
    FireExact(s, t, ip);
  }

  lemma WatchesContext(run: seq<Label>, t: nat, ip: IP)
    requires Exec(INIT, run).Some? && t < |Exec(INIT, run).value.rounds|
    requires ip in Exec(INIT, run).value.rounds[t].probes
    ensures var s := Exec(INIT, run).value;
            && s.rounds[t].probes[ip].ipContext < |s.contexts|
            && (!s.rounds[t].cancelled && !s.rounds[t].probes[ip].cancelled ==> s.rounds[t].probes[ip].joiner)
  {
    ReachableInv(run);
    var r := Exec(INIT, run).value.rounds[t];
    assert Invariant.SharedInv(r, r.probes[ip]);
  }

  lemma FireExact(s: Sys, t: nat, ip: IP)
    requires t < |s.rounds| && ip in s.rounds[t].probes && s.rounds[t].probes[ip].ipContext < |s.contexts|
    ensures Enabled(s, Act(t, JoinerFire(ip))) <==>
            s.rounds[t].probes[ip].joiner && s.contexts[s.rounds[t].probes[ip].ipContext].cancelled
  {
  }

  /** When it fires, the probe is cancelled. */
  lemma JoinerFireCancels(s: Sys, t: nat, ip: IP)
    requires Enabled(s, Act(t, JoinerFire(ip)))
    ensures var s' := Apply(s, Act(t, JoinerFire(ip)));
            ip in s'.rounds[t].probes && s'.rounds[t].probes[ip].cancelled
  {
  }
}
