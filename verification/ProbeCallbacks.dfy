/** Exactly when `readyCallback` is called, on the path of success and on that of cancellation. */
module ProbeCallbacks {
  import opened Types
  import opened ProbeRound
  import opened ProberSystem
  import opened ProberTheorems
  import Invariant = ProbeRoundInvariant

  /** `checkReadiness` finds the round ready: it was found so before, or has exactly all partitions. */
  predicate FindsReady(r: Round) {
    r.ready || |r.readyPartitions| == r.channel.numPartitions
  }

  /** The last successful probe of a pod goes on to the callback exactly when it finds the round ready. */
  lemma CheckReadyExact(r: Round, ip: IP)
    requires CanAct(r, CheckReady(ip))
    ensures var r' := Perform(r, CheckReady(ip));
            && ip in r'.probes
            && (r'.ready <==> r.ready || |r.readyPartitions| == r.channel.numPartitions)
            && r'.probes[ip].worker == if r'.ready then Stopping else Dropped
  {
  }

  /** The last write-off goes on to the callback exactly when it finds the round ready. */
  lemma ReviewExact(r: Round, ip: IP)
    requires CanAct(r, Review(ip))
    ensures var r' := Perform(r, Review(ip));
            && ip in r'.probes
            && (r'.ready <==> r.ready || |r.readyPartitions| == r.channel.numPartitions)
            && r'.probes[ip].canceller == if r'.ready then Calling else Ended
  {
  }

  /** The write-off that brings the target counter to zero reviews the round, and no other does. */
  lemma DecrementTargetExact(r: Round, ip: IP)
    requires CanAct(r, DecrementTarget(ip))
    ensures var r' := Perform(r, DecrementTarget(ip));
            && ip in r'.probes
            && r'.pendingCount == r.pendingCount - 1
            && r'.probes[ip].canceller == if r'.pendingCount == 0 then Reviewing else Ended
  {
  }

  /** Who the goroutine is that has called, or will. */
  predicate Committed(r: Round, c: Caller) {
    || c in r.calls
    || (c.ip in r.probes &&
        match c
        case ByWorker(ip) => r.probes[ip].worker.Stopping? || r.probes[ip].worker.Notifying?
        case ByCanceller(ip) => r.probes[ip].canceller.Calling?)
  }

  /** The operation with which the goroutine asks whether the round is ready. */
  function Asks(c: Caller): ProbeRound.Act {
    match c
    case ByWorker(ip) => CheckReady(ip)
    case ByCanceller(ip) => Review(ip)
  }

  /** A goroutine commits itself to the callback only by asking, and exactly when it finds the round ready. */
  lemma StepCommitted(r: Round, a: ProbeRound.Act, c: Caller)
    requires CanAct(r, a)
    ensures Committed(Perform(r, a), c) <==> Committed(r, c) || (a == Asks(c) && FindsReady(r))
  {
    if a.ip == c.ip {
      match RoleOf(a)
      case Worker => WorkerCommitted(r, a, c);
      case Joiner =>
      case Canceller => CancellerCommitted(r, a, c);
    } else {
      Invariant.StepFields(r, a);
      OtherCalls(r, a, c);
    }
  }

  lemma WorkerCommitted(r: Round, a: ProbeRound.Act, c: Caller)
    requires CanAct(r, a) && a.ip == c.ip && RoleOf(a).Worker?
    ensures Committed(Perform(r, a), c) <==> Committed(r, c) || (a == Asks(c) && FindsReady(r))
  {
  }

  lemma CancellerCommitted(r: Round, a: ProbeRound.Act, c: Caller)
    requires CanAct(r, a) && a.ip == c.ip && RoleOf(a).Canceller?
    ensures Committed(Perform(r, a), c) <==> Committed(r, c) || (a == Asks(c) && FindsReady(r))
  {
  }

  lemma OtherCalls(r: Round, a: ProbeRound.Act, c: Caller)
    requires CanAct(r, a) && a.ip != c.ip
    ensures c in Perform(r, a).calls <==> c in r.calls
  {
  }

  /** In the run the goroutine has asked, and found the round ready. */
  ghost predicate FoundReady(run: seq<Label>, t: nat, c: Caller)
    requires Exec(INIT, run).Some?
  {
    run != [] &&
    var front, l := run[..|run| - 1], run[|run| - 1];
    || FoundReady(front, t, c)
    || (l == Act(t, Asks(c)) && FindsReady(Exec(INIT, front).value.rounds[t]))
  }

  /** The goroutine will do nothing any more. */
  predicate EndedIn(s: Sys, t: nat, c: Caller) {
    && t < |s.rounds|
    && c.ip in s.rounds[t].probes
    && match c
       case ByWorker(ip) => s.rounds[t].probes[ip].worker.Dropped?
       case ByCanceller(ip) => s.rounds[t].probes[ip].canceller.Ended?
  }

  /**
   * Exactly when the callback is called. In every run a goroutine has called, or is about to, if and only
   * if it has asked and found the round ready; so when it has ended, it has called if and only if it had.
   */
  lemma {:induction false} CalledIffFoundReady(run: seq<Label>, t: nat, c: Caller)
    requires Exec(INIT, run).Some?
    ensures var s := Exec(INIT, run).value;
            if t < |s.rounds| then Committed(s.rounds[t], c) <==> FoundReady(run, t, c) else !FoundReady(run, t, c)
    ensures EndedIn(Exec(INIT, run).value, t, c) ==>
              (c in Exec(INIT, run).value.rounds[t].calls <==> FoundReady(run, t, c))
  {
    if run != [] {
      var front, l := run[..|run| - 1], run[|run| - 1];
      CalledIffFoundReady(front, t, c);
      LabelCommitted(Exec(INIT, front).value, l, t, c);
    }
  }

  lemma LabelCommitted(s: Sys, l: Label, t: nat, c: Caller)
    requires Enabled(s, l)
    ensures var s' := Apply(s, l);
            && |s.rounds| <= |s'.rounds|
            && (t < |s.rounds| ==>
                  (Committed(s'.rounds[t], c) <==>
                   Committed(s.rounds[t], c) || (l == Act(t, Asks(c)) && FindsReady(s.rounds[t]))))
            && (|s.rounds| <= t < |s'.rounds| ==> !Committed(s'.rounds[t], c))
            && (t >= |s.rounds| ==> l != Act(t, Asks(c)))
  {
    StepEffect(s, l);
    if l.Act? && l.t == t {
      StepCommitted(s.rounds[t], l.act, c);
    } else if t < |s.rounds| {
      OtherLabelCommitted(s, l, t, c);
    }
  }

  lemma OtherLabelCommitted(s: Sys, l: Label, t: nat, c: Caller)
    requires Enabled(s, l) && t < |s.rounds| && !(l.Act? && l.t == t)
    ensures Committed(Apply(s, l).rounds[t], c) <==> Committed(s.rounds[t], c)
  {
    if c.ip in s.rounds[t].probes {
      OtherLabelLeaves(s, l, t, c.ip);
    }
  }

  // The last write-off of a complete round

  /** Whoever brought the target counter to zero is on its way to the callback, or has called. */
  ghost predicate LastOneCalls(r: Round) {
    r.pendingCount == 0 ==> exists ip :: ip in r.probedPods && Calls(r, ip)
  }

  predicate Calls(r: Round, ip: IP) {
    || (ip in r.probes && r.probes[ip].canceller.Reviewing?)
    || Committed(r, ByCanceller(ip))
  }

  lemma StepLastOneCalls(r: Round, a: ProbeRound.Act)
    requires CanAct(r, a) && r.probes.Keys <= r.probedPods
    requires FindsReady(r) && LastOneCalls(r)
    ensures LastOneCalls(Perform(r, a))
  {
    var r' := Perform(r, a);
    Invariant.StepFields(r, a);
    if r'.pendingCount == 0 {
      if a.DecrementTarget? {
        assert Calls(r', a.ip);
      } else {
        var ip :| ip in r.probedPods && Calls(r, ip);
        StaysCalling(r, a, ip);
      }
    }
  }

  lemma StaysCalling(r: Round, a: ProbeRound.Act, ip: IP)
    requires CanAct(r, a) && FindsReady(r) && Calls(r, ip)
    ensures Calls(Perform(r, a), ip)
  {
    StepCommitted(r, a, ByCanceller(ip));
    Invariant.StepFields(r, a);
    if !Committed(r, ByCanceller(ip)) && a.ip == ip && a != Review(ip) {
      StaysReviewing(r, a);
    }
  }

  lemma StaysReviewing(r: Round, a: ProbeRound.Act)
    requires CanAct(r, a) && r.probes[a.ip].canceller.Reviewing? && !a.Review?
    ensures Perform(r, a).probes[a.ip].canceller.Reviewing?
  {
    match RoleOf(a)
    case Worker =>
    case Joiner =>
    case Canceller =>
  }

  lemma LabelLastOneCalls(s: Sys, l: Label, t: nat)
    requires Enabled(s, l) && t < |s.rounds| && s.rounds[t].probes.Keys <= s.rounds[t].probedPods
    requires FindsReady(s.rounds[t]) && LastOneCalls(s.rounds[t])
    ensures LastOneCalls(Apply(s, l).rounds[t])
  {
    if l.Act? && l.t == t {
      StepLastOneCalls(s.rounds[t], l.act);
    } else {
      var r, r' := s.rounds[t], Apply(s, l).rounds[t];
      assert r'.pendingCount == r.pendingCount && r'.probedPods == r.probedPods;
      if r.pendingCount == 0 {
        var ip :| ip in r.probedPods && Calls(r, ip);
        OtherLabelCommitted(s, l, t, ByCanceller(ip));
        if ip in r.probes { OtherLabelLeaves(s, l, t, ip); }
        assert Calls(r', ip);
      }
    }
  }

  /** From a point where the set is complete to one where it is the same, it is complete throughout. */
  lemma {:induction false} CompleteThroughout(run: seq<Label>, rest: seq<Label>, t: nat)
    requires Exec(INIT, run).Some? && t < |Exec(INIT, run).value.rounds|
    requires Exec(Exec(INIT, run).value, rest).Some?
    ensures var s, s' := Exec(INIT, run).value, Exec(Exec(INIT, run).value, rest).value;
            && t < |s'.rounds| && Evolves(s.rounds[t], s'.rounds[t])
            && |s.rounds[t].readyPartitions| <= |s'.rounds[t].readyPartitions|
  {
    var s := Exec(INIT, run).value;
    if rest != [] {
      var front, l := rest[..|rest| - 1], rest[|rest| - 1];
      CompleteThroughout(run, front, t);
      var before := Exec(s, front).value;
      StepEffect(before, l);
      assert Evolves(before.rounds[t], Exec(s, rest).value.rounds[t]);
    }
    SubsetCardinality(s.rounds[t].readyPartitions, Exec(s, rest).value.rounds[t].readyPartitions);
  }

  lemma {:induction false} LastOneCallsAtEnd(run: seq<Label>, rest: seq<Label>, t: nat)
    requires Exec(INIT, run).Some? && t < |Exec(INIT, run).value.rounds|
    requires Exec(Exec(INIT, run).value, rest).Some?
    requires var r, r' := Exec(INIT, run).value.rounds[t], Exec(Exec(INIT, run).value, rest).value.rounds;
             && r.pendingCount > 0
             && |r.readyPartitions| == r.channel.numPartitions
             && t < |r'| && |r'[t].readyPartitions| == r.channel.numPartitions
    ensures LastOneCalls(Exec(Exec(INIT, run).value, rest).value.rounds[t])
  {
    var s := Exec(INIT, run).value;
    if rest != [] {
      var front, l := rest[..|rest| - 1], rest[|rest| - 1];
      var before := Exec(s, front).value;
      CompleteThroughout(run, front, t);
      StepEffect(before, l);
      assert Evolves(before.rounds[t], Exec(s, rest).value.rounds[t]);
      SubsetCardinality(before.rounds[t].readyPartitions, Exec(s, rest).value.rounds[t].readyPartitions);
      LastOneCallsAtEnd(run, front, t);
      ExecConcat(INIT, run, front);
      ReachableInv(run + front);
      LabelLastOneCalls(before, l, t);
    }
  }

  /**
   * The last write-off calls back. When the set of a round was complete before the last of its pods was
   * written off, no partition beyond it was named until its goroutines were through, and all of its pods
   * are written off, then one of its cancellation goroutines has called, and it is the only caller.
   */
  lemma LastWriteOffCalls(run: seq<Label>, rest: seq<Label>, t: nat) returns (ip: IP)
    requires Exec(INIT, run).Some? && t < |Exec(INIT, run).value.rounds|
    requires Exec(Exec(INIT, run).value, rest).Some?
    requires var r, rounds := Exec(INIT, run).value.rounds[t], Exec(Exec(INIT, run).value, rest).value.rounds;
             && r.pendingCount > 0
             && |r.readyPartitions| == r.channel.numPartitions
             && t < |rounds| && |rounds[t].readyPartitions| == r.channel.numPartitions
             && rounds[t].pendingCount == 0
             && forall jp :: jp in rounds[t].probes ==> rounds[t].probes[jp].canceller.Ended?
    ensures Exec(Exec(INIT, run).value, rest).value.rounds[t].calls == [ByCanceller(ip)]
  {
    LastOneCallsAtEnd(run, rest, t);
    var r' := Exec(Exec(INIT, run).value, rest).value.rounds[t];
    ip :| ip in r'.probedPods && Calls(r', ip);
    ExecConcat(INIT, run, rest);
    ExactAccounting(run + rest, t);
  }

  // The record of callbacks

  /** The callbacks that a run makes for a round, in order. */
  function CallbacksOf(run: seq<Label>, t: nat): seq<Caller> {
    if run == [] then []
    else
      var l := run[|run| - 1];
      CallbacksOf(run[..|run| - 1], t) +
      if l.Act? && l.t == t && l.act.Notify? then [ByWorker(l.act.ip)]
      else if l.Act? && l.t == t && l.act.Call? then [ByCanceller(l.act.ip)]
      else []
  }

  /** The recorded callbacks are those of the run, none lost and none invented. */
  lemma {:induction false} CallsAreCallbacks(run: seq<Label>, t: nat)
    requires Exec(INIT, run).Some?
    ensures var s := Exec(INIT, run).value;
            CallbacksOf(run, t) == if t < |s.rounds| then s.rounds[t].calls else []
  {
    if run != [] {
      var front, l := run[..|run| - 1], run[|run| - 1];
      CallsAreCallbacks(front, t);
      LabelCalls(Exec(INIT, front).value, l, t);
    }
  }

  lemma LabelCalls(s: Sys, l: Label, t: nat)
    requires Enabled(s, l)
    ensures var s' := Apply(s, l);
            && |s.rounds| <= |s'.rounds|
            && (t < |s.rounds| ==>
                  s'.rounds[t].calls ==
                  s.rounds[t].calls +
                  if l.Act? && l.t == t && l.act.Notify? then [ByWorker(l.act.ip)]
                  else if l.Act? && l.t == t && l.act.Call? then [ByCanceller(l.act.ip)]
                  else [])
            && (|s.rounds| <= t < |s'.rounds| ==> s'.rounds[t].calls == [])
            && (t >= |s.rounds| ==> !(l.Act? && l.t == t))
  {
    StepEffect(s, l);
    if l.Act? && l.t == t {
      StepCalls(s.rounds[t], l.act);
    }
  }

  lemma StepCalls(r: Round, a: ProbeRound.Act)
    requires CanAct(r, a)
    ensures Perform(r, a).calls ==
            r.calls + if a.Notify? then [ByWorker(a.ip)] else if a.Call? then [ByCanceller(a.ip)] else []
  {
    match RoleOf(a)
    case Worker =>
    case Joiner =>
    case Canceller =>
  }
}
