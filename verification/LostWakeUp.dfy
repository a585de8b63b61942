/**
 * A run in which the cancellation of a pod loses the wake-up of a complete round. It needs a caller of
 * `CancelPodProbing`, which the prober's interface offers but this repository never calls: its
 * controller answers pod events with `RefreshPodProbing`.
 */
module LostWakeUp {
  import opened Types
  import opened ProbeRound
  import opened ProberSystem
  import opened ProberTheorems
  import Invariant = ProbeRoundInvariant
  import Theorems = ProbeRoundTheorems

  /** Two pods are being probed for a channel with one partition; nothing has happened yet. */
  lemma TwoPodRound(a: IP, b: IP, sub: Subscriber, ref: ChannelRef) returns (run: seq<Label>, s: Sys)
    requires a != b
    ensures Exec(INIT, run) == Some(s) && s.building == {} && s.targetStates == map[sub.uid := 0]
    ensures |s.rounds| == 1 && s.rounds[0].sub == sub && s.rounds[0].channel == Channel(ref, 1)
    ensures s.rounds[0].probes == map[a := Probe(0, 1, false, Queued, true, Blocked, Pending),
                                      b := Probe(1, 1, false, Queued, true, Blocked, Pending)]
    ensures s.rounds[0].pendingCount == 2 && s.rounds[0].readyPartitions == {} && s.rounds[0].calls == []
    ensures !s.rounds[0].ready && !s.rounds[0].cancelled
    ensures s.podContexts == map[a := 0, b := 1] && s.contexts == [Context(a, false), Context(b, false)]
  {
    s := INIT;
    run := [];
    run, s := Extend(run, s, Build(sub, Channel(ref, 1), {a, b}));
    run, s := Extend(run, s, Spawn(0, a));
    run, s := Extend(run, s, Spawn(0, b));
    run, s := Extend(run, s, Register(0));
    assert |{a, b}| == 2;
  }

  /** One more act of round 0, with the round it yields. */
  lemma ExtendAct(run: seq<Label>, s: Sys, r: Round, a: ProbeRound.Act)
    returns (run': seq<Label>, s': Sys, r': Round)
    requires Exec(INIT, run) == Some(s) && s.rounds == [r] && Enabled(s, Act(0, a))
    ensures Exec(INIT, run') == Some(s') && r' == Perform(r, a) && s' == s.(rounds := [r'])
  {
    run', s' := Extend(run, s, Act(0, a));
    r' := Perform(r, a);
  }

  /** The work item of a pod is dequeued and answered. */
  lemma ExtendAnswer(run: seq<Label>, s: Sys, r: Round, ip: IP, reply: Reply)
    returns (run': seq<Label>, s': Sys, r': Round)
    requires Exec(INIT, run) == Some(s) && s.rounds == [r]
    requires ip in r.probes && r.probes[ip].worker.Queued?
    ensures Exec(INIT, run') == Some(s') && s' == s.(rounds := [r'])
    ensures r' == With(r, ip, r.probes[ip].(worker := Verified(Accepted(r.sub.uid, reply))))
                  .(answers := r.answers + [Answered(ip, reply)],
                    readyPartitions := r.readyPartitions + Named(r.sub.uid, reply))
  {
    run', s', r' := ExtendAct(run, s, r, Dequeue(ip));
    run', s', r' := ExtendAct(run', s', r', Answer(ip, reply));
    assert r'.probes == r.probes[ip := r.probes[ip].(worker := Verified(Accepted(r.sub.uid, reply)))];
  }

  /** An accepted reply settles the probe, which does not make the round ready. */
  lemma ExtendSuccess(run: seq<Label>, s: Sys, r: Round, ip: IP)
    returns (run': seq<Label>, s': Sys, r': Round)
    requires Exec(INIT, run) == Some(s) && s.rounds == [r]
    requires ip in r.probes && r.probes[ip].worker == Verified(true) && r.probes[ip].counter == 1
    requires !ContextDone(r, ip) && !r.ready && |r.readyPartitions| != r.channel.numPartitions
    ensures Exec(INIT, run') == Some(s') && s' == s.(rounds := [r'])
    ensures r' == With(r, ip, r.probes[ip].(counter := 0, cancelled := true, worker := Dropped, settlement := BySuccess))
  {
    run', s', r' := ExtendDecrement(run, s, r, ip);
    var p := r'.probes[ip];
    run', s', r' := ExtendRelease(run', s', r', ip);
    WithTwice(r, ip, p, p.(cancelled := true, worker := Dropped));
  }

  lemma ExtendRelease(run: seq<Label>, s: Sys, r: Round, ip: IP)
    returns (run': seq<Label>, s': Sys, r': Round)
    requires Exec(INIT, run) == Some(s) && s.rounds == [r]
    requires ip in r.probes && r.probes[ip].worker.Releasing?
    requires !r.ready && |r.readyPartitions| != r.channel.numPartitions
    ensures Exec(INIT, run') == Some(s') && s' == s.(rounds := [r'])
    ensures r' == With(r, ip, r.probes[ip].(cancelled := true, worker := Dropped))
  {
    run', s', r' := ExtendAct(run, s, r, ReleasePod(ip));
    var p := r'.probes[ip];
    run', s', r' := ExtendAct(run', s', r', CheckReady(ip));
    WithTwice(r, ip, p, p.(worker := Dropped));
  }

  lemma WithTwice(r: Round, ip: IP, p: Probe, q: Probe)
    ensures With(With(r, ip, p), ip, q) == With(r, ip, q)
  {
    assert r.probes[ip := p][ip := q] == r.probes[ip := q];
  }

  lemma ExtendDecrement(run: seq<Label>, s: Sys, r: Round, ip: IP)
    returns (run': seq<Label>, s': Sys, r': Round)
    requires Exec(INIT, run) == Some(s) && s.rounds == [r]
    requires ip in r.probes && r.probes[ip].worker == Verified(true) && r.probes[ip].counter == 1
    requires !ContextDone(r, ip)
    ensures Exec(INIT, run') == Some(s') && s' == s.(rounds := [r'])
    ensures r' == With(r, ip, r.probes[ip].(counter := 0, worker := Releasing, settlement := BySuccess))
  {
    run', s', r' := ExtendAct(run, s, r, CheckContext(ip));
    var p := r'.probes[ip];
    run', s', r' := ExtendAct(run', s', r', Decrement(ip));
    WithTwice(r, ip, p, p.(counter := 0, worker := Releasing, settlement := BySuccess));
  }

  lemma ExtendWake(run: seq<Label>, s: Sys, r: Round, ip: IP)
    returns (run': seq<Label>, s': Sys, r': Round)
    requires Exec(INIT, run) == Some(s) && s.rounds == [r]
    requires ip in r.probes && r.probes[ip].cancelled
    requires r.probes[ip].joiner && r.probes[ip].canceller.Blocked?
    ensures Exec(INIT, run') == Some(s') && s' == s.(rounds := [r'])
    ensures r' == With(r, ip, r.probes[ip].(joiner := false, canceller := Loading))
  {
    run', s', r' := ExtendAct(run, s, r, JoinerLeave(ip));
    var p := r'.probes[ip];
    run', s', r' := ExtendAct(run', s', r', Wake(ip));
    WithTwice(r, ip, p, p.(canceller := Loading));
  }

  /** The two goroutines of a probe that succeeded leave without doing anything. */
  lemma ExtendIdleEnd(run: seq<Label>, s: Sys, r: Round, ip: IP)
    returns (run': seq<Label>, s': Sys, r': Round)
    requires Exec(INIT, run) == Some(s) && s.rounds == [r]
    requires ip in r.probes && r.probes[ip].cancelled && r.probes[ip].counter == 0
    requires r.probes[ip].joiner && r.probes[ip].canceller.Blocked?
    ensures Exec(INIT, run') == Some(s') && s' == s.(rounds := [r'])
    ensures r' == With(r, ip, r.probes[ip].(joiner := false, canceller := Ended))
  {
    run', s', r' := ExtendWake(run, s, r, ip);
    var p := r'.probes[ip];
    run', s', r' := ExtendAct(run', s', r', Load(ip));
    WithTwice(r, ip, p, p.(canceller := Ended));
  }

  /** The IP's context is cancelled, and its probe finds out before its worker looks at the context. */
  lemma ExtendPodCancelled(run: seq<Label>, s: Sys, r: Round, ip: IP)
    returns (run': seq<Label>, s': Sys, r': Round)
    requires Exec(INIT, run) == Some(s) && s.rounds == [r]
    requires ip in r.probes && r.probes[ip].ipContext == 0 && r.probes[ip].joiner && r.probes[ip].worker.Verified?
    requires ip in s.podContexts && s.podContexts[ip] == 0 && |s.contexts| > 0
    ensures Exec(INIT, run') == Some(s') && s'.rounds == [r'] && s'.targetStates == s.targetStates
    ensures r' == With(r, ip, r.probes[ip].(cancelled := true, joiner := false, worker := Dropped))
                  .(disturbed := true)
  {
    run', s' := Extend(run, s, CancelPod(ip));
    run', s', r' := ExtendAct(run', s', r, JoinerFire(ip));
    run', s', r' := ExtendAct(run', s', r', CheckContext(ip));
    assert r'.probes == r.probes[ip := r.probes[ip].(cancelled := true, joiner := false, worker := Dropped)];
  }

  /** The cancellation goroutine writes the pod off, and it is not the last one. */
  lemma ExtendWriteOff(run: seq<Label>, s: Sys, r: Round, ip: IP)
    returns (run': seq<Label>, s': Sys, r': Round)
    requires Exec(INIT, run) == Some(s) && s.rounds == [r]
    requires ip in r.probes && r.probes[ip].cancelled && r.probes[ip].counter == 1
    requires r.probes[ip].canceller.Blocked? && r.pendingCount == 2
    ensures Exec(INIT, run') == Some(s') && s' == s.(rounds := [r'])
    ensures r' == With(r, ip, r.probes[ip].(counter := 0, canceller := Ended, settlement := ByCancellation))
                  .(pendingCount := 1)
  {
    run', s', r' := ExtendSwap(run, s, r, ip);
    run', s', r' := ExtendAct(run', s', r', DecrementTarget(ip));
    assert r'.probes == r.probes[ip := r.probes[ip].(counter := 0, canceller := Ended, settlement := ByCancellation)];
  }

  lemma ExtendLoad(run: seq<Label>, s: Sys, r: Round, ip: IP)
    returns (run': seq<Label>, s': Sys, r': Round)
    requires Exec(INIT, run) == Some(s) && s.rounds == [r]
    requires ip in r.probes && r.probes[ip].cancelled && r.probes[ip].counter == 1
    requires r.probes[ip].canceller.Blocked?
    ensures Exec(INIT, run') == Some(s') && s' == s.(rounds := [r'])
    ensures r' == With(r, ip, r.probes[ip].(canceller := Swapping(1)))
  {
    run', s', r' := ExtendAct(run, s, r, Wake(ip));
    var p := r'.probes[ip];
    run', s', r' := ExtendAct(run', s', r', Load(ip));
    WithTwice(r, ip, p, p.(canceller := Swapping(1)));
  }

  lemma ExtendSwap(run: seq<Label>, s: Sys, r: Round, ip: IP)
    returns (run': seq<Label>, s': Sys, r': Round)
    requires Exec(INIT, run) == Some(s) && s.rounds == [r]
    requires ip in r.probes && r.probes[ip].cancelled && r.probes[ip].counter == 1
    requires r.probes[ip].canceller.Blocked?
    ensures Exec(INIT, run') == Some(s') && s' == s.(rounds := [r'])
    ensures r' == With(r, ip, r.probes[ip].(counter := 0, canceller := Decrementing, settlement := ByCancellation))
  {
    run', s', r' := ExtendLoad(run, s, r, ip);
    var p := r'.probes[ip];
    run', s', r' := ExtendAct(run', s', r', Swap(ip));
    WithTwice(r, ip, p, p.(counter := 0, canceller := Decrementing, settlement := ByCancellation));
  }

  /** One pod succeeds with an unexpected status, which names no partition; the other is still queued. */
  lemma SilentSuccess(a: IP, b: IP, sub: Subscriber, ref: ChannelRef)
    returns (run: seq<Label>, s: Sys, r: Round)
    requires a != b
    ensures Exec(INIT, run) == Some(s) && s.rounds == [r]
    ensures s.targetStates == map[sub.uid := 0] && a in s.podContexts && s.podContexts[a] == 0 && |s.contexts| > 0
    ensures r.sub == sub && r.channel == Channel(ref, 1) && r.readyPartitions == {} && r.calls == []
    ensures !r.ready && !r.cancelled && r.pendingCount == 2 && r.probes.Keys == {a, b}
    ensures r.probes[a] == Probe(0, 1, false, Queued, true, Blocked, Pending) && Theorems.Finished(r.probes[b])
  {
    run, s := TwoPodRound(a, b, sub, ref);
    r := s.rounds[0];
    assert s.rounds == [r];
    run, s, r := ExtendAnswer(run, s, r, b, Replied(Response(500, None)));
    run, s, r := ExtendSuccess(run, s, r, b);
    run, s, r := ExtendIdleEnd(run, s, r, b);
  }

  /**
   * A step that loses the wake-up can be taken (see `AttendedIffNeverLost`). One pod succeeds silently, the
   * other completes the partition set but is cancelled before its worker looks: every goroutine has
   * finished, the set is complete, the round is still registered, and nobody has called the callback.
   */
  lemma PodCancellationLosesWakeUp(a: IP, b: IP, sub: Subscriber, ref: ChannelRef)
    returns (run: seq<Label>)
    requires a != b
    ensures Exec(INIT, run).Some? && |Exec(INIT, run).value.rounds| == 1
    ensures var s := Exec(INIT, run).value;
            && Registered(s, 0)
            && Invariant.Complete(s.rounds[0])
            && (forall ip :: ip in s.rounds[0].probes ==> Theorems.Finished(s.rounds[0].probes[ip]))
            && s.rounds[0].calls == []
    ensures !NeverLoses(run, 0)
  {
    var s, r;
    run, s, r := SilentSuccess(a, b, sub, ref);
    run, s, r := ExtendAnswer(run, s, r, a, Replied(Response(STATUS_OK, Some(map[sub.uid := [0]]))));
    assert r.readyPartitions == {0};
    run, s, r := ExtendPodCancelled(run, s, r, a);
    run, s, r := ExtendWriteOff(run, s, r, a);
    NeverLostIsCalled(run, 0);
  }
}
