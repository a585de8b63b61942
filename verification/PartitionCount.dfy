/**
 * Which number of partitions an answer of true is about. A round keeps the channel it was built for, and
 * only another generation or, before it is ready, other pods make it outdated; so a channel whose number
 * of partitions was raised is answered for with the number it had before.
 */
module PartitionCount {
  import opened Types
  import opened ProbeRound
  import opened ProberSystem
  import opened ProberTheorems
  import opened ProberCalls

  /** The UID, if it is registered, has a round that was built for at least `n` partitions. */
  predicate Suffices(s: Sys, uid: UID, n: int) {
    uid in s.targetStates ==>
      s.targetStates[uid] < |s.rounds| && s.rounds[s.targetStates[uid]].channel.numPartitions >= n
  }

  /** The call asks about the UID for fewer than `n` partitions, and may so build a round for fewer. */
  predicate AsksFewer(c: Call, uid: UID, n: int) {
    c.CallIsReady? && c.listing.Ok? && c.sub.uid == uid && c.channel.numPartitions < n
  }

  lemma CallKeepsSuffices(s: Sys, c: Call, s': Sys, uid: UID, n: int)
    requires Suffices(s, uid, n) && CallSpec(s, c, s') && !AsksFewer(c, uid, n)
    ensures Suffices(s', uid, n)
  {
    if uid in s.targetStates {
      assert Evolves(s.rounds[s.targetStates[uid]], s'.rounds[s.targetStates[uid]]);
      if c.CallRefreshPodProbing? {
        assert Refreshed(s, s', c.order, c.listings, c.visited, uid);
      }
    }
  }

  lemma {:induction false} HistorySuffices(states: seq<Sys>, calls: seq<Call>, uid: UID, n: int, k: nat)
    requires History(states, calls) && k <= |calls|
    requires Suffices(states[0], uid, n)
    requires forall i :: 0 <= i < k ==> !AsksFewer(calls[i], uid, n)
    ensures Suffices(states[k], uid, n)
  {
    if k > 0 {
      HistorySuffices(states, calls, uid, n, k - 1);
      CallKeepsSuffices(states[k - 1], calls[k - 1], states[k], uid, n);
    }
  }

  /** A ready round that was built for enough partitions has them. */
  lemma ReadySuffices(run: seq<Label>, s: Sys, uid: UID, generation: int, n: int)
    requires Exec(INIT, run) == Some(s) && ReadyFor(s, uid, generation) && Suffices(s, uid, n)
    ensures |s.rounds[s.targetStates[uid]].readyPartitions| >= n
  {
    ReadyIsWitnessed(run, s.targetStates[uid]);
  }

  /**
   * An answer of true is about the channel it was asked for, if the UID was unregistered or had a round
   * for enough partitions in the beginning, and no earlier call for it passed fewer partitions: then the
   * round has at least as many ready partitions as that channel has partitions.
   */
  lemma TrueForTheChannel(states: seq<Sys>, calls: seq<Call>, k: nat, run: seq<Label>)
    requires History(states, calls) && k < |calls| && Exec(INIT, run) == Some(states[k + 1])
    requires calls[k].CallIsReady? && calls[k].answer == Ok(true)
    requires Suffices(states[0], calls[k].sub.uid, calls[k].channel.numPartitions)
    requires forall i :: 0 <= i < k ==> !AsksFewer(calls[i], calls[k].sub.uid, calls[k].channel.numPartitions)
    ensures ReadyFor(states[k + 1], calls[k].sub.uid, calls[k].sub.generation)
    ensures var s := states[k + 1];
            |s.rounds[s.targetStates[calls[k].sub.uid]].readyPartitions| >= calls[k].channel.numPartitions
  {
    var uid, n := calls[k].sub.uid, calls[k].channel.numPartitions;
    TrueAnswerIsReady(states[k], calls[k], states[k + 1]);
    HistorySuffices(states, calls, uid, n, k + 1);
    ReadySuffices(run, states[k + 1], uid, calls[k].sub.generation, n);
  }

  // The number is raised

  function FirstPartitions(n: nat): seq<Partition> {
    seq(n, i => i)
  }

  lemma FirstPartitionsCount(n: nat)
    ensures |Elements(FirstPartitions(n))| == n
  {
    NoDuplicatesCardinality(FirstPartitions(n));
  }

  /** The pod names the first `n` partitions, and the round is found ready. */
  lemma ReadyWith(sub: Subscriber, channel: Channel, ip: IP) returns (run: seq<Label>, s: Sys)
    requires channel.numPartitions >= 0
    ensures Exec(INIT, run) == Some(s) && s.targetStates == map[sub.uid := 0] && |s.rounds| == 1
    ensures var r := s.rounds[0];
            && r.sub == sub && r.channel == channel && r.probedPods == {ip} && r.ready
            && |r.readyPartitions| == channel.numPartitions
  {
    var list := FirstPartitions(channel.numPartitions);
    FirstPartitionsCount(channel.numPartitions);
    run, s := ProbedRound(sub, channel, ip);
    run, s := Extend(run, s, Act(0, Dequeue(ip)));
    run, s := Extend(run, s, Act(0, Answer(ip, Replied(Response(STATUS_OK, Some(map[sub.uid := list]))))));
    assert s.rounds[0].readyPartitions == Elements(list);
    run, s := Extend(run, s, Check(0));
  }

  /**
   * When the number of partitions of a channel is raised and the subscriber's generation stays, `IsReady`
   * answers true for it although fewer partitions than it has now are ready.
   */
  lemma RaisedAnswersTrue(sub: Subscriber, ref: ChannelRef, ip: IP, n: nat, m: int) returns (run: seq<Label>, s: Sys)
    requires n < m
    ensures Exec(INIT, run) == Some(s) && ReadyFor(s, sub.uid, sub.generation)
    ensures s.rounds[s.targetStates[sub.uid]].channel == Channel(ref, n)
    ensures |s.rounds[s.targetStates[sub.uid]].readyPartitions| < m
    ensures IsReadySpec(s, s, Channel(ref, m), sub, Ok({ip}), Ok(true))
  {
    run, s := ReadyWith(sub, Channel(ref, n), ip);
    assert Kept(s, s, sub, {ip}, true);
  }

  /** In some reachable state a ready round that was built for `n` partitions has fewer than `m`. */
  ghost predicate CanBeTooFew(uid: UID, generation: int, n: int, m: int) {
    exists run: seq<Label> :: EndsTooFew(run, uid, generation, n, m)
  }

  ghost predicate EndsTooFew(run: seq<Label>, uid: UID, generation: int, n: int, m: int) {
    && Exec(INIT, run).Some?
    && var s := Exec(INIT, run).value;
    && ReadyFor(s, uid, generation)
    && s.rounds[s.targetStates[uid]].channel.numPartitions == n
    && |s.rounds[s.targetStates[uid]].readyPartitions| < m
  }

  /** Exactly when a ready round may have too few partitions for a channel with `m` of them. */
  lemma TooFewIffRaised(uid: UID, generation: int, n: int, m: int)
    requires n >= 0
    ensures CanBeTooFew(uid, generation, n, m) <==> n < m
  {
    if run: seq<Label> :| EndsTooFew(run, uid, generation, n, m) {
      ReadySuffices(run, Exec(INIT, run).value, uid, generation, n);
    }
    if n < m {
      var run, s := RaisedAnswersTrue(Subscriber(uid, generation), ChannelRef("", ""), "", n, m);
      assert EndsTooFew(run, uid, generation, n, m);
    }
  }
}
