/** What each call of the prober's interface promises, and what follows for histories of calls. */
module ProberCalls {
  import opened Types
  import opened ProbeRound
  import opened ProberSystem
  import opened ProberTheorems

  /** Rounds are never removed, and what is known of a round is kept. */
  ghost predicate Grows(s: Sys, s': Sys) {
    && |s.rounds| <= |s'.rounds|
    && forall t :: 0 <= t < |s.rounds| ==> Evolves(s.rounds[t], s'.rounds[t])
  }

  /** Only goroutines ran: the registry and the contexts are as before. */
  ghost predicate Drifts(s: Sys, s': Sys) {
    && Grows(s, s')
    && |s'.rounds| == |s.rounds|
    && s' == s.(rounds := s'.rounds)
    && forall t :: 0 <= t < |s.rounds| ==> s'.rounds[t].probes.Keys == s.rounds[t].probes.Keys
  }

  lemma GrowsTransitive(a: Sys, b: Sys, c: Sys)
    requires Grows(a, b) && Grows(b, c)
    ensures Grows(a, c)
  {
    forall t | 0 <= t < |a.rounds| ensures Evolves(a.rounds[t], c.rounds[t]) {
      assert Evolves(a.rounds[t], b.rounds[t]) && Evolves(b.rounds[t], c.rounds[t]);
    }
  }

  /** The registered round answers: it is of this generation, and ready or probing the listed pods. */
  ghost predicate Kept(s: Sys, s': Sys, sub: Subscriber, pods: set<IP>, answer: bool) {
    && s'.targetStates == s.targetStates
    && |s'.rounds| == |s.rounds|
    && sub.uid in s.targetStates
    && s.targetStates[sub.uid] < |s.rounds|
    && var t := s.targetStates[sub.uid];
    && s.rounds[t].sub.generation == sub.generation
    && (s'.rounds[t].ready || s.rounds[t].probedPods == pods)
    && answer == s'.rounds[t].ready
    && (|s'.rounds[t].readyPartitions| == s.rounds[t].channel.numPartitions ==> answer)
  }

  /** A new round over the listed pods is registered, and an outdated one is cancelled. */
  ghost predicate Replaced(s: Sys, s': Sys, sub: Subscriber, channel: Channel, pods: set<IP>) {
    && |s'.rounds| == |s.rounds| + 1
    && s'.targetStates == s.targetStates[sub.uid := |s.rounds|]
    && s'.rounds[|s.rounds|].sub == sub
    && s'.rounds[|s.rounds|].channel == channel
    && s'.rounds[|s.rounds|].probedPods == pods
    && (sub.uid in s.targetStates && s.targetStates[sub.uid] < |s.rounds| ==>
          var t := s.targetStates[sub.uid];
          && s'.rounds[t].cancelled
          && (s.rounds[t].sub.generation != sub.generation
              || (!s.rounds[t].ready && s.rounds[t].probedPods != pods)))
  }

  ghost predicate IsReadySpec(s: Sys, s': Sys, channel: Channel, sub: Subscriber,
                              listing: Result<set<IP>>, answer: Result<bool>) {
    && Grows(s, s')
    && match listing
       case Err(message) => answer == Err(message) && s'.targetStates == s.targetStates
       case Ok(pods) =>
         && answer.Ok?
         && (Kept(s, s', sub, pods, answer.value)
             || (!answer.value && Replaced(s, s', sub, channel, pods)))
  }

  ghost predicate CancelSpec(s: Sys, s': Sys, uid: UID) {
    && Grows(s, s')
    && s'.targetStates == s.targetStates - {uid}
    && (uid in s.targetStates && s.targetStates[uid] < |s.rounds| ==> s'.rounds[s.targetStates[uid]].cancelled)
  }

  /**
   * The first `visited` keys that the map iteration produced have been handled. A key is kept with a
   * round that is ready, or moved to a new round for the same subscriber and channel over the pods
   * that were listed at one of its visits; the old round is then cancelled. No key comes or goes.
   */
  ghost predicate RefreshSpec(s: Sys, s': Sys, order: seq<UID>, listings: seq<Result<set<IP>>>, visited: nat)
  {
    && Grows(s, s')
    && visited <= |order| == |listings|
    && s'.targetStates.Keys == s.targetStates.Keys
    && (forall uid :: uid in s.targetStates ==> Refreshed(s, s', order, listings, visited, uid))
    && (forall k :: 0 <= k < visited ==>
          && order[k] in s'.targetStates
          && s'.targetStates[order[k]] < |s'.rounds|
          && (s'.rounds[s'.targetStates[order[k]]].ready || s'.targetStates[order[k]] >= |s.rounds|))
  }

  /** The round has exactly as many ready partitions as its channel has partitions. */
  predicate HasAll(r: Round) {
    |r.readyPartitions| == r.channel.numPartitions
  }

  /** Partitions only come, so a round that has all of them at two points has them in between. */
  lemma HasAllBetween(r: Round, r1: Round, r2: Round)
    requires Evolves(r, r1) && Evolves(r1, r2)
    ensures HasAll(r) && HasAll(r2) ==> HasAll(r1)
  {
    SubsetCardinality(r.readyPartitions, r1.readyPartitions);
    SubsetCardinality(r1.readyPartitions, r2.readyPartitions);
  }

  ghost predicate Refreshed(s: Sys, s': Sys, order: seq<UID>, listings: seq<Result<set<IP>>>, visited: nat, uid: UID)
    requires uid in s.targetStates && s'.targetStates.Keys == s.targetStates.Keys
    requires visited <= |order| == |listings| && Grows(s, s')
  {
    var t, t' := s.targetStates[uid], s'.targetStates[uid];
    && t < |s.rounds|
    && t' < |s'.rounds|
    && (s.rounds[t].ready ==> t' == t)
    && (t' != t ==>
          && t' >= |s.rounds|
          && s'.rounds[t].cancelled
          && !(HasAll(s.rounds[t]) && HasAll(s'.rounds[t]))
          && s'.rounds[t'].sub == s.rounds[t].sub
          && s'.rounds[t'].channel == s.rounds[t].channel
          && exists k :: 0 <= k < visited && order[k] == uid && listings[k] == Ok(s'.rounds[t'].probedPods))
  }

  /**
   * A refresh that met no lister error leaves every key with a round that is ready, or with a new round
   * for the same subscriber and channel over the pods listed for it, in place of a cancelled one that
   * was not ready.
   */
  lemma RefreshPass(s: Sys, s': Sys, order: seq<UID>, listings: seq<Result<set<IP>>>, uid: UID)
    requires RefreshSpec(s, s', order, listings, |order|)
    requires Elements(order) == s.targetStates.Keys && uid in s.targetStates
    ensures uid in s'.targetStates && s.targetStates[uid] < |s.rounds| && s'.targetStates[uid] < |s'.rounds|
    ensures var t, t' := s.targetStates[uid], s'.targetStates[uid];
            if t' == t then s'.rounds[t].ready
            else && !s.rounds[t].ready && s'.rounds[t].cancelled
                 && !(HasAll(s.rounds[t]) && HasAll(s'.rounds[t]))
                 && s'.rounds[t'].sub == s.rounds[t].sub && s'.rounds[t'].channel == s.rounds[t].channel
                 && exists k :: 0 <= k < |order| && order[k] == uid && listings[k] == Ok(s'.rounds[t'].probedPods)
  {
    assert Refreshed(s, s', order, listings, |order|, uid);
    assert uid in Elements(order);
    var k :| 0 <= k < |order| && order[k] == uid;
    assert s'.rounds[s'.targetStates[order[k]]].ready || s'.targetStates[order[k]] >= |s.rounds|;
  }

  /** A call of the interface with its outcome, or a stretch in which only goroutines ran. */
  datatype Call =
    | CallIsReady(channel: Channel, sub: Subscriber, listing: Result<set<IP>>, answer: Result<bool>)
    | CallCancelProbing(uid: UID)
    | CallCancelPodProbing(ip: IP)
    | CallRefreshPodProbing(order: seq<UID>, listings: seq<Result<set<IP>>>, visited: nat)
    | NoCall

  ghost predicate CallSpec(s: Sys, c: Call, s': Sys) {
    match c
    case CallIsReady(channel, sub, listing, answer) => IsReadySpec(s, s', channel, sub, listing, answer)
    case CallCancelProbing(uid) => CancelSpec(s, s', uid)
    case CallCancelPodProbing(_) => Grows(s, s') && s'.targetStates == s.targetStates
    case CallRefreshPodProbing(order, listings, visited) => RefreshSpec(s, s', order, listings, visited)
    case NoCall => Drifts(s, s')
  }

  /** The only calls that may withdraw an answer of true for a UID and generation. */
  predicate Withdraws(c: Call, uid: UID, generation: int) {
    || c == CallCancelProbing(uid)
    || (c.CallIsReady? && c.listing.Ok? && c.sub.uid == uid && c.sub.generation != generation)
  }

  lemma CallKeepsReady(s: Sys, c: Call, s': Sys, uid: UID, generation: int)
    requires ReadyFor(s, uid, generation) && CallSpec(s, c, s') && !Withdraws(c, uid, generation)
    ensures ReadyFor(s', uid, generation)
    ensures c.CallIsReady? && c.sub == Subscriber(uid, generation) && c.listing.Ok? ==> c.answer == Ok(true)
  {
    assert Evolves(s.rounds[s.targetStates[uid]], s'.rounds[s.targetStates[uid]]);
    if c.CallRefreshPodProbing? {
      assert Refreshed(s, s', c.order, c.listings, c.visited, uid);
    }
  }

  /** An answer of true means that the state is ready for that UID and generation. */
  lemma TrueAnswerIsReady(s: Sys, c: Call, s': Sys)
    requires CallSpec(s, c, s') && c.CallIsReady? && c.answer == Ok(true)
    ensures ReadyFor(s', c.sub.uid, c.sub.generation)
  {
    var t := s.targetStates[c.sub.uid];
    assert Evolves(s.rounds[t], s'.rounds[t]);
  }

  /** States and the calls between them. */
  ghost predicate History(states: seq<Sys>, calls: seq<Call>) {
    && |states| == |calls| + 1
    && forall i :: 0 <= i < |calls| ==> CallSpec(states[i], calls[i], states[i + 1])
  }

  /**
   * Sticky readiness. Once `IsReady` has answered true for a UID and generation, each later call for
   * that pair whose lister succeeds answers true, through any goroutine steps, refreshes, cancelled
   * pods and changed pod sets, up to a `CancelProbing` of the UID or a call for another generation.
   */
  lemma {:induction false} StickyReadiness(states: seq<Sys>, calls: seq<Call>, first: nat, last: nat)
    requires History(states, calls) && first <= last < |calls|
    requires calls[first].CallIsReady? && calls[first].answer == Ok(true)
    requires forall i :: first < i <= last ==> !Withdraws(calls[i], calls[first].sub.uid, calls[first].sub.generation)
    ensures ReadyFor(states[last + 1], calls[first].sub.uid, calls[first].sub.generation)
    ensures calls[last].CallIsReady? && calls[last].sub == calls[first].sub && calls[last].listing.Ok?
            ==> calls[last].answer == Ok(true)
    decreases last - first
  {
    if first == last {
      TrueAnswerIsReady(states[first], calls[first], states[first + 1]);
    } else {
      StickyReadiness(states, calls, first, last - 1);
      CallKeepsReady(states[last], calls[last], states[last + 1], calls[first].sub.uid, calls[first].sub.generation);
    }
  }
}
