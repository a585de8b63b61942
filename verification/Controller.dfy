/** The channel controller's use of the prober, and what a subscriber in the channel's status means. */
module Controller {
  import opened Types
  import opened ReadyMap
  import opened ProbeRound
  import opened ProberSystem
  import opened ProberTheorems
  import opened ProberCalls
  import opened PartitionCount
  import opened ProberObject
  import opened SubscriptionEndpointObject

  /** An entry of `Status.Subscribers`; it is only ever made with `Ready` true. */
  datatype SubscriberStatus = SubscriberStatus(uid: UID, observedGeneration: int)

  /** The subscribers for which `IsReady` answered true, in order. */
  function Marked(subs: seq<Subscriber>, answers: seq<Result<bool>>): seq<SubscriberStatus>
    requires |subs| == |answers|
  {
    if subs == [] then []
    else
      var n := |subs| - 1;
      Marked(subs[..n], answers[..n]) +
      if answers[n] == Ok(true) then [SubscriberStatus(subs[n].uid, subs[n].generation)] else []
  }

  /** The indices in `picks` are those of the subscribers answered true, ascending, and `marked` lists them. */
  ghost predicate Picked(subs: seq<Subscriber>, answers: seq<Result<bool>>, marked: seq<SubscriberStatus>, picks: seq<nat>)
    requires |subs| == |answers|
  {
    && |picks| == |marked|
    && (forall i, j :: 0 <= i < j < |picks| ==> picks[i] < picks[j])
    && (forall k :: k in picks <==> 0 <= k < |subs| && answers[k] == Ok(true))
    && (forall i :: 0 <= i < |picks| ==>
          picks[i] < |subs| && marked[i] == SubscriberStatus(subs[picks[i]].uid, subs[picks[i]].generation))
  }

  /** The marked subscribers are an order-preserving sublist: those answered true and no others. */
  lemma {:induction false} MarkedIsSublist(subs: seq<Subscriber>, answers: seq<Result<bool>>) returns (picks: seq<nat>)
    requires |subs| == |answers|
    ensures Picked(subs, answers, Marked(subs, answers), picks)
  {
    if subs == [] {
      picks := [];
    } else {
      var n := |subs| - 1;
      picks := MarkedIsSublist(subs[..n], answers[..n]);
      PickedNext(subs, answers, Marked(subs[..n], answers[..n]), picks);
      if answers[n] == Ok(true) {
        picks := picks + [n];
      }
    }
  }

  lemma PickedNext(subs: seq<Subscriber>, answers: seq<Result<bool>>, marked: seq<SubscriberStatus>, picks: seq<nat>)
    requires |subs| == |answers| > 0
    requires Picked(subs[..|subs| - 1], answers[..|subs| - 1], marked, picks)
    ensures var n := |subs| - 1;
            if answers[n] == Ok(true)
            then Picked(subs, answers, marked + [SubscriberStatus(subs[n].uid, subs[n].generation)], picks + [n])
            else Picked(subs, answers, marked, picks)
  {
    var n := |subs| - 1;
    assert forall i :: 0 <= i < |picks| ==> picks[i] in picks && picks[i] < n;
    assert forall k :: k in picks + [n] <==> k in picks || k == n;
  }

  lemma MarkedNext(subs: seq<Subscriber>, answers: seq<Result<bool>>, n: nat, answer: Result<bool>)
    requires n < |subs| && |answers| == n
    ensures Marked(subs[..n + 1], answers + [answer]) ==
            Marked(subs[..n], answers) +
            if answer == Ok(true) then [SubscriberStatus(subs[n].uid, subs[n].generation)] else []
  {
    assert subs[..n + 1][..n] == subs[..n];
    assert (answers + [answer])[..n] == answers;
  }

  /** One call of `IsReady` per subscriber, in order. */
  function CallsOf(channel: Channel, subs: seq<Subscriber>, listings: seq<Result<set<IP>>>, answers: seq<Result<bool>>)
    : (calls: seq<Call>)
    requires |answers| <= |subs| == |listings|
  {
    seq(|answers|, i requires 0 <= i < |answers| => CallIsReady(channel, subs[i], listings[i], answers[i]))
  }

  lemma HistoryNext(states: seq<Sys>, calls: seq<Call>, s: Sys, c: Call)
    requires History(states, calls) && CallSpec(states[|calls|], c, s)
    ensures History(states + [s], calls + [c])
  {
  }

  /** Each state of a history was reached by a run of the prober. */
  ghost predicate Reached(states: seq<Sys>, runs: seq<seq<Label>>) {
    && |runs| == |states|
    && forall i :: 0 <= i < |states| ==> Exec(INIT, runs[i]) == Some(states[i])
  }

  class Reconciler {
    const statusManager: Prober

    constructor (statusManager: Prober)
      ensures this.statusManager == statusManager
    {
      this.statusManager := statusManager;
    }

    /**
     * `reconcileSubscribers`: `current` is the status so far, `stored` the status afterwards. An error
     * of `IsReady` counts as not ready; a patch that changes nothing is not sent.
     */
    method ReconcileSubscribers(channel: Channel, subs: seq<Subscriber>, current: seq<SubscriberStatus>,
                                listings: seq<Result<set<IP>>>, patchError: Option<string>)
      returns (stored: seq<SubscriberStatus>, err: Option<string>,
               ghost answers: seq<Result<bool>>, ghost states: seq<Sys>, ghost runs: seq<seq<Label>>)
      requires statusManager.Valid() && statusManager.Idle() && |listings| == |subs|
      modifies statusManager
      ensures statusManager.Valid() && statusManager.Idle()
      ensures |answers| == |subs|
      ensures History(states, CallsOf(channel, subs, listings, answers)) && Reached(states, runs)
      ensures states[0] == old(statusManager.View()) && states[|subs|] == statusManager.View()
      ensures err == if Marked(subs, answers) == current then None else patchError
      ensures stored == if err.None? then Marked(subs, answers) else current
    {
      var after := [];
      answers, states, runs := [], [statusManager.View()], [statusManager.trace];
      for i := 0 to |subs|
        invariant statusManager.Valid() && statusManager.Idle()
        invariant |answers| == i && |states| == i + 1
        invariant after == Marked(subs[..i], answers)
        invariant History(states, CallsOf(channel, subs, listings, answers)) && Reached(states, runs)
        invariant states[0] == old(statusManager.View()) && states[i] == statusManager.View()
      {
        var answer := statusManager.IsReady(channel, subs[i], listings[i]);
        if answer == Ok(true) {
          after := after + [SubscriberStatus(subs[i].uid, subs[i].generation)];
        }
        MarkedNext(subs, answers, i, answer);
        HistoryNext(states, CallsOf(channel, subs, listings, answers), statusManager.View(),
                    CallIsReady(channel, subs[i], listings[i], answer));
        assert CallsOf(channel, subs, listings, answers + [answer]) ==
               CallsOf(channel, subs, listings, answers) + [CallIsReady(channel, subs[i], listings[i], answer)];
        answers := answers + [answer];
        states, runs := states + [statusManager.View()], runs + [statusManager.trace];
      }
      assert subs[..|subs|] == subs;
      if after == current {
        return current, None, answers, states, runs;
      }
      if patchError.Some? {
        return current, patchError, answers, states, runs;
      }
      return after, None, answers, states, runs;
    }

    /**
     * `FinalizeKind`: afterwards no subscriber of the spec is registered, every round ever created for
     * one of them is cancelled, and all other registrations are as before.
     */
    method FinalizeKind(subs: seq<Subscriber>)
      requires statusManager.Valid() && statusManager.Idle()
      modifies statusManager
      ensures statusManager.Valid() && statusManager.Idle()
      ensures forall uid :: uid in statusManager.targetStates <==>
                uid in old(statusManager.targetStates) && forall i :: 0 <= i < |subs| ==> subs[i].uid != uid
      ensures forall uid :: uid in statusManager.targetStates ==>
                statusManager.targetStates[uid] == old(statusManager.targetStates)[uid]
      ensures Grows(old(statusManager.View()), statusManager.View())
      ensures forall t, i :: 0 <= t < |statusManager.rounds| && 0 <= i < |subs|
                             && statusManager.rounds[t].sub.uid == subs[i].uid ==>
                statusManager.rounds[t].cancelled
    {
      ghost var start := statusManager.View();
      assert start.targetStates == start.targetStates - UidsOf(subs[..0]);
      for i := 0 to |subs|
        invariant statusManager.Valid() && statusManager.Idle()
        invariant statusManager.targetStates == start.targetStates - UidsOf(subs[..i])
        invariant Grows(start, statusManager.View())
      {
        ghost var before := statusManager.View();
        statusManager.CancelProbing(subs[i].uid);
        GrowsTransitive(start, before, statusManager.View());
        UidsOfNext(subs, i);
        assert start.targetStates - UidsOf(subs[..i]) - {subs[i].uid} == start.targetStates - UidsOf(subs[..i + 1]);
      }
      assert subs[..|subs|] == subs;
      RegisteredOrCancelled(statusManager.trace);
    }
  }

  function UidsOf(subs: seq<Subscriber>): set<UID> {
    set s | s in subs :: s.uid
  }

  lemma UidsOfNext(subs: seq<Subscriber>, i: nat)
    requires i < |subs|
    ensures UidsOf(subs[..i + 1]) == UidsOf(subs[..i]) + {subs[i].uid}
  {
    assert subs[..i + 1] == subs[..i] + [subs[i]];
  }

  /** An answer of true means a ready round, which later calls for other UIDs leave registered and ready. */
  lemma {:induction false} AnswerStaysReady(states: seq<Sys>, channel: Channel, subs: seq<Subscriber>,
                                            listings: seq<Result<set<IP>>>, answers: seq<Result<bool>>, k: nat, n: nat)
    requires |listings| == |subs| == |answers| && k < n <= |subs|
    requires History(states, CallsOf(channel, subs, listings, answers))
    requires answers[k] == Ok(true)
    ensures ReadyFor(states[k + 1], subs[k].uid, subs[k].generation)
    ensures (forall i :: k < i < |subs| ==> subs[i].uid != subs[k].uid) ==>
              ReadyFor(states[n], subs[k].uid, subs[k].generation)
    decreases n
  {
    var calls := CallsOf(channel, subs, listings, answers);
    assert calls[k].answer == Ok(true);
    TrueAnswerIsReady(states[k], calls[k], states[k + 1]);
    if n > k + 1 && forall i :: k < i < |subs| ==> subs[i].uid != subs[k].uid {
      AnswerStaysReady(states, channel, subs, listings, answers, k, n - 1);
      CallKeepsReady(states[n - 1], calls[n - 1], states[n], subs[k].uid, subs[k].generation);
    }
  }

  /**
   * A subscriber is in the status only if the prober had a ready round for its UID and generation when
   * it was asked; when no UID is repeated in the spec, the round is still registered and ready in the end.
   */
  lemma StatusIsReady(e: SubscriberStatus, states: seq<Sys>, channel: Channel, subs: seq<Subscriber>,
                      listings: seq<Result<set<IP>>>, answers: seq<Result<bool>>)
    returns (k: nat)
    requires |listings| == |subs| == |answers|
    requires History(states, CallsOf(channel, subs, listings, answers))
    requires e in Marked(subs, answers)
    ensures k < |subs| && subs[k] == Subscriber(e.uid, e.observedGeneration) && answers[k] == Ok(true)
    ensures ReadyFor(states[k + 1], e.uid, e.observedGeneration)
    ensures (forall i, j :: 0 <= i < j < |subs| ==> subs[i].uid != subs[j].uid) ==>
              ReadyFor(states[|subs|], e.uid, e.observedGeneration)
  {
    var picks := MarkedIsSublist(subs, answers);
    var i :| 0 <= i < |picks| && Marked(subs, answers)[i] == e;
    k := picks[i];
    assert k in picks;
    AnswerStaysReady(states, channel, subs, listings, answers, k, |subs|);
  }

  predicate Answers200(reply: Reply) {
    reply.Replied? && reply.response.status == STATUS_OK
  }

  /**
   * Suppose every 200 answer that a ready round's probes received is what the endpoint of the answering
   * pod says for some history of `SetReady` calls. Then the round has at least `numPartitions` distinct
   * partitions, each reported by a probed pod in whose history the last call for this UID and partition
   * said it was ready.
   */
  lemma ReadyEndToEnd(run: seq<Label>, s: Sys, uid: UID, generation: int, histories: seq<seq<ReadyEvent>>)
    requires Exec(INIT, run) == Some(s) && ReadyFor(s, uid, generation)
    requires var answers := s.rounds[s.targetStates[uid]].answers;
             && |histories| == |answers|
             && forall i :: 0 <= i < |answers| && Answers200(answers[i].reply)
                  ==> TellsTruth(answers[i].reply.response, histories[i])
    ensures var r := s.rounds[s.targetStates[uid]];
            && r.sub == Subscriber(uid, generation)
            && |r.readyPartitions| >= r.channel.numPartitions
            && forall p :: p in r.readyPartitions ==>
                 exists i :: && 0 <= i < |r.answers|
                             && r.answers[i].ip in r.probedPods
                             && Lists(uid, r.answers[i].reply)
                             && LastReady(histories[i], uid, p)
  {
    var t := s.targetStates[uid];
    var r := s.rounds[t];
    ReadyForOwnUid(run, s, uid, generation);
    ReadyIsWitnessed(run, t);
    forall p | p in r.readyPartitions
      ensures exists i :: && 0 <= i < |r.answers|
                          && r.answers[i].ip in r.probedPods
                          && Lists(uid, r.answers[i].reply)
                          && LastReady(histories[i], uid, p)
    {
      var i :| 0 <= i < |r.answers| && Lists(uid, r.answers[i].reply) && r.answers[i].ip in r.probedPods
               && p in r.answers[i].reply.response.body.value[uid];
      assert TellsTruth(r.answers[i].reply.response, histories[i]);
    }
  }

  /** Every 200 answer `i` of a round `t` is what the endpoint says for the history `histories(t, i)`. */
  ghost predicate Reported(s: Sys, histories: (nat, nat) -> seq<ReadyEvent>) {
    forall t: nat, i: nat ::
      t < |s.rounds| && i < |s.rounds[t].answers| && Answers200(s.rounds[t].answers[i].reply) ==>
        TellsTruth(s.rounds[t].answers[i].reply.response, histories(t, i))
  }

  /**
   * End-to-end readiness. Whoever is in the status that `reconcileSubscribers` computes had, when the
   * prober was asked, a ready round of that UID and generation with at least as many distinct partitions
   * as the channel it was built for; and each of these was listed in a 200 answer of a probed pod whose
   * last `SetReady` for the UID and the partition, before it answered, said it was ready. They are at
   * least as many as the channel being reconciled has, unless the UID was registered with a round for
   * fewer; `RaisedAnswersTrue` shows that this can happen, and `TrueForTheChannel` when it does not.
   */
  lemma StatusEndToEnd(e: SubscriberStatus, states: seq<Sys>, runs: seq<seq<Label>>, channel: Channel,
                       subs: seq<Subscriber>, listings: seq<Result<set<IP>>>, answers: seq<Result<bool>>,
                       histories: (nat, nat) -> seq<ReadyEvent>)
    returns (k: nat, t: nat)
    requires |listings| == |subs| == |answers|
    requires History(states, CallsOf(channel, subs, listings, answers)) && Reached(states, runs)
    requires forall j :: 0 <= j < |states| ==> Reported(states[j], histories)
    requires e in Marked(subs, answers)
    ensures k < |subs| && subs[k] == Subscriber(e.uid, e.observedGeneration)
    ensures e.uid in states[k + 1].targetStates && states[k + 1].targetStates[e.uid] == t < |states[k + 1].rounds|
    ensures var r := states[k + 1].rounds[t];
            && r.sub == subs[k] && r.ready
            && |r.readyPartitions| >= r.channel.numPartitions
            && forall p :: p in r.readyPartitions ==>
                 exists i: nat :: && i < |r.answers|
                                  && r.answers[i].ip in r.probedPods
                                  && Lists(e.uid, r.answers[i].reply)
                                  && LastReady(histories(t, i), e.uid, p)
    ensures Suffices(states[0], e.uid, channel.numPartitions) ==>
              |states[k + 1].rounds[t].readyPartitions| >= channel.numPartitions
  {
    k := StatusIsReady(e, states, channel, subs, listings, answers);
    var s := states[k + 1];
    t := s.targetStates[e.uid];
    var r := s.rounds[t];
    var own := seq(|r.answers|, i requires 0 <= i < |r.answers| => histories(t, i));
    forall i | 0 <= i < |r.answers| && Answers200(r.answers[i].reply)
      ensures TellsTruth(r.answers[i].reply.response, own[i])
    {
      assert Reported(s, histories);
    }
    ReadyEndToEnd(runs[k + 1], s, e.uid, e.observedGeneration, own);
    if Suffices(states[0], e.uid, channel.numPartitions) {
      HistorySuffices(states, CallsOf(channel, subs, listings, answers), e.uid, channel.numPartitions, k + 1);
      ReadySuffices(runs[k + 1], s, e.uid, e.observedGeneration, channel.numPartitions);
    }
  }
}
