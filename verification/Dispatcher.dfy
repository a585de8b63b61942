/**
 * The dispatcher: which consumer groups run for which subscriptions, under failures to start and to
 * close them and any order of map iteration.
 */
module DispatcherObject {
  import opened Types
  import opened Encodings
  import opened ReadyMap
  import opened DispatcherTable
  import opened ConsumerObjects
  import opened DispatcherBook

  /** What reading an absent key of `subscriptions` gives. */
  const ZERO_SUBSCRIPTION := Subscription("", "")

  /** `SubscriptionsUIDs` */
  method SubscriptionsUIDs(subs: seq<Subscription>) returns (res: seq<UID>)
    ensures |res| == |subs| && forall i :: 0 <= i < |subs| ==> res[i] == subs[i].uid
    ensures Elements(res) == UidsOf(subs)
  {
    res := [];
    for i := 0 to |subs|
      invariant |res| == i && forall j :: 0 <= j < i ==> res[j] == subs[j].uid
    {
      res := res + [subs[i].uid];
    }
    forall u ensures u in Elements(res) <==> u in UidsOf(subs) {
      if u in UidsOf(subs) {
        var i :| 0 <= i < |subs| && subs[i].uid == u;
        assert res[i] == u;
      }
    }
  }

  /** The loop of `ReconcileConsumers` that fills `toAddSubs`. */
  method CollectToAdd(subs: seq<Subscription>, missing: set<UID>) returns (toAdd: map<UID, Subscription>)
    ensures toAdd == map u | u in Wanted(subs) && u in missing :: Wanted(subs)[u]
    ensures forall u :: u in toAdd <==> u in missing && exists i :: 0 <= i < |subs| && subs[i].uid == u
    ensures forall i :: LastOfItsUid(subs, i) && subs[i].uid in missing ==> toAdd[subs[i].uid] == subs[i]
  {
    toAdd := map[];
    for i := 0 to |subs|
      invariant toAdd == map u | u in Wanted(subs[..i]) && u in missing :: Wanted(subs[..i])[u]
    {
      assert subs[..i + 1][..i] == subs[..i];
      if subs[i].uid in missing {
        toAdd := toAdd[subs[i].uid := subs[i]];
      }
    }
    assert subs[..|subs|] == subs;
    WantedKeys(subs);
    forall u ensures u in Wanted(subs) <==> exists i :: 0 <= i < |subs| && subs[i].uid == u {
      assert u in Wanted(subs).Keys <==> u in UidsOf(subs);
    }
    forall i | LastOfItsUid(subs, i) ensures subs[i].uid in Wanted(subs) && Wanted(subs)[subs[i].uid] == subs[i] {
      WantedLast(subs, i);
    }
  }

  class KafkaDispatcher {
    var channelSubscriptions: map<ChannelRef, KafkaSubscription>
    var subsConsumerGroups: map<UID, ConsumerGroup>
    var subscriptions: map<UID, Subscription>
    ghost var home: map<UID, ChannelRef>
    ghost var boxes: map<KafkaSubscription, ChannelRef>
    ghost var started: set<ConsumerGroup>

    ghost function View(): Book
      reads this, boxes.Keys, started
    {
      Book(channelSubscriptions, subsConsumerGroups, subscriptions, home, boxes,
           map b | b in boxes :: b.subs, map g | g in started :: g.closed)
    }

    ghost predicate Valid()
      reads this, boxes.Keys, started
    {
      && BookInv(View())
      && forall b :: b in boxes ==> b.Valid()
    }

    /** What every call keeps, also one that takes a UID from another channel. */
    ghost predicate Coherent()
      reads this, boxes.Keys, started
    {
      && Sound(View())
      && forall b :: b in boxes ==> b.Valid()
    }

    lemma ValidIsCoherent()
      requires Valid()
      ensures Coherent()
    {
      BookHoldings(View(), ChannelRef("", ""));
    }

    constructor ()
      ensures Valid() && Coherent()
      ensures TableOf(View()) == map[] && started == {} && channelSubscriptions == map[]
    {
      channelSubscriptions, subsConsumerGroups, subscriptions := map[], map[], map[];
      home, boxes, started := map[], map[], {};
      new;
      assert View() == Book(map[], map[], map[], map[], map[], map[], map[]);
    }

    /** `subscribe`; a failure can leave an entry without subscriptions for the channel. */
    method Subscribe(channelRef: ChannelRef, sub: Subscription, outcome: Option<string>)
      returns (err: Option<string>, ghost box: KafkaSubscription, ghost group: Option<ConsumerGroup>)
      requires channelRef in channelSubscriptions ==> channelSubscriptions[channelRef] in boxes
      requires forall b :: b in boxes ==> b.Valid()
      modifies this, boxes.Keys`subs
      ensures err == outcome && (err.None? <==> group.Some?)
      ensures channelRef in channelSubscriptions && box == channelSubscriptions[channelRef]
      ensures channelRef in old(channelSubscriptions) ==> box == old(channelSubscriptions[channelRef])
      ensures channelRef !in old(channelSubscriptions) ==> fresh(box)
      ensures View() == Subscribed(old(View()), channelRef, sub, box, group)
      ensures group.Some? ==>
                && fresh(group.value)
                && group.value.handler == ConsumerMessageHandler(sub, box, GroupId(channelRef, sub.uid))
      ensures forall b :: b in boxes && b !in old(boxes) ==> fresh(b)
      ensures forall b :: b in boxes ==> b.Valid()
      ensures forall g :: g in started && g !in old(started) ==> fresh(g)
      ensures box in boxes && forall b :: b in old(boxes) ==> b in boxes
    {
      var kafkaSubscription := GetOrCreate(channelRef);
      box := kafkaSubscription;
      if outcome.Some? {
        return outcome, box, None;
      }
      var consumerGroup := StartAndStore(channelRef, sub, kafkaSubscription);
      err, group := None, Some(consumerGroup);
    }

    /** The first part of `subscribe`: the channel's object, made when there is none. */
    method GetOrCreate(channelRef: ChannelRef) returns (kafkaSubscription: KafkaSubscription)
      requires forall b :: b in boxes ==> b.Valid()
      modifies this`channelSubscriptions, this`boxes
      ensures channelRef in channelSubscriptions && channelSubscriptions[channelRef] == kafkaSubscription
      ensures View() == if channelRef in old(channelSubscriptions) then old(View())
                        else WithBox(old(View()), channelRef, kafkaSubscription)
      ensures channelRef !in old(channelSubscriptions) ==> fresh(kafkaSubscription)
      ensures forall b :: b in boxes && b !in old(boxes) ==> fresh(b)
      ensures forall b :: b in boxes ==> b.Valid()
    {
      if channelRef in channelSubscriptions {
        kafkaSubscription := channelSubscriptions[channelRef];
      } else {
        kafkaSubscription := new KafkaSubscription();
        channelSubscriptions := channelSubscriptions[channelRef := kafkaSubscription];
        boxes := boxes[kafkaSubscription := channelRef];
        assert View().subs == old(View().subs)[kafkaSubscription := {}];
      }
    }

    /** The rest of `subscribe`, when the consumer group can be started. */
    method StartAndStore(channelRef: ChannelRef, sub: Subscription, kafkaSubscription: KafkaSubscription)
      returns (consumerGroup: ConsumerGroup)
      requires forall b :: b in boxes ==> b.Valid()
      requires channelRef in channelSubscriptions && channelSubscriptions[channelRef] == kafkaSubscription
      requires kafkaSubscription in boxes
      modifies this`subscriptions, this`subsConsumerGroups, this`home, this`started
      modifies kafkaSubscription`subs
      ensures View() == Inserted(old(View()), channelRef, sub, consumerGroup)
      ensures fresh(consumerGroup) && started == old(started) + {consumerGroup}
      ensures consumerGroup.handler == ConsumerMessageHandler(sub, kafkaSubscription, GroupId(channelRef, sub.uid))
      ensures forall b :: b in boxes ==> b.Valid()
    {
      var handler := ConsumerMessageHandler(sub, kafkaSubscription, GroupId(channelRef, sub.uid));
      consumerGroup := StartConsumerGroup(handler);
      StoreGroup(channelRef, sub, kafkaSubscription, consumerGroup);
    }

    /** The factory's `StartConsumerGroup`, when it succeeds. */
    method StartConsumerGroup(handler: ConsumerMessageHandler) returns (consumerGroup: ConsumerGroup)
      ensures View() == old(View())
      ensures fresh(consumerGroup) && consumerGroup !in started
      ensures consumerGroup.handler == handler && consumerGroup.closed == 0
    {
      consumerGroup := new ConsumerGroup(handler);
    }

    /** The last part of `subscribe`: the three maps learn of a group that was started. */
    method StoreGroup(channelRef: ChannelRef, sub: Subscription, kafkaSubscription: KafkaSubscription,
                      consumerGroup: ConsumerGroup)
      requires channelRef in channelSubscriptions && channelSubscriptions[channelRef] == kafkaSubscription
      requires kafkaSubscription in boxes && consumerGroup.closed == 0
      modifies this`subscriptions, this`subsConsumerGroups, this`home, this`started
      modifies kafkaSubscription`subs
      ensures View() == Inserted(old(View()), channelRef, sub, consumerGroup)
      ensures started == old(started) + {consumerGroup}
    {
      kafkaSubscription.subs := kafkaSubscription.subs + {sub.uid};
      subscriptions := subscriptions[sub.uid := sub];
      subsConsumerGroups := subsConsumerGroups[sub.uid := consumerGroup];
      home := home[sub.uid := channelRef];
      started := started + {consumerGroup};
      assert View().closed == old(View().closed)[consumerGroup := 0];
    }

    /** `unsubscribe`, with the outcome of closing the group. */
    method Unsubscribe(channelRef: ChannelRef, sub: Subscription, outcome: Option<string>) returns (err: Option<string>)
      requires sub.uid in subsConsumerGroups ==> subsConsumerGroups[sub.uid] in started
      requires channelRef in channelSubscriptions ==> channelSubscriptions[channelRef] in boxes
      modifies this`subscriptions, this`channelSubscriptions, this`subsConsumerGroups, this`home
      modifies boxes.Keys`subs, started`closed
      ensures View() == Removed(old(View()), channelRef, sub.uid)
      ensures err == if channelRef in old(channelSubscriptions) && sub.uid in old(subsConsumerGroups) then outcome else None
    {
      DeleteSpec(sub.uid);
      if channelRef !in channelSubscriptions {
        return None;
      }
      LeaveChannel(channelRef, sub.uid);
      err := CloseGroup(sub.uid, outcome);
    }

    /** The sub spec is removed. */
    method DeleteSpec(uid: UID)
      modifies this`subscriptions
      ensures View() == Forgotten(old(View()), uid)
    {
      subscriptions := subscriptions - {uid};
    }

    /** The UID leaves the channel's set, and an empty channel loses its object. */
    method LeaveChannel(channelRef: ChannelRef, uid: UID)
      requires channelRef in channelSubscriptions && channelSubscriptions[channelRef] in boxes
      modifies this`channelSubscriptions, this`home, boxes.Keys`subs
      ensures View() == Departed(old(View()), channelRef, uid)
    {
      var kafkaSubscription := channelSubscriptions[channelRef];
      kafkaSubscription.subs := kafkaSubscription.subs - {uid};
      if |kafkaSubscription.subs| == 0 {
        channelSubscriptions := channelSubscriptions - {channelRef};
      }
      home := home - {uid};
    }

    /** The group of a UID, if it has one, leaves the map and is closed. */
    method CloseGroup(uid: UID, outcome: Option<string>) returns (err: Option<string>)
      requires uid in subsConsumerGroups ==> subsConsumerGroups[uid] in started
      modifies this`subsConsumerGroups, started`closed
      ensures View() == Released(old(View()), uid)
      ensures err == if uid in old(subsConsumerGroups) then outcome else None
    {
      err := None;
      if uid in subsConsumerGroups {
        var consumerGroup := subsConsumerGroups[uid];
        subsConsumerGroups := subsConsumerGroups - {uid};
        err := consumerGroup.Close(outcome);
      }
    }

    // Reconciling a channel

    /** The loop of `ReconcileConsumers` that subscribes, in whatever order the map is iterated. */
    method SubscribeAll(channelRef: ChannelRef, toAdd: map<UID, Subscription>, startErrors: map<UID, string>)
      returns (failed: map<UID, string>, ghost attempts: seq<Attempt>)
      requires channelRef in channelSubscriptions ==> channelSubscriptions[channelRef] in boxes
      requires forall b :: b in boxes ==> b.Valid()
      requires forall u :: u in toAdd ==> toAdd[u].uid == u
      modifies this, boxes.Keys`subs
      ensures Tried(old(View()), channelRef, toAdd, startErrors.Keys, attempts) == Some(Progress(View(), toAdd.Keys))
      ensures failed == Failures(toAdd.Keys, startErrors)
      ensures forall g :: g in started && g !in old(started) ==> fresh(g)
      ensures forall b :: b in boxes && b !in old(boxes) ==> fresh(b)
      ensures forall b :: b in boxes ==> b.Valid()
    {
      failed, attempts := map[], [];
      var todo := toAdd.Keys;
      ghost var start, done := View(), {};
      while todo != {}
        invariant todo <= toAdd.Keys && done == toAdd.Keys - todo
        invariant channelRef in channelSubscriptions ==> channelSubscriptions[channelRef] in boxes
        invariant Tried(start, channelRef, toAdd, startErrors.Keys, attempts) == Some(Progress(View(), done))
        invariant failed == Failures(done, startErrors)
        invariant forall g :: g in started && g !in old(started) ==> fresh(g)
        invariant forall b :: b in boxes && b !in old(boxes) ==> fresh(b)
        invariant forall b :: b in boxes ==> b.Valid()
        decreases |todo|
      {
        var uid :| uid in todo;
        OneMoreDone(toAdd.Keys, todo, uid);
        FailuresNext(done, startErrors, uid);
        var err;
        ghost var a;
        err, a := SubscribeNext(channelRef, toAdd, startErrors, uid, start, attempts, done);
        if err.Some? {
          failed := failed[uid := err.value];
        }
        attempts, done := attempts + [a], done + {uid};
        todo := todo - {uid};
      }
      NothingLeft(toAdd.Keys);
    }

    /** One iteration of that loop; the ghost parameters say which attempts were made before. */
    method SubscribeNext(channelRef: ChannelRef, toAdd: map<UID, Subscription>, startErrors: map<UID, string>,
                         uid: UID, ghost start: Book, ghost attempts: seq<Attempt>, ghost done: set<UID>)
      returns (err: Option<string>, ghost a: Attempt)
      requires channelRef in channelSubscriptions ==> channelSubscriptions[channelRef] in boxes
      requires forall b :: b in boxes ==> b.Valid()
      requires uid in toAdd && toAdd[uid].uid == uid && uid !in done
      requires Tried(start, channelRef, toAdd, startErrors.Keys, attempts) == Some(Progress(View(), done))
      modifies this, boxes.Keys`subs
      ensures err == Outcome(startErrors, uid)
      ensures Tried(start, channelRef, toAdd, startErrors.Keys, attempts + [a]) == Some(Progress(View(), done + {uid}))
      ensures channelRef in channelSubscriptions && channelSubscriptions[channelRef] in boxes
      ensures forall g :: g in started && g !in old(started) ==> fresh(g)
      ensures forall b :: b in boxes && b !in old(boxes) ==> fresh(b)
      ensures forall b :: b in boxes ==> b.Valid()
    {
      ghost var box, group;
      err, box, group := Subscribe(channelRef, toAdd[uid], Outcome(startErrors, uid));
      a := Attempt(toAdd[uid], box, group);
      TriedNext(start, channelRef, toAdd, startErrors.Keys, attempts, a);
    }

    /** The loop of `ReconcileConsumers` that unsubscribes; errors of `Close` are only logged. */
    method UnsubscribeAll(channelRef: ChannelRef, toRemove: set<UID>, closeErrors: map<UID, string>)
      returns (ghost gone: seq<UID>)
      requires forall b :: b in boxes ==> b.Valid()
      requires channelRef in channelSubscriptions ==> channelSubscriptions[channelRef] in boxes
      requires forall u :: u in subsConsumerGroups ==> subsConsumerGroups[u] in started
      modifies this`subscriptions, this`channelSubscriptions, this`subsConsumerGroups, this`home
      modifies boxes.Keys`subs, started`closed
      ensures started == old(started) && boxes == old(boxes)
      ensures forall b :: b in boxes ==> b.Valid()
      ensures View() == RemovedAll(old(View()), channelRef, gone)
      ensures Stored(old(View()), toRemove) ==> Elements(gone) == toRemove
    {
      gone := [];
      var todo := toRemove;
      ghost var start := View();
      while todo != {}
        invariant todo <= toRemove
        invariant Stored(start, toRemove) ==> Elements(gone) == toRemove - todo && Stored(View(), todo)
        invariant forall b :: b in boxes ==> b.Valid()
        invariant channelRef in channelSubscriptions ==> channelSubscriptions[channelRef] in boxes
        invariant forall u :: u in subsConsumerGroups ==> subsConsumerGroups[u] in started
        invariant View() == RemovedAll(start, channelRef, gone)
        decreases |todo|
      {
        var uid :| uid in todo;
        ghost var stored := StoredUid(subscriptions, uid);
        var _ := UnsubscribeNext(channelRef, uid, closeErrors);
        RemovedAllNext(start, channelRef, gone, stored);
        if Stored(start, toRemove) {
          OneMoreListed(toRemove, todo, gone, uid);
        }
        gone := gone + [stored];
        todo := todo - {uid};
      }
    }

    /** One call of `unsubscribe` in a loop over UIDs: it is given what `subscriptions` holds. */
    method UnsubscribeNext(channelRef: ChannelRef, uid: UID, closeErrors: map<UID, string>)
      returns (err: Option<string>)
      requires forall b :: b in boxes ==> b.Valid()
      requires channelRef in channelSubscriptions ==> channelSubscriptions[channelRef] in boxes
      requires forall u :: u in subsConsumerGroups ==> subsConsumerGroups[u] in started
      modifies this`subscriptions, this`channelSubscriptions, this`subsConsumerGroups, this`home
      modifies boxes.Keys`subs, started`closed
      ensures started == old(started) && boxes == old(boxes)
      ensures forall b :: b in boxes ==> b.Valid()
      ensures View() == Removed(old(View()), channelRef, StoredUid(old(subscriptions), uid))
      ensures subscriptions == old(subscriptions) - {StoredUid(old(subscriptions), uid)}
      ensures channelRef in channelSubscriptions ==> channelSubscriptions[channelRef] in boxes
      ensures forall u :: u in subsConsumerGroups ==> subsConsumerGroups[u] in started
      ensures var stored := StoredUid(old(subscriptions), uid);
              err == if channelRef in old(channelSubscriptions) && stored in old(subsConsumerGroups)
                     then Outcome(closeErrors, stored) else None
    {
      var sub := if uid in subscriptions then subscriptions[uid] else ZERO_SUBSCRIPTION;
      err := Unsubscribe(channelRef, sub, Outcome(closeErrors, sub.uid));
    }

    /**
     * `ReconcileConsumers`: `startErrors` and `closeErrors` say for which UIDs starting or closing the
     * consumer group fails. The channel's live set becomes the wanted set minus the missing UIDs that
     * could not be started (see `ReconcileAssigns`), and exactly those are in the returned error.
     * Everything stays in order exactly when no UID is taken from another channel.
     */
    method ReconcileConsumers(config: ChannelConfig, startErrors: map<UID, string>, closeErrors: map<UID, string>)
      returns (err: Option<map<UID, string>>)
      requires Coherent()
      modifies this, boxes.Keys`subs, started`closed
      ensures Coherent()
      ensures old(Valid()) ==> (Valid() <==> Unclaimed(TableOf(old(View())), config, startErrors.Keys))
      ensures old(Valid()) && Valid() ==>
                && TableOf(View()) == Reconciled(TableOf(old(View())), config, startErrors.Keys)
                && Framed(old(View()), View(), config.channel)
      ensures old(Valid()) ==> HeldBy(old(View()), config.channel) == LiveOf(TableOf(old(View())), config.channel)
      ensures var tried := UidsOf(config.subscriptions) - HeldBy(old(View()), config.channel);
              if tried * startErrors.Keys == {} then err == None
              else && err.Some? && err.value.Keys == tried * startErrors.Keys
                   && forall u :: u in err.value ==> err.value[u] == startErrors[u]
      ensures HeldBy(old(View()), config.channel) == UidsOf(config.subscriptions) ==> View() == old(View())
      ensures forall g :: g in started && g !in old(started) ==> fresh(g)
      ensures forall b :: b in boxes && b !in old(boxes) ==> fresh(b)
    {
      ghost var k, held := View(), HeldBy(View(), config.channel);
      ghost var attempts, gone, k1;
      ghost var valid := Valid();
      err, attempts, gone, k1 := ApplyConfig(config, startErrors, closeErrors);
      FailuresExact(UidsOf(config.subscriptions) - held, startErrors);
      if valid {
        ReconcileOutcome(k, config, startErrors.Keys, attempts, gone, k1);
      }
      if held == UidsOf(config.subscriptions) {
        NothingToDo(k, config, startErrors.Keys, attempts, gone, k1);
      }
    }

    /** The body of `ReconcileConsumers`; the ghost results tell the run of attempts and removals it makes. */
    method ApplyConfig(config: ChannelConfig, startErrors: map<UID, string>, closeErrors: map<UID, string>)
      returns (err: Option<map<UID, string>>, ghost attempts: seq<Attempt>, ghost gone: seq<UID>, ghost k1: Book)
      requires Coherent()
      modifies this, boxes.Keys`subs, started`closed
      ensures Coherent()
      ensures var held := HeldBy(old(View()), config.channel);
              && Tried(old(View()), config.channel, AddFor(held, config), startErrors.Keys, attempts) ==
                 Some(Progress(k1, AddFor(held, config).Keys))
              && View() == RemovedAll(k1, config.channel, gone)
              && (Stored(old(View()), RemoveFor(held, config)) ==> Elements(gone) == RemoveFor(held, config))
      ensures var failed := Failures(UidsOf(config.subscriptions) - HeldBy(old(View()), config.channel), startErrors);
              err == if failed == map[] then None else Some(failed)
      ensures forall g :: g in started && g !in old(started) ==> fresh(g)
      ensures forall b :: b in boxes && b !in old(boxes) ==> fresh(b)
    {
      ghost var k, held := View(), HeldBy(View(), config.channel);
      var toAdd, toRemove := Plan(config);
      var failed;
      failed, attempts := SubscribeAll(config.channel, toAdd, startErrors);
      k1 := View();
      BeforeRemovals(k, config, held, startErrors.Keys, attempts, k1);
      gone := UnsubscribeAll(config.channel, toRemove, closeErrors);
      RemovalsSound(k1, config.channel, gone);
      err := if failed == map[] then None else Some(failed);
    }

    /** The first part of `ReconcileConsumers`: what to add and what to remove. */
    method Plan(config: ChannelConfig) returns (toAdd: map<UID, Subscription>, toRemove: set<UID>)
      requires config.channel in channelSubscriptions ==> channelSubscriptions[config.channel] in boxes
      ensures var held := HeldBy(View(), config.channel);
              && toAdd == AddFor(held, config) && toRemove == RemoveFor(held, config)
              && toAdd.Keys == UidsOf(config.subscriptions) - held
      ensures forall u :: u in toAdd ==> toAdd[u].uid == u
    {
      var existing := if config.channel in channelSubscriptions then channelSubscriptions[config.channel].subs else {};
      var uids := SubscriptionsUIDs(config.subscriptions);
      var wanted := set u | u in uids;
      assert wanted == Elements(uids);
      toAdd := CollectToAdd(config.subscriptions, wanted - existing);
      toRemove := existing - wanted;
      WantedKeys(config.subscriptions);
    }

    // Cleaning up a channel

    /**
     * `CleanupChannel`: it stops at the first group whose Close fails. Whatever fails, the indexes
     * agree afterwards, and the channel has fewer live UIDs unless it has none at all.
     */
    method CleanupChannel(channelRef: ChannelRef, closeErrors: map<UID, string>)
      returns (err: Option<string>, ghost gone: seq<UID>)
      requires Coherent()
      modifies this`subscriptions, this`channelSubscriptions, this`subsConsumerGroups, this`home
      modifies boxes.Keys`subs, started`closed
      ensures Coherent() && View() == RemovedAll(old(View()), channelRef, gone)
      ensures old(Valid()) ==> Valid() && Framed(old(View()), View(), channelRef)
      ensures old(Valid()) ==> CleanedUp(old(View()), View(), channelRef, gone, closeErrors, err)
    {
      ghost var k := View();
      ghost var valid := Valid();
      if channelRef !in channelSubscriptions {
        err, gone := None, [];
      } else {
        err, gone := UnsubscribeUntilError(channelRef, channelSubscriptions[channelRef].subs, closeErrors);
      }
      RemovalsSound(k, channelRef, gone);
      if valid {
        BookHoldings(k, channelRef);
        CleanupOutcome(k, View(), channelRef, gone, closeErrors, err);
      }
    }

    /** The loop of `CleanupChannel` over the UIDs that the channel's object holds. */
    method UnsubscribeUntilError(channelRef: ChannelRef, toRemove: set<UID>, closeErrors: map<UID, string>)
      returns (err: Option<string>, ghost gone: seq<UID>)
      requires forall b :: b in boxes ==> b.Valid()
      requires forall u :: u in subsConsumerGroups ==> subsConsumerGroups[u] in started
      requires channelRef in channelSubscriptions && channelSubscriptions[channelRef] in boxes
      requires channelSubscriptions[channelRef].subs == toRemove
      modifies this`subscriptions, this`channelSubscriptions, this`subsConsumerGroups, this`home
      modifies boxes.Keys`subs, started`closed
      ensures forall b :: b in boxes ==> b.Valid()
      ensures View() == RemovedAll(old(View()), channelRef, gone)
      ensures Orderly(old(View()), channelRef, toRemove) ==>
                && Elements(gone) <= toRemove && (err.None? ==> Elements(gone) == toRemove)
                && StoppedAt(gone, closeErrors, err)
    {
      err, gone := None, [];
      var todo := toRemove;
      ghost var start := View();
      ghost var orderly := Orderly(start, channelRef, toRemove);
      while todo != {}
        invariant todo <= toRemove
        invariant orderly ==> InProgress(View(), channelRef, toRemove, todo, gone, closeErrors)
        invariant forall b :: b in boxes ==> b.Valid()
        invariant forall u :: u in subsConsumerGroups ==> subsConsumerGroups[u] in started
        invariant channelRef in channelSubscriptions ==> channelSubscriptions[channelRef] in boxes
        invariant err.None? && View() == RemovedAll(start, channelRef, gone)
        decreases todo
      {
        var uid :| uid in todo;
        ghost var k, stored := View(), StoredUid(subscriptions, uid);
        err := UnsubscribeNext(channelRef, uid, closeErrors);
        RemovedAllNext(start, channelRef, gone, stored);
        if orderly {
          ProgressNext(k, channelRef, toRemove, todo, gone, closeErrors, uid);
        }
        gone := gone + [stored];
        todo := todo - {uid};
        if err.Some? {
          return;
        }
      }
    }

    // The readiness of a channel's subscriptions

    /**
     * A consumer group reports a partition as ready or not through its handler; `ReportsReachOneChannel`
     * says which channel sees it.
     */
    method ReportReady(group: ConsumerGroup, partition: Partition, ready: bool)
      requires Coherent() && group in started
      modifies group.handler.kafkaSubscription`channelReadySubscriptions, group.handler.kafkaSubscription`history
      ensures Coherent() && View() == old(View()) && (old(Valid()) ==> Valid())
      ensures forall c :: c in channelSubscriptions ==>
                channelSubscriptions[c].history ==
                old(channelSubscriptions[c].history) +
                if SeenBy(View(), group, c) then [ReadyEvent(group.handler.sub.uid, partition, ready)] else []
    {
      Forward(group.handler, partition, ready);
    }

    /** The object a handler points at records the call, and no other object does. */
    method Forward(handler: ConsumerMessageHandler, partition: Partition, ready: bool)
      requires handler.kafkaSubscription in boxes
      requires forall b :: b in boxes ==> b.Valid()
      modifies handler.kafkaSubscription`channelReadySubscriptions, handler.kafkaSubscription`history
      ensures View() == old(View())
      ensures forall b :: b in boxes ==> b.Valid()
      ensures forall b :: b in boxes ==>
                b.history == old(b.history) +
                if b == handler.kafkaSubscription then [ReadyEvent(handler.sub.uid, partition, ready)] else []
    {
      handler.SetReady(partition, ready);
    }
  }

  /** The UID that looking up a UID in `subscriptions` leads to. */
  function StoredUid(subscriptions: map<UID, Subscription>, uid: UID): UID {
    (if uid in subscriptions then subscriptions[uid] else ZERO_SUBSCRIPTION).uid
  }

  /** A run of removals stops at the first error that the environment returns, if there is one. */
  predicate StoppedAt(gone: seq<UID>, closeErrors: map<UID, string>, err: Option<string>) {
    if err.None? then forall u :: u in gone ==> u !in closeErrors
    else && gone != []
         && (forall u :: u in gone[..|gone| - 1] ==> u !in closeErrors)
         && gone[|gone| - 1] in closeErrors
         && err.value == closeErrors[gone[|gone| - 1]]
  }

  lemma StopsOrGoesOn(gone: seq<UID>, closeErrors: map<UID, string>, uid: UID)
    requires StoppedAt(gone, closeErrors, None)
    ensures StoppedAt(gone + [uid], closeErrors, Outcome(closeErrors, uid))
  {
    assert (gone + [uid])[..|gone + [uid]| - 1] == gone;
  }

  /** The channel's object holds exactly `todo`, and each of its UIDs is stored and has a group. */
  ghost predicate Orderly(k: Book, c: ChannelRef, todo: set<UID>) {
    Stored(k, todo) && todo <= k.groups.Keys && (todo != {} ==> c in k.channels && HeldBy(k, c) == todo)
  }

  lemma OrderlyNext(k: Book, c: ChannelRef, todo: set<UID>, uid: UID)
    requires Orderly(k, c, todo) && uid in todo && k.channels[c] in k.subs
    ensures Orderly(Removed(k, c, uid), c, todo - {uid})
  {
  }

  /** A cleanup has removed the UIDs in `gone` without an error, and has those in `todo` before it. */
  ghost predicate InProgress(k: Book, c: ChannelRef, toRemove: set<UID>, todo: set<UID>, gone: seq<UID>,
                             closeErrors: map<UID, string>)
  {
    && Elements(gone) == toRemove - todo
    && Orderly(k, c, todo)
    && StoppedAt(gone, closeErrors, None)
  }

  lemma ProgressNext(k: Book, c: ChannelRef, toRemove: set<UID>, todo: set<UID>, gone: seq<UID>,
                     closeErrors: map<UID, string>, uid: UID)
    requires InProgress(k, c, toRemove, todo, gone, closeErrors)
    requires uid in todo && todo <= toRemove && c in k.channels && k.channels[c] in k.subs
    ensures Elements(gone + [uid]) == toRemove - (todo - {uid})
    ensures StoppedAt(gone + [uid], closeErrors, Outcome(closeErrors, uid))
    ensures uid !in closeErrors ==> InProgress(Removed(k, c, uid), c, toRemove, todo - {uid}, gone + [uid], closeErrors)
  {
    OrderlyNext(k, c, todo, uid);
    OneMoreListed(toRemove, todo, gone, uid);
    StopsOrGoesOn(gone, closeErrors, uid);
  }

  /** What a cleanup achieves when the invariant holds. */
  ghost predicate CleanedUp(k: Book, k': Book, c: ChannelRef, gone: seq<UID>, closeErrors: map<UID, string>,
                            err: Option<string>)
  {
    && CleanupStep(TableOf(k), c, TableOf(k'), err.Some?)
    && (err.None? ==> TableOf(k') == Cleaned(TableOf(k), c))
    && TableOf(k') == TableOf(k) - Elements(gone)
    && StoppedAt(gone, closeErrors, err)
    && (c in k'.channels <==> LiveOf(TableOf(k'), c) != {} || (c in k.channels && LiveOf(TableOf(k), c) == {}))
  }

  lemma CleanupOutcome(k: Book, k': Book, c: ChannelRef, gone: seq<UID>, closeErrors: map<UID, string>, err: Option<string>)
    requires BookInv(k) && k' == RemovedAll(k, c, gone)
    requires Elements(gone) <= LiveOf(TableOf(k), c) && (err.None? ==> Elements(gone) == LiveOf(TableOf(k), c))
    requires StoppedAt(gone, closeErrors, err)
    ensures BookInv(k') && Framed(k, k', c) && CleanedUp(k, k', c, gone, closeErrors, err)
  {
    CleanupRun(k, c, gone, err.Some?);
    EntryAfterRemovals(k, c, gone);
    NoElements(gone);
  }

  /** What a reconcile achieves when the invariant holds before it. */
  lemma ReconcileOutcome(k: Book, config: ChannelConfig, failing: set<UID>, attempts: seq<Attempt>, gone: seq<UID>, k1: Book)
    requires BookInv(k)
    requires var held := HeldBy(k, config.channel);
             && Tried(k, config.channel, AddFor(held, config), failing, attempts) ==
                Some(Progress(k1, AddFor(held, config).Keys))
             && (Stored(k, RemoveFor(held, config)) ==> Elements(gone) == RemoveFor(held, config))
    ensures HeldBy(k, config.channel) == LiveOf(TableOf(k), config.channel)
    ensures var k' := RemovedAll(k1, config.channel, gone);
            && (BookInv(k') <==> Unclaimed(TableOf(k), config, failing))
            && (BookInv(k') ==> TableOf(k') == Reconciled(TableOf(k), config, failing) && Framed(k, k', config.channel))
  {
    BookHoldings(k, config.channel);
    ReconcileKeepsInv(k, config, failing, attempts, gone, k1);
    if Unclaimed(TableOf(k), config, failing) {
      ReconcileRun(k, config, failing, attempts, gone);
    }
  }
}
