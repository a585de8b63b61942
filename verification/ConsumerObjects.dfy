/**
 * The dispatcher's objects: a `KafkaSubscription` per channel, shared by pointer with the handler of
 * every consumer group of that channel.
 */
module ConsumerObjects {
  import opened Types
  import opened ReadyMap
  import opened DispatcherTable

  class KafkaSubscription {
    var subs: set<UID>
    var channelReadySubscriptions: map<UID, set<Partition>>
    // every call of SetReady on this object, in order
    ghost var history: seq<ReadyEvent>

    ghost predicate Valid()
      reads this`channelReadySubscriptions, this`history
    {
      channelReadySubscriptions == Replayed(history)
    }

    /** `NewKafkaSubscription` */
    constructor ()
      ensures subs == {} && history == [] && channelReadySubscriptions == map[] && Valid()
    {
      subs, channelReadySubscriptions, history := {}, map[], [];
    }

    /** `SetReady` */
    method SetReady(subID: UID, partition: Partition, ready: bool)
      requires Valid()
      modifies this`channelReadySubscriptions, this`history
      ensures Valid() && history == old(history) + [ReadyEvent(subID, partition, ready)]
      ensures channelReadySubscriptions ==
              Applied(old(channelReadySubscriptions), ReadyEvent(subID, partition, ready))
    {
      ReplayedSnoc(history, ReadyEvent(subID, partition, ready));
      UpdateReady(subID, partition, ready);
      history := history + [ReadyEvent(subID, partition, ready)];
    }

    /** The body of `SetReady` under the lock. */
    method UpdateReady(subID: UID, partition: Partition, ready: bool)
      modifies this`channelReadySubscriptions
      ensures channelReadySubscriptions ==
              Applied(old(channelReadySubscriptions), ReadyEvent(subID, partition, ready))
    {
      if ready {
        if subID in channelReadySubscriptions {
          channelReadySubscriptions :=
            channelReadySubscriptions[subID := channelReadySubscriptions[subID] + {partition}];
        } else {
          channelReadySubscriptions := channelReadySubscriptions[subID := {partition}];
        }
      } else if subID in channelReadySubscriptions {
        var left := channelReadySubscriptions[subID] - {partition};
        channelReadySubscriptions := channelReadySubscriptions[subID := left];
        if |left| == 0 {
          channelReadySubscriptions := channelReadySubscriptions - {subID};
        }
      }
    }
  }

  /** `consumerMessageHandler`: a value that holds a pointer. */
  datatype ConsumerMessageHandler = ConsumerMessageHandler(
    sub: Subscription,
    kafkaSubscription: KafkaSubscription,
    consumerGroup: string)
  {
    /** `SetReady`, forwarded to the shared object under the handler's own UID. */
    method SetReady(partition: Partition, ready: bool)
      requires kafkaSubscription.Valid()
      modifies kafkaSubscription`channelReadySubscriptions, kafkaSubscription`history
      ensures kafkaSubscription.Valid()
      ensures kafkaSubscription.history ==
              old(kafkaSubscription.history) + [ReadyEvent(sub.uid, partition, ready)]
    {
      kafkaSubscription.SetReady(sub.uid, partition, ready);
    }
  }

  /** A started consumer group; `closed` counts the calls of `Close`. */
  class ConsumerGroup {
    const handler: ConsumerMessageHandler
    ghost var closed: nat

    constructor (handler: ConsumerMessageHandler)
      ensures this.handler == handler && closed == 0
    {
      this.handler := handler;
      closed := 0;
    }

    /** `Close`, with the error the environment makes it return. */
    method Close(outcome: Option<string>) returns (err: Option<string>)
      modifies this`closed
      ensures closed == old(closed) + 1 && err == outcome
    {
      closed := closed + 1;
      err := outcome;
    }
  }
}
