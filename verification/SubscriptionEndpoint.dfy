/** The endpoint of a dispatcher pod that tells which partitions of which subscriptions are ready. */
module SubscriptionEndpointObject {
  import opened Types
  import opened Encodings
  import opened ReadyMap
  import opened DispatcherObject

  /** The response says of every subscription exactly which partitions were last reported ready. */
  ghost predicate TellsTruth(response: Response, history: seq<ReadyEvent>) {
    && response.status == 200 && response.body.Some?
    && (forall u :: u in response.body.value <==> exists p :: LastReady(history, u, p))
    && (forall u, p :: u in response.body.value ==> (p in response.body.value[u] <==> LastReady(history, u, p)))
  }

  lemma ReportIsTrue(history: seq<ReadyEvent>)
    ensures TellsTruth(Response(STATUS_OK, Some(Report(Replayed(history)))), history)
  {
    var report := Report(Replayed(history));
    forall u, p
      ensures u in report <==> exists q :: LastReady(history, u, q)
      ensures u in report ==> (p in report[u] <==> LastReady(history, u, p))
    {
      ReportRoundTrip(history, u, p);
      if u in report { assert p in report[u] <==> p in Elements(report[u]); }
    }
  }

  class SubscriptionEndpoint {
    const dispatcher: KafkaDispatcher

    constructor (dispatcher: KafkaDispatcher)
      ensures this.dispatcher == dispatcher
    {
      this.dispatcher := dispatcher;
    }

    /**
     * `ServeHTTP`: for a GET whose URI names a channel with an entry, the body lists the subscriptions
     * with a partition whose last `SetReady` was true, and for each exactly those partitions, ascending.
     */
    method ServeHTTP(verb: string, requestURI: string) returns (response: Response, header: Option<string>)
      requires dispatcher.Coherent()
      ensures verb != "GET" ==> response == Response(405, None) && header == None
      ensures verb == "GET" && multiset(requestURI)['/'] != 2 ==> response == Response(404, None) && header == None
      ensures verb == "GET" && (forall c :: c in dispatcher.channelSubscriptions ==> !Names(requestURI, c)) ==>
                response == Response(404, None) && header == None
      ensures forall c :: verb == "GET" && c in dispatcher.channelSubscriptions && Names(requestURI, c) ==>
                var history := dispatcher.channelSubscriptions[c].history;
                && header == Some(c.name)
                && response.status == 200 && response.body.Some?
                && (forall u :: u in response.body.value <==> exists p :: LastReady(history, u, p))
                && forall u :: u in response.body.value ==>
                     var list := response.body.value[u];
                     && (forall p :: p in list <==> LastReady(history, u, p))
                     && (forall i, j :: 0 <= i < j < |list| ==> list[i] < list[j])
    {
      header := None;
      if verb != "GET" {
        return Response(STATUS_METHOD_NOT_ALLOWED, None), None;
      }
      var uriSplit := Split(requestURI, '/');
      TwoSlashes(requestURI);
      if |uriSplit| != 3 {
        return Response(STATUS_NOT_FOUND, None), None;
      }
      var channelRef := ChannelRef(uriSplit[1], uriSplit[2]);
      if channelRef !in dispatcher.channelSubscriptions {
        return Response(STATUS_NOT_FOUND, None), None;
      }
      var subscriptions := ReadySubscriptions(channelRef);
      return Response(STATUS_OK, Some(subscriptions)), Some(channelRef.name);
    }

    /** The last part of `ServeHTTP`: what the object of the channel holds. */
    method ReadySubscriptions(channelRef: ChannelRef) returns (subscriptions: map<UID, seq<Partition>>)
      requires dispatcher.Coherent() && channelRef in dispatcher.channelSubscriptions
      ensures var history := dispatcher.channelSubscriptions[channelRef].history;
              && (forall u :: u in subscriptions <==> exists p :: LastReady(history, u, p))
              && forall u :: u in subscriptions ==>
                   && (forall p :: p in subscriptions[u] <==> LastReady(history, u, p))
                   && (forall i, j :: 0 <= i < j < |subscriptions[u]| ==> subscriptions[u][i] < subscriptions[u][j])
    {
      var kafkaSubscription := dispatcher.channelSubscriptions[channelRef];
      assert kafkaSubscription.Valid();
      subscriptions := ListReady(kafkaSubscription.channelReadySubscriptions);
      ReportIsTrue(kafkaSubscription.history);
    }
  }

  /** The loop of `ServeHTTP` over the ready sets, in any order. */
  method ListReady(ready: ReadySets) returns (subscriptions: map<UID, seq<Partition>>)
    ensures subscriptions == Report(ready)
  {
    subscriptions := map[];
    var todo := ready.Keys;
    while todo != {}
      invariant todo <= ready.Keys
      invariant subscriptions == map s | s in ready && s !in todo :: List(ready[s])
      decreases |todo|
    {
      var s :| s in todo;
      subscriptions := subscriptions[s := List(ready[s])];
      todo := todo - {s};
    }
  }
}
