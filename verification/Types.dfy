/** Vocabulary shared by the prober, the dispatcher and the controller. */
module Types {

  /** A Kubernetes object UID (`types.UID` in the source). */
  type UID = string

  type IP = string

  type Partition = int

  datatype Option<+T> = None | Some(value: T)

  datatype Result<+T> = Ok(value: T) | Err(message: string)

  /** `types.NamespacedName` of a channel. */
  datatype ChannelRef = ChannelRef(namespace: string, name: string)

  /** The parts of `SubscriberSpec` the prober looks at. */
  datatype Subscriber = Subscriber(uid: UID, generation: int)

  /** The parts of `KafkaTopicChannel` the prober looks at. */
  datatype Channel = Channel(ref: ChannelRef, numPartitions: int)

  const STATUS_OK := 200
  const STATUS_NOT_FOUND := 404
  const STATUS_METHOD_NOT_ALLOWED := 405
  const STATUS_UNAVAILABLE := 503

  /** What a dispatcher pod answered; `body` is `None` when it is not the expected JSON object. */
  datatype Response = Response(status: int, body: Option<map<UID, seq<Partition>>>)

  /** The elements of a sequence; `sets.Insert(list...)` into an empty set. */
  function Elements<T>(list: seq<T>): set<T> {
    set x | x in list
  }

  lemma NoElements<T>(list: seq<T>)
    ensures Elements(list) == {} ==> list == []
  {
    if |list| > 0 { assert list[0] in Elements(list); }
  }

  lemma Pick<T>(s: set<T>) returns (x: T)
    requires s != {}
    ensures x in s
  {
    x :| x in s;
  }

  /** One element fewer to do is one element more done. */
  lemma OneMoreDone<T>(all: set<T>, todo: set<T>, x: T)
    requires x in todo && todo <= all
    ensures all - (todo - {x}) == (all - todo) + {x}
    ensures |todo - {x}| < |todo|
  {
  }

  lemma OneMoreListed<T>(all: set<T>, todo: set<T>, list: seq<T>, x: T)
    requires x in todo && todo <= all && Elements(list) == all - todo
    ensures Elements(list + [x]) == all - (todo - {x}) && |todo - {x}| < |todo|
  {
    assert Elements(list + [x]) == Elements(list) + {x};
  }

  lemma NothingLeft<T>(all: set<T>)
    ensures all - {} == all
  {
  }

  /** Removing the keys of a longer list, one key at a time. */
  lemma MinusOneMore<K, V>(m: map<K, V>, keys: seq<K>, key: K)
    ensures m - Elements(keys + [key]) == m - Elements(keys) - {key}
    ensures m - Elements<K>([]) == m
  {
    assert Elements(keys + [key]) == Elements(keys) + {key};
  }

  ghost predicate NoDuplicates<T>(list: seq<T>) {
    forall i, j :: 0 <= i < j < |list| ==> list[i] != list[j]
  }

  lemma {:induction false} NoDuplicatesCardinality<T>(list: seq<T>)
    requires NoDuplicates(list)
    ensures |Elements(list)| == |list|
  {
    if list != [] {
      var front, last := list[..|list| - 1], list[|list| - 1];
      NoDuplicatesCardinality(front);
      assert Elements(list) == Elements(front) + {last};
    }
  }

  lemma {:induction false} SubsetCardinality<T>(small: set<T>, big: set<T>)
    requires small <= big
    ensures |small| <= |big|
    ensures |small| == |big| ==> small == big
  {
    assert big == small + (big - small);
    assert |big| == |small| + |big - small|;
  }
}
