/** Which partitions of which subscriptions a dispatcher pod reports as ready. */
module ReadyMap {
  import opened Types

  /** One call of `SetReady`. */
  datatype ReadyEvent = ReadyEvent(sub: UID, partition: Partition, ready: bool)

  type ReadySets = map<UID, set<Partition>>

  /** The effect of one call on the map. */
  function Applied(m: ReadySets, e: ReadyEvent): ReadySets {
    if e.ready then
      m[e.sub := (if e.sub in m then m[e.sub] else {}) + {e.partition}]
    else if e.sub in m then
      var left := m[e.sub] - {e.partition};
      if left == {} then m - {e.sub} else m[e.sub := left]
    else m
  }

  /** The map after a history of calls. */
  function Replayed(history: seq<ReadyEvent>): ReadySets {
    if history == [] then map[]
    else Applied(Replayed(history[..|history| - 1]), history[|history| - 1])
  }

  lemma ReplayedSnoc(history: seq<ReadyEvent>, e: ReadyEvent)
    ensures Replayed(history + [e]) == Applied(Replayed(history), e)
  {
    assert (history + [e])[..|history + [e]| - 1] == history;
  }

  /** The last call for a subscription and partition said it was ready. */
  ghost predicate LastReady(history: seq<ReadyEvent>, sub: UID, partition: Partition) {
    exists i ::
      && 0 <= i < |history|
      && history[i] == ReadyEvent(sub, partition, true)
      && forall j :: i < j < |history| ==> history[j].sub != sub || history[j].partition != partition
  }

  predicate Holds(m: ReadySets, sub: UID, partition: Partition) {
    sub in m && partition in m[sub]
  }

  lemma LastReadySnoc(history: seq<ReadyEvent>, e: ReadyEvent, sub: UID, partition: Partition)
    ensures LastReady(history + [e], sub, partition) <==>
            if e.sub == sub && e.partition == partition then e.ready else LastReady(history, sub, partition)
  {
    var h := history + [e];
    assert h[|history|] == e;
    if e.sub != sub || e.partition != partition {
      if i :| 0 <= i < |history| && history[i] == ReadyEvent(sub, partition, true)
              && forall j :: i < j < |history| ==> history[j].sub != sub || history[j].partition != partition {
        assert h[i] == ReadyEvent(sub, partition, true);
      }
      if i :| 0 <= i < |h| && h[i] == ReadyEvent(sub, partition, true)
              && forall j :: i < j < |h| ==> h[j].sub != sub || h[j].partition != partition {
        assert i < |history|;
        assert forall j :: i < j < |history| ==> history[j] == h[j];
      }
    }
  }

  /** The map holds exactly the partitions whose last call said ready, and never an empty set. */
  lemma {:induction false} ReplayedIsLast(history: seq<ReadyEvent>)
    ensures forall sub, partition ::
              Holds(Replayed(history), sub, partition) <==> LastReady(history, sub, partition)
    ensures forall sub :: sub in Replayed(history) ==> Replayed(history)[sub] != {}
  {
    if history != [] {
      var front, e := history[..|history| - 1], history[|history| - 1];
      ReplayedIsLast(front);
      assert front + [e] == history;
      forall sub, partition
        ensures Holds(Replayed(history), sub, partition) <==> LastReady(history, sub, partition)
      {
        LastReadySnoc(front, e, sub, partition);
        assert Holds(Replayed(front), sub, partition) <==> LastReady(front, sub, partition);
      }
    }
  }

  // Reporting: `sets.Int32.List`

  lemma {:induction false} LeastExists(s: set<Partition>)
    requires s != {}
    ensures exists m :: m in s && forall x :: x in s ==> m <= x
  {
    var x := Pick(s);
    var rest := s - {x};
    if rest == {} {
      LeastOf(s, x, x);
    } else {
      LeastExists(rest);
      var least :| least in rest && forall y :: y in rest ==> least <= y;
      LeastOf(s, x, if x < least then x else least);
    }
  }

  lemma LeastOf(s: set<Partition>, x: Partition, m: Partition)
    requires x in s && m in s && m <= x && forall y :: y in s - {x} ==> m <= y
    ensures forall y :: y in s ==> m <= y
  {
    forall y | y in s ensures m <= y {
      if y != x { assert y in s - {x}; }
    }
  }

  function Least(s: set<Partition>): (m: Partition)
    requires s != {}
    ensures m in s && forall x :: x in s ==> m <= x
  {
    LeastExists(s);
    var m :| m in s && forall x :: x in s ==> m <= x;
    m
  }

  /** The elements in ascending order. */
  function List(s: set<Partition>): (list: seq<Partition>)
    ensures Elements(list) == s
    ensures forall i, j :: 0 <= i < j < |list| ==> list[i] < list[j]
  {
    if s == {} then []
    else
      var m := Least(s);
      var rest := List(s - {m});
      assert Elements([m] + rest) == {m} + Elements(rest);
      assert forall i :: 0 <= i < |rest| ==> rest[i] in Elements(rest);
      [m] + rest
  }

  /** The body of an endpoint answer. */
  function Report(m: ReadySets): map<UID, seq<Partition>> {
    map sub | sub in m :: List(m[sub])
  }

  /** Inserting the reported lists into sets, as the verifier does, gives back the ready sets. */
  lemma ReportRoundTrip(history: seq<ReadyEvent>, sub: UID, partition: Partition)
    ensures sub in Report(Replayed(history)) <==> exists p :: LastReady(history, sub, p)
    ensures sub in Report(Replayed(history)) ==>
              (partition in Elements(Report(Replayed(history))[sub]) <==> LastReady(history, sub, partition))
  {
    ReplayedIsLast(history);
    var m := Replayed(history);
    if sub in m {
      var p := Pick(m[sub]);
      assert Holds(m, sub, p) && LastReady(history, sub, p);
    }
    if p :| LastReady(history, sub, p) {
      assert Holds(m, sub, p);
    }
    assert Holds(m, sub, partition) <==> LastReady(history, sub, partition);
  }
}
