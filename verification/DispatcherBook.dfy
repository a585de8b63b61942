/** The dispatcher's bookkeeping as a value: what its fields and the objects they lead to contain. */
module DispatcherBook {
  import opened Types
  import opened Encodings
  import opened DispatcherTable
  import opened ConsumerObjects

  function UidsAt(home: map<UID, ChannelRef>, channel: ChannelRef): set<UID> {
    set u | u in home && home[u] == channel
  }

  /**
   * What the dispatcher's fields and the objects they lead to contain. `home` is the channel of each
   * live UID, `boxes` the channel of every `KafkaSubscription` ever made, `closed` how often each
   * consumer group ever started was closed.
   */
  datatype Book = Book(
    channels: map<ChannelRef, KafkaSubscription>,
    groups: map<UID, ConsumerGroup>,
    subscriptions: map<UID, Subscription>,
    home: map<UID, ChannelRef>,
    boxes: map<KafkaSubscription, ChannelRef>,
    subs: map<KafkaSubscription, set<UID>>,
    closed: map<ConsumerGroup, nat>)

  /** The three maps index the same UIDs, and each UID is in the set of exactly one channel. */
  ghost predicate IndexInv(k: Book) {
    && k.subscriptions.Keys == k.home.Keys
    && k.groups.Keys == k.home.Keys
    && k.subs.Keys == k.boxes.Keys
    && (forall u :: u in k.subscriptions ==> k.subscriptions[u].uid == u)
    && (forall u :: u in k.home ==> k.home[u] in k.channels)
    && (forall c :: c in k.channels ==>
          && k.channels[c] in k.boxes
          && k.boxes[k.channels[c]] == c
          && k.subs[k.channels[c]] == UidsAt(k.home, c))
  }

  /** The handler of a live group points at the object stored for its channel. */
  ghost predicate SharingInv(k: Book)
    requires IndexInv(k)
  {
    forall u :: u in k.groups ==>
      k.groups[u].handler == ConsumerMessageHandler(k.subscriptions[u], k.channels[k.home[u]], GroupId(k.home[u], u))
  }

  predicate Live(k: Book, g: ConsumerGroup) {
    g.handler.sub.uid in k.groups && k.groups[g.handler.sub.uid] == g
  }

  /** Every group ever started is live, or has been closed exactly once. */
  ghost predicate ConservationInv(k: Book) {
    && (forall u :: u in k.groups ==> k.groups[u] in k.closed)
    && (forall g :: g in k.closed ==>
          && g.handler.kafkaSubscription in k.boxes
          && g.handler.consumerGroup == GroupId(k.boxes[g.handler.kafkaSubscription], g.handler.sub.uid)
          && k.closed[g] == if Live(k, g) then 0 else 1)
  }

  ghost predicate BookInv(k: Book) {
    IndexInv(k) && SharingInv(k) && ConservationInv(k)
  }

  /** The table that the three maps represent. */
  function TableOf(k: Book): Table {
    map u | u in k.home && u in k.subscriptions :: Entry(k.home[u], k.subscriptions[u])
  }

  /** A channel without an object gets one. */
  function WithBox(k: Book, c: ChannelRef, box: KafkaSubscription): Book {
    k.(channels := k.channels[c := box], boxes := k.boxes[box := c], subs := k.subs[box := {}])
  }

  lemma WithBoxInv(k: Book, c: ChannelRef, box: KafkaSubscription)
    requires BookInv(k) && c !in k.channels && box !in k.boxes
    ensures BookInv(WithBox(k, c, box)) && TableOf(WithBox(k, c, box)) == TableOf(k)
  {
    assert UidsAt(k.home, c) == {};
  }

  /** A group that was started for a channel's subscription is recorded. */
  function Inserted(k: Book, c: ChannelRef, sub: Subscription, g: ConsumerGroup): Book
    requires c in k.channels
  {
    var box := k.channels[c];
    k.(subs := k.subs[box := (if box in k.subs then k.subs[box] else {}) + {sub.uid}],
       subscriptions := k.subscriptions[sub.uid := sub],
       groups := k.groups[sub.uid := g],
       home := k.home[sub.uid := c],
       closed := k.closed[g := 0])
  }

  lemma InsertedIndex(k: Book, c: ChannelRef, sub: Subscription, g: ConsumerGroup)
    requires IndexInv(k) && c in k.channels && sub.uid !in k.home
    ensures IndexInv(Inserted(k, c, sub, g))
  {
    var k' := Inserted(k, c, sub, g);
    forall d | d in k'.channels ensures k'.subs[k'.channels[d]] == UidsAt(k'.home, d) {
      if d == c {
        assert UidsAt(k'.home, d) == UidsAt(k.home, d) + {sub.uid};
      } else {
        assert k.boxes[k.channels[d]] == d && k.boxes[k.channels[c]] == c;
        assert UidsAt(k'.home, d) == UidsAt(k.home, d);
      }
    }
  }

  lemma InsertedSharing(k: Book, c: ChannelRef, sub: Subscription, g: ConsumerGroup)
    requires IndexInv(k) && SharingInv(k) && c in k.channels && sub.uid !in k.home
    requires g.handler == ConsumerMessageHandler(sub, k.channels[c], GroupId(c, sub.uid))
    requires IndexInv(Inserted(k, c, sub, g))
    ensures SharingInv(Inserted(k, c, sub, g))
  {
  }

  lemma InsertedConservation(k: Book, c: ChannelRef, sub: Subscription, g: ConsumerGroup)
    requires IndexInv(k) && ConservationInv(k) && c in k.channels && sub.uid !in k.home && g !in k.closed
    requires g.handler == ConsumerMessageHandler(sub, k.channels[c], GroupId(c, sub.uid))
    ensures ConservationInv(Inserted(k, c, sub, g))
  {
    var k' := Inserted(k, c, sub, g);
    forall h | h in k'.closed ensures k'.closed[h] == if Live(k', h) then 0 else 1 {
      if h != g { assert k.closed[h] == if Live(k, h) then 0 else 1; }
    }
  }

  lemma InsertedTable(k: Book, c: ChannelRef, sub: Subscription, g: ConsumerGroup)
    requires c in k.channels
    ensures TableOf(Inserted(k, c, sub, g)) == TableOf(k)[sub.uid := Entry(c, sub)]
  {
  }

  lemma InsertedInv(k: Book, c: ChannelRef, sub: Subscription, g: ConsumerGroup)
    requires BookInv(k) && c in k.channels && sub.uid !in k.home && g !in k.closed
    requires g.handler == ConsumerMessageHandler(sub, k.channels[c], GroupId(c, sub.uid))
    ensures BookInv(Inserted(k, c, sub, g))
    ensures TableOf(Inserted(k, c, sub, g)) == TableOf(k)[sub.uid := Entry(c, sub)]
  {
    InsertedTable(k, c, sub, g);
    InsertedIndex(k, c, sub, g);
    InsertedSharing(k, c, sub, g);
    InsertedConservation(k, c, sub, g);
  }

  /** The first part of `unsubscribe`: the stored subscription is deleted. */
  function Forgotten(k: Book, uid: UID): Book {
    k.(subscriptions := k.subscriptions - {uid})
  }

  /** The second part: the UID leaves the channel's set, and an empty channel loses its object. */
  function Departed(k: Book, c: ChannelRef, uid: UID): Book
    requires c in k.channels
  {
    var box := k.channels[c];
    var left := (if box in k.subs then k.subs[box] else {}) - {uid};
    k.(home := k.home - {uid},
       subs := k.subs[box := left],
       channels := if left == {} then k.channels - {c} else k.channels)
  }

  /** The last part: the UID's group leaves the map and is closed. */
  function Released(k: Book, uid: UID): Book {
    if uid !in k.groups then k
    else
      var g := k.groups[uid];
      k.(groups := k.groups - {uid}, closed := if g in k.closed then k.closed[g := k.closed[g] + 1] else k.closed)
  }

  /** `unsubscribe` */
  function Removed(k: Book, c: ChannelRef, uid: UID): Book {
    if c !in k.channels then Forgotten(k, uid) else Released(Departed(Forgotten(k, uid), c, uid), uid)
  }

  lemma RemovedIndex(k: Book, c: ChannelRef, uid: UID)
    requires IndexInv(k) && c in k.channels && (uid in k.home ==> k.home[uid] == c)
    ensures IndexInv(Removed(k, c, uid))
  {
    assert uid !in k.groups ==> k.groups - {uid} == k.groups;
    LeftIndex(k, Removed(k, c, uid), c, uid);
  }

  lemma LeftIndex(k: Book, k': Book, c: ChannelRef, uid: UID)
    requires IndexInv(k) && c in k.channels && (uid in k.home ==> k.home[uid] == c)
    requires k'.home == k.home - {uid} && k'.groups == k.groups - {uid} && k'.subscriptions == k.subscriptions - {uid}
    requires k'.boxes == k.boxes && k'.subs == k.subs[k.channels[c] := k.subs[k.channels[c]] - {uid}]
    requires k'.channels == if k.subs[k.channels[c]] - {uid} == {} then k.channels - {c} else k.channels
    ensures IndexInv(k')
  {
    UidsAtWithout(k.home, uid, c);
    forall d | d in k'.channels ensures k'.subs[k'.channels[d]] == UidsAt(k'.home, d) {
      if d != c {
        assert k.boxes[k.channels[d]] == d && k.boxes[k.channels[c]] == c;
        UidsAtWithout(k.home, uid, d);
      }
    }
    forall u | u in k'.home ensures k'.home[u] in k'.channels {
      if k'.home[u] == c { assert u in UidsAt(k'.home, c); }
    }
  }

  lemma UidsAtWithout(home: map<UID, ChannelRef>, uid: UID, d: ChannelRef)
    ensures UidsAt(home - {uid}, d) == UidsAt(home, d) - {uid}
    ensures uid in home && home[uid] != d ==> UidsAt(home - {uid}, d) == UidsAt(home, d)
    ensures uid !in home ==> UidsAt(home - {uid}, d) == UidsAt(home, d)
  {
  }

  lemma RemovedSharing(k: Book, c: ChannelRef, uid: UID)
    requires IndexInv(k) && SharingInv(k) && c in k.channels && (uid in k.home ==> k.home[uid] == c)
    requires IndexInv(Removed(k, c, uid))
    ensures SharingInv(Removed(k, c, uid))
  {
  }

  lemma RemovedConservation(k: Book, c: ChannelRef, uid: UID)
    requires IndexInv(k) && SharingInv(k) && ConservationInv(k) && c in k.channels
    ensures ConservationInv(Removed(k, c, uid))
  {
    assert uid in k.groups ==> k.groups[uid].handler.sub.uid == uid;
    ReleasedConservation(Departed(Forgotten(k, uid), c, uid), uid);
  }

  lemma ReleasedConservation(k: Book, uid: UID)
    requires ConservationInv(k) && (uid in k.groups ==> k.groups[uid].handler.sub.uid == uid)
    ensures ConservationInv(Released(k, uid))
  {
    var k' := Released(k, uid);
    forall h | h in k'.closed ensures k'.closed[h] == if Live(k', h) then 0 else 1 {
      assert k.closed[h] == if Live(k, h) then 0 else 1;
    }
  }

  lemma RemovedTable(k: Book, c: ChannelRef, uid: UID)
    requires k.subscriptions.Keys == k.home.Keys
    ensures TableOf(Removed(k, c, uid)) == TableOf(k) - {uid}
  {
  }

  lemma RemovedInv(k: Book, c: ChannelRef, uid: UID)
    requires BookInv(k) && (uid in k.home ==> k.home[uid] == c)
    ensures BookInv(Removed(k, c, uid))
    ensures TableOf(Removed(k, c, uid)) == TableOf(k) - {uid}
  {
    RemovedTable(k, c, uid);
    if c in k.channels {
      RemovedIndex(k, c, uid);
      RemovedSharing(k, c, uid);
      RemovedConservation(k, c, uid);
    } else {
      assert Removed(k, c, uid).subscriptions == k.subscriptions;
    }
  }

  /** What a call for channel `c` leaves alone, from `k` to `k'`. */
  ghost predicate Framed(k: Book, k': Book, c: ChannelRef) {
    && k.boxes.Keys <= k'.boxes.Keys
    && k.closed.Keys <= k'.closed.Keys
    && (forall d :: d in k.channels && d in k'.channels ==> k'.channels[d] == k.channels[d])
    && (forall d :: d != c ==> (d in k.channels <==> d in k'.channels))
    && (forall u :: u in k.groups && u in k'.groups ==> k'.groups[u] == k.groups[u])
    && (forall g :: g in k'.closed && g !in k.closed ==> Live(k', g) && g.handler.sub.uid !in k.groups)
  }

  /** `subscribe` with the channel's object and, when it could be started, the group. */
  function Subscribed(k: Book, c: ChannelRef, sub: Subscription, box: KafkaSubscription, group: Option<ConsumerGroup>): Book {
    var k1 := if c in k.channels then k else WithBox(k, c, box);
    if group.Some? then Inserted(k1, c, sub, group.value) else k1
  }

  lemma SubscribedFramed(k: Book, k1: Book, c: ChannelRef, sub: Subscription, box: KafkaSubscription, group: Option<ConsumerGroup>)
    requires Framed(k, k1, c)
    requires c in k.channels ==> c in k1.channels
    requires group.Some? ==>
               && group.value.handler.sub == sub
               && sub.uid !in k.groups && sub.uid !in k1.groups
    ensures Framed(k, Subscribed(k1, c, sub, box, group), c)
    ensures c in Subscribed(k1, c, sub, box, group).channels
  {
    var k2 := if c in k1.channels then k1 else WithBox(k1, c, box);
    if c !in k1.channels {
      WithBoxFramed(k, k1, c, box);
    }
    if group.Some? {
      InsertedFramed(k, k2, c, sub, group.value);
    }
  }

  lemma SubscribedInv(k: Book, c: ChannelRef, sub: Subscription, box: KafkaSubscription, group: Option<ConsumerGroup>)
    requires BookInv(k)
    requires if c in k.channels then box == k.channels[c] else box !in k.boxes
    requires group.Some? ==>
               && sub.uid !in k.home
               && group.value !in k.closed
               && group.value.handler == ConsumerMessageHandler(sub, box, GroupId(c, sub.uid))
    ensures BookInv(Subscribed(k, c, sub, box, group))
  {
    var k1 := if c in k.channels then k else WithBox(k, c, box);
    if c !in k.channels {
      WithBoxInv(k, c, box);
    }
    if group.Some? {
      InsertedInv(k1, c, sub, group.value);
    }
  }

  lemma SubscribedTable(k: Book, c: ChannelRef, sub: Subscription, box: KafkaSubscription, group: Option<ConsumerGroup>)
    ensures TableOf(Subscribed(k, c, sub, box, group)) ==
            if group.Some? then TableOf(k)[sub.uid := Entry(c, sub)] else TableOf(k)
  {
  }

  lemma WithBoxFramed(k: Book, k1: Book, c: ChannelRef, box: KafkaSubscription)
    requires Framed(k, k1, c) && c !in k1.channels && c !in k.channels
    ensures Framed(k, WithBox(k1, c, box), c)
  {
  }

  lemma InsertedFramed(k: Book, k1: Book, c: ChannelRef, sub: Subscription, g: ConsumerGroup)
    requires Framed(k, k1, c) && c in k1.channels
    requires sub.uid !in k.groups && sub.uid !in k1.groups && g.handler.sub == sub
    ensures Framed(k, Inserted(k1, c, sub, g), c)
  {
  }

  lemma RemovedFramed(k: Book, k1: Book, c: ChannelRef, uid: UID)
    requires Framed(k, k1, c) && uid in k.groups
    ensures Framed(k, Removed(k1, c, uid), c)
  {
    ForgottenFramed(k, k1, c, uid);
    if c in k1.channels {
      DepartedFramed(k, Forgotten(k1, uid), c, uid);
      ReleasedFramed(k, Departed(Forgotten(k1, uid), c, uid), c, uid);
    }
  }

  lemma ForgottenFramed(k: Book, k1: Book, c: ChannelRef, uid: UID)
    requires Framed(k, k1, c)
    ensures Framed(k, Forgotten(k1, uid), c)
  {
  }

  lemma DepartedFramed(k: Book, k1: Book, c: ChannelRef, uid: UID)
    requires Framed(k, k1, c) && c in k1.channels
    ensures Framed(k, Departed(k1, c, uid), c)
  {
  }

  lemma ReleasedFramed(k: Book, k1: Book, c: ChannelRef, uid: UID)
    requires Framed(k, k1, c) && uid in k.groups
    ensures Framed(k, Released(k1, uid), c)
  {
    var k2 := Released(k1, uid);
    forall g | g in k2.closed && g !in k.closed ensures Live(k2, g) && g.handler.sub.uid !in k.groups {
      assert Live(k1, g) && g.handler.sub.uid !in k.groups;
    }
  }

  /** The set the channel's object holds is the channel's part of the table. */
  lemma SubsAreLive(k: Book, c: ChannelRef)
    requires IndexInv(k)
    ensures LiveOf(TableOf(k), c) == if c in k.channels then k.subs[k.channels[c]] else {}
  {
  }

  /** The outcome that the environment has chosen for a UID. */
  function Outcome(errors: map<UID, string>, uid: UID): Option<string> {
    if uid in errors then Some(errors[uid]) else None
  }

  /** The table when the UIDs in `done` have been tried. */
  function Added(t: Table, c: ChannelRef, toAdd: map<UID, Subscription>, done: set<UID>, failing: set<UID>): Table {
    t + map u | u in toAdd && u in done && u !in failing :: Entry(c, toAdd[u])
  }

  /** The errors collected when the UIDs in `done` have been tried. */
  function Failures(done: set<UID>, errors: map<UID, string>): map<UID, string> {
    map u | u in errors && u in done :: errors[u]
  }

  lemma AddedNext(t: Table, c: ChannelRef, toAdd: map<UID, Subscription>, done: set<UID>, failing: set<UID>, uid: UID)
    requires uid in toAdd && uid !in done
    ensures uid !in t ==> uid !in Added(t, c, toAdd, done, failing)
    ensures Added(t, c, toAdd, done + {uid}, failing) ==
            if uid in failing then Added(t, c, toAdd, done, failing)
            else Added(t, c, toAdd, done, failing)[uid := Entry(c, toAdd[uid])]
  {
  }

  lemma FailuresNext(done: set<UID>, errors: map<UID, string>, uid: UID)
    requires uid !in done
    ensures Failures(done + {uid}, errors) ==
            if uid in errors then Failures(done, errors)[uid := errors[uid]] else Failures(done, errors)
  {
  }

  /** The errors collected are those of the UIDs tried, and there is one exactly when one of them failed. */
  lemma FailuresExact(done: set<UID>, errors: map<UID, string>)
    ensures Failures(done, errors).Keys == done * errors.Keys
    ensures Failures(done, errors) == map[] <==> done * errors.Keys == {}
  {
    var failed := Failures(done, errors);
    assert failed.Keys == done * errors.Keys;
    assert failed == map[] <==> failed.Keys == {};
  }

  lemma TableKeys(k: Book)
    requires IndexInv(k)
    ensures TableOf(k).Keys == k.home.Keys == k.groups.Keys
    ensures forall c :: c in k.channels ==> k.channels[c] in k.subs
  {
  }

  // Reconciling: a run of attempts to subscribe, then a run of removals

  /** One `subscribe`: the channel's object it found or made, and the group if it could be started. */
  datatype Attempt = Attempt(sub: Subscription, box: KafkaSubscription, group: Option<ConsumerGroup>)

  /** An object that had to be made is new, and so is a group, whose handler points at the object. */
  ghost predicate Genuine(k: Book, c: ChannelRef, a: Attempt) {
    && (if c in k.channels then a.box == k.channels[c] else a.box !in k.boxes)
    && (a.group.Some? ==>
          && a.group.value !in k.closed
          && a.group.value.handler == ConsumerMessageHandler(a.sub, a.box, GroupId(c, a.sub.uid)))
  }

  /** What is in the books, and which UIDs have been tried. */
  datatype Progress = Progress(book: Book, done: set<UID>)

  /** One more attempt, for a UID of `toAdd` not tried before; it fails if the environment says so. */
  ghost function Try(p: Progress, c: ChannelRef, toAdd: map<UID, Subscription>, failing: set<UID>, a: Attempt)
    : Option<Progress>
  {
    var uid := a.sub.uid;
    if && uid in toAdd && toAdd[uid] == a.sub && uid !in p.done
       && (a.group.None? <==> uid in failing)
       && Genuine(p.book, c, a)
    then Some(Progress(Subscribed(p.book, c, a.sub, a.box, a.group), p.done + {uid}))
    else None
  }

  /** Where a run of attempts leads. */
  ghost function Tried(k: Book, c: ChannelRef, toAdd: map<UID, Subscription>, failing: set<UID>, attempts: seq<Attempt>)
    : Option<Progress>
  {
    if attempts == [] then Some(Progress(k, {}))
    else
      var before := Tried(k, c, toAdd, failing, attempts[..|attempts| - 1]);
      if before.None? then None else Try(before.value, c, toAdd, failing, attempts[|attempts| - 1])
  }

  lemma TriedNext(k: Book, c: ChannelRef, toAdd: map<UID, Subscription>, failing: set<UID>, attempts: seq<Attempt>, a: Attempt)
    requires Tried(k, c, toAdd, failing, attempts).Some?
    ensures Tried(k, c, toAdd, failing, attempts + [a]) ==
            Try(Tried(k, c, toAdd, failing, attempts).value, c, toAdd, failing, a)
  {
    assert (attempts + [a])[..|attempts + [a]| - 1] == attempts;
  }

  /** A run of attempts keeps the invariant and adds the UIDs that did not fail. */
  lemma {:induction false} TriedAdds(k: Book, c: ChannelRef, toAdd: map<UID, Subscription>, failing: set<UID>,
                                     attempts: seq<Attempt>)
    requires BookInv(k) && forall u :: u in toAdd && u !in failing ==> u !in k.home
    requires Tried(k, c, toAdd, failing, attempts).Some?
    ensures var p := Tried(k, c, toAdd, failing, attempts).value;
            && BookInv(p.book)
            && TableOf(p.book) == Added(TableOf(k), c, toAdd, p.done, failing)
            && Framed(k, p.book, c)
            && (c in k.channels ==> c in p.book.channels)
  {
    if attempts == [] {
      NothingAdded(TableOf(k), c, toAdd, failing);
    } else {
      TriedAdds(k, c, toAdd, failing, attempts[..|attempts| - 1]);
      TryAdds(k, Tried(k, c, toAdd, failing, attempts[..|attempts| - 1]).value, c, toAdd, failing, attempts[|attempts| - 1]);
    }
  }

  lemma TryAdds(k: Book, p: Progress, c: ChannelRef, toAdd: map<UID, Subscription>, failing: set<UID>, a: Attempt)
    requires IndexInv(k) && forall u :: u in toAdd && u !in failing ==> u !in k.home
    requires Try(p, c, toAdd, failing, a).Some?
    requires BookInv(p.book) && Framed(k, p.book, c) && (c in k.channels ==> c in p.book.channels)
    requires TableOf(p.book) == Added(TableOf(k), c, toAdd, p.done, failing)
    ensures var p' := Try(p, c, toAdd, failing, a).value;
            && BookInv(p'.book)
            && TableOf(p'.book) == Added(TableOf(k), c, toAdd, p'.done, failing)
            && Framed(k, p'.book, c)
            && (c in k.channels ==> c in p'.book.channels)
  {
    TableKeys(k);
    TableKeys(p.book);
    AddedNext(TableOf(k), c, toAdd, p.done, failing, a.sub.uid);
    SubscribedInv(p.book, c, a.sub, a.box, a.group);
    SubscribedTable(p.book, c, a.sub, a.box, a.group);
    SubscribedFramed(k, p.book, c, a.sub, a.box, a.group);
  }

  lemma NothingAdded(t: Table, c: ChannelRef, toAdd: map<UID, Subscription>, failing: set<UID>)
    ensures Added(t, c, toAdd, {}, failing) == t
  {
  }

  /** Every attempt leaves the channel with an object. */
  lemma {:induction false} TriedEntry(k: Book, c: ChannelRef, toAdd: map<UID, Subscription>, failing: set<UID>,
                                      attempts: seq<Attempt>)
    requires Tried(k, c, toAdd, failing, attempts).Some?
    ensures c in Tried(k, c, toAdd, failing, attempts).value.book.channels <==> c in k.channels || attempts != []
    ensures attempts == [] <==> Tried(k, c, toAdd, failing, attempts).value.done == {}
  {
    if attempts != [] {
      TriedEntry(k, c, toAdd, failing, attempts[..|attempts| - 1]);
    }
  }

  function RemovedAll(k: Book, c: ChannelRef, uids: seq<UID>): Book {
    if uids == [] then k
    else Removed(RemovedAll(k, c, uids[..|uids| - 1]), c, uids[|uids| - 1])
  }

  lemma RemovedAllNext(k: Book, c: ChannelRef, uids: seq<UID>, uid: UID)
    ensures RemovedAll(k, c, uids + [uid]) == Removed(RemovedAll(k, c, uids), c, uid)
  {
    assert (uids + [uid])[..|uids + [uid]| - 1] == uids;
  }

  /** A run of removals from a channel keeps the invariant and removes exactly those UIDs. */
  lemma {:induction false} RemovalsRemove(start: Book, k: Book, c: ChannelRef, uids: seq<UID>)
    requires BookInv(k) && Framed(start, k, c)
    requires forall u :: u in uids ==> u in start.groups && u in k.home && k.home[u] == c
    ensures BookInv(RemovedAll(k, c, uids))
    ensures RemovedAll(k, c, uids).home == k.home - Elements(uids)
    ensures TableOf(RemovedAll(k, c, uids)) == TableOf(k) - Elements(uids)
    ensures Framed(start, RemovedAll(k, c, uids), c)
  {
    if uids == [] {
      MinusOneMore(k.home, [], "");
      MinusOneMore(TableOf(k), [], "");
    } else {
      var front, uid := uids[..|uids| - 1], uids[|uids| - 1];
      assert uids == front + [uid];
      RemovalsRemove(start, k, c, front);
      var before := RemovedAll(k, c, front);
      RemovedInv(before, c, uid);
      RemovedFramed(start, before, c, uid);
      RemovedHome(before, c, uid);
      MinusOneMore(k.home, front, uid);
      MinusOneMore(TableOf(k), front, uid);
    }
  }

  lemma RemovedHome(k: Book, c: ChannelRef, uid: UID)
    requires IndexInv(k) && (uid in k.home ==> k.home[uid] == c)
    ensures Removed(k, c, uid).home == k.home - {uid}
  {
    if uid !in k.home { assert k.home - {uid} == k.home; }
  }

  /** What the channel's object holds. */
  function HeldBy(k: Book, c: ChannelRef): set<UID> {
    if c in k.channels && k.channels[c] in k.subs then k.subs[k.channels[c]] else {}
  }

  /** The wanted UIDs that are not held, with the subscriptions to start for them. */
  function AddFor(held: set<UID>, config: ChannelConfig): map<UID, Subscription> {
    var wanted := Wanted(config.subscriptions);
    map u | u in wanted && u in UidsOf(config.subscriptions) - held :: wanted[u]
  }

  /** The UIDs that are held and not wanted. */
  function RemoveFor(held: set<UID>, config: ChannelConfig): set<UID> {
    held - UidsOf(config.subscriptions)
  }

  function ToAdd(t: Table, config: ChannelConfig): map<UID, Subscription> {
    AddFor(LiveOf(t, config.channel), config)
  }

  function ToRemove(t: Table, config: ChannelConfig): set<UID> {
    RemoveFor(LiveOf(t, config.channel), config)
  }

  lemma AddForKeys(held: set<UID>, config: ChannelConfig)
    ensures AddFor(held, config).Keys == UidsOf(config.subscriptions) - held
  {
    WantedKeys(config.subscriptions);
    forall u ensures u in Wanted(config.subscriptions) <==> u in UidsOf(config.subscriptions) {
      assert u in Wanted(config.subscriptions).Keys <==> u in UidsOf(config.subscriptions);
    }
  }

  /** Trying all missing UIDs and removing all unwanted ones is `Reconciled`. */
  lemma AddedThenRemoved(t: Table, config: ChannelConfig, toAdd: map<UID, Subscription>, failing: set<UID>)
    requires Unclaimed(t, config, failing)
    requires toAdd == ToAdd(t, config)
    ensures forall u :: u in toAdd && u !in failing ==> u !in t
    ensures Added(t, config.channel, toAdd, toAdd.Keys, failing)
            - ToRemove(t, config)
            == Reconciled(t, config, failing)
  {
    WantedKeys(config.subscriptions);
    var wanted := Wanted(config.subscriptions);
    forall u ensures u in wanted <==> u in UidsOf(config.subscriptions) {
      assert u in wanted.Keys <==> u in UidsOf(config.subscriptions);
    }
  }

  /**
   * What `ReconcileConsumers` does to the bookkeeping, whichever attempts fail and in whatever order
   * the maps are iterated: the invariant holds and the table is `Reconciled`.
   */
  lemma ReconcileRun(k: Book, config: ChannelConfig, failing: set<UID>, attempts: seq<Attempt>, gone: seq<UID>)
    requires BookInv(k) && Unclaimed(TableOf(k), config, failing)
    requires var toAdd := ToAdd(TableOf(k), config);
             var p := Tried(k, config.channel, toAdd, failing, attempts);
             p.Some? && p.value.done == toAdd.Keys
    requires Elements(gone) == ToRemove(TableOf(k), config)
    ensures var k1 := Tried(k, config.channel, ToAdd(TableOf(k), config), failing, attempts).value.book;
            var k' := RemovedAll(k1, config.channel, gone);
            && BookInv(k')
            && TableOf(k') == Reconciled(TableOf(k), config, failing)
            && Framed(k, k', config.channel)
  {
    var c, toAdd := config.channel, ToAdd(TableOf(k), config);
    AddedThenRemoved(TableOf(k), config, toAdd, failing);
    TableKeys(k);
    TriedAdds(k, c, toAdd, failing, attempts);
    var k1 := Tried(k, c, toAdd, failing, attempts).value.book;
    TableKeys(k1);
    forall u | u in gone ensures u in k.groups && u in k1.home && k1.home[u] == c {
      assert u in Elements(gone);
      assert TableOf(k1)[u] == TableOf(k)[u];
    }
    RemovalsRemove(k, k1, c, gone);
  }

  // A UID that another channel has

  /** What even a reconcile that takes a UID from another channel keeps. */
  ghost predicate Sound(k: Book) {
    && (forall c :: c in k.channels ==> k.channels[c] in k.boxes)
    && (forall u :: u in k.groups ==> k.groups[u] in k.closed && k.groups[u].handler.sub.uid == u)
    && (forall g :: g in k.closed ==> g.handler.kafkaSubscription in k.boxes)
  }

  /** The UIDs are stored under their own keys. */
  ghost predicate Stored(k: Book, uids: set<UID>) {
    forall u :: u in uids ==> u in k.subscriptions && k.subscriptions[u].uid == u
  }

  /** With the invariant the channel's object holds its part of the table, and each of its UIDs is stored. */
  lemma BookHoldings(k: Book, c: ChannelRef)
    requires BookInv(k)
    ensures Sound(k) && HeldBy(k, c) == LiveOf(TableOf(k), c) && Stored(k, HeldBy(k, c))
    ensures HeldBy(k, c) <= k.groups.Keys
  {
    SubsAreLive(k, c);
  }

  lemma {:induction false} TriedSound(k: Book, c: ChannelRef, toAdd: map<UID, Subscription>, failing: set<UID>,
                                      attempts: seq<Attempt>)
    requires Sound(k) && Tried(k, c, toAdd, failing, attempts).Some?
    ensures var k' := Tried(k, c, toAdd, failing, attempts).value.book;
            && Sound(k')
            && forall u :: u in k.subscriptions && u !in toAdd ==> u in k'.subscriptions && k'.subscriptions[u] == k.subscriptions[u]
  {
    if attempts != [] {
      TriedSound(k, c, toAdd, failing, attempts[..|attempts| - 1]);
    }
  }

  /** What the removals of `ReconcileConsumers` find after its attempts. */
  lemma BeforeRemovals(k: Book, config: ChannelConfig, held: set<UID>, failing: set<UID>, attempts: seq<Attempt>, k1: Book)
    requires Sound(k)
    requires Tried(k, config.channel, AddFor(held, config), failing, attempts) ==
             Some(Progress(k1, AddFor(held, config).Keys))
    ensures Sound(k1)
    ensures Stored(k, RemoveFor(held, config)) ==> Stored(k1, RemoveFor(held, config))
  {
    AddForKeys(held, config);
    TriedSound(k, config.channel, AddFor(held, config), failing, attempts);
    forall u | u in RemoveFor(held, config) ensures u !in AddFor(held, config) {
      assert u !in UidsOf(config.subscriptions) - held;
    }
  }

  lemma {:induction false} RemovalsSound(k: Book, c: ChannelRef, uids: seq<UID>)
    requires Sound(k)
    ensures Sound(RemovedAll(k, c, uids))
  {
    if uids != [] {
      RemovalsSound(k, c, uids[..|uids| - 1]);
      RemovedSound(RemovedAll(k, c, uids[..|uids| - 1]), c, uids[|uids| - 1]);
    }
  }

  lemma RemovedSound(k: Book, c: ChannelRef, uid: UID)
    requires Sound(k)
    ensures Sound(Removed(k, c, uid))
  {
    if c in k.channels {
      assert Sound(Departed(Forgotten(k, uid), c, uid));
    }
  }

  /** A group that nobody can close any more: it is not live and was never closed. */
  predicate Leaked(k: Book, g: ConsumerGroup) {
    g in k.closed && k.closed[g] == 0 && !Live(k, g)
  }

  /** After the attempts each UID that could be started has a new group, and no group was closed. */
  lemma {:induction false} TriedTakes(k: Book, c: ChannelRef, toAdd: map<UID, Subscription>, failing: set<UID>,
                                      attempts: seq<Attempt>)
    requires Tried(k, c, toAdd, failing, attempts).Some?
    ensures var p := Tried(k, c, toAdd, failing, attempts).value;
            && (forall g :: g in k.closed ==> g in p.book.closed && p.book.closed[g] == k.closed[g])
            && (forall u :: u in p.done && u !in failing ==> u in p.book.groups && p.book.groups[u] !in k.closed)
  {
    if attempts != [] {
      TriedTakes(k, c, toAdd, failing, attempts[..|attempts| - 1]);
    }
  }

  /** A leak is for ever. */
  lemma {:induction false} LeakStays(k: Book, c: ChannelRef, uids: seq<UID>, g: ConsumerGroup)
    requires Sound(k) && Leaked(k, g)
    ensures Leaked(RemovedAll(k, c, uids), g)
  {
    if uids != [] {
      LeakStays(k, c, uids[..|uids| - 1], g);
      RemovalsSound(k, c, uids[..|uids| - 1]);
      RemovedLeak(RemovedAll(k, c, uids[..|uids| - 1]), c, uids[|uids| - 1], g);
    }
  }

  lemma RemovedLeak(k: Book, c: ChannelRef, uid: UID, g: ConsumerGroup)
    requires Sound(k) && Leaked(k, g)
    ensures Leaked(Removed(k, c, uid), g)
  {
  }

  /** Taking a UID from another channel leaks the group that it had there. */
  lemma TakeoverLeaks(k: Book, config: ChannelConfig, failing: set<UID>, attempts: seq<Attempt>, gone: seq<UID>, k1: Book, u: UID)
    requires BookInv(k)
    requires Tried(k, config.channel, ToAdd(TableOf(k), config), failing, attempts) ==
             Some(Progress(k1, ToAdd(TableOf(k), config).Keys))
    requires u in UidsOf(config.subscriptions) && u !in failing
    requires u in TableOf(k) && TableOf(k)[u].channel != config.channel
    ensures u in k.groups && Leaked(RemovedAll(k1, config.channel, gone), k.groups[u])
  {
    var toAdd, g := ToAdd(TableOf(k), config), k.groups[u];
    AddForKeys(LiveOf(TableOf(k), config.channel), config);
    TableKeys(k);
    assert u in Missing(TableOf(k), config);
    assert Live(k, g) && k.closed[g] == 0;
    TriedSound(k, config.channel, toAdd, failing, attempts);
    TriedTakes(k, config.channel, toAdd, failing, attempts);
    LeakStays(k1, config.channel, gone, g);
  }

  /**
   * The invariant survives a reconcile exactly when no wanted UID that can be started belongs to
   * another channel: the code does not look, and the other channel's group is then never closed.
   */
  lemma ReconcileKeepsInv(k: Book, config: ChannelConfig, failing: set<UID>, attempts: seq<Attempt>, gone: seq<UID>, k1: Book)
    requires BookInv(k)
    requires Tried(k, config.channel, ToAdd(TableOf(k), config), failing, attempts) ==
             Some(Progress(k1, ToAdd(TableOf(k), config).Keys))
    requires Elements(gone) == ToRemove(TableOf(k), config)
    ensures BookInv(RemovedAll(k1, config.channel, gone)) <==> Unclaimed(TableOf(k), config, failing)
  {
    if Unclaimed(TableOf(k), config, failing) {
      ReconcileRun(k, config, failing, attempts, gone);
    } else {
      var u :| && u in UidsOf(config.subscriptions) && u in TableOf(k) && u !in failing
               && TableOf(k)[u].channel != config.channel;
      TakeoverLeaks(k, config, failing, attempts, gone, k1, u);
      LeakedNoInv(RemovedAll(k1, config.channel, gone), k.groups[u]);
    }
  }

  lemma LeakedNoInv(k: Book, g: ConsumerGroup)
    requires Leaked(k, g)
    ensures !BookInv(k)
  {
  }

  /** A channel whose object holds exactly what is wanted is left alone. */
  lemma NothingToDo(k: Book, config: ChannelConfig, failing: set<UID>, attempts: seq<Attempt>, gone: seq<UID>, k1: Book)
    requires Tried(k, config.channel, AddFor(UidsOf(config.subscriptions), config), failing, attempts) ==
             Some(Progress(k1, AddFor(UidsOf(config.subscriptions), config).Keys))
    requires Elements(gone) == RemoveFor(UidsOf(config.subscriptions), config)
    ensures RemovedAll(k1, config.channel, gone) == k
  {
    var toAdd := AddFor(UidsOf(config.subscriptions), config);
    assert toAdd.Keys == {};
    TriedEntry(k, config.channel, toAdd, failing, attempts);
    NoElements(gone);
  }

  /**
   * What `CleanupChannel` does when it has removed `gone`, which is all of the channel's live UIDs
   * unless closing the group of the last one failed.
   */
  lemma CleanupRun(k: Book, c: ChannelRef, gone: seq<UID>, failed: bool)
    requires BookInv(k)
    requires Elements(gone) <= LiveOf(TableOf(k), c)
    requires if failed then gone != [] else Elements(gone) == LiveOf(TableOf(k), c)
    ensures var k' := RemovedAll(k, c, gone);
            && BookInv(k')
            && Framed(k, k', c)
            && TableOf(k') == TableOf(k) - Elements(gone)
            && CleanupStep(TableOf(k), c, TableOf(k'), failed)
            && (!failed ==> TableOf(k') == Cleaned(TableOf(k), c))
  {
    TableKeys(k);
    forall u | u in gone ensures u in k.groups && u in k.home && k.home[u] == c {
      assert u in Elements(gone);
    }
    RemovalsRemove(k, k, c, gone);
    NoElements(gone);
    RemovalIsCleanup(TableOf(k), c, Elements(gone), failed);
  }

  /**
   * After removals the channel has an entry only if it has a live UID; without any, it has one exactly
   * if it had one before. So an entry that a failed `subscribe` left empty is never cleaned up.
   */
  lemma {:induction false} EntryAfterRemovals(k: Book, c: ChannelRef, gone: seq<UID>)
    requires BookInv(RemovedAll(k, c, gone))
    ensures c in RemovedAll(k, c, gone).channels <==>
            LiveOf(TableOf(RemovedAll(k, c, gone)), c) != {} || (gone == [] && c in k.channels)
  {
    var k' := RemovedAll(k, c, gone);
    SubsAreLive(k', c);
    if gone != [] && c in k'.channels {
      LastLeaves(RemovedAll(k, c, gone[..|gone| - 1]), c, gone[|gone| - 1]);
    }
  }

  lemma LastLeaves(k: Book, c: ChannelRef, uid: UID)
    requires c in Removed(k, c, uid).channels
    ensures var k' := Removed(k, c, uid);
            k'.channels[c] in k'.subs && k'.subs[k'.channels[c]] != {}
  {
    DepartedLeaves(Forgotten(k, uid), c, uid);
  }

  lemma DepartedLeaves(k: Book, c: ChannelRef, uid: UID)
    requires c in k.channels && c in Departed(k, c, uid).channels
    ensures var k' := Departed(k, c, uid);
            k'.channels[c] in k'.subs && k'.subs[k'.channels[c]] != {}
  {
  }

  /** The object of the channel is the one that the group's handler points at. */
  predicate SeenBy(k: Book, group: ConsumerGroup, c: ChannelRef) {
    c in k.channels && k.channels[c] == group.handler.kafkaSubscription
  }

  /**
   * What a live group reports is seen in the object of its own channel and of no other; what a closed
   * group reports is seen at most by the channel it was started for.
   */
  lemma ReportsReachOneChannel(k: Book, group: ConsumerGroup)
    requires BookInv(k) && group in k.closed
    ensures group.handler.kafkaSubscription in k.boxes
    ensures Live(k, group) ==> forall c :: SeenBy(k, group, c) <==> c == k.home[group.handler.sub.uid]
    ensures forall c :: SeenBy(k, group, c) ==>
              && c == k.boxes[group.handler.kafkaSubscription]
              && group.handler.consumerGroup == GroupId(c, group.handler.sub.uid)
  {
  }

  /** No two live subscriptions have the same consumer group ID, whatever their channels, as UIDs have no dot. */
  lemma GroupIdsDiffer(k: Book, u: UID, v: UID)
    requires BookInv(k) && u in k.groups && v in k.groups
    requires '.' !in u && '.' !in v
    ensures k.groups[u].handler.consumerGroup == k.groups[v].handler.consumerGroup <==> u == v
  {
    GroupIdParts(k.home[u], u, k.home[v], v);
  }
}
