/**
 * The dispatcher's bookkeeping as one table: which channel and which stored subscription a UID has.
 * The three maps of the dispatcher represent such a table (see `Dispatcher`).
 */
module DispatcherTable {
  import opened Types

  /** A subscription: its UID and the rest of its specification. */
  datatype Subscription = Subscription(uid: UID, spec: string)

  /** `ChannelConfig` */
  datatype ChannelConfig = ChannelConfig(channel: ChannelRef, subscriptions: seq<Subscription>)

  datatype Entry = Entry(channel: ChannelRef, sub: Subscription)

  type Table = map<UID, Entry>

  /** The live subscriptions of a channel. */
  function LiveOf(t: Table, channel: ChannelRef): set<UID> {
    set u | u in t && t[u].channel == channel
  }

  /** The UIDs a list of subscriptions asks for; when one is repeated, the last one counts. */
  function Wanted(subs: seq<Subscription>): map<UID, Subscription> {
    if subs == [] then map[]
    else Wanted(subs[..|subs| - 1])[subs[|subs| - 1].uid := subs[|subs| - 1]]
  }

  function UidsOf(subs: seq<Subscription>): set<UID> {
    set s | s in subs :: s.uid
  }

  lemma {:induction false} WantedKeys(subs: seq<Subscription>)
    ensures Wanted(subs).Keys == UidsOf(subs)
    ensures forall u :: u in Wanted(subs) ==> Wanted(subs)[u].uid == u && Wanted(subs)[u] in subs
  {
    if subs != [] {
      var front, last := subs[..|subs| - 1], subs[|subs| - 1];
      WantedKeys(front);
      assert subs == front + [last];
      assert UidsOf(subs) == UidsOf(front) + {last.uid};
    }
  }

  /** Of the subscriptions that repeat a UID, the last one counts. */
  lemma {:induction false} WantedLast(subs: seq<Subscription>, i: nat)
    requires i < |subs| && forall j :: i < j < |subs| ==> subs[j].uid != subs[i].uid
    ensures subs[i].uid in Wanted(subs) && Wanted(subs)[subs[i].uid] == subs[i]
  {
    if i < |subs| - 1 {
      WantedLast(subs[..|subs| - 1], i);
    }
  }

  /** No wanted UID that can be started belongs to another channel. */
  predicate Unclaimed(t: Table, config: ChannelConfig, failing: set<UID>) {
    forall u :: u in UidsOf(config.subscriptions) && u in t && u !in failing ==> t[u].channel == config.channel
  }

  /** The UIDs whose consumer group has to be started. */
  function Missing(t: Table, config: ChannelConfig): set<UID> {
    UidsOf(config.subscriptions) - LiveOf(t, config.channel)
  }

  /**
   * The table after `ReconcileConsumers`, when starting fails for `failing`: the channel's unwanted
   * entries are gone, its other entries are as they were, and the wanted ones that could be started
   * are there.
   */
  function Reconciled(t: Table, config: ChannelConfig, failing: set<UID>): Table {
    var wanted := Wanted(config.subscriptions);
    map u | u in t.Keys + wanted.Keys
            && (if u in t then t[u].channel != config.channel || u in wanted else u !in failing)
          :: if u in t then t[u] else Entry(config.channel, wanted[u])
  }

  /** The table after `CleanupChannel` without Close errors. */
  function Cleaned(t: Table, channel: ChannelRef): Table {
    map u | u in t && t[u].channel != channel :: t[u]
  }

  predicate LastOfItsUid(subs: seq<Subscription>, i: int) {
    0 <= i < |subs| && forall j :: i < j < |subs| ==> subs[j].uid != subs[i].uid
  }

  /**
   * Reconcile refines a set assignment: the channel's live set becomes the wanted set minus the UIDs
   * that had to be started and could not; it is the wanted set exactly when nothing failed; what is
   * retained keeps its stored subscription, what is started stores the last one listed for its UID, and
   * other channels keep all their entries.
   */
  lemma ReconcileAssigns(t: Table, config: ChannelConfig, failing: set<UID>)
    requires Unclaimed(t, config, failing)
    ensures var t' := Reconciled(t, config, failing);
            var failed := Missing(t, config) * failing;
            && LiveOf(t', config.channel) == UidsOf(config.subscriptions) - failed
            && (LiveOf(t', config.channel) == UidsOf(config.subscriptions) <==> failed == {})
            && failed == UidsOf(config.subscriptions) - LiveOf(t', config.channel)
            && (forall u :: u in t && u in t' ==> t'[u] == t[u])
            && (forall u :: u in t' && u !in t ==> t'[u].sub in config.subscriptions && t'[u].sub.uid == u)
            && (forall i :: LastOfItsUid(config.subscriptions, i) && config.subscriptions[i].uid in t'
                            && config.subscriptions[i].uid !in t ==>
                  t'[config.subscriptions[i].uid].sub == config.subscriptions[i])
            && (forall c :: c != config.channel ==> LiveOf(t', c) == LiveOf(t, c))
  {
    WantedKeys(config.subscriptions);
    forall i | LastOfItsUid(config.subscriptions, i)
      ensures Wanted(config.subscriptions)[config.subscriptions[i].uid] == config.subscriptions[i]
    {
      WantedLast(config.subscriptions, i);
    }
    var t' := Reconciled(t, config, failing);
    forall u ensures u in LiveOf(t', config.channel) <==>
                     u in UidsOf(config.subscriptions) && !(u in Missing(t, config) && u in failing)
    {
      assert u in UidsOf(config.subscriptions) <==> u in Wanted(config.subscriptions).Keys;
    }
  }

  /** Cleaning up a channel is reconciling it to no subscriptions. */
  lemma CleanupIsEmptyReconcile(t: Table, channel: ChannelRef, failing: set<UID>)
    ensures Cleaned(t, channel) == Reconciled(t, ChannelConfig(channel, []), failing)
    ensures LiveOf(Cleaned(t, channel), channel) == {}
  {
  }

  /** Reconciles of different channels commute, whatever fails. */
  lemma ReconcilesCommute(t: Table, a: ChannelConfig, b: ChannelConfig, failing: set<UID>)
    requires a.channel != b.channel
    requires Unclaimed(t, a, failing) && Unclaimed(t, b, failing)
    requires UidsOf(a.subscriptions) !! UidsOf(b.subscriptions)
    ensures Reconciled(Reconciled(t, a, failing), b, failing) == Reconciled(Reconciled(t, b, failing), a, failing)
  {
    WantedKeys(a.subscriptions);
    WantedKeys(b.subscriptions);
    var ta, tb := Reconciled(t, a, failing), Reconciled(t, b, failing);
    var wa, wb := Wanted(a.subscriptions), Wanted(b.subscriptions);
    var tab, tba := Reconciled(ta, b, failing), Reconciled(tb, a, failing);
    forall u ensures u in wa ==> u !in wb {
      assert u in wa.Keys ==> u in UidsOf(a.subscriptions);
      assert u in wb.Keys ==> u in UidsOf(b.subscriptions);
    }
    forall u ensures u in tab <==> u in tba
             ensures u in tab && u in tba ==> tab[u] == tba[u]
    {
      assert u in wa.Keys <==> u in UidsOf(a.subscriptions);
      assert u in wb.Keys <==> u in UidsOf(b.subscriptions);
    }
  }

  /** Repeating a reconcile that had no failure changes nothing, whatever the second one could start. */
  lemma RepeatIsIdle(t: Table, config: ChannelConfig, failing: set<UID>, later: set<UID>)
    requires Unclaimed(t, config, failing) && Missing(t, config) * failing == {}
    ensures Missing(Reconciled(t, config, failing), config) == {}
    ensures Reconciled(Reconciled(t, config, failing), config, later) == Reconciled(t, config, failing)
  {
    ReconcileAssigns(t, config, failing);
    WantedKeys(config.subscriptions);
    var t' := Reconciled(t, config, failing);
    forall u | u in Wanted(config.subscriptions) ensures u in t' {
      assert u in UidsOf(config.subscriptions);
      assert u in LiveOf(t', config.channel);
    }
    assert Reconciled(t', config, later).Keys == t'.Keys;
  }

  // Schedules

  /** Kubernetes gives a subscription UID to one channel. */
  ghost predicate Respects(config: ChannelConfig, owner: UID -> ChannelRef) {
    forall u :: u in UidsOf(config.subscriptions) ==> owner(u) == config.channel
  }

  ghost predicate TableRespects(t: Table, owner: UID -> ChannelRef) {
    forall u :: u in t ==> owner(u) == t[u].channel
  }

  /** The table after a schedule of reconciles in which every start succeeds. */
  function RunAll(t: Table, schedule: seq<ChannelConfig>): Table {
    if schedule == [] then t
    else Reconciled(RunAll(t, schedule[..|schedule| - 1]), schedule[|schedule| - 1], {})
  }

  /** The last configuration a schedule applies to a channel. */
  function LastFor(schedule: seq<ChannelConfig>, channel: ChannelRef): Option<ChannelConfig> {
    if schedule == [] then None
    else if schedule[|schedule| - 1].channel == channel then Some(schedule[|schedule| - 1])
    else LastFor(schedule[..|schedule| - 1], channel)
  }

  /** Only the last configuration of each channel decides what is live in the end. */
  lemma {:induction false} LastConfigWins(t: Table, schedule: seq<ChannelConfig>, owner: UID -> ChannelRef)
    requires TableRespects(t, owner)
    requires forall i :: 0 <= i < |schedule| ==> Respects(schedule[i], owner)
    ensures TableRespects(RunAll(t, schedule), owner)
    ensures forall c :: LiveOf(RunAll(t, schedule), c) ==
                        match LastFor(schedule, c)
                        case Some(config) => UidsOf(config.subscriptions)
                        case None => LiveOf(t, c)
  {
    if schedule != [] {
      var front, config := schedule[..|schedule| - 1], schedule[|schedule| - 1];
      LastConfigWins(t, front, owner);
      var before := RunAll(t, front);
      assert Respects(config, owner);
      assert Unclaimed(before, config, {});
      ReconcileAssigns(before, config, {});
      WantedKeys(config.subscriptions);
      forall u | u in RunAll(t, schedule) ensures owner(u) == RunAll(t, schedule)[u].channel {
        if u !in before { assert u in UidsOf(config.subscriptions); }
      }
      forall c
        ensures LiveOf(RunAll(t, schedule), c) ==
                match LastFor(schedule, c)
                case Some(config) => UidsOf(config.subscriptions)
                case None => LiveOf(t, c)
      {
        assert LiveOf(before, c) == match LastFor(front, c)
                                    case Some(config) => UidsOf(config.subscriptions)
                                    case None => LiveOf(t, c);
        assert Missing(before, config) * {} == {};
      }
    }
  }

  /** Two schedules that agree on the last configuration of every channel end with the same live sets. */
  lemma ScheduleIndependence(t: Table, one: seq<ChannelConfig>, two: seq<ChannelConfig>, owner: UID -> ChannelRef)
    requires TableRespects(t, owner)
    requires forall i :: 0 <= i < |one| ==> Respects(one[i], owner)
    requires forall i :: 0 <= i < |two| ==> Respects(two[i], owner)
    requires forall c :: LastFor(one, c) == LastFor(two, c)
    ensures forall c :: LiveOf(RunAll(t, one), c) == LiveOf(RunAll(t, two), c)
    ensures RunAll(t, one).Keys == RunAll(t, two).Keys
  {
    LastConfigWins(t, one, owner);
    LastConfigWins(t, two, owner);
    forall c ensures LiveOf(RunAll(t, one), c) == LiveOf(RunAll(t, two), c) {
      assert LastFor(one, c) == LastFor(two, c);
    }
    forall u ensures u in RunAll(t, one) <==> u in RunAll(t, two) {
      var c := owner(u);
      assert u in LiveOf(RunAll(t, one), c) <==> u in RunAll(t, one);
      assert u in LiveOf(RunAll(t, two), c) <==> u in RunAll(t, two);
    }
  }

  // Cleaning up with Close errors

  /**
   * What one `CleanupChannel` may do: it removes entries of the channel only; without an error it
   * removes all of them, and with one it has removed at least the entry whose Close failed.
   */
  ghost predicate CleanupStep(t: Table, channel: ChannelRef, t': Table, failed: bool) {
    && (forall u :: u in t' ==> u in t && t'[u] == t[u])
    && (forall u :: u in t && t[u].channel != channel ==> u in t')
    && (if failed then LiveOf(t', channel) < LiveOf(t, channel) else LiveOf(t', channel) == {})
  }

  /** Removing live UIDs of the channel, all of them if nothing failed, is such a step. */
  lemma RemovalIsCleanup(t: Table, channel: ChannelRef, gone: set<UID>, failed: bool)
    requires gone <= LiveOf(t, channel)
    requires if failed then gone != {} else gone == LiveOf(t, channel)
    ensures CleanupStep(t, channel, t - gone, failed)
    ensures !failed ==> t - gone == Cleaned(t, channel)
  {
    assert LiveOf(t - gone, channel) == LiveOf(t, channel) - gone;
  }

  /** However often Close fails, as many calls as the channel has subscriptions empty it. */
  lemma {:induction false} CleanupDrains(tables: seq<Table>, channel: ChannelRef, failed: seq<bool>)
    requires |tables| == |failed| + 1
    requires forall i :: 0 <= i < |failed| ==> CleanupStep(tables[i], channel, tables[i + 1], failed[i])
    requires |failed| >= |LiveOf(tables[0], channel)|
    ensures tables[|failed|] == Cleaned(tables[0], channel)
    ensures LiveOf(tables[|failed|], channel) == {}
    ensures forall c :: c != channel ==> LiveOf(tables[|failed|], c) == LiveOf(tables[0], c)
    decreases |failed|
  {
    DrainBound(tables, channel, failed, |failed|);
    var last := tables[|failed|];
    assert LiveOf(last, channel) == {} by {
      SubsetCardinality({}, LiveOf(last, channel));
    }
    forall u | u in last ensures last[u].channel != channel {
      assert u !in LiveOf(last, channel);
    }
  }

  lemma {:induction false} DrainBound(tables: seq<Table>, channel: ChannelRef, failed: seq<bool>, n: nat)
    requires |tables| == |failed| + 1 && n <= |failed|
    requires forall i :: 0 <= i < |failed| ==> CleanupStep(tables[i], channel, tables[i + 1], failed[i])
    ensures |LiveOf(tables[n], channel)| + n <= |LiveOf(tables[0], channel)| || LiveOf(tables[n], channel) == {}
    ensures forall u :: u in tables[n] ==> u in tables[0] && tables[n][u] == tables[0][u]
    ensures forall u :: u in tables[0] && tables[0][u].channel != channel ==> u in tables[n]
  {
    if n > 0 {
      DrainBound(tables, channel, failed, n - 1);
      assert CleanupStep(tables[n - 1], channel, tables[n], failed[n - 1]);
      var before, after := LiveOf(tables[n - 1], channel), LiveOf(tables[n], channel);
      if failed[n - 1] {
        SubsetCardinality(after, before);
      }
    }
  }
}
