/**
 * One probing round: a `targetState` together with every goroutine that works on it, as a state
 * machine with one step per atomic operation. A round has one probe per dispatcher pod; a probe has
 * a work item, a goroutine that joins two contexts and a goroutine that reacts to cancellation.
 */
module ProbeRound {
  import opened Types

  /** What `prober.Do` saw: a transport error or time-out, or a response for the verifier. */
  datatype Reply = NoReply | Replied(response: Response)

  /** A reply as it was received, with the pod that gave it. */
  datatype Answered = Answered(ip: IP, reply: Reply)

  /** Whether the reply is a 200 answer that lists the subscription. */
  predicate Lists(uid: UID, reply: Reply) {
    && reply.Replied?
    && reply.response.status == STATUS_OK
    && reply.response.body.Some?
    && uid in reply.response.body.value
  }

  /** The partitions `probeVerifier` inserts for a reply. */
  function Named(uid: UID, reply: Reply): set<Partition> {
    if Lists(uid, reply) then Elements(reply.response.body.value[uid]) else {}
  }

  /** The verdict of `probeVerifier`: any status it does not expect counts as a success. */
  predicate Accepted(uid: UID, reply: Reply) {
    match reply
    case NoReply => false
    case Replied(response) =>
      if response.status == STATUS_OK then Lists(uid, reply)
      else response.status != STATUS_NOT_FOUND && response.status != STATUS_UNAVAILABLE
  }

  /** All the partitions named for a subscription by a history of replies. */
  function NamedByAll(uid: UID, answers: seq<Answered>): set<Partition> {
    if answers == [] then {}
    else NamedByAll(uid, answers[..|answers| - 1]) + Named(uid, answers[|answers| - 1].reply)
  }

  /** Where the work item of a probe is: in the queue, or at which statement of its worker. */
  datatype WorkerPc =
    | Queued              // delayed or queued, no worker has it
    | Probing             // dequeued, the request is in flight
    | Verified(ok: bool)  // `prober.Do` returned, the context is to be checked
    | Retrying            // about to put the item back
    | Succeeding          // about to decrement the pod counter
    | Releasing           // about to cancel the pod context
    | Checking            // about to call `checkReadiness`
    | Stopping            // about to cancel the target
    | Notifying           // about to call `readyCallback`
    | Dropped             // never queued again

  /** Where the goroutine running `onProbingCancellation` is. */
  datatype CancellerPc =
    | Blocked             // waiting for the pod context
    | Loading             // about to load the pod counter
    | Swapping(seen: int) // about to compare-and-swap the value it saw with 0
    | Decrementing        // about to decrement the target counter
    | Reviewing           // about to call `checkReadiness`
    | Calling             // about to call `readyCallback`
    | Ended

  /** Who made a probe leave the pending state. History, not a field of the source. */
  datatype Settlement = Pending | BySuccess | ByCancellation

  /** A `podState`, its work item and its two goroutines. */
  datatype Probe = Probe(
    ipContext: nat,
    counter: int,
    cancelled: bool,
    worker: WorkerPc,
    joiner: bool,
    canceller: CancellerPc,
    settlement: Settlement)

  /** Who called `readyCallback`. */
  datatype Caller = ByWorker(ip: IP) | ByCanceller(ip: IP)

  /**
   * A `targetState`. The last three fields are history: the replies received, the callbacks made, and
   * whether anything but the round's own success has cancelled it or one of its probes.
   */
  datatype Round = Round(
    sub: Subscriber,
    channel: Channel,
    probedPods: set<IP>,
    probes: map<IP, Probe>,
    pendingCount: int,
    readyPartitions: set<Partition>,
    ready: bool,
    cancelled: bool,
    answers: seq<Answered>,
    calls: seq<Caller>,
    disturbed: bool)

  /** The atomic operations of the goroutines of a round. */
  datatype Act =
    // the worker that holds the item, in `processWorkItem` and `onProbingSuccess`
    | Dequeue(ip: IP)
    | Answer(ip: IP, reply: Reply)
    | CheckContext(ip: IP)
    | Requeue(ip: IP)
    | Decrement(ip: IP)
    | ReleasePod(ip: IP)
    | CheckReady(ip: IP)
    | StopTarget(ip: IP)
    | Notify(ip: IP)
    // the goroutine that joins the pod's and the IP's contexts
    | JoinerLeave(ip: IP)
    | JoinerFire(ip: IP)
    // the goroutine running `onProbingCancellation`
    | Wake(ip: IP)
    | Load(ip: IP)
    | Swap(ip: IP)
    | DecrementTarget(ip: IP)
    | Review(ip: IP)
    | Call(ip: IP)

  datatype Role = Worker | Joiner | Canceller

  function RoleOf(a: Act): Role {
    match a
    case Dequeue(_) | Answer(_, _) | CheckContext(_) | Requeue(_) | Decrement(_) | ReleasePod(_)
    | CheckReady(_) | StopTarget(_) | Notify(_) => Worker
    case JoinerLeave(_) | JoinerFire(_) => Joiner
    case Wake(_) | Load(_) | Swap(_) | DecrementTarget(_) | Review(_) | Call(_) => Canceller
  }

  /** The pod context is done when it or its parent, the target's context, is cancelled. */
  predicate ContextDone(r: Round, ip: IP)
    requires ip in r.probes
  {
    r.cancelled || r.probes[ip].cancelled
  }

  /** The state `probeTarget` builds before it starts any goroutine. */
  function NewRound(sub: Subscriber, channel: Channel, pods: set<IP>): Round {
    Round(sub, channel, pods, map[], |pods|, {}, false, false, [], [], false)
  }

  /** `probeTarget` starts the goroutines of one pod and queues its work item. */
  function Spawned(r: Round, ip: IP, ipContext: nat): Round {
    r.(probes := r.probes[ip := Probe(ipContext, 1, false, Queued, true, Blocked, Pending)])
  }

  /** `checkReadiness`: exactly `numPartitions` partitions, and sticky. */
  function Readied(r: Round): Round {
    r.(ready := r.ready || |r.readyPartitions| == r.channel.numPartitions)
  }

  /** The target's `cancel` called by the prober's interface. */
  function Abandoned(r: Round): Round {
    r.(cancelled := true, disturbed := true)
  }

  predicate CanAct(r: Round, a: Act) {
    a.ip in r.probes &&
    var p := r.probes[a.ip];
    match a
    case Dequeue(_) => p.worker.Queued?
    case Answer(_, _) => p.worker.Probing?
    case CheckContext(_) => p.worker.Verified?
    case Requeue(_) => p.worker.Retrying?
    case Decrement(_) => p.worker.Succeeding?
    case ReleasePod(_) => p.worker.Releasing?
    case CheckReady(_) => p.worker.Checking?
    case StopTarget(_) => p.worker.Stopping?
    case Notify(_) => p.worker.Notifying?
    case JoinerLeave(ip) => p.joiner && ContextDone(r, ip)
    case JoinerFire(_) => p.joiner
    case Wake(ip) => p.canceller.Blocked? && ContextDone(r, ip)
    case Load(_) => p.canceller.Loading?
    case Swap(_) => p.canceller.Swapping?
    case DecrementTarget(_) => p.canceller.Decrementing?
    case Review(_) => p.canceller.Reviewing?
    case Call(_) => p.canceller.Calling?
  }

  function With(r: Round, ip: IP, p: Probe): Round {
    r.(probes := r.probes[ip := p])
  }

  function Perform(r: Round, a: Act): Round
    requires CanAct(r, a)
  {
    var p := r.probes[a.ip];
    match a
    case Dequeue(ip) =>
      With(r, ip, p.(worker := Probing))
    case Answer(ip, reply) =>
      With(r.(readyPartitions := r.readyPartitions + Named(r.sub.uid, reply),
              answers := r.answers + [Answered(ip, reply)]),
           ip, p.(worker := Verified(Accepted(r.sub.uid, reply))))
    case CheckContext(ip) =>
      With(r, ip, p.(worker := if ContextDone(r, ip) then Dropped
                               else if p.worker.ok then Succeeding else Retrying))
    case Requeue(ip) =>
      With(r, ip, p.(worker := Queued))
    case Decrement(ip) =>
      if p.counter - 1 == 0 then
        With(r, ip, p.(counter := p.counter - 1, worker := Releasing, settlement := BySuccess))
      else
        With(r, ip, p.(counter := p.counter - 1, worker := Dropped))
    case ReleasePod(ip) =>
      With(r, ip, p.(cancelled := true, worker := Checking))
    case CheckReady(ip) =>
      With(Readied(r), ip, p.(worker := if Readied(r).ready then Stopping else Dropped))
    case StopTarget(ip) =>
      With(r.(cancelled := true), ip, p.(worker := Notifying))
    case Notify(ip) =>
      With(r.(calls := r.calls + [ByWorker(ip)]), ip, p.(worker := Dropped))
    case JoinerLeave(ip) =>
      With(r, ip, p.(joiner := false))
    case JoinerFire(ip) =>
      With(r.(disturbed := true), ip, p.(cancelled := true, joiner := false))
    case Wake(ip) =>
      With(r, ip, p.(canceller := Loading))
    case Load(ip) =>
      With(r, ip, p.(canceller := if p.counter <= 0 then Ended else Swapping(p.counter)))
    case Swap(ip) =>
      if p.counter == p.canceller.seen then
        With(r, ip, p.(counter := 0, canceller := Decrementing, settlement := ByCancellation))
      else
        With(r, ip, p.(canceller := Loading))
    case DecrementTarget(ip) =>
      With(r.(pendingCount := r.pendingCount - 1),
           ip, p.(canceller := if r.pendingCount - 1 == 0 then Reviewing else Ended))
    case Review(ip) =>
      With(Readied(r), ip, p.(canceller := if Readied(r).ready then Calling else Ended))
    case Call(ip) =>
      With(r.(calls := r.calls + [ByCanceller(ip)]), ip, p.(canceller := Ended))
  }
}
