/**
 The calls the Codex backend makes on its event router, and runs of them.

 One incoming message can release buffered messages, whose delivery can
 release more: routing drains a work list. The drain terminates because a
 step either resolves an event or moves one from the work list to a buffer.
 */
module CodexOperations {
  import opened CodexIds
  import opened Options
  import opened Tombstones
  import opened CodexRouting
  import opened CodexConservation

  datatype Drained = Drained(state: Router, marks: seq<nat>)

  function Drain(s: Router, queue: seq<Tagged>, marks: seq<nat>, env: Env): Drained
    decreases Unresolved(s, queue), |queue|
  {
    if queue == [] then Drained(s, marks)
    else
      StepMakesProgress(s, queue, env);
      var r := Step(s, queue[0], env);
      Drain(r.state, queue[1..] + r.more, marks + r.marks, env)
  }

  function MarkOverloaded(s: Router, marks: seq<nat>): Router {
    s.(wire := s.wire.(overloaded := s.wire.overloaded + (set tx | tx in marks)))
  }

  /** Route one event and everything its delivery releases, then fail lossy channels closed. */
  function RouteBuffered(s: Router, event: Tagged, env: Env): Router {
    var drained := Drain(s, [event], [], env);
    MarkOverloaded(drained.state, drained.marks)
  }

  /** The root subscription a message of `thread` is received under. */
  function ReceivedUnder(s: Router, thread: Id): Option<nat> {
    if thread in s.routes then Some(s.routes[thread].generation)
    else if thread in s.owners then Some(s.owners[thread].generation)
    else None
  }

  /** A message arrives from the app-server. */
  function RouteMessage(s: Router, message: Message, env: Env): Router {
    var event := Tagged(message.(stamp := |s.arrivals|), ReceivedUnder(s, message.thread));
    var arrived := s.(arrivals := s.arrivals + [event]);
    if Retired(s, message.thread, message.turn) && message.thread !in s.routes
    then arrived.(out := Decline(s.out, event, RetiredTurn))
    else RouteBuffered(arrived, event, env)
  }

  /** Drop what an earlier subscription or owner of `thread` left behind. */
  function Vacate(s: Router, thread: Id, env: Env): (r: Router)
    ensures r == s.(owners := r.owners, retiredTurns := r.retiredTurns, retiredUnbound := r.retiredUnbound,
                    buffered := r.buffered, unknown := r.unknown, unknownOrder := r.unknownOrder, out := r.out)
  {
    RetireOwner(ClearDescendants(s, thread, env), thread)
  }

  /** A turn asks for the events of `thread` on a fresh channel. */
  function Subscribe(s: Router, thread: Id, env: Env): Router {
    var cleared := Vacate(s, thread, env);
    var adopted := AdoptUnknown(cleared.(failed := Exhume(cleared.failed, thread)), thread);
    var generation := s.generation + 1;
    adopted.(
      generation := generation,
      routes := adopted.routes[thread := Route(|s.subscriptions|, generation, None)],
      subscriptions := s.subscriptions + [Subscription(thread, |s.arrivals|, None)])
  }

  function RouteEach(s: Router, events: seq<Tagged>, env: Env): Router
    decreases |events|
  {
    if events == [] then s else RouteEach(RouteBuffered(s, events[0], env), events[1..], env)
  }

  /** Losses that matter to the turn being activated. */
  predicate RelevantOverflow(buffer: Buffer, turn: Id) {
    || buffer.requestOverloaded
    || buffer.announcementOverloaded
    || None in buffer.rootOverflowedTurns
    || Some(turn) in buffer.rootOverflowedTurns
  }

  function Bind(s: Router, thread: Id, turn: Id): Router
    requires thread in s.routes
  {
    var tx := s.routes[thread].tx;
    s.(routes := s.routes[thread := s.routes[thread].(turn := Some(turn))],
       subscriptions :=
         if tx < |s.subscriptions| then s.subscriptions[tx := s.subscriptions[tx].(turn := Some(turn))]
         else s.subscriptions)
  }

  /** `turn/start` returned: bind the route to its turn and route what was buffered for it. */
  function Activate(s: Router, thread: Id, turn: Id, tx: nat, env: Env): Router {
    if thread !in s.routes || s.routes[thread].tx != tx then s
    else
      var taken := Discard(Bind(s, thread, turn), thread);
      if thread !in s.buffered then taken
      else
        var routed := RouteEach(taken, s.buffered[thread].messages, env);
        if RelevantOverflow(s.buffered[thread], turn) then MarkOverloaded(routed, [tx]) else routed
  }

  function TakeResponses(s: Router): Router {
    s.(out := Flush(s.out))
  }

  // ---- Runs -----------------------------------------------------------------

  datatype Op =
    | Arrive(message: Message)
    | Subscribing(thread: Id)
    | Activating(thread: Id, turn: Id, tx: nat)
    | Unsubscribing(thread: Id, tx: nat)
    | Flushing

  function Apply(s: Router, op: Op, env: Env): Router {
    match op
    case Arrive(message) => RouteMessage(s, message, env)
    case Subscribing(thread) => Subscribe(s, thread, env)
    case Activating(thread, turn, tx) => Activate(s, thread, turn, tx, env)
    case Unsubscribing(thread, tx) => RemoveRoute(s, thread, tx, env)
    case Flushing => TakeResponses(s)
  }

  /** `start_turn` activates the channel it subscribed at most once. */
  predicate Enabled(s: Router, op: Op) {
    (op.Activating? && op.thread in s.routes && s.routes[op.thread].tx == op.tx) ==>
      s.routes[op.thread].turn.None?
  }

  /** The consumers' and the hash maps' choices during each operation of a run. */
  type World = nat -> Env

  function Run(ops: seq<Op>, world: World): Router {
    if ops == [] then Fresh()
    else Apply(Run(ops[..|ops| - 1], world), ops[|ops| - 1], world(|ops| - 1))
  }

  ghost predicate LegalRun(ops: seq<Op>, world: World) {
    forall i | 0 <= i < |ops| :: Enumerates(world(i)) && Enabled(Run(ops[..i], world), ops[i])
  }
}
