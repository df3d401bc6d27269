/**
 What one call on the Codex event router does, as functions on its state.

 `Router` holds the maps, sets and queues of the router, and beside them the
 history that its promises are about: every event that arrived, every event
 put on a turn's channel, every request declined, every buffer adopted by an
 announcement, and the subscription behind each channel.

 Vendor ids are opaque to the router apart from equality and emptiness, so
 they are natural numbers with 0 for the missing or empty id.
 */
module CodexRouting {
  import opened CodexIds
  import opened Options
  import opened Tombstones

  const NO_THREAD: Id := 0
  const UNKNOWN_BUFFER_BUDGET: nat := 64

  // ---- Messages -------------------------------------------------------------

  /** A notification (perhaps `turn/completed`) or a request that is owed a response. */
  datatype Kind = Notification(turnCompleted: bool) | Request(id: Id, elicitation: bool)

  /** `stamp` is the arrival number; `children` are the collaborator threads it announces. */
  datatype Message = Message(stamp: nat, kind: Kind, thread: Id, turn: Option<Id>, children: seq<Id>)

  /** A message with the root subscription generation it was received under. */
  datatype Tagged = Tagged(message: Message, generation: Option<nat>)

  /** A decline: `"action": "decline"` to an elicitation, `"decision": "decline"` to any other request. */
  datatype Response = ActionDeclined(id: Id) | DecisionDeclined(id: Id)

  /** Requests that name a thread are owed exactly one answer. */
  predicate Owed(event: Tagged) {
    event.message.kind.Request? && event.message.thread != NO_THREAD
  }

  predicate Announces(event: Tagged) {
    event.message.children != []
  }

  /** The response is to this request, in the form it asks for. */
  predicate Answers(response: Response, event: Tagged) {
    && event.message.kind.Request?
    && response.id == event.message.kind.id
    && (response.ActionDeclined? <==> event.message.kind.elicitation)
  }

  function DeclineResponse(event: Tagged): (response: Response)
    requires event.message.kind.Request?
    ensures Answers(response, event)
  {
    if event.message.kind.elicitation
    then ActionDeclined(event.message.kind.id) else DecisionDeclined(event.message.kind.id)
  }

  // ---- State ----------------------------------------------------------------

  datatype Route = Route(tx: nat, generation: nat, turn: Option<Id>)

  datatype Owner = Owner(root: Id, rootTurn: Id, generation: nat, childTurn: Option<Id>)

  datatype ChildTurn = ChildTurn(thread: Id, turn: Id)

  /** An event the size limit dropped, and whether its thread had a subscription then. */
  datatype Loss = Loss(event: Tagged, subscribed: bool)

  datatype Buffer = Buffer(
    messages: seq<Tagged>,
    requestOverloaded: bool,
    announcementOverloaded: bool,
    notificationOverloaded: bool,
    rootOverflowedTurns: set<Option<Id>>,
    losses: seq<Loss>)

  const EMPTY_BUFFER := Buffer([], false, false, false, {}, [])

  /** Why an event was given up. */
  datatype Reason =
    | Unaddressed     // it names no thread
    | RetiredTurn     // it is of a child turn that is over
    | FailedThread    // the subscription of its thread was removed
    | NotEntitled     // no route or owner of its thread has a use for it
    | Undeliverable   // the channel did not take it
    | Overflow(held: seq<Tagged>, subscribed: bool)   // the size limit of its buffer took it, as the buffer was then
    | Expired         // its thread stayed unknown for too long
    | Cleared         // the subscription or owner of its thread ended
    | StaleClaim      // an announcement claimed the buffer of its thread, but not this event
    | AmbiguousClaim  // an announcement claimed a buffer that names several turns

  datatype Dropped = Dropped(event: Tagged, why: Reason)

  /** Plain transcript, which more important events may displace from a full buffer. */
  predicate Evictable(event: Tagged, subscribed: bool) {
    event.message.kind.Notification? && (subscribed || !Announces(event))
  }

  /** A request, or an announcement before there is a subscription: it may displace plain transcript. */
  predicate Important(event: Tagged, subscribed: bool) {
    event.message.kind.Request? || (!subscribed && Announces(event))
  }

  /** A request, or an announcement before there is a subscription, is lost to the size limit only where the
      buffer was full of requests, and of announcements before there is a subscription. */
  ghost predicate Justified(event: Tagged, why: Reason) {
    why.Overflow? && (event.message.kind.Request? || (!why.subscribed && event.message.children != [])) ==>
      && |why.held| >= ROUTE_EVENT_BUDGET
      && (forall i | 0 <= i < |why.held| ::
            why.held[i].message.kind.Request? || (!why.subscribed && why.held[i].message.children != []))
  }

  /** Pending decline responses, and the history: the requests that were declined and why, of which `flushed`
      were before the last hand-over, and the other events that were given up. The responses handed over
      answer the requests at the positions `answers` of `declined`. */
  datatype Declines = Declines(
    responses: seq<Response>,
    overloaded: bool,
    declined: seq<Tagged>,
    flushed: nat,
    dropped: seq<Dropped>,
    reasons: seq<Reason>,
    handed: seq<Response>,
    answers: seq<nat>)

  const NO_DECLINES := Declines([], false, [], 0, [], [], [], [])

  /** The queue holds the declines since the last hand-over, in order, and the flag says if some did not fit. */
  ghost predicate Queued(d: Declines) {
    && d.flushed <= |d.declined|
    && |d.responses| <= ROUTE_EVENT_BUDGET
    && |d.responses| <= |d.declined| - d.flushed
    && (forall i | 0 <= i < |d.responses| :: Answers(d.responses[i], d.declined[d.flushed + i]))
    && (|d.responses| < |d.declined| - d.flushed ==> |d.responses| == ROUTE_EVENT_BUDGET)
    && (d.overloaded <==> |d.responses| < |d.declined| - d.flushed)
  }

  ghost predicate Reasoned(d: Declines) {
    && |d.reasons| == |d.declined|
    && (forall i | 0 <= i < |d.declined| ::
          d.declined[i].message.kind.Request? && Justified(d.declined[i], d.reasons[i]))
    && (forall i | 0 <= i < |d.dropped| ::
          !Owed(d.dropped[i].event) && Justified(d.dropped[i].event, d.dropped[i].why))
  }

  /** Every response handed over answers a request of its own. */
  ghost predicate Traced(d: Declines) {
    && |d.answers| == |d.handed|
    && (forall i | 0 <= i < |d.handed| ::
          d.answers[i] < d.flushed <= |d.declined| && Answers(d.handed[i], d.declined[d.answers[i]]))
    && (forall i, j | 0 <= i < j < |d.answers| :: d.answers[i] < d.answers[j])
  }

  ghost predicate Accountable(d: Declines) {
    Queued(d) && Reasoned(d) && Traced(d)
  }

  type Outbox = d: Declines | Accountable(d) ghost witness NO_DECLINES

  datatype Delivery = Delivery(tx: nat, event: Tagged)

  /** The turn channels: which are overloaded, what was put on them, how many sends were tried. */
  datatype Wire = Wire(overloaded: set<nat>, log: seq<Delivery>, attempts: nat)

  /** The root a channel was made for, the arrivals before it, and the turn bound to it. */
  datatype Subscription = Subscription(root: Id, since: nat, turn: Option<Id>)

  datatype Adoption = Adoption(tx: nat, buffer: Buffer)

  datatype Router = Router(
    generation: nat,
    routes: map<Id, Route>,
    owners: map<Id, Owner>,
    buffered: map<Id, Buffer>,
    unknown: set<Id>,
    unknownOrder: seq<Id>,
    failed: Tombstones<Id>,
    retiredTurns: Tombstones<ChildTurn>,
    retiredUnbound: Tombstones<Id>,
    out: Outbox,
    wire: Wire,
    // history
    arrivals: seq<Tagged>,
    subscriptions: seq<Subscription>,
    adoptions: seq<Adoption>)

  function Fresh(): Router {
    Router(0, map[], map[], map[], {}, [], Empty(), Empty(), Empty(),
           NO_DECLINES, Wire({}, [], 0), [], [], [])
  }

  /** What a consumer does to one `try_send`, and in which order a hash map is walked. */
  datatype SendOutcome = Accepts | ReceiverClosed | QueueFull

  datatype Env = Env(outcome: nat -> SendOutcome, enumerate: set<Id> -> seq<Id>)

  ghost predicate Enumerates(env: Env) {
    forall ids: set<Id>, x: Id :: x in ids <==> x in env.enumerate(ids)
  }

  // ---- Decline responses ----------------------------------------------------

  /** Give up an event that is owed no answer. */
  function Drop(out: Outbox, event: Tagged, why: Reason): Outbox
    requires !Owed(event) && Justified(event, why)
  {
    out.(dropped := out.dropped + [Dropped(event, why)])
  }

  /** Give up an event; a request is answered, as far as there is room in the queue. */
  function Decline(out: Outbox, event: Tagged, why: Reason): Outbox
    requires Justified(event, why)
  {
    if !event.message.kind.Request? then Drop(out, event, why)
    else
      var noted := out.(declined := out.declined + [event], reasons := out.reasons + [why]);
      if |out.responses| < ROUTE_EVENT_BUDGET
      then noted.(responses := out.responses + [DeclineResponse(event)])
      else noted.(overloaded := true)
  }

  function DeclineAll(out: Outbox, events: seq<Tagged>, why: Reason): Outbox
    requires !why.Overflow?
    decreases |events|
  {
    if events == [] then out else DeclineAll(Decline(out, events[0], why), events[1..], why)
  }

  function Flush(out: Outbox): Outbox {
    out.(responses := [], overloaded := false, flushed := |out.declined|, handed := out.handed + out.responses,
         answers := out.answers + seq(|out.responses|, i => out.flushed + i))
  }

  // ---- Buffers --------------------------------------------------------------

  /** Forget that `thread` is unknown; its buffer, if any, stays. */
  function AdoptUnknown(s: Router, thread: Id): (r: Router)
    ensures r == s.(unknown := r.unknown, unknownOrder := r.unknownOrder)
  {
    if thread in s.unknown
    then s.(unknown := s.unknown - {thread}, unknownOrder := Without(s.unknownOrder, thread))
    else s
  }

  function Discard(s: Router, thread: Id): (r: Router)
    ensures r == s.(unknown := r.unknown, unknownOrder := r.unknownOrder, buffered := s.buffered - {thread})
  {
    var adopted := AdoptUnknown(s, thread);
    adopted.(buffered := adopted.buffered - {thread})
  }

  /** Decline whatever is buffered for `thread` and forget the buffer. */
  function RejectBuffered(s: Router, thread: Id): (r: Router)
    ensures r == s.(unknown := r.unknown, unknownOrder := r.unknownOrder, buffered := s.buffered - {thread},
                    out := r.out)
  {
    var kept := Discard(s, thread);
    if thread in s.buffered
    then kept.(out := DeclineAll(s.out, s.buffered[thread].messages, Cleared))
    else kept
  }

  /** Expire the oldest unknown buffers while there are too many. */
  function EvictUnknown(s: Router): (r: Router)
    ensures r == s.(unknown := r.unknown, unknownOrder := r.unknownOrder, buffered := r.buffered, out := r.out)
    decreases |s.unknownOrder|
  {
    if |s.unknown| <= UNKNOWN_BUFFER_BUDGET || s.unknownOrder == [] then s
    else
      var expired := s.unknownOrder[0];
      var popped := s.(unknownOrder := s.unknownOrder[1..], unknown := s.unknown - {expired});
      if expired in s.unknown && expired in s.buffered
      then EvictUnknown(popped.(buffered := s.buffered - {expired},
                                out := DeclineAll(s.out, s.buffered[expired].messages, Expired)))
      else EvictUnknown(popped)
  }

  function TrackUnknown(s: Router, thread: Id): Router {
    if thread in s.unknown then s
    else EvictUnknown(s.(unknown := s.unknown + {thread}, unknownOrder := s.unknownOrder + [thread]))
  }

  /** The first event a request or announcement may displace, or the length if there is none. */
  function FirstEvictable(events: seq<Tagged>, subscribed: bool): (i: nat)
    ensures i <= |events|
    ensures i < |events| ==> Evictable(events[i], subscribed)
    ensures forall k | 0 <= k < i :: !Evictable(events[k], subscribed)
    decreases |events|
  {
    if events == [] then 0
    else if Evictable(events[0], subscribed) then 0
    else 1 + FirstEvictable(events[1..], subscribed)
  }

  /** Record in the buffer's flags that `lost` did not survive the size limit. */
  function RecordLoss(buffer: Buffer, lost: Tagged, subscribed: bool): (r: Buffer)
    ensures r.messages == buffer.messages
  {
    var noted := buffer.(losses := buffer.losses + [Loss(lost, subscribed)]);
    if subscribed then noted.(rootOverflowedTurns := buffer.rootOverflowedTurns + {lost.message.turn})
    else if lost.message.kind.Request? then noted.(requestOverloaded := true)
    else if Announces(lost) then noted.(announcementOverloaded := true)
    else noted.(notificationOverloaded := true)
  }

  /** The buffer afterwards, and the event that the size limit took. */
  datatype Enqueued = Enqueued(buffer: Buffer, lost: Option<Tagged>)

  /** Put an event in a bounded buffer; requests and announcements displace plain transcript. */
  function Enqueue(buffer: Buffer, subscribed: bool, event: Tagged): (r: Enqueued)
    ensures r.lost.Some? ==> Justified(r.lost.value, Overflow(buffer.messages, subscribed))
  {
    var i := FirstEvictable(buffer.messages, subscribed);
    if |buffer.messages| < ROUTE_EVENT_BUDGET then
      Enqueued(buffer.(messages := buffer.messages + [event]), None)
    else if Important(event, subscribed) && i < |buffer.messages| then
      Enqueued(RecordLoss(buffer, buffer.messages[i], subscribed)
               .(messages := buffer.messages[..i] + buffer.messages[i + 1..] + [event]), Some(buffer.messages[i]))
    else
      Enqueued(RecordLoss(buffer, event, subscribed), Some(event))
  }

  function BufferOf(s: Router, thread: Id): Buffer {
    if thread in s.buffered then s.buffered[thread] else EMPTY_BUFFER
  }

  /** Put `event` in the buffer of its thread. */
  function Store(s: Router, event: Tagged): Router {
    var thread := event.message.thread;
    var buffer, subscribed := BufferOf(s, thread), thread in s.routes;
    var enqueued := Enqueue(buffer, subscribed, event);
    s.(buffered := s.buffered[thread := enqueued.buffer],
       out :=
         if enqueued.lost.Some? then Decline(s.out, enqueued.lost.value, Overflow(buffer.messages, subscribed))
         else s.out)
  }

  function BufferMessage(s: Router, event: Tagged): (r: Router)
    ensures r == s.(buffered := r.buffered, unknown := r.unknown, unknownOrder := r.unknownOrder, out := r.out)
  {
    var thread := event.message.thread;
    if thread == NO_THREAD || thread in s.failed.live then s.(out := Decline(s.out, event, FailedThread))
    else if thread in s.routes || thread in s.buffered then Store(s, event)
    else Store(TrackUnknown(s, thread), event)
  }

  // ---- Ownership ------------------------------------------------------------

  predicate Retired(s: Router, thread: Id, turn: Option<Id>) {
    turn.Some? && ChildTurn(thread, turn.value) in s.retiredTurns.live
  }

  /** Drop the owner of `thread`, if it has one, leaving the tombstone of what it had bound. */
  function RetireOwner(s: Router, thread: Id): (r: Router)
    ensures r == s.(owners := r.owners, retiredTurns := r.retiredTurns, retiredUnbound := r.retiredUnbound)
  {
    if thread !in s.owners then s
    else
      var removed := s.(owners := s.owners - {thread});
      match s.owners[thread].childTurn
      case Some(turn) => removed.(retiredTurns := Bury(s.retiredTurns, ChildTurn(thread, turn)))
      case None => removed.(retiredUnbound := Bury(s.retiredUnbound, thread))
  }

  function Descendants(s: Router, root: Id): set<Id> {
    set child | child in s.owners && s.owners[child].root == root
  }

  function ClearEach(s: Router, children: seq<Id>): (r: Router)
    ensures r == s.(owners := r.owners, retiredTurns := r.retiredTurns, retiredUnbound := r.retiredUnbound,
                    buffered := r.buffered, unknown := r.unknown, unknownOrder := r.unknownOrder, out := r.out)
    decreases |children|
  {
    if children == [] then s
    else ClearEach(RejectBuffered(RetireOwner(s, children[0]), children[0]), children[1..])
  }

  function ClearDescendants(s: Router, root: Id, env: Env): Router {
    ClearEach(s, env.enumerate(Descendants(s, root)))
  }

  function RemoveRoute(s: Router, root: Id, tx: nat, env: Env): (r: Router)
    ensures r == s.(routes := r.routes, owners := r.owners, retiredTurns := r.retiredTurns,
                    retiredUnbound := r.retiredUnbound, buffered := r.buffered, unknown := r.unknown,
                    unknownOrder := r.unknownOrder, out := r.out, failed := r.failed)
  {
    if root !in s.routes || s.routes[root].tx != tx then s
    else
      var cleared := ClearDescendants(s.(routes := s.routes - {root}), root, env);
      var rejected := RejectBuffered(RetireOwner(cleared, root), root);
      rejected.(failed := Bury(rejected.failed, root))
  }

  // ---- Routing one event ----------------------------------------------------

  /** What becomes of the event at the head of the work list. */
  datatype Fate =
    | Ignore
    | Hold
    | Refuse
    | Send(root: Id, rootTurn: Id, generation: nat, tx: nat, child: bool)

  /** An owner that has seen no turn yet binds to the first turn that is not retired. */
  function BindChild(s: Router, event: Tagged): (r: Router)
    ensures r == s.(owners := r.owners)
  {
    var thread, turn := event.message.thread, event.message.turn;
    if thread != NO_THREAD && thread !in s.routes && thread in s.owners
       && s.owners[thread].childTurn.None? && turn.Some? && !Retired(s, thread, turn)
    then s.(owners := s.owners[thread := s.owners[thread].(childTurn := turn)])
    else s
  }

  function RootFate(route: Route, event: Tagged): (fate: Fate)
    ensures !fate.Ignore?
  {
    var turn := event.message.turn;
    if route.turn.None? then Hold
    else if turn.None? && event.generation != Some(route.generation) then Refuse
    else if turn.Some? && turn != route.turn then Refuse
    else Send(event.message.thread, route.turn.value, route.generation, route.tx, false)
  }

  function ChildFate(s: Router, owner: Owner, event: Tagged): (fate: Fate)
    ensures !fate.Ignore?
  {
    var turn := event.message.turn;
    if owner.childTurn.None? || turn.None? then Refuse
    else if owner.childTurn != turn then
      if Retired(s, event.message.thread, turn) then Refuse else Hold
    else if owner.root !in s.routes then Refuse
    else
      var route := s.routes[owner.root];
      if route.turn != Some(owner.rootTurn) || route.generation != owner.generation then Refuse
      else Send(owner.root, owner.rootTurn, owner.generation, route.tx, true)
  }

  function Classify(s: Router, event: Tagged): (fate: Fate)
    ensures fate.Ignore? <==> event.message.thread == NO_THREAD
  {
    var thread := event.message.thread;
    if thread == NO_THREAD then Ignore
    else if thread in s.routes then RootFate(s.routes[thread], event)
    else if thread in s.owners then ChildFate(s, s.owners[thread], event)
    else Hold
  }

  datatype Sent = Sent(wire: Wire, accepted: bool)

  function TrySend(wire: Wire, tx: nat, event: Tagged, env: Env): Sent {
    var tried := wire.(attempts := wire.attempts + 1);
    if tx in wire.overloaded then Sent(tried, false)
    else
      match env.outcome(wire.attempts)
      case Accepts => Sent(tried.(log := wire.log + [Delivery(tx, event)]), true)
      case ReceiverClosed => Sent(tried, false)
      case QueueFull => Sent(tried.(overloaded := wire.overloaded + {tx}), false)
  }

  // ---- Announcements --------------------------------------------------------

  /** Buffered traffic an announcement under `generation` must not claim. */
  predicate Stale(s: Router, child: Id, event: Tagged, unresolved: bool, generation: nat) {
    || unresolved
    || Retired(s, child, event.message.turn)
    || (event.generation.Some? && event.generation.value != generation)
  }

  function StaleEvents(s: Router, child: Id, events: seq<Tagged>, unresolved: bool, generation: nat): seq<Tagged>
    decreases |events|
  {
    if events == [] then []
    else (if Stale(s, child, events[0], unresolved, generation) then [events[0]] else [])
         + StaleEvents(s, child, events[1..], unresolved, generation)
  }

  function EligibleEvents(s: Router, child: Id, events: seq<Tagged>, unresolved: bool, generation: nat): seq<Tagged>
    decreases |events|
  {
    if events == [] then []
    else (if Stale(s, child, events[0], unresolved, generation) then [] else [events[0]])
         + EligibleEvents(s, child, events[1..], unresolved, generation)
  }

  /** The turns that the claimed traffic names. */
  function CandidateTurns(events: seq<Tagged>): set<Id> {
    set event | event in events && event.message.turn.Some? :: event.message.turn.value
  }

  function FirstTurn(events: seq<Tagged>): Option<Id>
    decreases |events|
  {
    if events == [] then None
    else if events[0].message.turn.Some? then events[0].message.turn
    else FirstTurn(events[1..])
  }

  predicate Ambiguous(events: seq<Tagged>) {
    exists i | 0 <= i < |events| ::
      events[i].message.turn.Some? && events[i].message.turn != FirstTurn(events)
  }

  function ChildTurnOf(events: seq<Tagged>): Option<Id> {
    if Ambiguous(events) then None else FirstTurn(events)
  }

  predicate Overflowed(buffer: Buffer) {
    buffer.requestOverloaded || buffer.announcementOverloaded || buffer.notificationOverloaded
  }

  /** A successful send: who it was for, and what it may claim. */
  datatype Claim = Claim(root: Id, rootTurn: Id, generation: nat, tx: nat)

  /** Messages to append to the work list and channels to fail closed once it is drained. */
  datatype Routed = Routed(state: Router, more: seq<Tagged>, marks: seq<nat>)

  /** Bind `child` to the claim unless the same claim already owns a compatible turn of it. */
  function Own(s: Router, child: Id, claim: Claim, childTurn: Option<Id>): (r: Router)
    ensures r == s.(owners := r.owners, retiredTurns := r.retiredTurns, retiredUnbound := r.retiredUnbound)
  {
    if child in s.owners
       && s.owners[child].root == claim.root
       && s.owners[child].rootTurn == claim.rootTurn
       && s.owners[child].generation == claim.generation
       && (childTurn.None? || s.owners[child].childTurn == childTurn)
    then s
    else
      var retired := RetireOwner(s, child);
      retired.(owners := retired.owners[child := Owner(claim.root, claim.rootTurn, claim.generation, childTurn)])
  }

  function Announce(s: Router, child: Id, claim: Claim): (r: Routed)
    ensures r.state == s.(owners := r.state.owners, retiredTurns := r.state.retiredTurns,
                          retiredUnbound := r.state.retiredUnbound, buffered := r.state.buffered,
                          unknown := r.state.unknown, unknownOrder := r.state.unknownOrder,
                          out := r.state.out, adoptions := r.state.adoptions)
  {
    if child == claim.root then Routed(s, [], [])
    else
      var unresolved := child in s.retiredUnbound.live;
      var lifted := s.(retiredUnbound := Exhume(s.retiredUnbound, child));
      if child !in s.buffered then Routed(Own(Discard(lifted, child), child, claim, None), [], [])
      else
        var buffer := s.buffered[child];
        var stale := StaleEvents(s, child, buffer.messages, unresolved, claim.generation);
        var eligible := EligibleEvents(s, child, buffer.messages, unresolved, claim.generation);
        var taken := Discard(lifted, child).(
          out := DeclineAll(s.out, stale, StaleClaim),
          adoptions := s.adoptions + [Adoption(claim.tx, buffer)]);
        var owned := Own(taken, child, claim, ChildTurnOf(eligible));
        if Ambiguous(eligible)
        then Routed(owned.(out := DeclineAll(owned.out, eligible, AmbiguousClaim)), [], [claim.tx])
        else Routed(owned, eligible, if Overflowed(buffer) then [claim.tx] else [])
  }

  function AnnounceAll(s: Router, children: seq<Id>, claim: Claim): (r: Routed)
    ensures r.state == s.(owners := r.state.owners, retiredTurns := r.state.retiredTurns,
                          retiredUnbound := r.state.retiredUnbound, buffered := r.state.buffered,
                          unknown := r.state.unknown, unknownOrder := r.state.unknownOrder,
                          out := r.state.out, adoptions := r.state.adoptions)
    decreases |children|
  {
    if children == [] then Routed(s, [], [])
    else
      var first := Announce(s, children[0], claim);
      var others := AnnounceAll(first.state, children[1..], claim);
      Routed(others.state, first.more + others.more, first.marks + others.marks)
  }

  // ---- The work list --------------------------------------------------------

  /** After `event` went out: lift tombstones, end a completed child turn, claim announced children. */
  function Delivered(s: Router, event: Tagged, fate: Fate): (r: Routed)
    requires fate.Send?
    ensures r.state == s.(owners := r.state.owners, retiredTurns := r.state.retiredTurns,
                          retiredUnbound := r.state.retiredUnbound, buffered := r.state.buffered,
                          unknown := r.state.unknown, unknownOrder := r.state.unknownOrder,
                          out := r.state.out, adoptions := r.state.adoptions, failed := r.state.failed)
  {
    var thread := event.message.thread;
    var cleared := s.(failed := Exhume(Exhume(s.failed, thread), fate.root));
    var ended :=
      if fate.child && event.message.kind.Notification? && event.message.kind.turnCompleted
      then RetireOwner(cleared, thread) else cleared;
    AnnounceAll(ended, event.message.children, Claim(fate.root, fate.rootTurn, fate.generation, fate.tx))
  }

  function Dispatch(s: Router, event: Tagged, fate: Fate, env: Env): Routed
    requires fate.Send?
  {
    var sent := TrySend(s.wire, fate.tx, event, env);
    if sent.accepted then Delivered(s.(wire := sent.wire), event, fate)
    else
      var declined := s.(wire := sent.wire, out := Decline(s.out, event, Undeliverable));
      Routed(RemoveRoute(declined, fate.root, fate.tx, env), [], [])
  }

  function Step(s: Router, event: Tagged, env: Env): Routed {
    var bound := BindChild(s, event);
    match Classify(bound, event)
    case Ignore => Routed(s.(out := Drop(s.out, event, Unaddressed)), [], [])
    case Hold => Routed(BufferMessage(bound, event), [], [])
    case Refuse => Routed(bound.(out := Decline(bound.out, event, NotEntitled)), [], [])
    case Send(_, _, _, _, _) => Dispatch(bound, event, Classify(bound, event), env)
  }

}
