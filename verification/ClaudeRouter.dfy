/**
 The stdout router of one Claude process: every line goes to the consumer of
 the turn it belongs to, or is buffered as output of an autonomous turn until
 a consumer attaches to it.

 Each function below is one critical section of the router; the class is the
 router as the program updates it, section by section.
 */
module ClaudeRouter {
  import opened Options

  const BACKGROUND_BUFFER_MAX_BYTES: nat := 8 * 1024 * 1024

  type Consumer = nat

  datatype Line = Line(id: nat, size: nat, result: bool)

  datatype Router = Router(
    turn: Option<Consumer>,
    attach: bool,
    promptPending: bool,
    inFlight: bool,            // inside an autonomous turn whose result has not arrived
    background: seq<Line>,
    bytes: int,
    dropped: nat,              // lines the size limit discarded, until the next registration reports them
    signals: nat)

  const IDLE: Router := Router(None, false, false, false, [], 0, 0, 0)

  datatype Registration = Streaming | StreamingLive | NothingPending | Busy

  function Signal(r: Router, when: bool): Router {
    if when then r.(signals := r.signals + 1) else r
  }

  function Pending(r: Router): bool {
    r.background != [] || r.inFlight
  }

  function Bytes(lines: seq<Line>): nat {
    if lines == [] then 0 else lines[0].size + Bytes(lines[1..])
  }

  // ---- The size limit -------------------------------------------------------

  function TrimBackground(r: Router): (t: Router)
    ensures t == r.(background := t.background, bytes := t.bytes, dropped := t.dropped)
    decreases |r.background|
  {
    if r.bytes > BACKGROUND_BUFFER_MAX_BYTES && r.background != []
    then TrimBackground(r.(background := r.background[1..], bytes := r.bytes - r.background[0].size,
                           dropped := r.dropped + 1))
    else r
  }

  function BufferBackground(r: Router, line: Line): (t: Router)
    ensures t == r.(background := t.background, bytes := t.bytes, dropped := t.dropped)
  {
    TrimBackground(r.(background := r.background + [line], bytes := r.bytes + line.size))
  }

  lemma {:induction false} BytesAppend(a: seq<Line>, b: seq<Line>)
    ensures Bytes(a + b) == Bytes(a) + Bytes(b)
  {
    if a == [] {
      assert a + b == b;
    } else {
      assert (a + b)[1..] == a[1..] + b;
      BytesAppend(a[1..], b);
    }
  }

  /** The limit discards from the oldest line on, counts what it discards, and discards no more than it must. */
  lemma {:induction false} TrimKeepsTheNewest(r: Router) returns (k: nat)
    requires r.bytes == Bytes(r.background)
    ensures k <= |r.background| && TrimBackground(r).background == r.background[k..]
    ensures TrimBackground(r).bytes == Bytes(r.background[k..]) <= BACKGROUND_BUFFER_MAX_BYTES
    ensures TrimBackground(r).dropped == r.dropped + k
    ensures k > 0 ==> Bytes(r.background[k - 1..]) > BACKGROUND_BUFFER_MAX_BYTES
    decreases |r.background|
  {
    if r.bytes > BACKGROUND_BUFFER_MAX_BYTES {
      var s := r.(background := r.background[1..], bytes := r.bytes - r.background[0].size, dropped := r.dropped + 1);
      k := TrimKeepsTheNewest(s);
      assert s.background[k..] == r.background[k + 1..];
      assert k > 0 ==> s.background[k - 1..] == r.background[k..];
      k := k + 1;
      assert r.background[0..] == r.background;
    } else {
      k := 0;
      assert r.background[0..] == r.background;
    }
  }

  // ---- Consumers ------------------------------------------------------------

  /** Drop a consumer whose receiver is gone, announcing again what it leaves behind. */
  function Evict(r: Router): Router {
    Signal(r.(turn := None, attach := false), r.attach && Pending(r))
  }

  function Register(r: Router, c: Consumer, attach: bool, stale: bool): (Router, Registration) {
    var s := if r.turn.Some? && stale then Evict(r) else r;
    if s.turn.Some? then (s, Busy)
    else if attach && !Pending(s) then (s, NothingPending)
    else
      (s.(turn := Some(c), attach := attach, promptPending := !attach, dropped := 0),
       if attach && s.inFlight then StreamingLive else Streaming)
  }

  /**
   A registration is refused exactly while the receiver of another consumer is
   there, and an attachment is turned away exactly if no autonomous turn is
   pending. Whoever is registered instead gets the next live line at once if it
   attaches, and otherwise none before its prompt is delivered.
   */
  lemma RegistrationDecides(r: Router, c: Consumer, attach: bool, stale: bool)
    ensures
      var s, outcome := Register(r, c, attach, stale).0, Register(r, c, attach, stale).1;
      var taken := r.turn.Some? && !stale;
      var pending := r.background != [] || r.inFlight;
      && (outcome.Busy? <==> taken) && (taken ==> s == r)
      && (outcome.NothingPending? <==> !taken && attach && !pending)
      && (outcome.NothingPending? ==> s.turn.None?)
      && (outcome.StreamingLive? <==> !taken && attach && r.inFlight)
      && (outcome.Streaming? || outcome.StreamingLive? ==>
            && s.turn == Some(c) && s.attach == attach && s.dropped == 0
            && Destination(s) == (if attach then Some(c) else None)
            && Destination(PromptDelivered(s)) == (if attach || !r.inFlight then Some(c) else None))
      && s.background == r.background && s.inFlight == r.inFlight && s.bytes == r.bytes
      && s.signals == r.signals + if r.turn.Some? && stale && r.attach && pending then 1 else 0
  {
  }

  function PromptDelivered(r: Router): Router {
    r.(promptPending := false)
  }

  function ConsumerLost(r: Router, c: Consumer, undelivered: Option<Line>): Router {
    if r.turn != Some(c) then r
    else
      var s := r.(turn := None, attach := false);
      if !r.attach then s
      else
        var t := if undelivered.None? then s
                 else s.(background := [undelivered.value] + s.background, bytes := s.bytes + undelivered.value.size);
        Signal(t, Pending(t))
  }

  // ---- Routing --------------------------------------------------------------

  predicate Drains(r: Router) {
    r.turn.Some? && r.attach && r.background != []
  }

  /** Take the next buffered line for the attached consumer; a result ends its turn. */
  function TakeBuffered(r: Router): Router
    requires Drains(r)
  {
    var line := r.background[0];
    var s := r.(background := r.background[1..], bytes := r.bytes - line.size);
    if line.result then Signal(s.(turn := None, attach := false), s.background != []) else s
  }

  /** Who a live line is for; nobody means that it is buffered. */
  function Destination(r: Router): Option<Consumer> {
    if r.turn.Some? && r.attach then r.turn
    else if r.inFlight then None
    else if r.turn.Some? && !r.promptPending then r.turn
    else None
  }

  /** A buffered line that is not part of a turn in flight starts one. */
  predicate Starts(r: Router, line: Line) {
    Destination(r).None? && !r.inFlight && !line.result
  }

  function Decide(r: Router, line: Line): Router {
    if r.turn.Some? && r.attach then
      if line.result then r.(inFlight := false, turn := None, attach := false) else r
    else if r.inFlight then
      BufferBackground(r.(inFlight := !line.result), line)
    else if r.turn.Some? && !r.promptPending then
      if line.result then r.(turn := None) else r
    else
      Signal(BufferBackground(r.(inFlight := !line.result), line), true)
  }

  /** The pump has closed. */
  function Shut(r: Router): Router {
    r.(turn := None, attach := false, inFlight := false)
  }

  // ---- The router in place --------------------------------------------------

  class StdoutRouter {
    var turn: Option<Consumer>
    var attach: bool
    var promptPending: bool
    var inFlight: bool
    var background: seq<Line>
    var bytes: int
    var dropped: nat
    var signals: nat

    function State(): Router
      reads this
    {
      Router(turn, attach, promptPending, inFlight, background, bytes, dropped, signals)
    }

    constructor ()
      ensures State() == IDLE
    {
      turn, attach, promptPending, inFlight := None, false, false, false;
      background, bytes, dropped, signals := [], 0, 0, 0;
    }

    method BufferLine(line: Line)
      modifies this
      ensures State() == BufferBackground(old(State()), line)
    {
      bytes := bytes + line.size;
      background := background + [line];
      while bytes > BACKGROUND_BUFFER_MAX_BYTES
        invariant TrimBackground(State()) == BufferBackground(old(State()), line)
        decreases |background|
      {
        if background == [] { break; }
        bytes := bytes - background[0].size;
        background := background[1..];
        dropped := dropped + 1;
      }
    }

    /** `stale` tells whether the receiver of the registered consumer is gone. */
    method RegisterConsumer(c: Consumer, attaches: bool, stale: bool) returns (registration: Registration)
      modifies this
      ensures State() == Register(old(State()), c, attaches, stale).0
      ensures registration == Register(old(State()), c, attaches, stale).1
    {
      if turn.Some? && stale {
        var wasAttach := attach;
        turn := None;
        attach := false;
        if wasAttach && (background != [] || inFlight) { signals := signals + 1; }
      }
      if turn.Some? { return Busy; }
      if attaches && background == [] && !inFlight { return NothingPending; }
      dropped := 0;
      var live := attaches && inFlight;
      turn, attach, promptPending := Some(c), attaches, !attaches;
      registration := if live then StreamingLive else Streaming;
    }

    /** From now on the registered turn receives the lines, unless an autonomous turn is in flight that it is
        not attached to. */
    method DeliverPrompt()
      modifies this
      ensures State() == PromptDelivered(old(State()))
      ensures Destination(State()) == if turn.Some? && (attach || !inFlight) then turn else None
    {
      promptPending := false;
    }

    method LoseConsumer(c: Consumer, undelivered: Option<Line>)
      modifies this
      ensures State() == ConsumerLost(old(State()), c, undelivered)
    {
      if turn != Some(c) { return; }
      var wasAttach := attach;
      turn := None;
      attach := false;
      if wasAttach {
        if undelivered.Some? {
          bytes := bytes + undelivered.value.size;
          background := [undelivered.value] + background;
        }
        if background != [] || inFlight { signals := signals + 1; }
      }
    }

    /** The first critical section of a drain: the line to send and whom to, if there is one. */
    method PopBuffered() returns (next: Option<(Consumer, Line)>)
      modifies this
      ensures next.Some? <==> Drains(old(State()))
      ensures next.None? ==> State() == old(State())
      ensures next.Some? ==>
        State() == TakeBuffered(old(State())) && next.value == (old(turn).value, old(background)[0])
    {
      if turn.None? || !attach || background == [] { return None; }
      var line := background[0];
      next := Some((turn.value, line));
      background := background[1..];
      bytes := bytes - line.size;
      if line.result {
        turn := None;
        attach := false;
        if background != [] { signals := signals + 1; }
      }
    }

    /** Attribute one live line; the caller sends it to the destination, if there is one. */
    method RouteLine(line: Line) returns (destination: Option<Consumer>, attachCompleted: bool)
      modifies this
      ensures State() == Decide(old(State()), line)
      ensures destination == Destination(old(State()))
      ensures attachCompleted == (old(turn).Some? && old(attach) && line.result)
    {
      match (turn, inFlight)
      case (Some(c), true) =>
        if attach {
          if line.result { inFlight, turn, attach := false, None, false; }
          return Some(c), line.result;
        }
        if line.result { inFlight := false; }
        BufferLine(line);
        return None, false;
      case (None, true) =>
        if line.result { inFlight := false; }
        BufferLine(line);
        return None, false;
      case (Some(c), false) =>
        if attach {
          if line.result { turn, attach := None, false; }
          return Some(c), line.result;
        }
        if !promptPending {
          if line.result { turn := None; }
          return Some(c), false;
        }
        inFlight := !line.result;
        BufferLine(line);
        signals := signals + 1;
        return None, false;
      case (None, false) =>
        inFlight := !line.result;
        BufferLine(line);
        signals := signals + 1;
        return None, false;
    }

    method Close()
      modifies this
      ensures State() == Shut(old(State()))
      ensures Destination(State()).None? && !inFlight && background == old(background)
    {
      turn, attach, inFlight := None, false, false;
    }
  }
}
