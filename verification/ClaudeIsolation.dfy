/**
 All interleavings of the routing loop with registrations, prompt delivery
 and lost consumers, and what holds of every one of them: no line of an
 autonomous turn reaches a turn that trouve started, a consumer gets at most
 one result and nothing after it, and no line is delivered twice.
 */
module ClaudeIsolation {
  import opened Options
  import opened ClaudeRouter

  /** Where the routing loop is. It waits either for a line or for a registration to wake it. */
  datatype Stage =
    | Draining
    | Selecting
    | Sending(to: Consumer, line: Line, last: bool, live: bool)
    | Stopped

  datatype Delivery = Delivery(to: Consumer, line: Line)

  /** A line as it was decided on; `starts` marks one that was buffered as the start of a turn. */
  datatype Arrival = Arrival(line: Line, starts: bool)

  datatype World = World(
    router: Router,
    stage: Stage,
    gone: set<Consumer>,        // consumers whose receiver was dropped
    attached: set<Consumer>,    // ever registered to attach
    prompting: set<Consumer>,   // ever registered for a turn of their own
    history: seq<Arrival>,
    log: seq<Delivery>,
    lost: seq<Line>)            // discarded by the size limit or with a dead consumer

  const BEGIN: World := World(IDLE, Draining, {}, {}, {}, [], [], [])

  datatype Event =
    | Registers(consumer: Consumer, attach: bool)
    | PromptIsDelivered
    | Vanishes(consumer: Consumer)     // the receiver is dropped
    | Releases(consumer: Consumer)     // the registration guard is dropped
    | Polls                            // the loop looks for a buffered line
    | Wakes                            // the loop was notified
    | Arrives(line: Line)
    | Sent
    | SendFails
    | PumpCloses

  /** Every channel is new, and every line its own. */
  predicate Enabled(w: World, e: Event) {
    match e
    case Registers(c, _) => c !in w.attached && c !in w.prompting
    case PromptIsDelivered => true
    case Vanishes(_) => true
    case Releases(_) => true
    case Polls => w.stage.Draining?
    case Wakes => w.stage.Selecting?
    case Arrives(line) => w.stage.Selecting? && line.id == |w.history|
    case Sent => w.stage.Sending? && w.stage.to !in w.gone
    case SendFails => w.stage.Sending? && w.stage.to in w.gone
    case PumpCloses => w.stage.Selecting?
  }

  function Registered(w: World, c: Consumer, attach: bool): World {
    var (r, outcome) := Register(w.router, c, attach, w.router.turn.Some? && w.router.turn.value in w.gone);
    if outcome.Busy? || outcome.NothingPending? then w.(router := r)
    else if attach then w.(router := r, attached := w.attached + {c})
    else w.(router := r, prompting := w.prompting + {c})
  }

  function Arrived(w: World, line: Line): World {
    var r := Decide(w.router, line);
    var d := Destination(w.router);
    w.(router := r,
       history := w.history + [Arrival(line, Starts(w.router, line))],
       stage := if d.Some? then Sending(d.value, line, line.result, true) else Draining,
       lost := if d.Some? then w.lost else w.lost + Overflow(w.router.background + [line], w.router.bytes + line.size))
  }

  /** What the size limit discards from a buffer. */
  function Overflow(lines: seq<Line>, bytes: int): (gone: seq<Line>)
    ensures gone <= lines
  {
    if bytes > BACKGROUND_BUFFER_MAX_BYTES && lines != []
    then [lines[0]] + Overflow(lines[1..], bytes - lines[0].size)
    else []
  }

  lemma {:induction false} OverflowIsWhatTrimDiscards(r: Router)
    ensures Overflow(r.background, r.bytes) + TrimBackground(r).background == r.background
    decreases |r.background|
  {
    if r.bytes > BACKGROUND_BUFFER_MAX_BYTES && r.background != [] {
      var s := r.(background := r.background[1..], bytes := r.bytes - r.background[0].size, dropped := r.dropped + 1);
      OverflowIsWhatTrimDiscards(s);
      assert Overflow(r.background, r.bytes) == [r.background[0]] + Overflow(s.background, s.bytes);
      assert r.background == [r.background[0]] + s.background;
    }
  }

  function Polled(w: World): World {
    if Drains(w.router)
    then
      var line := w.router.background[0];
      w.(router := TakeBuffered(w.router), stage := Sending(w.router.turn.value, line, line.result, false))
    else w.(stage := Selecting)
  }

  function Delivered(w: World): World
    requires w.stage.Sending?
  {
    var announces := w.stage.live && w.stage.last && w.stage.to in w.attached && w.router.background != [];
    w.(stage := if !w.stage.live && w.stage.last then Selecting else Draining,
       log := w.log + [Delivery(w.stage.to, w.stage.line)],
       router := Signal(w.router, announces))
  }

  /** The line goes back only if the lost consumer was still registered, and was attached. */
  function Undelivered(w: World): World
    requires w.stage.Sending?
  {
    var kept := w.router.turn == Some(w.stage.to) && w.router.attach;
    w.(stage := if w.stage.live then Draining else Selecting,
       router :=
         if !w.stage.live && w.stage.last then w.router
         else ConsumerLost(w.router, w.stage.to, Some(w.stage.line)),
       lost := if kept && !(!w.stage.live && w.stage.last) then w.lost else w.lost + [w.stage.line])
  }

  function Step(w: World, e: Event): World
    requires Enabled(w, e)
  {
    match e
    case Registers(c, attach) => Registered(w, c, attach)
    case PromptIsDelivered => w.(router := PromptDelivered(w.router))
    case Vanishes(c) => w.(gone := w.gone + {c})
    case Releases(c) => w.(router := ConsumerLost(w.router, c, None))
    case Polls => Polled(w)
    case Wakes => w.(stage := Draining)
    case Arrives(line) => Arrived(w, line)
    case Sent => Delivered(w)
    case SendFails => Undelivered(w)
    case PumpCloses => w.(stage := Stopped, router := Shut(w.router))
  }

  // ---- Invariants -----------------------------------------------------------

  /** A buffered turn is under way after these arrivals. */
  ghost predicate Open(h: seq<Arrival>) {
    h != [] && var a := h[|h| - 1]; !a.line.result && (a.starts || Open(h[..|h| - 1]))
  }

  /** The arrival is part of an autonomous turn from its buffered start to its result. */
  ghost predicate Autonomous(h: seq<Arrival>, n: nat)
    requires n < |h|
  {
    h[n].starts || Open(h[..n])
  }

  ghost predicate Kinds(w: World) {
    && w.attached !! w.prompting
    && (w.router.turn.Some? ==>
          if w.router.attach then w.router.turn.value in w.attached else w.router.turn.value in w.prompting)
    && (w.stage.Sending? ==> w.stage.to in w.attached || w.stage.to in w.prompting)
    && (w.stage.Sending? && !w.stage.live ==> w.stage.to in w.attached)
    && (w.stage.Sending? ==> w.stage.last == w.stage.line.result)
    && (forall i | 0 <= i < |w.log| :: w.log[i].to in w.attached || w.log[i].to in w.prompting)
  }

  ghost predicate Flight(w: World) {
    w.stage.Stopped? || w.router.inFlight == Open(w.history)
  }

  /** The line arrived, outside every autonomous turn. */
  ghost predicate Foreground(h: seq<Arrival>, line: Line) {
    line.id < |h| && h[line.id].line == line && !Autonomous(h, line.id)
  }

  ghost predicate Isolated(w: World) {
    && (w.stage.Sending? && w.stage.to in w.prompting ==> Foreground(w.history, w.stage.line))
    && (forall i | 0 <= i < |w.log| :: w.log[i].to in w.prompting ==> Foreground(w.history, w.log[i].line))
  }

  /** Nothing follows a result. */
  ghost predicate EndsAtResult(w: World) {
    && (forall i, j | 0 <= i < j < |w.log| && w.log[i].to == w.log[j].to :: !w.log[i].line.result)
    && (w.stage.Sending? ==>
          && (forall i | 0 <= i < |w.log| && w.log[i].to == w.stage.to :: !w.log[i].line.result)
          && (w.stage.line.result ==> w.router.turn != Some(w.stage.to)))
    && (w.router.turn.Some? ==>
          forall i | 0 <= i < |w.log| && w.log[i].to == w.router.turn.value :: !w.log[i].line.result)
  }

  /** A turn that trouve started gets its lines in the order in which they arrived. */
  ghost predicate InOrder(w: World) {
    && (forall i, j | 0 <= i < j < |w.log| && w.log[i].to == w.log[j].to && w.log[i].to in w.prompting ::
          w.log[i].line.id < w.log[j].line.id)
    && (w.stage.Sending? && w.stage.to in w.prompting ==>
          forall i | 0 <= i < |w.log| && w.log[i].to == w.stage.to :: w.log[i].line.id < w.stage.line.id)
  }

  ghost predicate Counted(w: World) {
    w.router.bytes == Bytes(w.router.background)
  }

  ghost predicate Inv(w: World) {
    Kinds(w) && Flight(w) && Isolated(w) && InOrder(w) && EndsAtResult(w) && Counted(w)
  }

  lemma StepKeepsKinds(w: World, e: Event)
    requires Kinds(w) && Enabled(w, e)
    ensures Kinds(Step(w, e))
  {
    hide BufferBackground, Overflow;
  }

  lemma StepKeepsFlight(w: World, e: Event)
    requires Flight(w) && Enabled(w, e)
    ensures Flight(Step(w, e))
  {
    hide BufferBackground, Overflow;
    if e.Arrives? {
      assert Step(w, e).history[..|w.history|] == w.history;
    }
  }

  lemma StepKeepsIsolated(w: World, e: Event)
    requires Kinds(w) && Flight(w) && Isolated(w) && Enabled(w, e)
    ensures Isolated(Step(w, e))
  {
    hide BufferBackground, Overflow;
    var v := Step(w, e);
    forall n: nat | n < |w.history|
      ensures v.history[..n] == w.history[..n] && v.history[n] == w.history[n]
    {
    }
    if e.Arrives? {
      assert v.history[..|w.history|] == w.history;
    }
  }

  lemma StepKeepsOrder(w: World, e: Event)
    requires Kinds(w) && Isolated(w) && InOrder(w) && Enabled(w, e)
    ensures InOrder(Step(w, e))
  {
    hide BufferBackground, Overflow, Autonomous;
  }

  lemma StepKeepsEnds(w: World, e: Event)
    requires Kinds(w) && EndsAtResult(w) && Enabled(w, e)
    ensures EndsAtResult(Step(w, e))
  {
    hide BufferBackground, Overflow;
  }

  lemma BufferingCounts(r: Router, line: Line)
    requires r.bytes == Bytes(r.background)
    ensures BufferBackground(r, line).bytes == Bytes(BufferBackground(r, line).background)
  {
    BytesAppend(r.background, [line]);
    assert Bytes([line]) == line.size;
    var _ := TrimKeepsTheNewest(r.(background := r.background + [line], bytes := r.bytes + line.size));
  }

  lemma StepKeepsCount(w: World, e: Event)
    requires Counted(w) && Enabled(w, e)
    ensures Counted(Step(w, e))
  {
    hide BufferBackground, Overflow, Arrived, Bytes;
    if e.Arrives? {
      ArrivalKeepsCount(w, e.line);
    } else if e.SendFails? {
      FrontCounts(w.stage.line, w.router.background);
    } else if e.Polls? && w.router.background != [] {
      FrontCounts(w.router.background[0], w.router.background[1..]);
      assert w.router.background == [w.router.background[0]] + w.router.background[1..];
    }
  }

  lemma FrontCounts(line: Line, lines: seq<Line>)
    ensures Bytes([line] + lines) == line.size + Bytes(lines)
  {
    assert ([line] + lines)[1..] == lines;
  }

  lemma ArrivalKeepsCount(w: World, line: Line)
    requires Counted(w)
    ensures Counted(Arrived(w, line))
  {
    hide BufferBackground, Overflow, Bytes;
    BufferingCounts(w.router.(inFlight := !line.result), line);
  }

  lemma StepKeeps(w: World, e: Event)
    requires Inv(w) && Enabled(w, e)
    ensures Inv(Step(w, e))
  {
    hide Kinds, Flight, Isolated, InOrder, EndsAtResult, Counted, Step, Enabled;
    StepKeepsKinds(w, e);
    StepKeepsFlight(w, e);
    StepKeepsIsolated(w, e);
    StepKeepsOrder(w, e);
    StepKeepsEnds(w, e);
    StepKeepsCount(w, e);
  }

  // ---- Every line once ------------------------------------------------------

  ghost function LinesIn(h: seq<Arrival>): multiset<Line> {
    if h == [] then multiset{} else LinesIn(h[..|h| - 1]) + multiset{h[|h| - 1].line}
  }

  ghost function LinesOut(log: seq<Delivery>): multiset<Line> {
    if log == [] then multiset{} else LinesOut(log[..|log| - 1]) + multiset{log[|log| - 1].line}
  }

  ghost function InHand(t: Stage): multiset<Line> {
    if t.Sending? then multiset{t.line} else multiset{}
  }

  /** Every line that arrived was delivered, is buffered, is being sent or was lost: exactly one of them, once. */
  ghost predicate Conserved(w: World) {
    && Balanced(LinesIn(w.history), LinesOut(w.log), multiset(w.router.background), InHand(w.stage), multiset(w.lost))
    && (forall i | 0 <= i < |w.history| :: w.history[i].line.id == i)
  }

  ghost predicate Balanced(all: multiset<Line>, sent: multiset<Line>, held: multiset<Line>, hand: multiset<Line>,
                           lost: multiset<Line>)
  {
    all == sent + held + hand + lost
  }

  lemma BufferingConserves(r: Router, line: Line)
    ensures multiset(Overflow(r.background + [line], r.bytes + line.size))
            + multiset(BufferBackground(r, line).background)
            == multiset(r.background) + multiset{line}
  {
    var full := r.(background := r.background + [line], bytes := r.bytes + line.size);
    OverflowIsWhatTrimDiscards(full);
    hide TrimBackground, Overflow;
    var gone, left := Overflow(full.background, full.bytes), TrimBackground(full).background;
    assert multiset(gone + left) == multiset(full.background);
  }

  lemma BufferedBalances(all: multiset<Line>, sent: multiset<Line>, held: multiset<Line>, lost: multiset<Line>, x: Line,
                         gone: multiset<Line>, left: multiset<Line>)
    requires Balanced(all, sent, held, multiset{}, lost) && gone + left == held + multiset{x}
    ensures Balanced(all + multiset{x}, sent, left, multiset{}, lost + gone)
  {
    calc {
      all + multiset{x};
      sent + (held + multiset{x}) + lost;
      sent + (gone + left) + lost;
      sent + left + multiset{} + (lost + gone);
    }
  }

  lemma LinesInAppend(h: seq<Arrival>, a: Arrival)
    ensures LinesIn(h + [a]) == LinesIn(h) + multiset{a.line}
  {
    assert (h + [a])[..|h|] == h;
  }

  lemma BufferedArrivalConserves(w: World, line: Line)
    requires Conserved(w) && Enabled(w, Arrives(line)) && Destination(w.router).None?
    ensures Conserved(Arrived(w, line))
  {
    hide Balanced, BufferBackground, Overflow, LinesIn, LinesOut;
    var r, v := w.router, Arrived(w, line);
    LinesInAppend(w.history, Arrival(line, Starts(r, line)));
    BufferingConserves(r.(inFlight := !line.result), line);
    var gone := Overflow(r.background + [line], r.bytes + line.size);
    BufferedBalances(LinesIn(w.history), LinesOut(w.log), multiset(r.background), multiset(w.lost), line,
                     multiset(gone), multiset(v.router.background));
    assert multiset(w.lost + gone) == multiset(w.lost) + multiset(gone);
  }

  lemma SentArrivalConserves(w: World, line: Line)
    requires Conserved(w) && Enabled(w, Arrives(line)) && Destination(w.router).Some?
    ensures Conserved(Arrived(w, line))
  {
    hide BufferBackground, Overflow, LinesIn, LinesOut;
    LinesInAppend(w.history, Arrival(line, Starts(w.router, line)));
  }

  lemma PollConserves(w: World)
    requires Conserved(w) && Enabled(w, Polls)
    ensures Conserved(Polled(w))
  {
    hide LinesIn, LinesOut;
    var b := w.router.background;
    if Drains(w.router) {
      assert b == [b[0]] + b[1..];
      assert multiset(b) == multiset{b[0]} + multiset(b[1..]);
    }
  }

  lemma DeliveryConserves(w: World)
    requires Conserved(w) && w.stage.Sending?
    ensures Conserved(Delivered(w))
  {
    assert Delivered(w).log[..|w.log|] == w.log;
    assert LinesOut(Delivered(w).log) == LinesOut(w.log) + multiset{w.stage.line};
    hide LinesIn, LinesOut;
  }

  lemma LossConserves(w: World)
    requires Conserved(w) && w.stage.Sending?
    ensures Conserved(Undelivered(w))
  {
    hide LinesIn, LinesOut;
    var v, line := Undelivered(w), w.stage.line;
    if v.lost == w.lost {
      assert v.router.background == [line] + w.router.background;
      assert multiset(v.router.background) == multiset{line} + multiset(w.router.background);
    } else {
      assert v.router.background == w.router.background && v.lost == w.lost + [line];
      assert multiset(v.lost) == multiset(w.lost) + multiset{line};
    }
  }

  lemma StepConserves(w: World, e: Event)
    requires Conserved(w) && Enabled(w, e)
    ensures Conserved(Step(w, e))
  {
    hide LinesIn, LinesOut, Balanced, Arrived, Polled, Delivered, Undelivered, Registered;
    match e
    case Arrives(line) =>
      if Destination(w.router).None? { BufferedArrivalConserves(w, line); } else { SentArrivalConserves(w, line); }
    case Polls => PollConserves(w);
    case Sent => DeliveryConserves(w);
    case SendFails => LossConserves(w);
    case _ => OthersConserve(w, e);
  }

  lemma OthersConserve(w: World, e: Event)
    requires Conserved(w) && Enabled(w, e) && !e.Arrives? && !e.Polls? && !e.Sent? && !e.SendFails?
    ensures Conserved(Step(w, e))
  {
    hide LinesIn, LinesOut, Balanced;
    var v := Step(w, e);
    assert v.history == w.history && v.log == w.log && v.lost == w.lost;
    assert v.router.background == w.router.background && InHand(v.stage) == InHand(w.stage);
  }

  lemma {:induction false} LinesInOnce(h: seq<Arrival>, line: Line)
    requires forall i | 0 <= i < |h| :: h[i].line.id == i
    ensures LinesIn(h)[line] <= 1
    ensures line in LinesIn(h) ==> line.id < |h|
    decreases |h|
  {
    if h != [] { LinesInOnce(h[..|h| - 1], line); }
  }

  lemma {:induction false} LinesOutCount(log: seq<Delivery>, i: nat, j: nat)
    requires i < j < |log| && log[i].line == log[j].line
    ensures LinesOut(log)[log[i].line] >= 2
    decreases |log|
  {
    var n := |log| - 1;
    if j < n {
      LinesOutCount(log[..n], i, j);
    } else {
      LinesOutHas(log[..n], i);
    }
  }

  lemma {:induction false} LinesOutHas(log: seq<Delivery>, i: nat)
    requires i < |log|
    ensures log[i].line in LinesOut(log)
    decreases |log|
  {
    if i < |log| - 1 { LinesOutHas(log[..|log| - 1], i); }
  }

  // ---- What holds over whole runs -------------------------------------------

  /** The events lead from one world to another, each when it is possible. */
  ghost predicate Leads(from: World, events: seq<Event>, to: World) {
    if events == [] then to == from
    else
      var n := |events| - 1;
      exists w :: Leads(from, events[..n], w) && Enabled(w, events[n]) && to == Step(w, events[n])
  }

  lemma {:induction false} RunKeeps(from: World, events: seq<Event>, w: World)
    requires Inv(from) && Conserved(from) && Leads(from, events, w)
    ensures Inv(w) && Conserved(w)
    decreases |events|
  {
    if events != [] {
      var n := |events| - 1;
      var v :| Leads(from, events[..n], v) && Enabled(v, events[n]) && w == Step(v, events[n]);
      hide Step, Enabled, Inv, Conserved;
      RunKeeps(from, events[..n], v);
      StepKeeps(v, events[n]);
      StepConserves(v, events[n]);
    }
  }

  lemma BeginOk()
    ensures Inv(BEGIN) && Conserved(BEGIN)
  {
    assert LinesIn(BEGIN.history) == multiset{} && LinesOut(BEGIN.log) == multiset{};
  }

  lemma EveryRun(events: seq<Event>, w: World)
    requires Leads(BEGIN, events, w)
    ensures Inv(w) && Conserved(w)
  {
    hide Leads, Inv, Conserved;
    BeginOk();
    RunKeeps(BEGIN, events, w);
  }

  /** Turn isolation: what a turn that trouve started receives arrived outside every autonomous turn. */
  lemma {:induction false} TurnIsolation(events: seq<Event>, w: World, i: nat, start: nat)
    requires Leads(BEGIN, events, w)
    requires i < |w.log| && w.log[i].to in w.prompting
    requires start <= w.log[i].line.id < |w.history| && w.history[start].starts
    ensures exists k | start <= k < w.log[i].line.id :: w.history[k].line.result
  {
    hide Leads, Kinds, Flight, InOrder, EndsAtResult, Counted, Conserved, Open;
    EveryRun(events, w);
    assert Foreground(w.history, w.log[i].line);
    OpenUntilResult(w.history, start, w.log[i].line.id);
  }

  lemma {:induction false} OpenUntilResult(h: seq<Arrival>, start: nat, n: nat)
    requires start < n <= |h| && h[start].starts && !Open(h[..n])
    ensures exists k | start <= k < n :: h[k].line.result
    decreases n
  {
    var p := h[..n];
    assert p[..n - 1] == h[..n - 1];
    if !h[n - 1].line.result {
      OpenUntilResult(h, start, n - 1);
      var k :| start <= k < n - 1 && h[k].line.result;
      assert h[k].line.result;
    } else {
      assert h[n - 1].line.result;
    }
  }

  /** A turn that trouve started gets its lines in the order in which they arrived. */
  lemma {:induction false} ForegroundInOrder(events: seq<Event>, w: World, i: nat, j: nat)
    requires Leads(BEGIN, events, w) && i < j < |w.log| && w.log[i].to == w.log[j].to && w.log[i].to in w.prompting
    ensures w.log[i].line.id < w.log[j].line.id < |w.history|
  {
    EveryRun(events, w);
  }

  /** A consumer gets at most one result, and nothing after it. */
  lemma {:induction false} ResultEndsTurn(events: seq<Event>, w: World, i: nat, j: nat)
    requires Leads(BEGIN, events, w) && i < j < |w.log| && w.log[i].to == w.log[j].to
    ensures !w.log[i].line.result
  {
    EveryRun(events, w);
  }

  /** No line is delivered twice, and none that is still buffered was delivered. */
  lemma {:induction false} NoLineTwice(events: seq<Event>, w: World, i: nat)
    requires Leads(BEGIN, events, w) && i < |w.log|
    ensures forall j | i < j < |w.log| :: w.log[j].line != w.log[i].line
    ensures w.log[i].line !in w.router.background && w.log[i].line !in w.lost
  {
    EveryRun(events, w);
    var line := w.log[i].line;
    LinesInOnce(w.history, line);
    LinesOutHas(w.log, i);
    forall j | i < j < |w.log|
      ensures w.log[j].line != line
    {
      if w.log[j].line == line { LinesOutCount(w.log, i, j); }
    }
    assert multiset(w.router.background)[line] == 0 && multiset(w.lost)[line] == 0;
  }

  /** The byte counter is the size of the buffer, so it never underflows. */
  lemma {:induction false} BytesAreCounted(events: seq<Event>, w: World)
    requires Leads(BEGIN, events, w)
    ensures w.router.bytes == Bytes(w.router.background)
  {
    EveryRun(events, w);
  }

  // ---- When the rest of a turn is out of reach ------------------------------

  ghost predicate Quiet(events: seq<Event>) {
    forall i | 0 <= i < |events| :: !events[i].PumpCloses? && (events[i].Arrives? ==> !events[i].line.result)
  }

  /** Before the next result, a line could still go to a turn that trouve started. */
  ghost predicate Leaks(w: World) {
    exists events: seq<Event>, v: World ::
      && Leads(w, events, v) && Quiet(events) && v.stage.Selecting?
      && Destination(v.router).Some? && Destination(v.router).value in v.prompting
  }

  lemma QuietStepStaysInFlight(w: World, e: Event)
    requires w.router.inFlight && Enabled(w, e) && Quiet([e])
    ensures Step(w, e).router.inFlight
  {
    hide BufferBackground, Overflow;
    assert [e][0] == e;
  }

  lemma {:induction false} QuietStaysInFlight(w: World, events: seq<Event>, v: World)
    requires Kinds(w) && w.router.inFlight && Leads(w, events, v) && Quiet(events)
    ensures Kinds(v) && v.router.inFlight
    decreases |events|
  {
    if events != [] {
      var n := |events| - 1;
      var u :| Leads(w, events[..n], u) && Enabled(u, events[n]) && v == Step(u, events[n]);
      hide Kinds, Step, Enabled;
      QuietStaysInFlight(w, events[..n], u);
      StepKeepsKinds(u, events[n]);
      QuietStepStaysInFlight(u, events[n]);
    }
  }

  lemma Extend(w: World, events: seq<Event>, v: World, e: Event) returns (longer: seq<Event>, next: World)
    requires Leads(w, events, v) && Quiet(events) && Enabled(v, e)
    requires !e.PumpCloses? && !e.Arrives?
    ensures Leads(w, longer, next) && Quiet(longer) && next == Step(v, e)
  {
    longer, next := events + [e], Step(v, e);
    assert longer[..|events|] == events;
  }

  lemma {:induction false} BoundOf(s: set<Consumer>) returns (b: Consumer)
    ensures forall c | c in s :: c < b
  {
    b := 0;
    if s != {} {
      var c :| c in s;
      b := BoundOf(s - {c});
      if b <= c { b := c + 1; }
      assert s == (s - {c}) + {c};
    }
  }

  /** A send can fail, and an attached consumer give up: nobody, or a turn that trouve started, is left. */
  lemma AttachmentEnds(w: World) returns (events: seq<Event>, v: World)
    requires Kinds(w) && !w.router.inFlight && !w.stage.Stopped?
    ensures Leads(w, events, v) && Quiet(events) && Kinds(v) && !v.router.inFlight
    ensures (v.stage.Draining? || v.stage.Selecting?) && (v.router.turn.Some? ==> !v.router.attach)
  {
    hide Leads, Overflow, BufferBackground;
    events, v := [], w;
    LeadsNowhere(w);
    if v.stage.Sending? {
      events, v := Extend(w, events, v, Vanishes(v.stage.to));
      events, v := Extend(w, events, v, SendFails);
    }
    if v.router.turn.Some? && v.router.attach {
      events, v := Extend(w, events, v, Releases(v.router.turn.value));
    }
  }

  /** Then a registration, its prompt and a poll let the next line through. */
  lemma NotInFlightLeaks(w: World)
    requires Kinds(w) && !w.router.inFlight && !w.stage.Stopped?
    ensures Leaks(w)
  {
    hide Leads, Overflow, BufferBackground;
    var events, v := AttachmentEnds(w);
    if v.router.turn.None? {
      var c := BoundOf(v.attached + v.prompting);
      events, v := Extend(w, events, v, Registers(c, false));
    }
    events, v := Extend(w, events, v, PromptIsDelivered);
    if v.stage.Draining? {
      events, v := Extend(w, events, v, Polls);
    }
    assert Leads(w, events, v) && Quiet(events);
  }

  lemma LeadsNowhere(w: World)
    ensures Leads(w, [], w)
  {
  }

  /** While the loop goes on, the lines up to the next result are kept from every turn that trouve
      started if and only if an autonomous turn is known to be in flight. */
  lemma ContainedExactly(w: World)
    requires Kinds(w) && !w.stage.Stopped?
    ensures !Leaks(w) <==> w.router.inFlight
  {
    if w.router.inFlight {
      if Leaks(w) {
        var events: seq<Event>, v: World :|
          && Leads(w, events, v) && Quiet(events) && v.stage.Selecting?
          && Destination(v.router).Some? && Destination(v.router).value in v.prompting;
        QuietStaysInFlight(w, events, v);
      }
    } else {
      NotInFlightLeaks(w);
    }
  }

  /** A line that is not for a turn trouve started closes that way off until the next result, unless an
      attached consumer takes it with nothing in flight: then the router treats it as the continuation
      of a buffered turn, and the lines after it can leak. */
  lemma {:induction false} AttachedStartLeaks(events: seq<Event>, w: World, line: Line)
    requires Leads(BEGIN, events, w) && Enabled(w, Arrives(line)) && !line.result
    requires Destination(w.router).Some? ==> Destination(w.router).value in w.attached
    ensures Leaks(Arrived(w, line)) <==> w.router.turn.Some? && w.router.attach && !w.router.inFlight
  {
    hide Leads, Leaks, BufferBackground, Overflow, Flight, Isolated, InOrder, EndsAtResult, Counted, Conserved;
    EveryRun(events, w);
    StepKeepsKinds(w, Arrives(line));
    ContainedExactly(Arrived(w, line));
  }
}
