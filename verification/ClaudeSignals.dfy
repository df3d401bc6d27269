/**
 The announcements of autonomous turns. A turn that starts with nobody
 attached is announced, and so is buffered output whenever it is left without
 an attached consumer, with two exceptions: the pump closes, or an attached
 consumer takes a live result while other turns are still buffered. In the
 second case the announcement follows the delivery, and is forgotten if the
 delivery fails.
 */
module ClaudeSignals {
  import opened Options
  import opened ClaudeRouter
  import opened ClaudeIsolation
  import opened ClaudeLeak

  predicate Attended(r: Router) {
    r.turn.Some? && r.attach
  }

  /** Output of an autonomous turn is waiting, and no consumer is attached to it. */
  predicate Unattended(r: Router) {
    Pending(r) && !Attended(r)
  }

  // ---- A start is announced -------------------------------------------------

  ghost function StartCount(h: seq<Arrival>): nat {
    if h == [] then 0 else StartCount(h[..|h| - 1]) + if h[|h| - 1].starts then 1 else 0
  }

  lemma StartCountAppend(h: seq<Arrival>, a: Arrival)
    ensures StartCount(h + [a]) == StartCount(h) + if a.starts then 1 else 0
  {
    assert (h + [a])[..|h|] == h;
  }

  lemma StepAnnounces(w: World, e: Event)
    requires Enabled(w, e)
    ensures Step(w, e).router.signals >= w.router.signals
    ensures StartCount(Step(w, e).history) - StartCount(w.history) <= Step(w, e).router.signals - w.router.signals
  {
    hide BufferBackground, Overflow, StartCount;
    if e.Arrives? {
      StartCountAppend(w.history, Arrival(e.line, Starts(w.router, e.line)));
    }
  }

  /** Every autonomous turn that started with nobody attached was announced. */
  lemma {:induction false} StartsAreAnnounced(events: seq<Event>, w: World)
    requires Leads(BEGIN, events, w)
    ensures StartCount(w.history) <= w.router.signals
    decreases |events|
  {
    if events != [] {
      var n := |events| - 1;
      var v :| Leads(BEGIN, events[..n], v) && Enabled(v, events[n]) && w == Step(v, events[n]);
      hide Step, Enabled, StartCount;
      StartsAreAnnounced(events[..n], v);
      StepAnnounces(v, events[n]);
    }
  }

  // ---- What is left behind is announced -------------------------------------

  /** While a turn is in flight, the buffer does not end with the result of another one. */
  ghost predicate Unfinished(r: Router) {
    r.inFlight && r.background != [] ==> !r.background[|r.background| - 1].result
  }

  lemma {:induction false} TrimKeepsTheLast(r: Router)
    ensures var b := TrimBackground(r).background;
      b != [] ==> r.background != [] && b[|b| - 1] == r.background[|r.background| - 1]
    decreases |r.background|
  {
    if r.bytes > BACKGROUND_BUFFER_MAX_BYTES && r.background != [] {
      TrimKeepsTheLast(r.(background := r.background[1..], bytes := r.bytes - r.background[0].size,
                          dropped := r.dropped + 1));
    }
  }

  lemma BufferKeepsTheLast(r: Router, line: Line)
    ensures var b := BufferBackground(r, line).background; b != [] ==> b[|b| - 1] == line
  {
    TrimKeepsTheLast(r.(background := r.background + [line], bytes := r.bytes + line.size));
  }

  lemma ArrivalKeepsUnfinished(w: World, line: Line)
    requires Unfinished(w.router)
    ensures Unfinished(Arrived(w, line).router)
  {
    hide BufferBackground, Overflow;
    BufferKeepsTheLast(w.router.(inFlight := !line.result), line);
  }

  lemma StepKeepsUnfinished(w: World, e: Event)
    requires Unfinished(w.router) && Kinds(w) && EndsAtResult(w) && Enabled(w, e)
    ensures Unfinished(Step(w, e).router)
  {
    hide BufferBackground, Overflow, Arrived;
    if e.Arrives? { ArrivalKeepsUnfinished(w, e.line); }
  }

  lemma {:induction false} EveryRunUnfinished(events: seq<Event>, w: World)
    requires Leads(BEGIN, events, w)
    ensures Inv(w) && Unfinished(w.router)
    decreases |events|
  {
    EveryRun(events, w);
    if events != [] {
      var n := |events| - 1;
      var v :| Leads(BEGIN, events[..n], v) && Enabled(v, events[n]) && w == Step(v, events[n]);
      hide Step, Enabled, Unfinished, Kinds, EndsAtResult, Isolated, InOrder, Counted, Flight;
      EveryRunUnfinished(events[..n], v);
      StepKeepsUnfinished(v, events[n]);
    }
  }

  /** The pump closes, or an attached consumer takes a result as it arrives. */
  predicate Exception(w: World, e: Event) {
    e.PumpCloses? || (e.Arrives? && e.line.result && Attended(w.router))
  }

  /** The step that leaves output unattended announces it if and only if it is not one of the two exceptions. */
  lemma {:induction false} LeftBehindExactly(events: seq<Event>, w: World, e: Event)
    requires Leads(BEGIN, events, w) && Enabled(w, e)
    requires !Unattended(w.router) && Unattended(Step(w, e).router)
    ensures Step(w, e).router.signals > w.router.signals <==> !Exception(w, e)
  {
    hide Leads, BufferBackground, Overflow, Kinds, EndsAtResult, Isolated, InOrder, Counted, Flight;
    EveryRunUnfinished(events, w);
  }

  // ---- Over a stretch of a run ----------------------------------------------

  ghost predicate Trace(worlds: seq<World>, events: seq<Event>) {
    && |worlds| == |events| + 1 && worlds[0] == BEGIN
    && (forall i | 0 <= i < |events| :: Enabled(worlds[i], events[i]) && worlds[i + 1] == Step(worlds[i], events[i]))
  }

  lemma {:induction false} TraceLeads(worlds: seq<World>, events: seq<Event>, n: nat)
    requires Trace(worlds, events) && n <= |events|
    ensures Leads(BEGIN, events[..n], worlds[n])
  {
    hide Enabled, Step;
    if n > 0 {
      TraceLeads(worlds, events, n - 1);
      assert events[..n][..n - 1] == events[..n - 1];
      assert worlds[n - 1 + 1] == Step(worlds[n - 1], events[n - 1]);
    }
  }

  lemma {:induction false} SignalsGrow(worlds: seq<World>, events: seq<Event>, m: nat, n: nat)
    requires Trace(worlds, events) && m <= n <= |events|
    ensures worlds[m].router.signals <= worlds[n].router.signals
    decreases n - m
  {
    hide Enabled, Step;
    if m < n {
      SignalsGrow(worlds, events, m, n - 1);
      assert worlds[n - 1 + 1] == Step(worlds[n - 1], events[n - 1]);
      StepAnnounces(worlds[n - 1], events[n - 1]);
    }
  }

  /** The `m`-th step left output unattended, and it has been so up to the `n`-th. */
  ghost predicate Stretch(worlds: seq<World>, m: nat, n: nat) {
    && 0 < m <= n < |worlds| && !Unattended(worlds[m - 1].router)
    && (forall k | m <= k <= n :: Unattended(worlds[k].router))
  }

  /** Whenever output waits unattended, an announcement was made since it was left so. */
  lemma {:induction false} LeftBehindIsAnnounced(worlds: seq<World>, events: seq<Event>, m: nat, n: nat)
    requires Trace(worlds, events) && Stretch(worlds, m, n) && !Exception(worlds[m - 1], events[m - 1])
    ensures worlds[n].router.signals > worlds[m - 1].router.signals
  {
    hide Enabled, Step, Unattended, Exception, Leads;
    TraceLeads(worlds, events, m - 1);
    assert worlds[m - 1 + 1] == Step(worlds[m - 1], events[m - 1]);
    LeftBehindExactly(events[..m - 1], worlds[m - 1], events[m - 1]);
    SignalsGrow(worlds, events, m, n);
  }

  /** A live result is on its way to the consumer that was attached. */
  ghost predicate Closing(w: World) {
    && w.stage.Sending? && w.stage.live && w.stage.last && w.stage.line.result
    && w.stage.to in w.attached && !w.router.inFlight
  }

  lemma ResultCloses(w: World, line: Line)
    requires Kinds(w) && Flight(w) && Enabled(w, Arrives(line)) && Exception(w, Arrives(line))
    ensures Closing(Step(w, Arrives(line)))
  {
    hide BufferBackground, Overflow, Open;
  }

  lemma StillClosing(w: World, e: Event)
    requires Closing(w) && Enabled(w, e) && !e.Sent? && !e.SendFails?
    ensures Closing(Step(w, e))
  {
    hide BufferBackground, Overflow;
  }

  /** The first outcome of a send after the `m`-th step is that of the `p`-th. */
  ghost predicate Outcome(events: seq<Event>, m: nat, p: nat) {
    && m <= p < |events| && (events[p].Sent? || events[p].SendFails?)
    && (forall k | m <= k < p :: !events[k].Sent? && !events[k].SendFails?)
  }

  lemma {:induction false} ClosingUntil(worlds: seq<World>, events: seq<Event>, m: nat, k: nat, p: nat)
    requires Trace(worlds, events) && Outcome(events, m, p) && m <= k <= p && Closing(worlds[m])
    ensures Closing(worlds[k])
    decreases k
  {
    hide Enabled, Step, Closing;
    if m < k {
      ClosingUntil(worlds, events, m, k - 1, p);
      assert worlds[k - 1 + 1] == Step(worlds[k - 1], events[k - 1]);
      StillClosing(worlds[k - 1], events[k - 1]);
    }
  }

  lemma OutcomeDecides(w: World, e: Event)
    requires Closing(w) && EndsAtResult(w) && Unattended(w.router) && Enabled(w, e) && (e.Sent? || e.SendFails?)
    ensures Step(w, e).router.signals > w.router.signals <==> e.Sent?
  {
    hide BufferBackground, Overflow;
  }

  /** What a live result leaves behind is announced after its delivery if and only if that succeeds. */
  lemma {:induction false} DeliveryDecides(worlds: seq<World>, events: seq<Event>, m: nat, p: nat)
    requires Trace(worlds, events) && Stretch(worlds, m, p) && Outcome(events, m, p)
    requires events[m - 1].Arrives? && Exception(worlds[m - 1], events[m - 1])
    ensures worlds[p + 1].router.signals > worlds[p].router.signals <==> events[p].Sent?
  {
    hide Enabled, Step, Unattended, Exception, Closing, Leads, Kinds, Flight, EndsAtResult, Isolated, InOrder, Counted;
    TraceLeads(worlds, events, m - 1);
    EveryRun(events[..m - 1], worlds[m - 1]);
    assert worlds[m - 1 + 1] == Step(worlds[m - 1], events[m - 1]);
    ResultCloses(worlds[m - 1], events[m - 1].line);
    ClosingUntil(worlds, events, m, p, p);
    TraceLeads(worlds, events, p);
    EveryRun(events[..p], worlds[p]);
    OutcomeDecides(worlds[p], events[p]);
  }

  // ---- The forgotten announcement -------------------------------------------

  const RESULT := Line(2, 1, true)

  /** Before the loop wakes, the result of another turn arrives, and the attached consumer gives up. */
  const FORGETTING: seq<Event> := [Arrives(RESULT), Vanishes(ATTACHED), SendFails]

  /** The literal run: the turn that was announced once and attached to is buffered whole, nobody is attached to it,
      and it was not announced again. */
  lemma {:induction false} ForgottenTurn() returns (w: World)
    ensures Leads(BEGIN, BUFFERED + FORGETTING, w) && Unattended(w.router)
    ensures w.router.background == [FIRST, SECOND] && w.attached == w.gone == {ATTACHED}
    ensures w.log == [] && w.router.signals == 1
  {
    hide BufferBackground, Overflow, Leads;
    BufferedRun();
    var r0 := Router(Some(ATTACHED), true, false, false, [FIRST, SECOND], 2, 0, 1);
    var r1 := r0.(turn := None, attach := false);
    var h1 := OLD_LINES + [Arrival(RESULT, false)];
    var none: seq<Line> := [];
    var worlds := [
      World(r0, Selecting, {}, {ATTACHED}, {}, OLD_LINES, [], []),
      World(r1, Sending(ATTACHED, RESULT, true, true), {}, {ATTACHED}, {}, h1, [], []),
      World(r1, Sending(ATTACHED, RESULT, true, true), {ATTACHED}, {ATTACHED}, {}, h1, [], []),
      World(r1, Draining, {ATTACHED}, {ATTACHED}, {}, h1, [], [RESULT])];
    assert none + [RESULT] == [RESULT];
    LeadsAll(BEGIN, BUFFERED, worlds[0], FORGETTING, worlds);
    w := worlds[3];
  }
}
