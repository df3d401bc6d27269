/**
 A run on which the rest of an autonomous turn reaches a turn that trouve
 started: its first line went to a consumer that had attached to another turn.
 */
module ClaudeLeak {
  import opened Options
  import opened ClaudeRouter
  import opened ClaudeIsolation

  const FIRST := Line(0, 1, false)      // an autonomous turn with nobody to attach to it
  const SECOND := Line(1, 1, true)      // its result
  const THIRD := Line(2, 1, false)      // another one starts
  const FOURTH := Line(3, 1, false)     // and goes on

  const ATTACHED: Consumer := 1
  const PROMPTING: Consumer := 2

  /** A whole turn is buffered and a consumer attaches to it. */
  const BUFFERED: seq<Event> := [Polls, Arrives(FIRST), Polls, Arrives(SECOND), Polls, Registers(ATTACHED, true)]

  /** Before the loop wakes, the first line of another turn arrives; then the buffered turn is drained. */
  const DRAINED: seq<Event> := [Arrives(THIRD), Sent, Polls, Sent, Polls, Sent]

  /** A turn is started, and the next line arrives. */
  const LEAKING: seq<Event> := [Registers(PROMPTING, false), PromptIsDelivered, Arrives(FOURTH), Sent]

  const OLD_LINES: seq<Arrival> := [Arrival(FIRST, true), Arrival(SECOND, false)]
  const TAKEN: seq<Delivery> := [Delivery(ATTACHED, THIRD), Delivery(ATTACHED, FIRST), Delivery(ATTACHED, SECOND)]

  lemma LeadsThen(w: World, events: seq<Event>, v: World, e: Event)
    requires Leads(w, events, v) && Enabled(v, e)
    ensures Leads(w, events + [e], Step(v, e))
  {
    hide Enabled, Step;
    assert (events + [e])[..|events|] == events;
  }

  lemma {:induction false} LeadsAll(w: World, events: seq<Event>, v: World, more: seq<Event>, worlds: seq<World>)
    requires Leads(w, events, v) && |worlds| == |more| + 1 && worlds[0] == v
    requires forall i | 0 <= i < |more| :: Enabled(worlds[i], more[i]) && worlds[i + 1] == Step(worlds[i], more[i])
    ensures Leads(w, events + more, worlds[|more|])
    decreases |more|
  {
    hide Leads, Enabled, Step;
    if more == [] {
      assert events + more == events;
    } else {
      LeadsThen(w, events, v, more[0]);
      LeadsAll(w, events + [more[0]], worlds[1], more[1..], worlds[1..]);
      assert events + [more[0]] + more[1..] == events + more;
    }
  }

  lemma BufferingIs(r: Router, line: Line)
    requires r.bytes + line.size <= BACKGROUND_BUFFER_MAX_BYTES
    ensures BufferBackground(r, line) == r.(background := r.background + [line], bytes := r.bytes + line.size)
    ensures Overflow(r.background + [line], r.bytes + line.size) == []
  {
  }

  lemma {:induction false} BufferedRun()
    ensures
      var r := Router(Some(ATTACHED), true, false, false, [FIRST, SECOND], 2, 0, 1);
      Leads(BEGIN, BUFFERED, World(r, Selecting, {}, {ATTACHED}, {}, OLD_LINES, [], []))
  {
    hide BufferBackground, Overflow, Leads;
    var r0 := IDLE;
    BufferingIs(r0.(inFlight := true), FIRST);
    var r1 := Router(None, false, false, true, [FIRST], 1, 0, 1);
    BufferingIs(r1.(inFlight := false), SECOND);
    var r2 := Router(None, false, false, false, [FIRST, SECOND], 2, 0, 1);
    var r3 := Router(Some(ATTACHED), true, false, false, [FIRST, SECOND], 2, 0, 1);
    var none: seq<Line> := [];
    assert none + [FIRST] == [FIRST] && [FIRST] + [SECOND] == [FIRST, SECOND] && none + none == none;
    var h0: seq<Arrival> := [];
    var h1 := [Arrival(FIRST, true)];
    assert h0 + [Arrival(FIRST, true)] == h1 && h1 + [Arrival(SECOND, false)] == OLD_LINES;
    var worlds := [
      BEGIN,
      World(r0, Selecting, {}, {}, {}, h0, [], []),
      World(r1, Draining, {}, {}, {}, h1, [], []),
      World(r1, Selecting, {}, {}, {}, h1, [], []),
      World(r2, Draining, {}, {}, {}, OLD_LINES, [], []),
      World(r2, Selecting, {}, {}, {}, OLD_LINES, [], []),
      World(r3, Selecting, {}, {ATTACHED}, {}, OLD_LINES, [], [])];
    LeadsNowhere(BEGIN);
    LeadsAll(BEGIN, [], BEGIN, BUFFERED, worlds);
    assert [] + BUFFERED == BUFFERED;
  }

  lemma {:induction false} DrainedRun()
    ensures
      var r := Router(None, false, false, false, [], 0, 0, 1);
      Leads(BEGIN, BUFFERED + DRAINED,
            World(r, Selecting, {}, {ATTACHED}, {}, OLD_LINES + [Arrival(THIRD, false)], TAKEN, []))
  {
    hide BufferBackground, Overflow, Leads;
    BufferedRun();
    var r0 := Router(Some(ATTACHED), true, false, false, [FIRST, SECOND], 2, 0, 1);
    var r1 := Router(Some(ATTACHED), true, false, false, [SECOND], 1, 0, 1);
    var r2 := Router(None, false, false, false, [], 0, 0, 1);
    var a, h0, h1 := {ATTACHED}, OLD_LINES, OLD_LINES + [Arrival(THIRD, false)];
    var l0, l1, l2, l3 := TAKEN[..0], TAKEN[..1], TAKEN[..2], TAKEN;
    assert [FIRST, SECOND][1..] == [SECOND] && [SECOND][1..] == [];
    assert l0 + [TAKEN[0]] == l1 && l1 + [TAKEN[1]] == l2 && l2 + [TAKEN[2]] == l3 && l0 == [];
    var worlds := [
      World(r0, Selecting, {}, a, {}, h0, l0, []),
      World(r0, Sending(ATTACHED, THIRD, false, true), {}, a, {}, h1, l0, []),
      World(r0, Draining, {}, a, {}, h1, l1, []),
      World(r1, Sending(ATTACHED, FIRST, false, false), {}, a, {}, h1, l1, []),
      World(r1, Draining, {}, a, {}, h1, l2, []),
      World(r2, Sending(ATTACHED, SECOND, true, false), {}, a, {}, h1, l2, []),
      World(r2, Selecting, {}, a, {}, h1, l3, [])];
    LeadsAll(BEGIN, BUFFERED, worlds[0], DRAINED, worlds);
  }

  /** The literal run: a result arrived neither between the third and the fourth line nor with one of them, the
      third went to the attached consumer, and the fourth to the turn that trouve started. */
  lemma {:induction false} LeakingRun() returns (w: World)
    ensures Leads(BEGIN, BUFFERED + DRAINED + LEAKING, w)
    ensures w.history == OLD_LINES + [Arrival(THIRD, false)] + [Arrival(FOURTH, false)]
    ensures w.attached == {ATTACHED} && w.prompting == {PROMPTING}
    ensures w.log == TAKEN + [Delivery(PROMPTING, FOURTH)]
  {
    hide BufferBackground, Overflow, Leads;
    DrainedRun();
    var r2 := Router(None, false, false, false, [], 0, 0, 1);
    var r3 := Router(Some(PROMPTING), false, true, false, [], 0, 0, 1);
    var r4 := r3.(promptPending := false);
    var a, p, h1 := {ATTACHED}, {PROMPTING}, OLD_LINES + [Arrival(THIRD, false)];
    var h2, l4 := h1 + [Arrival(FOURTH, false)], TAKEN + [Delivery(PROMPTING, FOURTH)];
    var worlds := [
      World(r2, Selecting, {}, a, {}, h1, TAKEN, []),
      World(r3, Selecting, {}, a, p, h1, TAKEN, []),
      World(r4, Selecting, {}, a, p, h1, TAKEN, []),
      World(r4, Sending(PROMPTING, FOURTH, false, true), {}, a, p, h2, TAKEN, []),
      World(r4, Draining, {}, a, p, h2, l4, [])];
    LeadsAll(BEGIN, BUFFERED + DRAINED, worlds[0], LEAKING, worlds);
    w := worlds[4];
  }
}
