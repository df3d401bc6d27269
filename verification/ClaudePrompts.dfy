/**
 A turn that trouve started hears nothing before its prompt reached the
 vendor, however the loop, registrations and lost consumers interleave.
 */
module ClaudePrompts {
  import opened ClaudeRouter
  import opened ClaudeIsolation

  /** Among the events the consumer registered for a turn of its own. */
  ghost predicate Asked(events: seq<Event>, c: Consumer) {
    exists i :: 0 <= i < |events| && events[i] == Registers(c, false)
  }

  /** And after that a prompt was delivered. */
  ghost predicate Prompted(events: seq<Event>, c: Consumer) {
    exists i, j :: 0 <= i < j < |events| && events[i] == Registers(c, false) && events[j] == PromptIsDelivered
  }

  ghost predicate Heard(events: seq<Event>, w: World) {
    && (w.router.turn.Some? && !w.router.attach ==>
          Asked(events, w.router.turn.value) && (!w.router.promptPending ==> Prompted(events, w.router.turn.value)))
    && (w.stage.Sending? && w.stage.to in w.prompting ==> Prompted(events, w.stage.to))
    && (forall i | 0 <= i < |w.log| && w.log[i].to in w.prompting :: Prompted(events, w.log[i].to))
  }

  lemma LongerHears(events: seq<Event>, e: Event, c: Consumer)
    ensures Asked(events, c) || e == Registers(c, false) ==> Asked(events + [e], c)
    ensures Prompted(events, c) ==> Prompted(events + [e], c)
    ensures Asked(events, c) && e == PromptIsDelivered ==> Prompted(events + [e], c)
  {
    var longer := events + [e];
    assert longer[|events|] == e;
    if Asked(events, c) {
      var i :| 0 <= i < |events| && events[i] == Registers(c, false);
      assert longer[i] == events[i];
    }
    if Prompted(events, c) {
      var i, j :| 0 <= i < j < |events| && events[i] == Registers(c, false) && events[j] == PromptIsDelivered;
      assert longer[i] == events[i] && longer[j] == events[j];
    }
  }

  lemma StepHears(events: seq<Event>, w: World, e: Event)
    requires Heard(events, w) && Kinds(w) && Enabled(w, e)
    ensures Heard(events + [e], Step(w, e))
  {
    hide Asked, Prompted, BufferBackground, Overflow;
    forall c
      ensures Asked(events, c) || e == Registers(c, false) ==> Asked(events + [e], c)
      ensures Prompted(events, c) ==> Prompted(events + [e], c)
      ensures Asked(events, c) && e == PromptIsDelivered ==> Prompted(events + [e], c)
    {
      LongerHears(events, e, c);
    }
  }

  lemma EveryRunKinds(events: seq<Event>, w: World)
    requires Leads(BEGIN, events, w)
    ensures Kinds(w)
  {
    hide Leads, Kinds, EndsAtResult, Isolated, InOrder, Counted, Flight, Conserved;
    EveryRun(events, w);
  }

  lemma {:induction false} EveryRunHears(events: seq<Event>, w: World)
    requires Leads(BEGIN, events, w)
    ensures Heard(events, w)
    decreases |events|
  {
    if events != [] {
      var n := |events| - 1;
      var v :| Leads(BEGIN, events[..n], v) && Enabled(v, events[n]) && w == Step(v, events[n]);
      hide Step, Enabled, Heard, Kinds;
      EveryRunHears(events[..n], v);
      EveryRunKinds(events[..n], v);
      StepHears(events[..n], v, events[n]);
      assert events[..n] + [events[n]] == events;
    }
  }

  /** Over every run: a line goes to a turn that trouve started only after that registered and a prompt was
      delivered since. */
  lemma {:induction false} PromptFirst(events: seq<Event>, w: World, i: nat)
    requires Leads(BEGIN, events, w) && i < |w.log| && w.log[i].to in w.prompting
    ensures Prompted(events, w.log[i].to)
  {
    EveryRunHears(events, w);
  }
}
