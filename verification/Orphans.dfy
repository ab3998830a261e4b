/** The controlled side: devices that are BeingControlled by a device that does not
    control them, how that comes about, and how long it lasts. */
module Orphans {
  import opened Messages
  import opened Layout
  import opened EdgeMachine
  import opened Network
  import opened Handoff
  import opened Ledger
  import opened Conservation
  import opened Stalls

  /** Whoever is controlled is controlled by somebody who controls it. */
  ghost predicate Matched(s: System) {
    forall a, b :: Dev(s, b).state == BeingControlled(a) ==> Dev(s, a).state == Controlling(b)
  }

  /** The chord on a controller that its target has taken up; the release will be
      ignored there. */
  predicate Abandons(s: System, step: Step) {
    && ChordFires(s, step) && Dev(s, step.d).state.Controlling?
    && Dev(s, Dev(s, step.d).state.target).state == BeingControlled(step.d)
  }

  /** An EdgeEnter taken up although its sender has given up on it. */
  predicate TakesUpCancelled(s: System, step: Step) {
    && step.Deliver? && Chan(s, step.a, step.b) != [] && Chan(s, step.a, step.b)[0].message.EdgeEnter?
    && Dev(s, step.b).state.Idle? && Dev(s, step.a).state != Controlling(step.b)
  }

  /** A return that ends the control of a sender that is still controlled. */
  predicate ReturnsTooSoon(s: System, step: Step) {
    && step.Deliver? && Chan(s, step.a, step.b) != [] && Chan(s, step.a, step.b)[0].message.IsReturn()
    && Dev(s, step.b).state == Controlling(step.a) && Dev(s, step.a).state == BeingControlled(step.b)
  }

  predicate MakesOrphan(s: System, step: Step) {
    Abandons(s, step) || TakesUpCancelled(s, step) || ReturnsTooSoon(s, step)
  }

  lemma PairStaysMatched(s: System, step: Step, a: DeviceId, b: DeviceId)
    requires Wired(s) && Matched(s) && !MakesOrphan(s, step)
    requires Dev(Apply(s, step), b).state == BeingControlled(a)
    ensures Dev(Apply(s, step), a).state == Controlling(b)
  {
    StepRole(s, step, a);
    StepRole(s, step, b);
    assert Dev(s, b).state == BeingControlled(a) ==> Linked(s, a, b) && Linked(s, b, a) && a != b;
  }

  /** This device is the orphan. */
  lemma OrphanMade(s: System, step: Step) returns (a: DeviceId, b: DeviceId)
    requires Wired(s) && MakesOrphan(s, step)
    ensures var t := Apply(s, step);
            Dev(t, b).state == BeingControlled(a) && Dev(t, a).state != Controlling(b)
  {
    if Abandons(s, step) {
      a, b := step.d, Dev(s, step.d).state.target;
    } else if TakesUpCancelled(s, step) {
      a, b := step.a, step.b;
      assert Linked(s, a, b);
    } else {
      a, b := step.b, step.a;
    }
    StepRole(s, step, a);
    StepRole(s, step, b);
  }

  /** A step orphans nobody exactly if it is none of the three. */
  lemma MatchedStep(s: System, step: Step)
    requires Wired(s) && Matched(s)
    ensures Matched(Apply(s, step)) <==> !MakesOrphan(s, step)
  {
    if MakesOrphan(s, step) {
      var a, b := OrphanMade(s, step);
    } else {
      forall a, b | Dev(Apply(s, step), b).state == BeingControlled(a)
        ensures Dev(Apply(s, step), a).state == Controlling(b)
      {
        PairStaysMatched(s, step, a, b);
      }
    }
  }

  ghost predicate AlwaysMatched(s: System, steps: seq<Step>)
    decreases |steps|
  {
    Matched(Run(s, steps)) && (steps != [] ==> AlwaysMatched(s, steps[..|steps| - 1]))
  }

  ghost predicate NeverOrphaned(s: System, steps: seq<Step>)
    decreases |steps|
  {
    steps != [] ==>
      && NeverOrphaned(s, steps[..|steps| - 1])
      && !MakesOrphan(Run(s, steps[..|steps| - 1]), steps[|steps| - 1])
  }

  /** In any run, whoever is controlled has a controller at every point exactly if no
      step is one of the three. */
  lemma {:induction false} NoOrphans(s: System, steps: seq<Step>)
    requires Start(s)
    ensures AlwaysMatched(s, steps) <==> NeverOrphaned(s, steps)
    decreases |steps|
  {
    if steps == [] {
      assert forall b :: Dev(s, b).state == Idle;
    } else {
      var before := steps[..|steps| - 1];
      NoOrphans(s, before);
      if AlwaysMatched(s, before) {
        RunWired(s, before);
        MatchedStep(Run(s, before), steps[|steps| - 1]);
      }
    }
  }

  lemma ConservedIsMatched(s: System)
    requires Conserved(s)
    ensures Matched(s)
  {
    forall a, b | Dev(s, b).state == BeingControlled(a) ensures Dev(s, a).state == Controlling(b) {
      assert Imbalance(s, a, b) == 0;
      TokensNonNegative(s, a, b);
    }
  }

  // ----- How long it lasts -----

  /** What makes `b` let go: the loss of the pair, its own chord, or a touch of an edge
      that leads to `a`. */
  predicate LetsGo(s: System, step: Step, a: DeviceId, b: DeviceId) {
    || LosesPair(s, step, a, b)
    || (ChordFires(s, step) && step.d == b)
    || (step.Touch? && step.d == b
        && var link := Resolve(step.layout, b, step.edge, step.position); link.Some? && link.value.to == a)
  }

  /** A controlled device stays so through every other step, whatever its controller
      believes, and is Idle after these. */
  lemma ControlledStep(s: System, step: Step, a: DeviceId, b: DeviceId)
    requires Wired(s) && Dev(s, b).state == BeingControlled(a)
    ensures Dev(Apply(s, step), b).state == if LetsGo(s, step, a, b) then Idle else BeingControlled(a)
  {
    StepRole(s, step, b);
    assert Linked(s, a, b) && Linked(s, b, a) && a != b;
  }

  ghost predicate ControlledThroughout(s: System, steps: seq<Step>, a: DeviceId, b: DeviceId)
    decreases |steps|
  {
    && Dev(Run(s, steps), b).state == BeingControlled(a)
    && (steps != [] ==> ControlledThroughout(s, steps[..|steps| - 1], a, b))
  }

  ghost predicate NeverLetsGo(s: System, steps: seq<Step>, a: DeviceId, b: DeviceId)
    decreases |steps|
  {
    steps != [] ==>
      && NeverLetsGo(s, steps[..|steps| - 1], a, b)
      && !LetsGo(Run(s, steps[..|steps| - 1]), steps[|steps| - 1], a, b)
  }

  /** From any state in which `b` is controlled by `a`, orphaned or not, whatever
      follows: it stays so exactly until one of the three happens. */
  lemma {:induction false} ControlLasts(s: System, steps: seq<Step>, a: DeviceId, b: DeviceId)
    requires Wired(s) && Dev(s, b).state == BeingControlled(a)
    ensures ControlledThroughout(s, steps, a, b) <==> NeverLetsGo(s, steps, a, b)
    decreases |steps|
  {
    if steps != [] {
      var before := steps[..|steps| - 1];
      ControlLasts(s, before, a, b);
      if ControlledThroughout(s, before, a, b) {
        WiredStays(s, before);
        ControlledStep(Run(s, before), steps[|steps| - 1], a, b);
      }
    }
  }

  /** And all the while it refuses whoever asks. */
  lemma ControlledRefuses(s: System, a: DeviceId, b: DeviceId, c: DeviceId)
    requires Dev(s, b).state == BeingControlled(a) && Linked(s, b, c) && b != c
    requires Chan(s, c, b) != [] && Chan(s, c, b)[0].message.EdgeEnter?
    ensures var t := Apply(s, Deliver(c, b));
            && Dev(t, b).state == BeingControlled(a)
            && Chan(t, b, c) == Chan(s, b, c) + [Packet(EdgeEnterRejected, Dev(s, b).session)]
  {
    var t, p := Popped(s, c, b), Chan(s, c, b)[0];
    var event := Route(c, p.message).event;
    StepRole(s, Deliver(c, b), b);
    ResponseShape(b, Dev(t, b).hotkey, Dev(t, b).state, event, EMPTY);
    TransitionModest(t, b, event, EMPTY);
    CarryOutView(t, b, Transition(b, Dev(t, b).hotkey, Dev(t, b).state, event, EMPTY), p.session, b, c);
  }
}
