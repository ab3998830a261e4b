/** What the ledger gives over whole runs: when hand-offs are conserved, when a
    device can be left Controlling with nothing on its way to end it. */
module Conservation {
  import opened Messages
  import opened Layout
  import opened EdgeMachine
  import opened Network
  import opened Handoff
  import opened Ledger

  // ----- The wiring invariant holds in every run -----

  lemma CarryOutWired(s: System, d: DeviceId, r: Response, stamp: nat)
    requires Wired(s) && Modest(Dev(s, d), r)
    requires r.state.BeingControlled? ==> Linked(s, r.state.source, d)
    ensures Wired(CarryOut(s, d, r, stamp))
  {
    var t := CarryOut(s, d, r, stamp);
    CarryOutView(s, d, r, stamp, d, d);
    forall a, b | !Linked(t, a, b) ensures Chan(t, a, b) == [] && Dev(t, b).state != BeingControlled(a) {
      CarryOutView(s, d, r, stamp, a, b);
      CarryOutView(s, d, r, stamp, b, a);
      assert !Linked(s, a, b);
    }
    assert forall a, b :: Linked(t, a, b) <==> Linked(s, a, b);
  }

  lemma FeedWired(s: System, d: DeviceId, event: Event, layout: Arrangement, stamp: nat)
    requires Wired(s)
    requires event.PeerEdgeEnter? ==> Linked(s, event.from, d)
    ensures Wired(Feed(s, d, event, layout, stamp))
  {
    TransitionModest(s, d, event, layout);
    var dev := Dev(s, d);
    assert dev.state.BeingControlled? ==> Linked(s, dev.state.source, d);
    CarryOutWired(s, d, Transition(d, dev.hotkey, dev.state, event, layout), stamp);
  }

  lemma DropWired(s: System, x: DeviceId, y: DeviceId)
    requires Wired(s)
    ensures Wired(Drop(s, x, y))
  {
    if x != y && Linked(s, x, y) {
      var cut := Cut(s, x, y);
      var once := Feed(cut, x, ConnectionLost(y), EMPTY, 0);
      var t := Drop(s, x, y);
      LossView(cut, x, y, x, y);
      LossView(once, y, x, x, y);
      forall a, b ensures Linked(t, a, b) <==> Linked(s, a, b) && !(a == x && b == y) && !(a == y && b == x) {}
      forall a, b | !Linked(t, a, b) ensures Chan(t, a, b) == [] && Dev(t, b).state != BeingControlled(a) {
        LossView(cut, x, y, a, b);
        LossView(once, y, x, a, b);
        assert Chan(t, a, b) == Chan(cut, a, b);
        assert !Linked(s, a, b) ==> Chan(s, a, b) == [] && Dev(s, b).state != BeingControlled(a);
      }
    }
  }

  lemma LossView(s: System, d: DeviceId, lost: DeviceId, a: DeviceId, b: DeviceId)
    ensures var t := Feed(s, d, ConnectionLost(lost), EMPTY, 0);
            && t.links == s.links
            && Chan(t, a, b) == Chan(s, a, b)
            && Dev(t, b).state == if b == d && (Dev(s, b).state == Controlling(lost) || Dev(s, b).state == BeingControlled(lost))
                                  then Idle else Dev(s, b).state
  {
    ResponseShape(d, Dev(s, d).hotkey, Dev(s, d).state, ConnectionLost(lost), EMPTY);
    TransitionModest(s, d, ConnectionLost(lost), EMPTY);
    CarryOutView(s, d, Transition(d, Dev(s, d).hotkey, Dev(s, d).state, ConnectionLost(lost), EMPTY), 0, a, b);
    CarryOutView(s, d, Transition(d, Dev(s, d).hotkey, Dev(s, d).state, ConnectionLost(lost), EMPTY), 0, b, a);
  }

  /** Fewer messages in flight and the same roles keep the wiring. */
  lemma LighterWired(s: System, t: System)
    requires Wired(s) && t.links == s.links
    requires forall x :: Dev(t, x).state == Dev(s, x).state
    requires forall x, y :: Chan(s, x, y) == [] ==> Chan(t, x, y) == []
    ensures Wired(t)
  {
    assert forall x, y :: Linked(t, x, y) <==> Linked(s, x, y);
  }

  lemma KeyWired(s: System, step: Step)
    requires Wired(s) && step.Key?
    ensures Wired(Apply(s, step))
  {
    var held := Capture.HeldAfter(Dev(s, step.d).held, step.key, step.pressed);
    var t := WithHeld(s, step.d, held);
    LighterWired(s, t);
    FeedWired(t, step.d, LocalKeyEvent(step.key, step.pressed, step.modifiers, held), EMPTY, 0);
  }

  lemma DeliverWired(s: System, a: DeviceId, b: DeviceId)
    requires Wired(s) && Chan(s, a, b) != []
    ensures Wired(Apply(s, Deliver(a, b)))
  {
    var t, p := Popped(s, a, b), Chan(s, a, b)[0];
    assert Linked(s, a, b) && Linked(t, a, b);
    LighterWired(s, t);
    match Route(a, p.message)
    case Ignore =>
    case Close => DropWired(t, a, b);
    case Dispatch(event) =>
      FeedWired(t, b, event, EMPTY, p.session);
      LighterWired(Feed(t, b, event, EMPTY, p.session), Apply(s, Deliver(a, b)));
  }

  lemma ConnectWired(s: System, a: DeviceId, b: DeviceId)
    requires Wired(s)
    ensures Wired(Apply(s, Connect(a, b)))
  {
    var t := Apply(s, Connect(a, b));
    assert forall x, y :: Linked(t, x, y) <==> Linked(s, x, y) || (a != b && ((x == a && y == b) || (x == b && y == a)));
    assert forall x :: Dev(t, x) == Dev(s, x);
  }

  lemma BackgroundWired(s: System, a: DeviceId, b: DeviceId, message: Message)
    requires Wired(s)
    ensures Wired(Apply(s, Background(a, b, message)))
  {
    var t := Apply(s, Background(a, b, message));
    assert forall x, y :: Linked(t, x, y) <==> Linked(s, x, y);
    assert forall x :: Dev(t, x) == Dev(s, x);
  }

  lemma StepWired(s: System, step: Step)
    requires Wired(s)
    ensures Wired(Apply(s, step))
  {
    match step
    case Touch(d, edge, position, layout) => FeedWired(s, d, LocalCursorAtEdge(edge, position), layout, 0);
    case Local(d, input) => FeedWired(s, d, input.ToEvent(), EMPTY, 0);
    case Key(_, _, _, _) => KeyWired(s, step);
    case Deliver(a, b) => if Chan(s, a, b) != [] { DeliverWired(s, a, b); }
    case Lose(a, b) => DropWired(s, a, b);
    case Connect(a, b) => ConnectWired(s, a, b);
    case Background(a, b, message) => BackgroundWired(s, a, b, message);
  }

  lemma {:induction false} RunWired(s: System, steps: seq<Step>)
    requires Start(s)
    ensures Wired(Run(s, steps))
    decreases |steps|
  {
    if steps != [] {
      RunWired(s, steps[..|steps| - 1]);
      StepWired(Run(s, steps[..|steps| - 1]), steps[|steps| - 1]);
    }
  }

  // ----- Conservation, exactly -----

  /** The two kinds of step that unbalance a hand-off: crossing to a peer with no
      session, and the emergency chord on a device that is not Idle. */
  predicate Benign(s: System, step: Step) {
    && !CrossesToNobody(s, step)
    && !(ChordFires(s, step) && !Dev(s, step.d).state.Idle?)
  }

  /** One token per controller survives a step exactly if the step is benign. */
  lemma ConservationStep(s: System, step: Step)
    requires Wired(s) && Conserved(s)
    ensures Conserved(Apply(s, step)) <==> Benign(s, step)
  {
    var t := Apply(s, step);
    if Benign(s, step) {
      forall a, b ensures Imbalance(t, a, b) == 0 {
        StepLedger(s, step, a, b);
        assert Imbalance(s, a, b) == 0;
        if step.Deliver? && Chan(s, step.a, step.b) != [] && Chan(s, step.a, step.b)[0].message.IsReturn() {
          ReturnMeetsController(s, step.a, step.b);
        }
      }
    } else if CrossesToNobody(s, step) {
      var to := Resolve(step.layout, step.d, step.edge, step.position).value.to;
      StepLedger(s, step, step.d, to);
      assert Imbalance(s, step.d, to) == 0 && Imbalance(t, step.d, to) != 0;
    } else {
      match Dev(s, step.d).state
      case Controlling(target) =>
        StepLedger(s, step, step.d, target);
        assert Imbalance(s, step.d, target) == 0 && Imbalance(t, step.d, target) != 0;
      case BeingControlled(source) =>
        StepLedger(s, step, source, step.d);
        assert Imbalance(s, source, step.d) == 0 && Imbalance(t, source, step.d) != 0;
    }
  }

  /** While hand-offs are conserved, no release or rejection arrives stale. */
  lemma ReturnMeetsController(s: System, x: DeviceId, y: DeviceId)
    requires Conserved(s) && Chan(s, x, y) != [] && Chan(s, x, y)[0].message.IsReturn()
    ensures Dev(s, y).state == Controlling(x)
  {
    CountsNonNegative(Chan(s, x, y)[1..]);
    CountsNonNegative(Chan(s, y, x));
    assert Imbalance(s, y, x) == 0;
  }

  /** Every step of the run is benign in the state it is taken in. */
  ghost predicate BenignRun(s: System, steps: seq<Step>)
    decreases |steps|
  {
    steps != [] ==>
      && BenignRun(s, steps[..|steps| - 1])
      && Benign(Run(s, steps[..|steps| - 1]), steps[|steps| - 1])
  }

  lemma StartBalanced(s: System)
    requires Start(s)
    ensures Wired(s) && Conserved(s) && NoStall(s)
  {
    forall a, b ensures Imbalance(s, a, b) == 0 && Holds(s, a, b) <= Tokens(s, a, b) {
      assert Dev(s, a).state == Idle && Dev(s, b).state == Idle;
    }
    assert forall a, b :: !Linked(s, a, b);
  }

  ghost predicate AlwaysConserved(s: System, steps: seq<Step>)
    decreases |steps|
  {
    Conserved(Run(s, steps)) && (steps != [] ==> AlwaysConserved(s, steps[..|steps| - 1]))
  }

  /** Over any number of devices and any interleaving: tokens are conserved at
      every point of a run exactly if every step of it is benign. */
  lemma {:induction false} TokenConservation(s: System, steps: seq<Step>)
    requires Start(s)
    ensures AlwaysConserved(s, steps) <==> BenignRun(s, steps)
    decreases |steps|
  {
    if steps == [] {
      StartBalanced(s);
    } else {
      var before := steps[..|steps| - 1];
      TokenConservation(s, before);
      if AlwaysConserved(s, before) {
        RunWired(s, before);
        ConservationStep(Run(s, before), steps[|steps| - 1]);
      }
    }
  }

  // ----- No silent stall, exactly -----

  /** The steps that leave somebody stuck: crossing to nobody, and an emergency on a
      controlled device that holds the one token its controller was waiting for. */
  predicate Strands(s: System, step: Step) {
    || CrossesToNobody(s, step)
    || (ChordFires(s, step)
        && Dev(s, step.d).state.BeingControlled?
        && var source := Dev(s, step.d).state.source;
        Dev(s, source).state == Controlling(step.d) && Tokens(s, source, step.d) == 1)
  }

  lemma TokensNonNegative(s: System, a: DeviceId, b: DeviceId)
    ensures Tokens(s, a, b) >= One(Dev(s, b).state == BeingControlled(a)) >= 0
  {
    CountsNonNegative(Chan(s, a, b));
    CountsNonNegative(Chan(s, b, a));
  }

  /** With nothing between two devices and no control, there is no token. */
  lemma UnlinkedHasNoToken(s: System, a: DeviceId, b: DeviceId)
    requires Wired(s) && !Linked(s, a, b)
    ensures Tokens(s, a, b) == 0
  {
    assert !Linked(s, b, a);
  }

  /** A delivery takes a token only from a device that stops Controlling. */
  lemma DeliverySpares(s: System, step: Step, a: DeviceId, b: DeviceId)
    requires Wired(s) && Holds(s, a, b) <= Tokens(s, a, b) && step.Deliver?
    ensures Delta(s, step, a, b) >= -Imbalance(s, a, b)
  {
    TokensNonNegative(s, a, b);
    if Chan(s, step.a, step.b) != [] && Chan(s, step.a, step.b)[0].message.IsReturn() {
      CountsNonNegative(Chan(s, step.a, step.b)[1..]);
      CountsNonNegative(Chan(s, step.b, step.a));
    }
  }

  lemma KeySpares(s: System, step: Step, a: DeviceId, b: DeviceId)
    requires Holds(s, a, b) <= Tokens(s, a, b) && step.Key? && !Strands(s, step)
    ensures Delta(s, step, a, b) >= -Imbalance(s, a, b)
  {
    TokensNonNegative(s, a, b);
  }

  /** No step but one that strands takes the last token of a pair. */
  lemma StepSpares(s: System, step: Step, a: DeviceId, b: DeviceId)
    requires Wired(s) && Holds(s, a, b) <= Tokens(s, a, b) && !Strands(s, step)
    ensures Holds(Apply(s, step), a, b) <= Tokens(Apply(s, step), a, b)
  {
    StepLedger(s, step, a, b);
    match step
    case Deliver(_, _) => DeliverySpares(s, step, a, b);
    case Key(_, _, _, _) => KeySpares(s, step, a, b);
    case _ =>
  }

  /** A step that strands leaves this device Controlling without a token. */
  lemma StrandStalls(s: System, step: Step) returns (a: DeviceId, b: DeviceId)
    requires Wired(s) && NoStall(s) && Strands(s, step)
    ensures Holds(Apply(s, step), a, b) > Tokens(Apply(s, step), a, b)
  {
    if CrossesToNobody(s, step) {
      a, b := step.d, Resolve(step.layout, step.d, step.edge, step.position).value.to;
      UnlinkedHasNoToken(s, a, b);
    } else {
      a, b := Dev(s, step.d).state.source, step.d;
    }
    StepLedger(s, step, a, b);
  }

  lemma NoStallStep(s: System, step: Step)
    requires Wired(s) && NoStall(s)
    ensures NoStall(Apply(s, step)) <==> !Strands(s, step)
  {
    if Strands(s, step) {
      var a, b := StrandStalls(s, step);
    } else {
      forall a, b ensures Holds(Apply(s, step), a, b) <= Tokens(Apply(s, step), a, b) {
        assert Holds(s, a, b) <= Tokens(s, a, b);
        StepSpares(s, step, a, b);
      }
    }
  }

  ghost predicate StrandFree(s: System, steps: seq<Step>)
    decreases |steps|
  {
    steps != [] ==>
      && StrandFree(s, steps[..|steps| - 1])
      && !Strands(Run(s, steps[..|steps| - 1]), steps[|steps| - 1])
  }

  ghost predicate NeverStalled(s: System, steps: seq<Step>)
    decreases |steps|
  {
    NoStall(Run(s, steps)) && (steps != [] ==> NeverStalled(s, steps[..|steps| - 1]))
  }

  /** Emergency releases by controllers and losses included: at every point of a
      run whoever is Controlling has an EdgeEnter on its way, a peer under control,
      or a release or rejection coming back, exactly if no step strands somebody. */
  lemma {:induction false} NoSilentStall(s: System, steps: seq<Step>)
    requires Start(s)
    ensures NeverStalled(s, steps) <==> StrandFree(s, steps)
    decreases |steps|
  {
    if steps == [] {
      StartBalanced(s);
    } else {
      var before := steps[..|steps| - 1];
      NoSilentStall(s, before);
      if NeverStalled(s, before) {
        RunWired(s, before);
        NoStallStep(Run(s, before), steps[|steps| - 1]);
      }
    }
  }
}
