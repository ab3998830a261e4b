/** Devices left Controlling with nothing on its way to end it: how long that lasts. */
module Stalls {
  import opened Messages
  import opened Layout
  import opened EdgeMachine
  import opened Network
  import opened Handoff
  import opened Ledger
  import opened Conservation

  /** `a` controls `b` for all it knows, and no token of that hand-off is left. */
  predicate Stuck(s: System, a: DeviceId, b: DeviceId) {
    Dev(s, a).state == Controlling(b) && Tokens(s, a, b) == 0
  }

  lemma StallIsStuck(s: System)
    ensures NoStall(s) <==> forall a, b :: !Stuck(s, a, b)
  {
    forall a, b ensures Holds(s, a, b) <= Tokens(s, a, b) <==> !Stuck(s, a, b) {
      TokensNonNegative(s, a, b);
    }
  }

  lemma StuckIsStalled(s: System, steps: seq<Step>, a: DeviceId, b: DeviceId)
    requires Stuck(Run(s, steps), a, b)
    ensures !NeverStalled(s, steps)
  {
    StallIsStuck(Run(s, steps));
  }

  /** What gets `a` out: its own chord, the loss of the pair, or the chord on `b`
      while that one for its part controls `a`, whose release `a` takes for its own. */
  predicate Frees(s: System, step: Step, a: DeviceId, b: DeviceId) {
    || LosesPair(s, step, a, b)
    || (ChordFires(s, step) && step.d == a)
    || (ChordFires(s, step) && step.d == b && Dev(s, b).state == Controlling(a) && Linked(s, b, a))
  }

  lemma RoleView(s: System, d: DeviceId, event: Event, layout: Arrangement, stamp: nat, x: DeviceId)
    ensures Dev(Feed(s, d, event, layout, stamp), x).state
         == if x == d then Transition(d, Dev(s, d).hotkey, Dev(s, d).state, event, layout).state else Dev(s, x).state
  {
    TransitionModest(s, d, event, layout);
    CarryOutView(s, d, Transition(d, Dev(s, d).hotkey, Dev(s, d).state, event, layout), stamp, x, x);
  }

  /** The role of `x` once the connection between `a` and `b` is lost. */
  function RoleAfterLoss(s: System, a: DeviceId, b: DeviceId, x: DeviceId): LocalState {
    var state := Dev(s, x).state;
    if a != b && Linked(s, a, b)
       && ((x == a && (state == Controlling(b) || state == BeingControlled(b)))
           || (x == b && (state == Controlling(a) || state == BeingControlled(a)))) then Idle
    else state
  }

  /** The role of every device after every step, read off the state before it. */
  function RoleAfter(s: System, step: Step, x: DeviceId): LocalState {
    var state := Dev(s, x).state;
    match step
    case Touch(d, edge, position, layout) =>
      var link := Resolve(layout, d, edge, position);
      if x != d || link.None? then state
      else (match state
            case Idle => Controlling(link.value.to)
            case BeingControlled(source) => if link.value.to == source then Idle else state
            case Controlling(_) => state)
    case Key(d, _, _, _) => if x == d && ChordFires(s, step) then Idle else state
    case Deliver(a, b) =>
      if Chan(s, a, b) == [] then state
      else (match Chan(s, a, b)[0].message
            case Disconnect(_) => RoleAfterLoss(s, a, b, x)
            case EdgeEnter(_, _, _) => if x == b && state.Idle? then BeingControlled(a) else state
            case EdgeRelease => if x == b && state == Controlling(a) then Idle else state
            case EdgeEnterRejected => if x == b && state == Controlling(a) then Idle else state
            case _ => state)
    case Lose(a, b) => RoleAfterLoss(s, a, b, x)
    case _ => state
  }

  lemma StepRole(s: System, step: Step, x: DeviceId)
    ensures Dev(Apply(s, step), x).state == RoleAfter(s, step, x)
  {
    match step
    case Touch(d, edge, position, layout) => RoleView(s, d, LocalCursorAtEdge(edge, position), layout, 0, x);
    case Local(d, input) => RoleView(s, d, input.ToEvent(), EMPTY, 0, x);
    case Key(d, key, pressed, modifiers) =>
      var held := Capture.HeldAfter(Dev(s, d).held, key, pressed);
      RoleView(WithHeld(s, d, held), d, LocalKeyEvent(key, pressed, modifiers, held), EMPTY, 0, x);
    case Deliver(a, b) => if Chan(s, a, b) != [] { DeliveryRole(s, a, b, x); }
    case Lose(a, b) => LossRole(s, a, b, x);
    case Connect(_, _) =>
    case Background(_, _, _) =>
  }

  lemma LossRole(s: System, a: DeviceId, b: DeviceId, x: DeviceId)
    ensures Dev(Drop(s, a, b), x).state == RoleAfterLoss(s, a, b, x)
  {
    if a != b && Linked(s, a, b) {
      var cut := Cut(s, a, b);
      LossView(cut, a, b, a, x);
      LossView(Feed(cut, a, ConnectionLost(b), EMPTY, 0), b, a, a, x);
    }
  }

  lemma DeliveryRole(s: System, a: DeviceId, b: DeviceId, x: DeviceId)
    requires Chan(s, a, b) != []
    ensures Dev(Apply(s, Deliver(a, b)), x).state == RoleAfter(s, Deliver(a, b), x)
  {
    var t, p := Popped(s, a, b), Chan(s, a, b)[0];
    match Route(a, p.message)
    case Ignore =>
    case Close => LossRole(t, a, b, x);
    case Dispatch(_) =>
      ReceiptRole(t, a, b, p, x);
      RoutedRole(a, b, Dev(t, b).hotkey, Dev(t, b).state, p.message);
  }

  /** The role a message asks for. */
  lemma RoutedRole(a: DeviceId, b: DeviceId, hotkey: seq<LogicalKey>, state: LocalState, message: Message)
    requires Route(a, message).Dispatch?
    ensures Transition(b, hotkey, state, Route(a, message).event, EMPTY).state
         == match message
            case EdgeEnter(_, _, _) => if state.Idle? then BeingControlled(a) else state
            case EdgeRelease => if state == Controlling(a) then Idle else state
            case EdgeEnterRejected => if state == Controlling(a) then Idle else state
            case _ => state
  {
  }

  /** The role of `x` once `b` has handled a packet from `a` that is not a disconnect. */
  lemma ReceiptRole(t: System, a: DeviceId, b: DeviceId, p: Packet, x: DeviceId)
    requires Route(a, p.message).Dispatch?
    ensures Dev(Receive(t, a, b, p), x).state
         == if x == b then Transition(b, Dev(t, b).hotkey, Dev(t, b).state, Route(a, p.message).event, EMPTY).state
            else Dev(t, x).state
  {
    var u := Feed(t, b, Route(a, p.message).event, EMPTY, p.session);
    RoleView(t, b, Route(a, p.message).event, EMPTY, p.session, x);
    assert Receive(t, a, b, p).devices == u.devices;
  }

  /** Without a return on its way, only the chord and a loss end the role. */
  lemma RoleLasts(s: System, step: Step, a: DeviceId, b: DeviceId)
    requires Wired(s) && Dev(s, a).state == Controlling(b) && Returns(Chan(s, b, a)) == 0
    ensures Dev(Apply(s, step), a).state
         == if LosesPair(s, step, a, b) || (ChordFires(s, step) && step.d == a) then Idle else Controlling(b)
  {
    StepRole(s, step, a);
    if step.Deliver? && Chan(s, step.a, step.b) != [] {
      CountsNonNegative(Chan(s, step.a, step.b)[1..]);
    }
  }

  /** A step gets a stuck device out exactly if it is one of the three. */
  lemma StuckStep(s: System, step: Step, a: DeviceId, b: DeviceId)
    requires Wired(s) && Stuck(s, a, b)
    ensures Stuck(Apply(s, step), a, b) <==> !Frees(s, step, a, b)
  {
    CountsNonNegative(Chan(s, a, b));
    CountsNonNegative(Chan(s, b, a));
    RoleLasts(s, step, a, b);
    StepLedger(s, step, a, b);
  }

  ghost predicate StuckThroughout(s: System, steps: seq<Step>, a: DeviceId, b: DeviceId)
    decreases |steps|
  {
    Stuck(Run(s, steps), a, b) && (steps != [] ==> StuckThroughout(s, steps[..|steps| - 1], a, b))
  }

  ghost predicate NeverFreed(s: System, steps: seq<Step>, a: DeviceId, b: DeviceId)
    decreases |steps|
  {
    steps != [] ==>
      && NeverFreed(s, steps[..|steps| - 1], a, b)
      && !Frees(Run(s, steps[..|steps| - 1]), steps[|steps| - 1], a, b)
  }

  lemma {:induction false} WiredStays(s: System, steps: seq<Step>)
    requires Wired(s)
    ensures Wired(Run(s, steps))
    decreases |steps|
  {
    if steps != [] {
      WiredStays(s, steps[..|steps| - 1]);
      StepWired(Run(s, steps[..|steps| - 1]), steps[|steps| - 1]);
    }
  }

  /** From any stuck state, whatever follows: the device stays stuck at every point
      exactly if none of the three ever happens. Crossing back, new hand-offs of
      others and new connections do not help. */
  lemma {:induction false} StallLasts(s: System, steps: seq<Step>, a: DeviceId, b: DeviceId)
    requires Wired(s) && Stuck(s, a, b)
    ensures StuckThroughout(s, steps, a, b) <==> NeverFreed(s, steps, a, b)
    decreases |steps|
  {
    if steps != [] {
      var before := steps[..|steps| - 1];
      StallLasts(s, before, a, b);
      if StuckThroughout(s, before, a, b) {
        WiredStays(s, before);
        StuckStep(Run(s, before), steps[|steps| - 1], a, b);
      }
    }
  }
}
