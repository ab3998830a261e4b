/** A hand-off there and back while the system is busy: inputs forwarded, messages of
    other kinds queued, deliveries in any order, other devices doing what they do. */
module Journey {
  import opened Messages
  import opened Layout
  import opened EdgeMachine
  import opened Network
  import opened Handoff
  import opened Ledger
  import opened Conservation
  import opened Switches
  import opened Stalls
  import opened Drain
  import opened Crossing

  /** Where the one hand-off from `a` to `b` is. */
  datatype Stage = Home | Outbound | There | Inbound

  predicate NoDisconnect(ch: seq<Packet>) {
    forall p :: p in ch ==> !p.message.Disconnect?
  }

  /** The roles and the tokens of the pair at that stage; any other message may be
      queued in either direction, except for a disconnect. */
  predicate At(s: System, a: DeviceId, b: DeviceId, stage: Stage) {
    && a != b && Linked(s, a, b) && Linked(s, b, a)
    && NoDisconnect(Chan(s, a, b)) && NoDisconnect(Chan(s, b, a))
    && Dev(s, a).state == (if stage.Home? then Idle else Controlling(b))
    && Dev(s, b).state == (if stage.There? then BeingControlled(a) else Idle)
    && Dev(s, a).passThrough == stage.Home? && Dev(s, b).passThrough
    && Enters(Chan(s, a, b)) == (if stage.Outbound? then 1 else 0) && Returns(Chan(s, a, b)) == 0
    && Enters(Chan(s, b, a)) == 0 && Returns(Chan(s, b, a)) == (if stage.Inbound? then 1 else 0)
  }

  predicate Between(x: DeviceId, y: DeviceId, a: DeviceId, b: DeviceId) {
    (x == a && y == b) || (x == b && y == a)
  }

  /** What the two exchange: inputs, keys short of the chord, deliveries, other messages. */
  predicate Exchange(s: System, step: Step, a: DeviceId, b: DeviceId) {
    match step
    case Local(d, _) => d == a || d == b
    case Key(d, _, _, _) => (d == a || d == b) && !ChordFires(s, step)
    case Deliver(x, y) => Between(x, y, a, b)
    case Background(x, y, message) => Between(x, y, a, b) && !message.Disconnect?
    case _ => false
  }

  /** What happens elsewhere: anything other devices do, chords and losses included, and
      what of it reaches the two, except that an idle one of them is taken over; and
      touches of the two that ask for nothing. */
  predicate Elsewhere(s: System, step: Step, a: DeviceId, b: DeviceId) {
    match step
    case Touch(d, edge, position, layout) =>
      (d != a && d != b) || OnLocalCursorAtEdge(d, Dev(s, d).state, edge, position, layout).actions == []
    case Local(d, _) => d != a && d != b
    case Key(d, _, _, _) => d != a && d != b
    case Deliver(x, y) =>
      && !Between(x, y, a, b)
      && !((y == a || y == b) && Dev(s, y).state.Idle? && Chan(s, x, y) != [] && Chan(s, x, y)[0].message.EdgeEnter?)
    case Lose(x, y) => !Between(x, y, a, b)
    case Connect(_, _) => true
    case Background(x, y, _) => !Between(x, y, a, b)
  }

  /** Every step, that is, but the crossings of the two, their chords, the end of their
      connection, and a third device's hand-off to an idle one of them. */
  predicate Traffic(s: System, step: Step, a: DeviceId, b: DeviceId) {
    Exchange(s, step, a, b) || Elsewhere(s, step, a, b)
  }

  /** A delivered EdgeEnter or release moves the hand-off on, nothing else does. */
  function NextStage(s: System, step: Step, a: DeviceId, b: DeviceId, stage: Stage): Stage {
    if stage.Outbound? && step == Deliver(a, b) && Chan(s, a, b) != [] && Chan(s, a, b)[0].message.EdgeEnter? then There
    else if stage.Inbound? && step == Deliver(b, a) && Chan(s, b, a) != [] && Chan(s, b, a)[0].message.IsReturn() then Home
    else stage
  }

  lemma PushAt(s: System, t: System, a: DeviceId, b: DeviceId, stage: Stage, x: DeviceId, y: DeviceId, p: Packet)
    requires At(s, a, b, stage) && Between(x, y, a, b)
    requires !p.message.EdgeEnter? && !p.message.IsReturn() && !p.message.Disconnect?
    requires t.links == s.links && Dev(t, a).state == Dev(s, a).state && Dev(t, b).state == Dev(s, b).state
    requires Dev(t, a).passThrough == Dev(s, a).passThrough && Dev(t, b).passThrough == Dev(s, b).passThrough
    requires Chan(t, x, y) == Chan(s, x, y) || Chan(t, x, y) == Chan(s, x, y) + [p]
    requires Chan(t, y, x) == Chan(s, y, x)
    ensures At(t, a, b, stage)
  {
    CountsPush(Chan(s, x, y), p);
  }

  lemma LocalAt(s: System, d: DeviceId, event: Event, a: DeviceId, b: DeviceId, stage: Stage)
    requires At(s, a, b, stage) && (d == a || d == b)
    requires event.LocalMouseMove? || event.LocalMouseButton? || event.LocalMouseWheel? || event.LocalKeyEvent?
    requires event.LocalKeyEvent? ==> !(event.pressed && ChordHeld(Dev(s, d).hotkey, event.held))
    ensures At(Feed(s, d, event, EMPTY, 0), a, b, stage)
  {
    var dev := Dev(s, d);
    var r := Transition(d, dev.hotkey, dev.state, event, EMPTY);
    var t := Feed(s, d, event, EMPTY, 0);
    LocalShape(d, dev.hotkey, dev.state, event, EMPTY);
    TransitionModest(s, d, event, EMPTY);
    CarryOutView(s, d, r, 0, a, b);
    CarryOutView(s, d, r, 0, b, a);
    FeedDevices(s, d, event, EMPTY, 0, a);
    FeedDevices(s, d, event, EMPTY, 0, b);
    var p := Packet(if Sends(r.actions) == [] then MouseWarp(0.0, 0.0) else Sends(r.actions)[0].1, dev.session);
    PushAt(s, t, a, b, stage, a, b, p);
  }

  lemma PopAt(s: System, x: DeviceId, y: DeviceId, a: DeviceId, b: DeviceId, stage: Stage)
    requires At(s, a, b, stage) && Between(x, y, a, b) && Chan(s, x, y) != []
    requires !Chan(s, x, y)[0].message.EdgeEnter? && !Chan(s, x, y)[0].message.IsReturn()
    ensures At(Popped(s, x, y), a, b, stage)
  {
    assert forall p :: p in Chan(s, x, y)[1..] ==> p in Chan(s, x, y);
  }

  /** An event that asks for no send and ends in the role it found. */
  lemma InputAt(s: System, x: DeviceId, y: DeviceId, message: Message, stamp: nat, a: DeviceId, b: DeviceId, stage: Stage)
    requires At(s, a, b, stage) && Between(x, y, a, b)
    ensures At(Feed(s, y, PeerInputMessage(x, message), EMPTY, stamp), a, b, stage)
  {
    var event := PeerInputMessage(x, message);
    var r := Transition(y, Dev(s, y).hotkey, Dev(s, y).state, event, EMPTY);
    ResponseShape(y, Dev(s, y).hotkey, Dev(s, y).state, event, EMPTY);
    TransitionModest(s, y, event, EMPTY);
    CarryOutView(s, y, r, stamp, a, b);
    CarryOutView(s, y, r, stamp, b, a);
    FeedDevices(s, y, event, EMPTY, stamp, a);
    FeedDevices(s, y, event, EMPTY, stamp, b);
  }

  lemma ArrivalAt(s: System, a: DeviceId, b: DeviceId, stage: Stage)
    requires At(s, a, b, stage) && Chan(s, a, b) != [] && Chan(s, a, b)[0].message.EdgeEnter?
    ensures stage.Outbound? && At(Apply(s, Deliver(a, b)), a, b, There)
  {
    CountsNonNegative(Chan(s, a, b)[1..]);
    var t, p := Popped(s, a, b), Chan(s, a, b)[0];
    var event := Route(a, p.message).event;
    ArrivalView(t, a, b, event, p.session);
    assert forall q :: q in Chan(s, a, b)[1..] ==> q in Chan(s, a, b);
  }

  lemma ArrivalView(t: System, a: DeviceId, b: DeviceId, event: Event, stamp: nat)
    requires event.PeerEdgeEnter? && event.from == a && a != b && Dev(t, b).state.Idle? && Dev(t, b).passThrough
    ensures var u := Feed(t, b, event, EMPTY, stamp);
            && u.links == t.links && Dev(u, a) == Dev(t, a)
            && Dev(u, b).state == BeingControlled(a) && Dev(u, b).passThrough
            && Chan(u, a, b) == Chan(t, a, b) && Chan(u, b, a) == Chan(t, b, a)
  {
    var r := Transition(b, Dev(t, b).hotkey, Idle, event, EMPTY);
    ResponseShape(b, Dev(t, b).hotkey, Idle, event, EMPTY);
    TransitionModest(t, b, event, EMPTY);
    CarryOutView(t, b, r, stamp, a, b);
    CarryOutView(t, b, r, stamp, b, a);
    FeedDevices(t, b, event, EMPTY, stamp, b);
  }

  lemma ReturnAt(s: System, a: DeviceId, b: DeviceId, stage: Stage)
    requires At(s, a, b, stage) && Chan(s, b, a) != [] && Chan(s, b, a)[0].message.IsReturn()
    ensures stage.Inbound? && At(Apply(s, Deliver(b, a)), a, b, Home)
  {
    CountsNonNegative(Chan(s, b, a)[1..]);
    var t, p := Popped(s, b, a), Chan(s, b, a)[0];
    var event := Route(b, p.message).event;
    ReturnView(t, a, b, event, p.session);
    assert forall q :: q in Chan(s, b, a)[1..] ==> q in Chan(s, b, a);
  }

  lemma ReturnView(t: System, a: DeviceId, b: DeviceId, event: Event, stamp: nat)
    requires (event.PeerEdgeRelease? || event.PeerEdgeEnterRejected?) && event.from == b && a != b
    requires Dev(t, a).state == Controlling(b) && !Dev(t, a).passThrough
    ensures var u := Feed(t, a, event, EMPTY, stamp);
            && u.links == t.links && Dev(u, b) == Dev(t, b)
            && Dev(u, a).state == Idle && Dev(u, a).passThrough
            && Chan(u, a, b) == Chan(t, a, b) && Chan(u, b, a) == Chan(t, b, a)
  {
    var r := Transition(a, Dev(t, a).hotkey, Controlling(b), event, EMPTY);
    ResponseShape(a, Dev(t, a).hotkey, Controlling(b), event, EMPTY);
    TransitionModest(t, a, event, EMPTY);
    CarryOutView(t, a, r, stamp, a, b);
    CarryOutView(t, a, r, stamp, b, a);
    FeedDevices(t, a, event, EMPTY, stamp, a);
  }

  lemma DeliverAt(s: System, x: DeviceId, y: DeviceId, a: DeviceId, b: DeviceId, stage: Stage)
    requires At(s, a, b, stage) && Between(x, y, a, b) && Chan(s, x, y) != []
    ensures At(Apply(s, Deliver(x, y)), a, b, NextStage(s, Deliver(x, y), a, b, stage))
  {
    var m := Chan(s, x, y)[0].message;
    CountsNonNegative(Chan(s, x, y)[1..]);
    assert Chan(s, x, y)[0] in Chan(s, x, y);
    if m.EdgeEnter? {
      ArrivalAt(s, a, b, stage);
    } else if m.IsReturn() {
      ReturnAt(s, a, b, stage);
    } else {
      PopAt(s, x, y, a, b, stage);
      if m.IsInput() { InputAt(Popped(s, x, y), x, y, m, Chan(s, x, y)[0].session, a, b, stage); }
    }
  }

  lemma ExchangeAt(s: System, step: Step, a: DeviceId, b: DeviceId, stage: Stage)
    requires At(s, a, b, stage) && Exchange(s, step, a, b)
    ensures At(Apply(s, step), a, b, NextStage(s, step, a, b, stage))
  {
    match step
    case Local(d, input) => LocalAt(s, d, input.ToEvent(), a, b, stage);
    case Key(_, _, _, _) => KeyAt(s, step, a, b, stage);
    case Deliver(x, y) => if Chan(s, x, y) != [] { DeliverAt(s, x, y, a, b, stage); }
    case Background(x, y, message) => if message.IsBackground() { QueueAt(s, step, a, b, stage); }
  }

  lemma QueueAt(s: System, step: Step, a: DeviceId, b: DeviceId, stage: Stage)
    requires At(s, a, b, stage) && step.Background? && Between(step.a, step.b, a, b) && step.message.IsBackground()
    ensures At(Apply(s, step), a, b, stage)
  {
    PushAt(s, Apply(s, step), a, b, stage, step.a, step.b, Packet(step.message, 0));
  }

  lemma KeyAt(s: System, step: Step, a: DeviceId, b: DeviceId, stage: Stage)
    requires At(s, a, b, stage) && step.Key? && (step.d == a || step.d == b) && !ChordFires(s, step)
    ensures At(Apply(s, step), a, b, stage)
  {
    var held := Capture.HeldAfter(Dev(s, step.d).held, step.key, step.pressed);
    var t := WithHeld(s, step.d, held);
    assert At(t, a, b, stage) && Dev(t, step.d).hotkey == Dev(s, step.d).hotkey;
    LocalAt(t, step.d, LocalKeyEvent(step.key, step.pressed, step.modifiers, held), a, b, stage);
  }

  /** A device sends on no channel but its own, and to nobody but those it names. */
  lemma FeedChannel(s: System, d: DeviceId, event: Event, layout: Arrangement, stamp: nat, p: DeviceId, q: DeviceId)
    requires var sends := Sends(Transition(d, Dev(s, d).hotkey, Dev(s, d).state, event, layout).actions);
             d != p || sends == [] || sends[0].0 != q
    ensures var t := Feed(s, d, event, layout, stamp);
            t.links == s.links && Chan(t, p, q) == Chan(s, p, q)
  {
    TransitionModest(s, d, event, layout);
    CarryOutView(s, d, Transition(d, Dev(s, d).hotkey, Dev(s, d).state, event, layout), stamp, p, q);
  }

  lemma DropChannel(s: System, x: DeviceId, y: DeviceId, p: DeviceId, q: DeviceId)
    requires !Between(x, y, p, q)
    ensures var t := Drop(s, x, y);
            (Linked(t, p, q) <==> Linked(s, p, q)) && Chan(t, p, q) == Chan(s, p, q)
  {
    if x != y && Linked(s, x, y) {
      var cut := Cut(s, x, y);
      LossView(cut, x, y, p, q);
      LossView(Feed(cut, x, ConnectionLost(y), EMPTY, 0), y, x, p, q);
    }
  }

  lemma DeliverChannel(s: System, x: DeviceId, y: DeviceId, p: DeviceId, q: DeviceId)
    requires !Between(x, y, p, q) && Chan(s, x, y) != []
    ensures var t := Apply(s, Deliver(x, y));
            (Linked(t, p, q) <==> Linked(s, p, q)) && Chan(t, p, q) == Chan(s, p, q)
  {
    var t, m := Popped(s, x, y), Chan(s, x, y)[0];
    match Route(x, m.message)
    case Ignore =>
    case Close => DropChannel(t, x, y, p, q);
    case Dispatch(event) =>
      ResponseShape(y, Dev(t, y).hotkey, Dev(t, y).state, event, EMPTY);
      FeedChannel(t, y, event, EMPTY, m.session, p, q);
  }

  lemma ElsewhereChannel(s: System, step: Step, a: DeviceId, b: DeviceId, p: DeviceId, q: DeviceId)
    requires Elsewhere(s, step, a, b) && Linked(s, a, b) && Linked(s, b, a)
    requires (p == a && q == b) || (p == b && q == a)
    ensures var t := Apply(s, step);
            Linked(t, p, q) && Chan(t, p, q) == Chan(s, p, q)
  {
    match step
    case Touch(d, edge, position, layout) => FeedChannel(s, d, LocalCursorAtEdge(edge, position), layout, 0, p, q);
    case Local(d, input) => FeedChannel(s, d, input.ToEvent(), EMPTY, 0, p, q);
    case Key(d, key, pressed, modifiers) =>
      var held := Capture.HeldAfter(Dev(s, d).held, key, pressed);
      FeedChannel(WithHeld(s, d, held), d, LocalKeyEvent(key, pressed, modifiers, held), EMPTY, 0, p, q);
    case Deliver(x, y) => if Chan(s, x, y) != [] { DeliverChannel(s, x, y, p, q); }
    case Lose(x, y) => DropChannel(s, x, y, p, q);
    case Connect(_, _) =>
    case Background(_, _, _) =>
  }

  lemma ElsewhereRole(s: System, step: Step, a: DeviceId, b: DeviceId, stage: Stage, x: DeviceId)
    requires At(s, a, b, stage) && Elsewhere(s, step, a, b) && (x == a || x == b)
    ensures Dev(Apply(s, step), x).state == Dev(s, x).state
    ensures Dev(Apply(s, step), x).passThrough == Dev(s, x).passThrough
  {
    StepRole(s, step, x);
    StepDevices(s, step, x);
  }

  /** What happens elsewhere leaves the hand-off where it is. */
  lemma ElsewhereAt(s: System, step: Step, a: DeviceId, b: DeviceId, stage: Stage)
    requires At(s, a, b, stage) && Elsewhere(s, step, a, b)
    ensures At(Apply(s, step), a, b, stage)
  {
    ElsewhereChannel(s, step, a, b, a, b);
    ElsewhereChannel(s, step, a, b, b, a);
    ElsewhereRole(s, step, a, b, stage, a);
    ElsewhereRole(s, step, a, b, stage, b);
  }

  /** Traffic moves the hand-off on by its own deliveries alone. */
  lemma TrafficAt(s: System, step: Step, a: DeviceId, b: DeviceId, stage: Stage)
    requires At(s, a, b, stage) && Traffic(s, step, a, b)
    ensures At(Apply(s, step), a, b, NextStage(s, step, a, b, stage))
  {
    if Exchange(s, step, a, b) {
      ExchangeAt(s, step, a, b, stage);
    } else {
      ElsewhereAt(s, step, a, b, stage);
    }
  }

  /** Traffic only, step after step. */
  ghost predicate TrafficRun(s: System, steps: seq<Step>, a: DeviceId, b: DeviceId)
    decreases |steps|
  {
    steps != [] ==> Traffic(s, steps[0], a, b) && TrafficRun(Apply(s, steps[0]), steps[1..], a, b)
  }

  /** How far traffic can bring a hand-off from there. */
  predicate Reaches(from: Stage, to: Stage) {
    to == from || (from.Outbound? && to.There?) || (from.Inbound? && to.Home?)
  }

  lemma {:induction false} TrafficKeeps(s: System, steps: seq<Step>, a: DeviceId, b: DeviceId, stage: Stage)
    returns (reached: Stage)
    requires At(s, a, b, stage) && TrafficRun(s, steps, a, b)
    ensures Reaches(stage, reached) && At(After(s, steps), a, b, reached)
    decreases |steps|
  {
    reached := stage;
    if steps != [] {
      TrafficAt(s, steps[0], a, b, stage);
      reached := TrafficKeeps(Apply(s, steps[0]), steps[1..], a, b, NextStage(s, steps[0], a, b, stage));
    }
  }

  /** The two touches, whatever is queued. */
  lemma LeaveAt(s: System, layout: Arrangement, a: DeviceId, b: DeviceId, edge: ScreenEdge, position: real)
    requires At(s, a, b, Home)
    requires Resolve(layout, a, edge, position).Some? && Resolve(layout, a, edge, position).value.to == b
    ensures At(Apply(s, Touch(a, edge, position, layout)), a, b, Outbound)
  {
    var p := Packet(EdgeEnter(Resolve(layout, a, edge, position).value.toEdge, position, 1.0), s.nextSession);
    var left := s.(devices := s.devices[a := Dev(s, a).(state := Controlling(b), passThrough := false,
    session := s.nextSession)],
    nextSession := s.nextSession + 1);
    CrossSend(s, a, edge, position, layout);
    SendView(left, a, b, p, a, b);
    SendView(left, a, b, p, b, a);
    CountsPush(Chan(s, a, b), p);
  }

  lemma ComeBackAt(s: System, layout: Arrangement, a: DeviceId, b: DeviceId, edge: ScreenEdge, position: real)
    requires At(s, a, b, There)
    requires Resolve(layout, b, edge, position).Some? && Resolve(layout, b, edge, position).value.to == a
    ensures At(Apply(s, Touch(b, edge, position, layout)), a, b, Inbound)
  {
    var p := Packet(EdgeRelease, Dev(s, b).session);
    var left := s.(devices := s.devices[b := Dev(s, b).(state := Idle)]);
    ReleaseSend(s, a, b, edge, position, layout);
    SendView(left, b, a, p, a, b);
    SendView(left, b, a, p, b, a);
    CountsPush(Chan(s, b, a), p);
  }

  /** There and back in a busy system: whatever is queued before, whatever is forwarded,
      queued and delivered in between, by the two and by others. Once the controlled device has been
      reached, a touch of the entered edge at any live position starts the way back;
      and as soon as nothing from it is in flight, both are Idle, both switches on. */
  lemma {:induction false} BusyRoundTrip(s: System, layout: Arrangement, a: DeviceId, edge: ScreenEdge, position: real,
                                         back: real, out: seq<Step>, home: seq<Step>)
    requires WellFormed(layout) && Resolve(layout, a, edge, position).Some?
    requires var link := Resolve(layout, a, edge, position).value;
             Live(link, back) && At(s, a, link.to, Home)
    requires var link := Resolve(layout, a, edge, position).value;
             var left := Apply(s, Touch(a, edge, position, layout));
             var over := After(left, out);
             && TrafficRun(left, out, a, link.to) && Dev(over, link.to).state == BeingControlled(a)
             && TrafficRun(Apply(over, Touch(link.to, link.toEdge, back, layout)), home, a, link.to)
    ensures var link := Resolve(layout, a, edge, position).value;
            var over := After(Apply(s, Touch(a, edge, position, layout)), out);
            var t := After(Apply(over, Touch(link.to, link.toEdge, back, layout)), home);
            && (At(t, a, link.to, Inbound) || At(t, a, link.to, Home))
            && (Chan(t, link.to, a) == [] ==> At(t, a, link.to, Home))
  {
    var link := Resolve(layout, a, edge, position).value;
    var b := link.to;
    ResolveInvolution(layout, a, edge, position, back);
    LeaveAt(s, layout, a, b, edge, position);
    var left := Apply(s, Touch(a, edge, position, layout));
    var there := TrafficKeeps(left, out, a, b, Outbound);
    var over := After(left, out);
    assert there == There;
    ComeBackAt(over, layout, a, b, link.toEdge, back);
    var reached := TrafficKeeps(Apply(over, Touch(b, link.toEdge, back, layout)), home, a, b, Inbound);
  }
}
