/** The composition root (crates/ms-core-service/src/service.rs): carrying out what
    the state machine decided, against the injector, the pass-through switch and
    the network. */
module Service {
  import opened Messages
  import opened Layout
  import opened EdgeMachine
  import opened Network

  datatype Bounds = Bounds(x: real, y: real, width: real, height: real)

  /** A call made on the platform injector; its own success is never looked at. */
  datatype InjectCall =
    | MoveRelative(dx: real, dy: real)
    | WarpAbsolute(x: real, y: real)
    | InjectButton(button: Button, down: bool)
    | InjectWheel(deltaX: real, deltaY: real, highResolution: bool)
    | InjectKey(key: LogicalKey, down: bool, modifiers: Modifiers)

  function Placed(bounds: Option<Bounds>, x: real, y: real): seq<InjectCall> {
    match bounds
    case None => []
    case Some(b) => [WarpAbsolute(b.x + x * b.width, b.y + y * b.height)]
  }

  function CallFor(bounds: Option<Bounds>, message: Message): seq<InjectCall> {
    match message
    case MouseMove(dx, dy, _) => [MoveRelative(dx, dy)]
    case MouseWarp(x, y) => Placed(bounds, x, y)
    case MouseButton(button, down) => [InjectButton(button, down)]
    case MouseWheel(x, y, high) => [InjectWheel(x, y, high)]
    case KeyEvent(key, down, modifiers, _) => [InjectKey(key, down, modifiers)]
    case _ => []
  }

  function CallsOf(bounds: Option<Bounds>, action: Action): seq<InjectCall> {
    match action
    case InjectLocally(message) => CallFor(bounds, message)
    case WarpLocalCursor(x, y) => Placed(bounds, x, y)
    case _ => []
  }

  function Calls(bounds: Option<Bounds>, actions: seq<Action>): seq<InjectCall> {
    if actions == [] then [] else CallsOf(bounds, actions[0]) + Calls(bounds, actions[1..])
  }

  /** The collaborators' state as one value. */
  datatype Host = Host(passThrough: bool, peers: map<DeviceId, seq<Message>>, calls: seq<InjectCall>)

  function PerformOne(h: Host, bounds: Option<Bounds>, action: Action): Host {
    Host(Switched(h.passThrough, action), SendAll(h.peers, SendOf(action)), h.calls + CallsOf(bounds, action))
  }

  function Performed(h: Host, bounds: Option<Bounds>, actions: seq<Action>): Host
    decreases actions
  {
    if actions == [] then h else Performed(PerformOne(h, bounds, actions[0]), bounds, actions[1..])
  }

  lemma {:induction false} PerformedPassThrough(h: Host, bounds: Option<Bounds>, actions: seq<Action>)
    ensures Performed(h, bounds, actions).passThrough == PassThroughAfter(h.passThrough, actions)
    decreases actions
  {
    if actions != [] {
      PerformedPassThrough(PerformOne(h, bounds, actions[0]), bounds, actions[1..]);
    }
  }

  lemma {:induction false} PerformedPeers(h: Host, bounds: Option<Bounds>, actions: seq<Action>)
    ensures Performed(h, bounds, actions).peers == SendAll(h.peers, Sends(actions))
    decreases actions
  {
    if actions != [] {
      var next := PerformOne(h, bounds, actions[0]);
      PerformedPeers(next, bounds, actions[1..]);
      SendAllExtend(h.peers, SendOf(actions[0]), Sends(actions[1..]));
    }
  }

  lemma {:induction false} PerformedCalls(h: Host, bounds: Option<Bounds>, actions: seq<Action>)
    ensures Performed(h, bounds, actions).calls == h.calls + Calls(bounds, actions)
    decreases actions
  {
    if actions == [] {
      assert h.calls + [] == h.calls;
    } else {
      var made, rest := CallsOf(bounds, actions[0]), Calls(bounds, actions[1..]);
      PerformedCalls(PerformOne(h, bounds, actions[0]), bounds, actions[1..]);
      assert (h.calls + made) + rest == h.calls + (made + rest);
    }
  }

  /** The call that puts the cursor on an edge, at a fraction of the way along it. */
  predicate PutsOnEdge(call: InjectCall, b: Bounds, edge: ScreenEdge, p: real) {
    match edge
    case Left => call == WarpAbsolute(b.x, b.y + p * b.height)
    case Right => call == WarpAbsolute(b.x + b.width, b.y + p * b.height)
    case Top => call == WarpAbsolute(b.x + p * b.width, b.y)
    case Bottom => call == WarpAbsolute(b.x + p * b.width, b.y + b.height)
  }

  /** The calls that do what an input says: one, or none for a warp without a screen and
      for what is not an input. */
  predicate Reproduces(calls: seq<InjectCall>, bounds: Option<Bounds>, input: Message) {
    match input
    case MouseMove(dx, dy, _) => calls == [MoveRelative(dx, dy)]
    case MouseButton(button, down) => calls == [InjectButton(button, down)]
    case MouseWheel(x, y, high) => calls == [InjectWheel(x, y, high)]
    case KeyEvent(key, down, modifiers, _) => calls == [InjectKey(key, down, modifiers)]
    case MouseWarp(x, y) =>
      if bounds.None? then calls == []
      else
        var b := bounds.value;
        |calls| == 1 && calls[0] == WarpAbsolute(b.x + x * b.width, b.y + y * b.height)
    case _ => calls == []
  }

  /** Which events reach the injector, and with what: an EdgeEnter at an Idle device puts
      the cursor on the entered edge, an input from the controller is reproduced, and
      nothing else moves, clicks or types anything. */
  ghost predicate CallsFit(calls: seq<InjectCall>, state: LocalState, event: Event, bounds: Option<Bounds>) {
    if event.PeerEdgeEnter? && state == Idle && bounds.Some?
    then |calls| == 1 && PutsOnEdge(calls[0], bounds.value, event.entered, event.entry)
    else if event.PeerInputMessage? && state == BeingControlled(event.from)
      then Reproduces(calls, bounds, event.message)
      else calls == []
  }

  lemma CallsExactly(me: DeviceId, hotkey: seq<LogicalKey>, state: LocalState, event: Event, layout: Arrangement,
                     bounds: Option<Bounds>)
    ensures CallsFit(Calls(bounds, Transition(me, hotkey, state, event, layout).actions), state, event, bounds)
  {
    var actions := Transition(me, hotkey, state, event, layout).actions;
    if |actions| == 1 {
      assert actions == [actions[0]];
      CallsOfOne(bounds, actions[0]);
      if actions[0].InjectLocally? { InputReproduced(bounds, actions[0].input); }
      if event.PeerEdgeEnter? && actions[0].WarpLocalCursor? && bounds.Some? { EntryPoint(bounds.value, event.entered, event.entry); }
    }
    if |actions| == 2 { CallsOfTwo(bounds, actions); }
  }

  lemma CallsOfOne(bounds: Option<Bounds>, action: Action)
    ensures Calls(bounds, [action]) == CallsOf(bounds, action)
  {
    assert [action][1..] == [];
    assert CallsOf(bounds, action) + [] == CallsOf(bounds, action);
  }

  lemma CallsOfTwo(bounds: Option<Bounds>, actions: seq<Action>)
    requires |actions| == 2
    ensures Calls(bounds, actions) == CallsOf(bounds, actions[0]) + CallsOf(bounds, actions[1])
  {
    assert actions[1..] == [actions[1]];
    CallsOfOne(bounds, actions[1]);
  }

  lemma InputReproduced(bounds: Option<Bounds>, input: Message)
    ensures Reproduces(CallFor(bounds, input), bounds, input)
  {
  }

  lemma EntryPoint(b: Bounds, edge: ScreenEdge, p: real)
    ensures var calls := Placed(Some(b), EdgeEntryX(edge, p), EdgeEntryY(edge, p));
            |calls| == 1 && PutsOnEdge(calls[0], b, edge, p)
  {
    AtTheEnds(b.x, EdgeEntryX(edge, p), b.width);
    AtTheEnds(b.y, EdgeEntryY(edge, p), b.height);
  }

  lemma AtTheEnds(origin: real, fraction: real, extent: real)
    ensures fraction == 0.0 ==> origin + fraction * extent == origin
    ensures fraction == 1.0 ==> origin + fraction * extent == origin + extent
  {
    if fraction == 0.0 {
      assert fraction * extent == 0.0;
    } else if fraction == 1.0 {
      assert fraction * extent == extent;
    }
  }

  class PassThroughControl {
    var enabled: bool

    constructor ()
      ensures enabled
    {
      enabled := true;
    }
  }

  class InputInjector {
    var bounds: Option<Bounds>
    var calls: seq<InjectCall>

    constructor (bounds: Option<Bounds>)
      ensures this.bounds == bounds && calls == []
    {
      this.bounds := bounds;
      calls := [];
    }
  }

  class CoreService {
    const stateMachine: EdgeStateMachine
    const layout: ScreenLayout
    const injector: InputInjector
    const passThrough: PassThroughControl
    const network: ChannelNetworkSender

    constructor (localDeviceId: DeviceId, emergencyHotkey: seq<LogicalKey>, layout: ScreenLayout,
                 injector: InputInjector, passThrough: PassThroughControl, network: ChannelNetworkSender)
      ensures stateMachine.state == Idle && fresh(stateMachine)
      ensures stateMachine.localDeviceId == localDeviceId && stateMachine.emergencyHotkey == emergencyHotkey
      ensures this.layout == layout && this.injector == injector
      ensures this.passThrough == passThrough && this.network == network
    {
      stateMachine := new EdgeStateMachine(localDeviceId, emergencyHotkey);
      this.layout := layout;
      this.injector := injector;
      this.passThrough := passThrough;
      this.network := network;
    }

    /** What one event asks for in the current role. */
    function Decision(event: Event): Response
      reads stateMachine, layout
    {
      Transition(stateMachine.localDeviceId, stateMachine.emergencyHotkey, stateMachine.state, event, layout.View())
    }

    function View(): Host
      reads passThrough, network, injector
    {
      Host(passThrough.enabled, network.peers, injector.calls)
    }

    /** Every action of the decision is carried out, in order, on its collaborator;
        and local input reaches local applications exactly outside of Controlling. */
    method Handle(event: Event)
      modifies stateMachine, injector`calls, passThrough, network
      ensures stateMachine.state == old(Decision(event)).state
      ensures passThrough.enabled == PassThroughAfter(old(passThrough.enabled), old(Decision(event)).actions)
      ensures network.peers == SendAll(old(network.peers), Sends(old(Decision(event)).actions))
      ensures injector.calls == old(injector.calls) + Calls(injector.bounds, old(Decision(event)).actions)
      ensures old(injector.calls) <= injector.calls
              && CallsFit(injector.calls[|old(injector.calls)|..], old(stateMachine.state), event, injector.bounds)
      ensures old(passThrough.enabled == !stateMachine.state.Controlling?)
              ==> passThrough.enabled == !stateMachine.state.Controlling?
    {
      PassThroughFollowsRole(stateMachine.localDeviceId, stateMachine.emergencyHotkey, stateMachine.state,
                             event, layout.View());
      CallsExactly(stateMachine.localDeviceId, stateMachine.emergencyHotkey, stateMachine.state,
                   event, layout.View(), injector.bounds);
      ghost var before := View();
      var actions := stateMachine.Handle(event, layout);
      PerformedPassThrough(before, injector.bounds, actions);
      PerformedPeers(before, injector.bounds, actions);
      PerformedCalls(before, injector.bounds, actions);
      var i := 0;
      while i < |actions|
        modifies injector`calls, passThrough, network
        invariant 0 <= i <= |actions|
        invariant Performed(View(), injector.bounds, actions[i..]) == Performed(before, injector.bounds, actions)
      {
        assert actions[i..][1..] == actions[i + 1..];
        Execute(actions[i]);
        i := i + 1;
      }
    }

    method Execute(action: Action)
      modifies injector`calls, passThrough, network
      ensures View() == PerformOne(old(View()), injector.bounds, action)
    {
      assert injector.calls + [] == injector.calls;
      match action
      case EnableLocalPassThrough => passThrough.enabled := true;
      case DisableLocalPassThrough => passThrough.enabled := false;
      case SendMessage(to, message) => network.Send(to, message);
      case InjectLocally(message) => Inject(message);
      case WarpLocalCursor(x, y) => WarpWithin(x, y);
    }

    method WarpWithin(x: real, y: real)
      modifies injector`calls
      ensures injector.calls == old(injector.calls) + Placed(injector.bounds, x, y)
    {
      injector.calls := injector.calls + Placed(injector.bounds, x, y);
    }

    method Inject(message: Message)
      modifies injector`calls
      ensures injector.calls == old(injector.calls) + CallFor(injector.bounds, message)
    {
      match message
      case MouseMove(dx, dy, _) => injector.calls := injector.calls + [MoveRelative(dx, dy)];
      case MouseWarp(x, y) =>
        WarpWithin(x, y);
      case MouseButton(button, down) => injector.calls := injector.calls + [InjectButton(button, down)];
      case MouseWheel(x, y, high) => injector.calls := injector.calls + [InjectWheel(x, y, high)];
      case KeyEvent(key, down, modifiers, _) => injector.calls := injector.calls + [InjectKey(key, down, modifiers)];
      case _ => assert injector.calls + [] == injector.calls;
    }
  }
}
