/** Any number of devices, each running the state machine, joined by one FIFO
    channel per ordered pair of connected devices. One step is one event handled
    by one device, or the loss or set-up of one connection. Session numbers and the
    two logs only observe: no branch of a step reads them. */
module Handoff {
  import opened Messages
  import opened Layout
  import opened EdgeMachine
  import opened Network
  import Capture

  /** `held` is the capture adapter's key set; `session` numbers the hand-off this
      device is or was last part of. */
  datatype Device = Device(
    state: LocalState, passThrough: bool, held: set<LogicalKey>, hotkey: seq<LogicalKey>, session: nat)

  const FRESH_DEVICE := Device(Idle, true, {}, [], 0)

  /** A message in flight, stamped with its sender's session. */
  datatype Packet = Packet(message: Message, session: nat)

  /** One forwarded or injected input. */
  datatype Entry = Entry(from: DeviceId, to: DeviceId, packet: Packet)

  datatype System = System(
    devices: map<DeviceId, Device>,
    channels: map<(DeviceId, DeviceId), seq<Packet>>,
    links: set<(DeviceId, DeviceId)>,
    nextSession: nat,
    sent: map<nat, seq<Entry>>,
    injected: map<nat, seq<Entry>>,
    accepted: set<nat>,
    refused: set<nat>)

  function Dev(s: System, d: DeviceId): Device {
    if d in s.devices then s.devices[d] else FRESH_DEVICE
  }

  function Chan(s: System, a: DeviceId, b: DeviceId): seq<Packet> {
    if (a, b) in s.channels then s.channels[(a, b)] else []
  }

  function Sent(s: System, session: nat): seq<Entry> {
    if session in s.sent then s.sent[session] else []
  }

  function Injected(s: System, session: nat): seq<Entry> {
    if session in s.injected then s.injected[session] else []
  }

  predicate Linked(s: System, a: DeviceId, b: DeviceId) {
    (a, b) in s.links
  }

  // ----- Carrying out a response -----

  /** A send: dropped, but still logged as forwarded, if there is no live session. */
  function Send(s: System, from: DeviceId, to: DeviceId, packet: Packet): System {
    var t := if Linked(s, from, to) then s.(channels := s.channels[(from, to) := Chan(s, from, to) + [packet]]) else s;
    if packet.message.IsInput()
    then t.(sent := t.sent[packet.session := Sent(t, packet.session) + [Entry(from, to, packet)]])
    else t
  }

  function SendEach(s: System, from: DeviceId, sends: seq<(DeviceId, Message)>, session: nat): System
    decreases sends
  {
    if sends == [] then s
    else SendEach(Send(s, from, sends[0].0, Packet(sends[0].1, session)), from, sends[1..], session)
  }

  function InjectEach(s: System, at: Device, me: DeviceId, inputs: seq<Message>, stamp: nat): System
    decreases inputs
  {
    if inputs == [] then s
    else
      var source := if at.state.BeingControlled? then at.state.source else me;
      InjectEach(s.(injected := s.injected[at.session :=
                 Injected(s, at.session) + [Entry(source, me, Packet(inputs[0], stamp))]]), at, me, inputs[1..], stamp)
  }

  /** A device's record once it has taken up response `r`: a fresh session number
      if it starts controlling, the arriving packet's if it starts being controlled. */
  function Moved(s: System, dev: Device, r: Response, stamp: nat): Device {
    dev.(state := r.state,
    passThrough := PassThroughAfter(dev.passThrough, r.actions),
    session := if dev.state.Idle? && r.state.Controlling? then s.nextSession
    else if dev.state.Idle? && r.state.BeingControlled? then stamp
    else dev.session)
  }

  function Became(s: System, d: DeviceId, r: Response, stamp: nat): System {
    var dev := Dev(s, d);
    s.(devices := s.devices[d := Moved(s, dev, r, stamp)],
    nextSession := if dev.state.Idle? && r.state.Controlling? then s.nextSession + 1 else s.nextSession)
  }

  /** Device `d` takes up a response and its actions are carried out. */
  function CarryOut(s: System, d: DeviceId, r: Response, stamp: nat): System {
    var t := Became(s, d, r, stamp);
    SendEach(InjectEach(t, Dev(s, d), d, Injections(r.actions), stamp), d, Sends(r.actions), Dev(t, d).session)
  }

  /** Device `d` handles one event; `stamp` is the session of the packet that
      brought it, if one did. */
  function Feed(s: System, d: DeviceId, event: Event, layout: Arrangement, stamp: nat): System {
    CarryOut(s, d, Transition(d, Dev(s, d).hotkey, Dev(s, d).state, event, layout), stamp)
  }

  // ----- Steps -----

  datatype LocalInput =
    | Move(dx: real, dy: real)
    | Press(button: Button, down: bool)
    | Wheel(deltaX: real, deltaY: real, highResolution: bool)
  {
    function ToEvent(): Event {
      match this
      case Move(x, y) => LocalMouseMove(x, y)
      case Press(b, d) => LocalMouseButton(b, d)
      case Wheel(x, y, h) => LocalMouseWheel(x, y, h)
    }
  }

  datatype Step =
    | Touch(d: DeviceId, edge: ScreenEdge, position: real, layout: Arrangement)
    | Local(d: DeviceId, input: LocalInput)
    | Key(d: DeviceId, key: LogicalKey, pressed: bool, modifiers: Modifiers)
    | Deliver(a: DeviceId, b: DeviceId)
    | Lose(a: DeviceId, b: DeviceId)
    | Connect(a: DeviceId, b: DeviceId)
    | Background(a: DeviceId, b: DeviceId, message: Message)

  function WithHeld(s: System, d: DeviceId, held: set<LogicalKey>): System {
    s.(devices := s.devices[d := Dev(s, d).(held := held)])
  }

  /** The connection between `x` and `y` is gone, with what was in flight on it. */
  function Cut(s: System, x: DeviceId, y: DeviceId): System {
    s.(links := s.links - {(x, y), (y, x)}, channels := s.channels[(x, y) := []][(y, x) := []])
  }

  /** The head of the channel from `x` to `y` taken off. */
  function Popped(s: System, x: DeviceId, y: DeviceId): System
    requires Chan(s, x, y) != []
  {
    s.(channels := s.channels[(x, y) := Chan(s, x, y)[1..]])
  }

  /** Both ends see the loss; nothing in flight between them survives. */
  function Drop(s: System, a: DeviceId, b: DeviceId): System {
    if a == b || !Linked(s, a, b) then s
    else
      Feed(Feed(Cut(s, a, b), a, ConnectionLost(b), EMPTY, 0), b, ConnectionLost(a), EMPTY, 0)
  }

  function Receive(s: System, a: DeviceId, b: DeviceId, packet: Packet): System {
    match Route(a, packet.message)
    case Ignore => s
    case Close => Drop(s, a, b)
    case Dispatch(event) =>
      var t := Feed(s, b, event, EMPTY, packet.session);
      if !event.PeerEdgeEnter? then t
      else if Dev(s, b).state.Idle? then t.(accepted := t.accepted + {packet.session})
      else t.(refused := t.refused + {packet.session})
  }

  function Apply(s: System, step: Step): System {
    match step
    case Touch(d, edge, position, layout) => Feed(s, d, LocalCursorAtEdge(edge, position), layout, 0)
    case Local(d, input) => Feed(s, d, input.ToEvent(), EMPTY, 0)
    case Key(d, key, pressed, modifiers) =>
      var held := Capture.HeldAfter(Dev(s, d).held, key, pressed);
      Feed(WithHeld(s, d, held), d, LocalKeyEvent(key, pressed, modifiers, held), EMPTY, 0)
    case Deliver(a, b) =>
      if Chan(s, a, b) == [] then s else Receive(Popped(s, a, b), a, b, Chan(s, a, b)[0])
    case Lose(a, b) => Drop(s, a, b)
    case Connect(a, b) =>
      if a == b || Linked(s, a, b) then s
      else s.(links := s.links + {(a, b), (b, a)}, channels := s.channels[(a, b) := []][(b, a) := []])
    case Background(a, b, message) =>
      if Linked(s, a, b) && (message.IsBackground() || message.Disconnect?)
      then s.(channels := s.channels[(a, b) := Chan(s, a, b) + [Packet(message, 0)]])
      else s
  }

  function Run(s: System, steps: seq<Step>): System
    decreases |steps|
  {
    if steps == [] then s else Apply(Run(s, steps[..|steps| - 1]), steps[|steps| - 1])
  }

  ghost predicate Start(s: System) {
    && (forall d :: Dev(s, d).state == Idle && Dev(s, d).passThrough && Dev(s, d).held == {})
    && s.channels == map[] && s.links == {}
    && s.sent == map[] && s.injected == map[] && s.accepted == {} && s.refused == {}
  }

  // ----- What one event does, spelled out -----

  lemma AtMostOneSend(s: System, from: DeviceId, sends: seq<(DeviceId, Message)>, session: nat)
    requires |sends| <= 1
    ensures SendEach(s, from, sends, session)
         == if sends == [] then s else Send(s, from, sends[0].0, Packet(sends[0].1, session))
  {
    assert sends != [] ==> sends[1..] == [];
  }

  lemma AtMostOneInjection(s: System, at: Device, me: DeviceId, inputs: seq<Message>, stamp: nat)
    requires |inputs| <= 1 && (inputs != [] ==> at.state.BeingControlled?)
    ensures InjectEach(s, at, me, inputs, stamp)
         == if inputs == [] then s
            else s.(injected := s.injected[at.session :=
                 Injected(s, at.session) + [Entry(at.state.source, me, Packet(inputs[0], stamp))]])
  {
    assert inputs != [] ==> inputs[1..] == [];
  }

  /** A response that sends and injects at most one message each. */
  predicate Modest(dev: Device, r: Response) {
    && |Sends(r.actions)| <= 1
    && |Injections(r.actions)| <= 1
    && (Injections(r.actions) != [] ==> dev.state.BeingControlled?)
  }

  lemma CarryOutEffect(s: System, d: DeviceId, r: Response, stamp: nat)
    requires Modest(Dev(s, d), r)
    ensures var t := Became(s, d, r, stamp);
            var u := if Injections(r.actions) == [] then t
                     else t.(injected := t.injected[Dev(s, d).session := Injected(s, Dev(s, d).session)
                          + [Entry(Dev(s, d).state.source, d, Packet(Injections(r.actions)[0], stamp))]]);
            CarryOut(s, d, r, stamp)
            == if Sends(r.actions) == [] then u
            else Send(u, d, Sends(r.actions)[0].0, Packet(Sends(r.actions)[0].1, Dev(t, d).session))
  {
    var t := Became(s, d, r, stamp);
    AtMostOneInjection(t, Dev(s, d), d, Injections(r.actions), stamp);
    AtMostOneSend(InjectEach(t, Dev(s, d), d, Injections(r.actions), stamp), d, Sends(r.actions), Dev(t, d).session);
  }

  lemma SendView(s: System, from: DeviceId, to: DeviceId, packet: Packet, a: DeviceId, b: DeviceId)
    ensures var t := Send(s, from, to, packet);
            && t.links == s.links && t.devices == s.devices
            && Chan(t, a, b) == if a == from && b == to && Linked(s, a, b) then Chan(s, a, b) + [packet] else Chan(s, a, b)
  {
  }

  /** The same, read off one device and one channel at a time. */
  lemma CarryOutView(s: System, d: DeviceId, r: Response, stamp: nat, a: DeviceId, b: DeviceId)
    requires Modest(Dev(s, d), r)
    ensures var t := CarryOut(s, d, r, stamp);
            && t.links == s.links
            && Dev(t, a) == (if a == d then Moved(s, Dev(s, d), r, stamp) else Dev(s, a))
            && Chan(t, a, b)
               == if a == d && Sends(r.actions) != [] && Sends(r.actions)[0].0 == b && Linked(s, d, b)
                  then Chan(s, a, b) + [Packet(Sends(r.actions)[0].1, Moved(s, Dev(s, d), r, stamp).session)]
                  else Chan(s, a, b)
  {
    CarryOutEffect(s, d, r, stamp);
    var t := Became(s, d, r, stamp);
    assert Dev(t, a) == if a == d then Moved(s, Dev(s, d), r, stamp) else Dev(s, a);
    var u := if Injections(r.actions) == [] then t
    else t.(injected := t.injected[Dev(s, d).session := Injected(s, Dev(s, d).session)
         + [Entry(Dev(s, d).state.source, d, Packet(Injections(r.actions)[0], stamp))]]);
    assert Chan(u, a, b) == Chan(s, a, b) && u.links == s.links && u.devices == t.devices;
    if Sends(r.actions) != [] {
      SendView(u, d, Sends(r.actions)[0].0, Packet(Sends(r.actions)[0].1, Dev(t, d).session), a, b);
    }
  }

  lemma TransitionModest(s: System, d: DeviceId, event: Event, layout: Arrangement)
    ensures Modest(Dev(s, d), Transition(d, Dev(s, d).hotkey, Dev(s, d).state, event, layout))
  {
    ResponseShape(d, Dev(s, d).hotkey, Dev(s, d).state, event, layout);
  }

  /** The whole effect of one event, with no recursion left. */
  lemma FeedEffect(s: System, d: DeviceId, event: Event, layout: Arrangement, stamp: nat)
    ensures var r := Transition(d, Dev(s, d).hotkey, Dev(s, d).state, event, layout);
            var t := Became(s, d, r, stamp);
            && Modest(Dev(s, d), r)
            && Feed(s, d, event, layout, stamp)
               == (var u := if Injections(r.actions) == [] then t
                            else t.(injected := t.injected[Dev(s, d).session := Injected(s, Dev(s, d).session)
                                 + [Entry(Dev(s, d).state.source, d, Packet(Injections(r.actions)[0], stamp))]]);
                   if Sends(r.actions) == [] then u
                   else Send(u, d, Sends(r.actions)[0].0, Packet(Sends(r.actions)[0].1, Dev(t, d).session)))
  {
    TransitionModest(s, d, event, layout);
    CarryOutEffect(s, d, Transition(d, Dev(s, d).hotkey, Dev(s, d).state, event, layout), stamp);
  }

  /** A reported loss ends the role played with the lost device, and sends nothing. */
  lemma LossEffect(s: System, d: DeviceId, lost: DeviceId)
    ensures var t := Feed(s, d, ConnectionLost(lost), EMPTY, 0);
            && t == s.(devices := s.devices[d := Dev(t, d)])
            && Dev(t, d).session == Dev(s, d).session
            && Dev(t, d).state == if Dev(s, d).state == Controlling(lost) || Dev(s, d).state == BeingControlled(lost)
                                  then Idle else Dev(s, d).state
  {
    FeedEffect(s, d, ConnectionLost(lost), EMPTY, 0);
    ResponseShape(d, Dev(s, d).hotkey, Dev(s, d).state, ConnectionLost(lost), EMPTY);
  }
}
