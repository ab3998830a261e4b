/** One device's decisions (crates/ms-input-core/src/state_machine.rs): what an
    event does to its role, and which actions it asks for. */
module EdgeMachine {
  import opened Messages
  import opened Layout

  datatype LocalState = Idle | Controlling(target: DeviceId) | BeingControlled(source: DeviceId)

  datatype Event =
    | LocalCursorAtEdge(edge: ScreenEdge, position: real)
    | LocalMouseMove(dx: real, dy: real)
    | LocalMouseButton(button: Button, buttonDown: bool)
    | LocalMouseWheel(deltaX: real, deltaY: real, highResolution: bool)
    | LocalKeyEvent(key: LogicalKey, pressed: bool, modifiers: Modifiers, held: set<LogicalKey>)
    | PeerEdgeEnter(from: DeviceId, entered: ScreenEdge, entry: real)
    | PeerEdgeRelease(from: DeviceId)
    | PeerEdgeEnterRejected(from: DeviceId)
    | PeerInputMessage(from: DeviceId, message: Message)
    | ConnectionLost(device: DeviceId)

  datatype Action =
    | EnableLocalPassThrough
    | DisableLocalPassThrough
    | SendMessage(to: DeviceId, message: Message)
    | InjectLocally(input: Message)
    | WarpLocalCursor(x: real, y: real)

  datatype Response = Response(state: LocalState, actions: seq<Action>)

  function EdgeEntryX(edge: ScreenEdge, position: real): real {
    match edge
    case Left => 0.0
    case Right => 1.0
    case _ => position
  }

  function EdgeEntryY(edge: ScreenEdge, position: real): real {
    match edge
    case Top => 0.0
    case Bottom => 1.0
    case _ => position
  }

  /** Vacuously true of an empty chord, as `Iterator::all` is. */
  predicate ChordHeld(hotkey: seq<LogicalKey>, held: set<LogicalKey>) {
    forall k :: k in hotkey ==> k in held
  }

  function Forwarded(state: LocalState, message: Message): seq<Action> {
    if state.Controlling? then [SendMessage(state.target, message)] else []
  }

  function OnLocalCursorAtEdge(me: DeviceId, state: LocalState, edge: ScreenEdge, position: real,
                               layout: Arrangement): Response {
    var link := Resolve(layout, me, edge, position);
    match state
    case Idle =>
      if link.None? then Response(state, [])
      else Response(Controlling(link.value.to),
                    [DisableLocalPassThrough, SendMessage(link.value.to, EdgeEnter(link.value.toEdge, position, 1.0))])
    case BeingControlled(source) =>
      if link.None? || link.value.to != source then Response(state, [])
      else Response(Idle, [SendMessage(source, EdgeRelease)])
    case Controlling(_) => Response(state, [])
  }

  function ForceRelease(state: LocalState): Response {
    match state
    case Controlling(target) => Response(Idle, [EnableLocalPassThrough, SendMessage(target, EdgeRelease)])
    case BeingControlled(_) => Response(Idle, [])
    case Idle => Response(Idle, [])
  }

  function OnPeerEdgeEnter(state: LocalState, from: DeviceId, edge: ScreenEdge, position: real): Response {
    if state != Idle then Response(state, [SendMessage(from, EdgeEnterRejected)])
    else Response(BeingControlled(from), [WarpLocalCursor(EdgeEntryX(edge, position), EdgeEntryY(edge, position))])
  }

  function OnPeerReturn(state: LocalState, from: DeviceId): Response {
    if state == Controlling(from) then Response(Idle, [EnableLocalPassThrough]) else Response(state, [])
  }

  function OnConnectionLost(state: LocalState, device: DeviceId): Response {
    if state == Controlling(device) then Response(Idle, [EnableLocalPassThrough])
    else if state == BeingControlled(device) then Response(Idle, [])
    else Response(state, [])
  }

  /** The whole transition table. */
  function Transition(me: DeviceId, hotkey: seq<LogicalKey>, state: LocalState, event: Event,
                      layout: Arrangement): Response {
    match event
    case LocalCursorAtEdge(edge, position) => OnLocalCursorAtEdge(me, state, edge, position, layout)
    case LocalMouseMove(dx, dy) => Response(state, Forwarded(state, MouseMove(dx, dy, 0)))
    case LocalMouseButton(button, down) => Response(state, Forwarded(state, MouseButton(button, down)))
    case LocalMouseWheel(x, y, high) => Response(state, Forwarded(state, MouseWheel(x, y, high)))
    case LocalKeyEvent(key, pressed, modifiers, held) =>
      if pressed && ChordHeld(hotkey, held) then ForceRelease(state)
      else Response(state, Forwarded(state, KeyEvent(key, pressed, modifiers, 0)))
    case PeerEdgeEnter(from, edge, position) => OnPeerEdgeEnter(state, from, edge, position)
    case PeerEdgeRelease(from) => OnPeerReturn(state, from)
    case PeerEdgeEnterRejected(from) => OnPeerReturn(state, from)
    case PeerInputMessage(from, message) =>
      Response(state, if state == BeingControlled(from) then [InjectLocally(message)] else [])
    case ConnectionLost(device) => OnConnectionLost(state, device)
  }

  // ----- What a list of actions amounts to, seen by each collaborator -----

  function Switched(enabled: bool, action: Action): bool {
    match action
    case EnableLocalPassThrough => true
    case DisableLocalPassThrough => false
    case _ => enabled
  }

  function PassThroughAfter(enabled: bool, actions: seq<Action>): bool
    decreases actions
  {
    if actions == [] then enabled else PassThroughAfter(Switched(enabled, actions[0]), actions[1..])
  }

  function SendOf(action: Action): seq<(DeviceId, Message)> {
    if action.SendMessage? then [(action.to, action.message)] else []
  }

  function Sends(actions: seq<Action>): seq<(DeviceId, Message)> {
    if actions == [] then [] else SendOf(actions[0]) + Sends(actions[1..])
  }

  function Injections(actions: seq<Action>): seq<Message> {
    if actions == [] then []
    else (if actions[0].InjectLocally? then [actions[0].input] else []) + Injections(actions[1..])
  }

  lemma OneAction(enabled: bool, actions: seq<Action>)
    requires |actions| == 1
    ensures PassThroughAfter(enabled, actions)
         == (actions[0].EnableLocalPassThrough? || (enabled && !actions[0].DisableLocalPassThrough?))
    ensures Sends(actions) == (if actions[0].SendMessage? then [(actions[0].to, actions[0].message)] else [])
    ensures Injections(actions) == (if actions[0].InjectLocally? then [actions[0].input] else [])
  {
    assert actions[1..] == [];
  }

  /** A switch of the pass-through followed by a send. */
  lemma SwitchThenSend(enabled: bool, actions: seq<Action>)
    requires |actions| == 2 && actions[1].SendMessage?
    requires actions[0].EnableLocalPassThrough? || actions[0].DisableLocalPassThrough?
    ensures PassThroughAfter(enabled, actions) == actions[0].EnableLocalPassThrough?
    ensures Sends(actions) == [(actions[1].to, actions[1].message)]
    ensures Injections(actions) == []
  {
    assert actions[1..] == [actions[1]];
    OneAction(actions[0].EnableLocalPassThrough?, [actions[1]]);
  }

  /** The pass-through switch follows the role: whatever the event, if it was on
      exactly outside of Controlling before, it is so after. */
  lemma PassThroughFollowsRole(me: DeviceId, hotkey: seq<LogicalKey>, state: LocalState, event: Event,
                               layout: Arrangement)
    ensures var r := Transition(me, hotkey, state, event, layout);
            PassThroughAfter(!state.Controlling?, r.actions) == !r.state.Controlling?
  {
    var actions := Transition(me, hotkey, state, event, layout).actions;
    if |actions| == 1 { OneAction(!state.Controlling?, actions); }
    if |actions| == 2 { SwitchThenSend(!state.Controlling?, actions); }
  }

  /** A response that keeps the role keeps the switch, wherever it stands. */
  lemma SwitchKept(me: DeviceId, hotkey: seq<LogicalKey>, state: LocalState, event: Event,
                   layout: Arrangement, enabled: bool)
    requires Transition(me, hotkey, state, event, layout).state == state
    ensures PassThroughAfter(enabled, Transition(me, hotkey, state, event, layout).actions) == enabled
  {
    var actions := Transition(me, hotkey, state, event, layout).actions;
    if |actions| == 1 { OneAction(enabled, actions); }
  }

  /** Every response sends at most one message and injects at most one. */
  lemma ResponseShape(me: DeviceId, hotkey: seq<LogicalKey>, state: LocalState, event: Event, layout: Arrangement)
    ensures var r := Transition(me, hotkey, state, event, layout);
            && Sends(r.actions) ==
               match event
               case LocalCursorAtEdge(edge, position) =>
                 if r.state == state then []
                 else if state.Idle? then
                   [(r.state.target, EdgeEnter(Resolve(layout, me, edge, position).value.toEdge, position, 1.0))]
                 else [(state.source, EdgeRelease)]
               case LocalMouseMove(dx, dy) => if state.Controlling? then [(state.target, MouseMove(dx, dy, 0))] else []
               case LocalMouseButton(b, down) => if state.Controlling? then [(state.target, MouseButton(b, down))] else []
               case LocalMouseWheel(x, y, h) => if state.Controlling? then [(state.target, MouseWheel(x, y, h))] else []
               case LocalKeyEvent(k, p, m, held) =>
                 if !state.Controlling? then []
                 else if p && ChordHeld(hotkey, held) then [(state.target, EdgeRelease)]
                 else [(state.target, KeyEvent(k, p, m, 0))]
               case PeerEdgeEnter(from, _, _) => if state.Idle? then [] else [(from, EdgeEnterRejected)]
               case _ => []
    ensures var r := Transition(me, hotkey, state, event, layout);
            Injections(r.actions)
            == if event.PeerInputMessage? && state == BeingControlled(event.from) then [event.message] else []
  {
    var actions := Transition(me, hotkey, state, event, layout).actions;
    if |actions| == 1 { OneAction(!state.Controlling?, actions); }
    if |actions| == 2 { SwitchThenSend(!state.Controlling?, actions); }
  }

  /** A captured input or key: one message to the target, if there is one; and only the
      chord ends the role. */
  lemma LocalShape(me: DeviceId, hotkey: seq<LogicalKey>, state: LocalState, event: Event, layout: Arrangement)
    requires event.LocalMouseMove? || event.LocalMouseButton? || event.LocalMouseWheel? || event.LocalKeyEvent?
    ensures var r := Transition(me, hotkey, state, event, layout);
            var chord := event.LocalKeyEvent? && event.pressed && ChordHeld(hotkey, event.held);
            && r.state == (if chord then Idle else state)
            && Injections(r.actions) == []
            && (!state.Controlling? ==> Sends(r.actions) == [])
            && (state.Controlling? ==>
                  && |Sends(r.actions)| == 1 && Sends(r.actions)[0].0 == state.target
                  && (if chord then Sends(r.actions)[0].1 == EdgeRelease else Sends(r.actions)[0].1.IsInput()))
  {
    ResponseShape(me, hotkey, state, event, layout);
  }

  class EdgeStateMachine {
    var state: LocalState
    const emergencyHotkey: seq<LogicalKey>
    const localDeviceId: DeviceId

    constructor (localDeviceId: DeviceId, emergencyHotkey: seq<LogicalKey>)
      ensures state == Idle
      ensures this.localDeviceId == localDeviceId && this.emergencyHotkey == emergencyHotkey
    {
      state := Idle;
      this.localDeviceId := localDeviceId;
      this.emergencyHotkey := emergencyHotkey;
    }

    method Handle(event: Event, layout: ScreenLayout) returns (actions: seq<Action>)
      modifies this
      ensures Response(state, actions)
           == Transition(localDeviceId, emergencyHotkey, old(state), event, layout.View())
    {
      match event
      case LocalCursorAtEdge(edge, position) => actions := LocalCursorAtEdge(edge, position, layout);
      case LocalMouseMove(dx, dy) => actions := Forwarded(state, MouseMove(dx, dy, 0));
      case LocalMouseButton(button, down) => actions := Forwarded(state, MouseButton(button, down));
      case LocalMouseWheel(x, y, high) => actions := Forwarded(state, MouseWheel(x, y, high));
      case LocalKeyEvent(key, pressed, modifiers, held) =>
        if pressed && ChordHeld(emergencyHotkey, held) {
          actions := Release();
        } else {
          actions := Forwarded(state, KeyEvent(key, pressed, modifiers, 0));
        }
      case PeerEdgeEnter(from, edge, position) => actions := PeerEdgeEnter(from, edge, position);
      case PeerEdgeRelease(from) => actions := PeerReturn(from);
      case PeerEdgeEnterRejected(from) => actions := PeerReturn(from);
      case PeerInputMessage(from, message) =>
        actions := if state == BeingControlled(from) then [InjectLocally(message)] else [];
      case ConnectionLost(device) => actions := ConnectionLost(device);
    }

    method LocalCursorAtEdge(edge: ScreenEdge, position: real, layout: ScreenLayout) returns (actions: seq<Action>)
      modifies this
      ensures Response(state, actions)
           == OnLocalCursorAtEdge(localDeviceId, old(state), edge, position, layout.View())
    {
      actions := [];
      var link := Resolve(layout.View(), localDeviceId, edge, position);
      match state
      case Idle =>
        if link.Some? {
          state := Controlling(link.value.to);
          actions := [DisableLocalPassThrough];
          actions := actions + [SendMessage(link.value.to, EdgeEnter(link.value.toEdge, position, 1.0))];
        }
      case BeingControlled(source) =>
        if link.Some? && link.value.to == source {
          state := Idle;
          actions := [SendMessage(source, EdgeRelease)];
        }
      case Controlling(_) =>
    }

    method PeerEdgeEnter(from: DeviceId, edge: ScreenEdge, position: real) returns (actions: seq<Action>)
      modifies this
      ensures Response(state, actions) == OnPeerEdgeEnter(old(state), from, edge, position)
    {
      if state != Idle {
        return [SendMessage(from, EdgeEnterRejected)];
      }
      state := BeingControlled(from);
      actions := [WarpLocalCursor(EdgeEntryX(edge, position), EdgeEntryY(edge, position))];
    }

    method PeerReturn(from: DeviceId) returns (actions: seq<Action>)
      modifies this
      ensures Response(state, actions) == OnPeerReturn(old(state), from)
    {
      actions := [];
      if state.Controlling? && state.target == from {
        state := Idle;
        actions := [EnableLocalPassThrough];
      }
    }

    method ConnectionLost(device: DeviceId) returns (actions: seq<Action>)
      modifies this
      ensures Response(state, actions) == OnConnectionLost(old(state), device)
    {
      actions := [];
      if state.Controlling? && state.target == device {
        state := Idle;
        actions := [EnableLocalPassThrough];
      } else if state.BeingControlled? && state.source == device {
        state := Idle;
      }
    }

    method Release() returns (actions: seq<Action>)
      modifies this
      ensures Response(state, actions) == ForceRelease(old(state))
    {
      actions := [];
      match state
      case Controlling(target) =>
        state := Idle;
        actions := [EnableLocalPassThrough];
        actions := actions + [SendMessage(target, EdgeRelease)];
      case BeingControlled(_) =>
        state := Idle;
      case Idle =>
    }
  }
}
