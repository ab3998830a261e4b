/** The whole way there and back: state machine, arrangement, service, pixels. */
module Trip {
  import opened Messages
  import opened Layout
  import opened EdgeMachine
  import opened Network
  import opened Service
  import opened Handoff
  import opened Ledger
  import opened Stalls
  import opened Drain
  import opened Crossing
  import opened Screen

  // ----- Inputs -----

  /** The injector call that reproduces a captured input. */
  function Reproduced(event: Event): InjectCall
    requires event.LocalMouseMove? || event.LocalMouseButton? || event.LocalMouseWheel? || event.LocalKeyEvent?
  {
    match event
    case LocalMouseMove(dx, dy) => MoveRelative(dx, dy)
    case LocalMouseButton(button, down) => InjectButton(button, down)
    case LocalMouseWheel(x, y, high) => InjectWheel(x, y, high)
    case LocalKeyEvent(key, pressed, modifiers, _) => InjectKey(key, pressed, modifiers)
  }

  /** Captured at the controller, forwarded, routed and injected at the controlled
      device: one call, with the values that were captured. The one input that does
      not get through is the one that completes the controller's emergency chord. */
  lemma InputArrives(a: DeviceId, b: DeviceId, chord: seq<LogicalKey>, otherChord: seq<LogicalKey>,
                     event: Event, bounds: Option<Bounds>)
    requires event.LocalMouseMove? || event.LocalMouseButton? || event.LocalMouseWheel? || event.LocalKeyEvent?
    ensures var sends := Sends(Transition(a, chord, Controlling(b), event, EMPTY).actions);
            && |sends| == 1 && sends[0].0 == b
            && var routed := Route(a, sends[0].1);
            && routed.Dispatch?
            && Calls(bounds, Transition(b, otherChord, BeingControlled(a), routed.event, EMPTY).actions)
               == if event.LocalKeyEvent? && event.pressed && ChordHeld(chord, event.held) then [] else [Reproduced(event)]
  {
    ResponseShape(a, chord, Controlling(b), event, EMPTY);
    var m := Sends(Transition(a, chord, Controlling(b), event, EMPTY).actions)[0].1;
    if m.IsInput() { InjectedCalls(a, b, otherChord, m, bounds); }
  }

  lemma InjectedCalls(a: DeviceId, b: DeviceId, chord: seq<LogicalKey>, message: Message, bounds: Option<Bounds>)
    ensures Calls(bounds, Transition(b, chord, BeingControlled(a), PeerInputMessage(a, message), EMPTY).actions)
         == CallFor(bounds, message)
  {
    CallsOfOne(bounds, InjectLocally(message));
  }

  // ----- Calls over runs -----

  /** The event device `x` handles in a step, if it handles one. */
  function Handles(s: System, step: Step, x: DeviceId): Option<Event> {
    match step
    case Touch(d, edge, position, _) => if x == d then Some(LocalCursorAtEdge(edge, position)) else None
    case Local(d, input) => if x == d then Some(input.ToEvent()) else None
    case Key(d, key, pressed, modifiers) =>
      if x == d then Some(LocalKeyEvent(key, pressed, modifiers, Capture.HeldAfter(Dev(s, d).held, key, pressed))) else None
    case Deliver(a, b) =>
      if Chan(s, a, b) == [] then None
      else (match Route(a, Chan(s, a, b)[0].message)
            case Ignore => None
            case Close => LossSeen(s, a, b, x)
            case Dispatch(event) => if x == b then Some(event) else None)
    case Lose(a, b) => LossSeen(s, a, b, x)
    case _ => None
  }

  function LossSeen(s: System, a: DeviceId, b: DeviceId, x: DeviceId): Option<Event> {
    if a == b || !Linked(s, a, b) then None
    else if x == a then Some(ConnectionLost(b))
    else if x == b then Some(ConnectionLost(a))
    else None
  }

  function LayoutIn(step: Step): Arrangement {
    if step.Touch? then step.layout else EMPTY
  }

  /** That is the event the system has it handle: its role becomes what it asks for. */
  lemma HandlesRight(s: System, step: Step, x: DeviceId)
    ensures Dev(Apply(s, step), x).state
         == match Handles(s, step, x)
            case None => Dev(s, x).state
            case Some(event) => Transition(x, Dev(s, x).hotkey, Dev(s, x).state, event, LayoutIn(step)).state
  {
    match step
    case Touch(d, edge, position, layout) => RoleView(s, d, LocalCursorAtEdge(edge, position), layout, 0, x);
    case Local(d, input) => RoleView(s, d, input.ToEvent(), EMPTY, 0, x);
    case Key(d, key, pressed, modifiers) =>
      var held := Capture.HeldAfter(Dev(s, d).held, key, pressed);
      RoleView(WithHeld(s, d, held), d, LocalKeyEvent(key, pressed, modifiers, held), EMPTY, 0, x);
    case Deliver(a, b) => if Chan(s, a, b) != [] { HandlesDelivery(s, a, b, x); }
    case Lose(a, b) => HandlesLoss(s, a, b, x);
    case Connect(_, _) =>
    case Background(_, _, _) =>
  }

  lemma HandlesLoss(s: System, a: DeviceId, b: DeviceId, x: DeviceId)
    ensures Dev(Drop(s, a, b), x).state
         == match LossSeen(s, a, b, x)
            case None => Dev(s, x).state
            case Some(event) => Transition(x, Dev(s, x).hotkey, Dev(s, x).state, event, EMPTY).state
  {
    LossRole(s, a, b, x);
  }

  lemma HandlesDelivery(s: System, a: DeviceId, b: DeviceId, x: DeviceId)
    requires Chan(s, a, b) != []
    ensures Dev(Apply(s, Deliver(a, b)), x).state
         == match Handles(s, Deliver(a, b), x)
            case None => Dev(s, x).state
            case Some(event) => Transition(x, Dev(s, x).hotkey, Dev(s, x).state, event, EMPTY).state
  {
    var t, p := Popped(s, a, b), Chan(s, a, b)[0];
    match Route(a, p.message)
    case Ignore =>
    case Close => HandlesLoss(t, a, b, x);
    case Dispatch(event) => ReceiptRole(t, a, b, p, x);
  }

  /** The injector calls device `x` makes in a step. */
  function StepCalls(s: System, step: Step, x: DeviceId, bounds: Option<Bounds>): seq<InjectCall> {
    match Handles(s, step, x)
    case None => []
    case Some(event) => Calls(bounds, Transition(x, Dev(s, x).hotkey, Dev(s, x).state, event, LayoutIn(step)).actions)
  }

  function RunCalls(s: System, steps: seq<Step>, x: DeviceId, bounds: Option<Bounds>): seq<InjectCall>
    decreases |steps|
  {
    if steps == [] then []
    else
      var before := steps[..|steps| - 1];
      RunCalls(s, before, x, bounds) + StepCalls(Run(s, before), steps[|steps| - 1], x, bounds)
  }

  /** The message a step hands to device `x`, if it does, with its sender. */
  function HandedTo(s: System, step: Step, x: DeviceId): Option<(DeviceId, Message)> {
    if step.Deliver? && step.b == x && Chan(s, step.a, x) != [] then Some((step.a, Chan(s, step.a, x)[0].message))
    else None
  }

  /** Step by step: a delivered EdgeEnter makes an Idle device put its cursor on the
      entered edge, a delivered input makes a device reproduce it that its sender
      controls; nothing else calls the injector. */
  lemma StepCallsExactly(s: System, step: Step, x: DeviceId, bounds: Option<Bounds>)
    ensures var calls := StepCalls(s, step, x, bounds);
            match HandedTo(s, step, x)
            case None => calls == []
            case Some((from, message)) =>
              if message.EdgeEnter? && Dev(s, x).state == Idle && bounds.Some?
              then |calls| == 1 && PutsOnEdge(calls[0], bounds.value, message.edge, message.position)
              else if message.IsInput() && Dev(s, x).state == BeingControlled(from)
                then Reproduces(calls, bounds, message)
                else calls == []
  {
    var handled := Handles(s, step, x);
    if handled.Some? {
      CallsExactly(x, Dev(s, x).hotkey, Dev(s, x).state, handled.value, LayoutIn(step), bounds);
    }
  }

  /** Over whole runs: whatever else happens, a device to which no EdgeEnter is handed
      while Idle, and no input while its sender controls it, never moves, clicks or types. */
  lemma {:induction false} UnaskedStaysStill(s: System, steps: seq<Step>, x: DeviceId, bounds: Option<Bounds>)
    ensures RunCalls(s, steps, x, bounds) != [] ==>
              exists k :: 0 <= k < |steps| && Asked(s, steps, k, x)
    decreases |steps|
  {
    if steps != [] {
      var before := steps[..|steps| - 1];
      UnaskedStaysStill(s, before, x, bounds);
      StepCallsExactly(Run(s, before), steps[|steps| - 1], x, bounds);
      if StepCalls(Run(s, before), steps[|steps| - 1], x, bounds) != [] {
        assert Asked(s, steps, |steps| - 1, x);
      } else if RunCalls(s, before, x, bounds) != [] {
        var k :| 0 <= k < |before| && Asked(s, before, k, x);
        assert before[..k] == steps[..k];
        assert Asked(s, steps, k, x);
      }
    }
  }

  ghost predicate Asked(s: System, steps: seq<Step>, k: nat, x: DeviceId)
    requires k < |steps|
  {
    var t := Run(s, steps[..k]);
    match HandedTo(t, steps[k], x)
    case None => false
    case Some((from, message)) =>
      || (message.EdgeEnter? && Dev(t, x).state == Idle)
      || (message.IsInput() && Dev(t, x).state == BeingControlled(from))
  }

  // ----- The cursor -----

  /** The rectangle the injector reports for a virtual screen. */
  function BoundsOf(b: VirtualScreen): Bounds {
    Bounds(b.x as real, b.y as real, b.width as real, b.height as real)
  }

  /** What the hook reports once an injector call has moved the cursor, if the platform
      reports that at all. */
  function SeenAfter(clips: bool, b: VirtualScreen, call: InjectCall): Option<Touching>
    requires call.WarpAbsolute?
  {
    DetectEdge(Landed(clips, Round(call.x), b.x, b.width), Landed(clips, Round(call.y), b.y, b.height), b)
  }

  /** The one injector call made for an EdgeEnter that arrives at an Idle device, and what it makes visible. */
  lemma {:induction false} EntryWarp(me: DeviceId, hotkey: seq<LogicalKey>, from: DeviceId, edge: ScreenEdge, p: real,
                                     layout: Arrangement, clips: bool, b: VirtualScreen)
    ensures var routed := Route(from, EdgeEnter(edge, p, 1.0));
            && routed.Dispatch?
            && var calls := Calls(Some(BoundsOf(b)), Transition(me, hotkey, Idle, routed.event, layout).actions);
            |calls| == 1 && calls[0].WarpAbsolute? && SeenAfter(clips, b, calls[0]) == Redetected(clips, b, edge, p)
  {
    var actions := Transition(me, hotkey, Idle, PeerEdgeEnter(from, edge, p), layout).actions;
    var x, y := EdgeEntryX(edge, p), EdgeEntryY(edge, p);
    assert actions == [WarpLocalCursor(x, y)];
    CallsOfOne(Some(BoundsOf(b)), actions[0]);
    PlacedAt(BoundsOf(b), x, y);
    SameCall(clips, b, Placed(Some(BoundsOf(b)), x, y)[0], x, y);
  }

  lemma PlacedAt(b: Bounds, x: real, y: real)
    ensures var calls := Placed(Some(b), x, y);
            |calls| == 1 && calls[0].WarpAbsolute? && calls[0].x == b.x + x * b.width && calls[0].y == b.y + y * b.height
  {
  }

  lemma SameCall(clips: bool, b: VirtualScreen, call: InjectCall, x: real, y: real)
    requires call.WarpAbsolute?
    requires call.x == b.x as real + x * b.width as real && call.y == b.y as real + y * b.height as real
    ensures SeenAfter(clips, b, call)
         == DetectEdge(WarpTo(clips, b.x, b.width, x), WarpTo(clips, b.y, b.height, y), b)
  {
    WarpLands(clips, b.x, b.width, x, call.x);
    WarpLands(clips, b.y, b.height, y, call.y);
    SeenThere(clips, b, call, WarpTo(clips, b.x, b.width, x), WarpTo(clips, b.y, b.height, y));
  }

  lemma WarpLands(clips: bool, origin: int, extent: int, fraction: real, v: real)
    requires v == origin as real + fraction * extent as real
    ensures Landed(clips, Round(v), origin, extent) == WarpTo(clips, origin, extent, fraction)
  {
  }

  lemma SeenThere(clips: bool, b: VirtualScreen, call: InjectCall, px: int, py: int)
    requires call.WarpAbsolute?
    requires Landed(clips, Round(call.x), b.x, b.width) == px
    requires Landed(clips, Round(call.y), b.y, b.height) == py
    ensures SeenAfter(clips, b, call) == DetectEdge(px, py, b)
  {
  }

  /** Crossing that edge there leads to `to`: some link does, and is live. */
  ghost predicate Leads(layout: Arrangement, from: DeviceId, edge: ScreenEdge, q: real, to: DeviceId) {
    exists l :: l in layout.edges && l.LeavesAt(from, edge) && l.to == to && Live(l, q)
  }

  lemma LeadsIsResolve(layout: Arrangement, from: DeviceId, edge: ScreenEdge, q: real, to: DeviceId)
    requires WellFormed(layout) && Enabled(layout, from) && Enabled(layout, to)
    ensures Leads(layout, from, edge, q, to)
       <==> Resolve(layout, from, edge, q).Some? && Resolve(layout, from, edge, q).value.to == to
  {
    if Leads(layout, from, edge, q, to) {
      var l :| l in layout.edges && l.LeavesAt(from, edge) && l.to == to && Live(l, q);
      ResolveIsLookup(layout, from, edge, q, l);
    }
  }

  /** At the entered edge itself, one link decides: the way one came. */
  lemma LeadsBack(layout: Arrangement, a: DeviceId, edge: ScreenEdge, p: real, q: real)
    requires WellFormed(layout) && Resolve(layout, a, edge, p).Some?
    ensures var link := Resolve(layout, a, edge, p).value;
            Leads(layout, link.to, link.toEdge, q, a) <==> Live(link, q)
  {
    var link := Resolve(layout, a, edge, p).value;
    ResolveIsLookup(layout, a, edge, p, link);
    assert LinkSound(layout, link);
    if Leads(layout, link.to, link.toEdge, q, a) {
      var l :| l in layout.edges && l.LeavesAt(link.to, link.toEdge) && l.to == a && Live(l, q);
      UniqueEntry(layout.edges, l, link.Mirror());
    } else {
      assert link.Mirror().LeavesAt(link.to, link.toEdge) && link.Mirror().to == a;
    }
  }

  /** A touch of a device just entered, and what becomes of the hand-off. */
  lemma {:induction false} TouchOutcome(s: System, layout: Arrangement, a: DeviceId, edge: ScreenEdge, p: real,
                                        seen: ScreenEdge, q: real)
    requires Wired(s) && WellFormed(layout) && Resolve(layout, a, edge, p).Some?
    requires var b := Resolve(layout, a, edge, p).value.to;
             && Dev(s, a).state.Idle? && Dev(s, a).passThrough
             && Dev(s, b).state.Idle? && Dev(s, b).passThrough
             && Linked(s, a, b) && Chan(s, a, b) == [] && Chan(s, b, a) == []
    ensures var b := Resolve(layout, a, edge, p).value.to;
            var t := After(s, [Touch(a, edge, p, layout), Deliver(a, b), Touch(b, seen, q, layout), Deliver(b, a)]);
            && Chan(t, a, b) == [] && Chan(t, b, a) == []
            && if Leads(layout, b, seen, q, a)
               then Dev(t, a).state == Idle && Dev(t, a).passThrough && Dev(t, b).state == Idle && Dev(t, b).passThrough
               else Dev(t, a).state == Controlling(b) && !Dev(t, a).passThrough && Dev(t, b).state == BeingControlled(a)
  {
    var link := Resolve(layout, a, edge, p).value;
    var b := link.to;
    ResolveIsLookup(layout, a, edge, p, link);
    LeadsIsResolve(layout, b, seen, q, a);
    Outward(s, layout, a, edge, p);
    var u := Apply(Apply(s, Touch(a, edge, p, layout)), Deliver(a, b));
    assert Linked(s, b, a) && a != b;
    FourSteps(s, [Touch(a, edge, p, layout), Deliver(a, b), Touch(b, seen, q, layout), Deliver(b, a)]);
    if Leads(layout, b, seen, q, a) {
      Homeward(u, layout, a, b, seen, q);
    } else {
      ReturnEdgeExact(u, a, b, seen, q, layout);
      StaysOver(u, Apply(u, Touch(b, seen, q, layout)), a, b);
    }
  }

  lemma StaysOver(u: System, v: System, a: DeviceId, b: DeviceId)
    requires v == u.(devices := u.devices[b := Dev(u, b)]) && Chan(u, b, a) == []
    ensures Apply(v, Deliver(b, a)) == v && Dev(v, a) == Dev(u, a) && Dev(v, b) == Dev(u, b)
    ensures Chan(v, a, b) == Chan(u, a, b) && Chan(v, b, a) == []
  {
  }

  /** Cross; take up; let the hook report what the warp itself makes it see, as far as
      the platform shows it that; deliver. That alone sends control back if and only if the edge at which the entry is seen
      leads back from there. Seen at the entered edge, that is: if and only if the
      position still reads as live. Both devices are then Idle with their switches on;
      otherwise the session goes on. */
  lemma {:induction false} WarpReturnsExactly(s: System, layout: Arrangement, a: DeviceId, edge: ScreenEdge, p: real,
                                              clips: bool, screen: VirtualScreen)
    requires Wired(s) && WellFormed(layout) && Resolve(layout, a, edge, p).Some?
    requires screen.width >= 2 && screen.height >= 2
    requires var b := Resolve(layout, a, edge, p).value.to;
             && Dev(s, a).state.Idle? && Dev(s, a).passThrough
             && Dev(s, b).state.Idle? && Dev(s, b).passThrough
             && Linked(s, a, b) && Chan(s, a, b) == [] && Chan(s, b, a) == []
    ensures var link := Resolve(layout, a, edge, p).value;
            var b, seen, q := link.to, SeenEdge(clips, screen, link.toEdge, p), SeenAt(clips, screen, link.toEdge, p);
            var t := After(s, [Touch(a, edge, p, layout), Deliver(a, b), Touch(b, seen, q, layout), Deliver(b, a)]);
            && Redetected(clips, screen, link.toEdge, p) == Some(Touching(seen, q))
            && (Dev(t, b).state == Idle <==> Leads(layout, b, seen, q, a))
            && (seen == link.toEdge ==>
                  (Dev(t, b).state == Idle <==> Live(link, ReadBack(clips, screen, link.toEdge, p))))
            && Chan(t, a, b) == [] && Chan(t, b, a) == []
            && if Dev(t, b).state == Idle
               then Dev(t, a).state == Idle && Dev(t, a).passThrough && Dev(t, b).passThrough
               else Dev(t, a).state == Controlling(b) && !Dev(t, a).passThrough && Dev(t, b).state == BeingControlled(a)
  {
    var link := Resolve(layout, a, edge, p).value;
    var seen, q := SeenEdge(clips, screen, link.toEdge, p), SeenAt(clips, screen, link.toEdge, p);
    EntrySeen(clips, screen, link.toEdge, p);
    TouchOutcome(s, layout, a, edge, p, seen, q);
    if seen == link.toEdge {
      assert q == ReadBack(clips, screen, link.toEdge, p);
      LeadsBack(layout, a, edge, p, q);
    }
  }

  /** Cross; take up; let the hook report what the warp itself makes it see; deliver.
      At a position the rounding error inside the live boundary, if the entered edge is
      seen, that sends control straight back: the injector call made for the EdgeEnter
      makes the touch, and both devices are Idle, both switches on, nothing in flight. */
  lemma {:induction false} WarpAloneReturns(s: System, layout: Arrangement, a: DeviceId, edge: ScreenEdge, p: real,
                                            clips: bool, screen: VirtualScreen)
    requires Wired(s) && WellFormed(layout) && Resolve(layout, a, edge, p).Some?
    requires screen.width >= 2 && screen.height >= 2
    requires var link := Resolve(layout, a, edge, p).value;
             && Dev(s, a).state.Idle? && Dev(s, a).passThrough
             && Dev(s, link.to).state.Idle? && Dev(s, link.to).passThrough
             && Linked(s, a, link.to) && Chan(s, a, link.to) == [] && Chan(s, link.to, a) == []
    requires var link := Resolve(layout, a, edge, p).value;
             var span := (EdgeLength(screen, link.toEdge) - 1) as real;
             var seen := Redetected(clips, screen, link.toEdge, p);
             && link.boundaryStart <= p + -0.5 / span && p + 1.5 / span <= link.boundaryEnd
             && seen.Some? && seen.value.edge == link.toEdge
    ensures var b := Resolve(layout, a, edge, p).value.to;
            var crossed := Apply(s, Touch(a, edge, p, layout));
            && |Chan(crossed, a, b)| == 1 && Chan(crossed, a, b)[0].message.EdgeEnter?
            && var routed := Route(a, Chan(crossed, a, b)[0].message);
            && routed.Dispatch?
            && var calls := Calls(Some(BoundsOf(screen)),
                                  Transition(b, Dev(s, b).hotkey, Idle, routed.event, layout).actions);
            && |calls| == 1 && calls[0].WarpAbsolute? && SeenAfter(clips, screen, calls[0]).Some?
            && var seen := SeenAfter(clips, screen, calls[0]).value;
            var t := After(s, [Touch(a, edge, p, layout), Deliver(a, b),
                               Touch(b, seen.edge, seen.position, layout), Deliver(b, a)]);
            && Dev(t, a).state.Idle? && Dev(t, a).passThrough
            && Dev(t, b).state.Idle? && Dev(t, b).passThrough
            && Chan(t, a, b) == [] && Chan(t, b, a) == []
  {
    var link := Resolve(layout, a, edge, p).value;
    var b := link.to;
    CrossLeg(s, a, edge, p, layout);
    EntryWarp(b, Dev(s, b).hotkey, a, link.toEdge, p, layout, clips, screen);
    EntryResolvesBack(layout, a, edge, p, clips, screen);
    var back := Redetected(clips, screen, link.toEdge, p).value.position;
    ResolveIsLookup(layout, a, edge, p, link);
    LeadsIsResolve(layout, b, link.toEdge, back, a);
    TouchOutcome(s, layout, a, edge, p, link.toEdge, back);
  }
}
