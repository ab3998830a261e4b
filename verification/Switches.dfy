/** The pass-through switch, the held keys and the emergency chord over whole runs,
    whatever steps they are made of; and one device of the system seen as the
    service that runs on it. */
module Switches {
  import opened Messages
  import opened Layout
  import opened EdgeMachine
  import opened Network
  import opened Handoff
  import opened Ledger

  // ----- What no event touches -----

  lemma FeedDevices(s: System, d: DeviceId, event: Event, layout: Arrangement, stamp: nat, x: DeviceId)
    ensures var t := Feed(s, d, event, layout, stamp);
            && Dev(t, x).held == Dev(s, x).held && Dev(t, x).hotkey == Dev(s, x).hotkey
            && (x != d ==> Dev(t, x) == Dev(s, x))
            && (Dev(s, x).passThrough == !Dev(s, x).state.Controlling?
                ==> Dev(t, x).passThrough == !Dev(t, x).state.Controlling?)
            && t.links == s.links
  {
    var r := Transition(d, Dev(s, d).hotkey, Dev(s, d).state, event, layout);
    TransitionModest(s, d, event, layout);
    CarryOutView(s, d, r, stamp, x, x);
    PassThroughFollowsRole(d, Dev(s, d).hotkey, Dev(s, d).state, event, layout);
  }

  lemma {:induction false} DropDevices(s: System, a: DeviceId, b: DeviceId, x: DeviceId)
    ensures var t := Drop(s, a, b);
            && Dev(t, x).held == Dev(s, x).held && Dev(t, x).hotkey == Dev(s, x).hotkey
            && (Dev(s, x).passThrough == !Dev(s, x).state.Controlling?
                ==> Dev(t, x).passThrough == !Dev(t, x).state.Controlling?)
  {
    if a != b && Linked(s, a, b) {
      var cut := Cut(s, a, b);
      FeedDevices(cut, a, ConnectionLost(b), EMPTY, 0, x);
      FeedDevices(Feed(cut, a, ConnectionLost(b), EMPTY, 0), b, ConnectionLost(a), EMPTY, 0, x);
    }
  }

  lemma {:induction false} DeliverDevices(s: System, a: DeviceId, b: DeviceId, x: DeviceId)
    requires Chan(s, a, b) != []
    ensures var t := Apply(s, Deliver(a, b));
            && Dev(t, x).held == Dev(s, x).held && Dev(t, x).hotkey == Dev(s, x).hotkey
            && (Dev(s, x).passThrough == !Dev(s, x).state.Controlling?
                ==> Dev(t, x).passThrough == !Dev(t, x).state.Controlling?)
  {
    var t, p := Popped(s, a, b), Chan(s, a, b)[0];
    match Route(a, p.message)
    case Ignore =>
    case Close => DropDevices(t, a, b, x);
    case Dispatch(event) => FeedDevices(t, b, event, EMPTY, p.session, x);
  }

  /** Each step, for each device: the switch keeps following the role, the hotkey is
      fixed, and only a key event of that device moves its held set. */
  lemma StepDevices(s: System, step: Step, x: DeviceId)
    ensures var t := Apply(s, step);
            && (Dev(s, x).passThrough == !Dev(s, x).state.Controlling?
                ==> Dev(t, x).passThrough == !Dev(t, x).state.Controlling?)
            && Dev(t, x).hotkey == Dev(s, x).hotkey
            && Dev(t, x).held == (if step.Key? && step.d == x then Capture.HeldAfter(Dev(s, x).held, step.key, step.pressed)
                                  else Dev(s, x).held)
  {
    match step
    case Touch(d, edge, position, layout) => FeedDevices(s, d, LocalCursorAtEdge(edge, position), layout, 0, x);
    case Local(d, input) => FeedDevices(s, d, input.ToEvent(), EMPTY, 0, x);
    case Key(d, key, pressed, modifiers) =>
      var held := Capture.HeldAfter(Dev(s, d).held, key, pressed);
      FeedDevices(WithHeld(s, d, held), d, LocalKeyEvent(key, pressed, modifiers, held), EMPTY, 0, x);
    case Deliver(a, b) => if Chan(s, a, b) != [] { DeliverDevices(s, a, b, x); }
    case Lose(a, b) => DropDevices(s, a, b, x);
    case Connect(_, _) =>
    case Background(_, _, _) =>
  }

  // ----- Pass-through -----

  /** In every state of every run, emergencies and losses included, local input
      reaches local applications exactly on the devices that are not Controlling. */
  lemma {:induction false} PassThroughEverywhere(s: System, steps: seq<Step>, d: DeviceId)
    requires Start(s)
    ensures Dev(Run(s, steps), d).passThrough <==> !Dev(Run(s, steps), d).state.Controlling?
    decreases |steps|
  {
    if steps != [] {
      PassThroughEverywhere(s, steps[..|steps| - 1], d);
      StepDevices(Run(s, steps[..|steps| - 1]), steps[|steps| - 1], d);
    }
  }

  /** The message a local event would be forwarded as. */
  function AsMessage(step: Step): Message
    requires step.Local? || step.Key?
  {
    match step
    case Local(_, Move(x, y)) => MouseMove(x, y, 0)
    case Local(_, Press(b, down)) => MouseButton(b, down)
    case Local(_, Wheel(x, y, h)) => MouseWheel(x, y, h)
    case Key(_, k, p, m) => KeyEvent(k, p, m, 0)
  }

  /** Every local input has one consumer. If the switch lets it through, no channel
      changes; if not, there is one target, whose channel alone grows, by the input
      itself or, when it completes the emergency chord, by a release instead. */
  lemma {:induction false} SingleConsumer(s: System, steps: seq<Step>, step: Step)
    requires Start(s) && (step.Local? || step.Key?)
    ensures var t := Run(s, steps);
            var dev := Dev(t, step.d);
            var after := Apply(t, step);
            if dev.passThrough then after.channels == t.channels
            else
              && dev.state.Controlling?
              && var to := dev.state.target;
              after.channels ==
              if !Linked(t, step.d, to) then t.channels
              else t.channels[(step.d, to) := Chan(t, step.d, to)
                     + [Packet(if ChordFires(t, step) then EdgeRelease else AsMessage(step), dev.session)]]
  {
    PassThroughEverywhere(s, steps, step.d);
    if step.Key? {
      KeyConsumer(Run(s, steps), step);
    } else {
      var dev := Dev(Run(s, steps), step.d);
      ResponseShape(step.d, dev.hotkey, dev.state, step.input.ToEvent(), EMPTY);
      LocalConsumer(Run(s, steps), step.d, step.input.ToEvent(), AsMessage(step));
    }
  }

  lemma LocalConsumer(t: System, d: DeviceId, event: Event, forwarded: Message)
    requires Sends(Transition(d, Dev(t, d).hotkey, Dev(t, d).state, event, EMPTY).actions)
          == if Dev(t, d).state.Controlling? then [(Dev(t, d).state.target, forwarded)] else []
    requires Transition(d, Dev(t, d).hotkey, Dev(t, d).state, event, EMPTY).state.Controlling? ==> !Dev(t, d).state.Idle?
    ensures var dev := Dev(t, d);
            Feed(t, d, event, EMPTY, 0).channels
            == if !dev.state.Controlling? || !Linked(t, d, dev.state.target) then t.channels
            else t.channels[(d, dev.state.target) := Chan(t, d, dev.state.target) + [Packet(forwarded, dev.session)]]
  {
    FeedEffect(t, d, event, EMPTY, 0);
  }

  lemma KeyConsumer(t: System, step: Step)
    requires step.Key?
    ensures var dev := Dev(t, step.d);
            Apply(t, step).channels
            == if !dev.state.Controlling? || !Linked(t, step.d, dev.state.target) then t.channels
            else t.channels[(step.d, dev.state.target) := Chan(t, step.d, dev.state.target)
                   + [Packet(if ChordFires(t, step) then EdgeRelease else AsMessage(step), dev.session)]]
  {
    var held := Capture.HeldAfter(Dev(t, step.d).held, step.key, step.pressed);
    var u := WithHeld(t, step.d, held);
    var event := LocalKeyEvent(step.key, step.pressed, step.modifiers, held);
    ResponseShape(step.d, Dev(u, step.d).hotkey, Dev(u, step.d).state, event, EMPTY);
    LocalConsumer(u, step.d, event, if ChordFires(t, step) then EdgeRelease else AsMessage(step));
  }

  // ----- What is never sent -----

  lemma FeedSends(s: System, d: DeviceId, event: Event, layout: Arrangement, stamp: nat, a: DeviceId, b: DeviceId)
    ensures forall p :: p in Chan(Feed(s, d, event, layout, stamp), a, b) ==> p in Chan(s, a, b) || !p.message.MouseWarp?
  {
    ResponseShape(d, Dev(s, d).hotkey, Dev(s, d).state, event, layout);
    TransitionModest(s, d, event, layout);
    CarryOutView(s, d, Transition(d, Dev(s, d).hotkey, Dev(s, d).state, event, layout), stamp, a, b);
  }

  lemma DropSends(s: System, x: DeviceId, y: DeviceId, a: DeviceId, b: DeviceId)
    ensures forall p :: p in Chan(Drop(s, x, y), a, b) ==> p in Chan(s, a, b) || !p.message.MouseWarp?
  {
    if x != y && Linked(s, x, y) {
      FeedSends(Cut(s, x, y), x, ConnectionLost(y), EMPTY, 0, a, b);
      FeedSends(Feed(Cut(s, x, y), x, ConnectionLost(y), EMPTY, 0), y, ConnectionLost(x), EMPTY, 0, a, b);
    }
  }

  lemma StepSends(s: System, step: Step, a: DeviceId, b: DeviceId)
    ensures forall p :: p in Chan(Apply(s, step), a, b) ==> p in Chan(s, a, b) || !p.message.MouseWarp?
  {
    match step
    case Touch(d, edge, position, layout) => FeedSends(s, d, LocalCursorAtEdge(edge, position), layout, 0, a, b);
    case Local(d, input) => FeedSends(s, d, input.ToEvent(), EMPTY, 0, a, b);
    case Key(d, key, pressed, modifiers) =>
      var held := Capture.HeldAfter(Dev(s, d).held, key, pressed);
      FeedSends(WithHeld(s, d, held), d, LocalKeyEvent(key, pressed, modifiers, held), EMPTY, 0, a, b);
    case Deliver(x, y) => if Chan(s, x, y) != [] { DeliverSends(s, x, y, a, b); }
    case Lose(x, y) => DropSends(s, x, y, a, b);
    case Connect(_, _) =>
    case Background(_, _, _) =>
  }

  lemma DeliverSends(s: System, x: DeviceId, y: DeviceId, a: DeviceId, b: DeviceId)
    requires Chan(s, x, y) != []
    ensures forall p :: p in Chan(Apply(s, Deliver(x, y)), a, b) ==> p in Chan(s, a, b) || !p.message.MouseWarp?
  {
    var t, p := Popped(s, x, y), Chan(s, x, y)[0];
    assert forall q :: q in Chan(t, a, b) ==> q in Chan(s, a, b);
    match Route(x, p.message)
    case Ignore =>
    case Close => DropSends(t, x, y, a, b);
    case Dispatch(event) => FeedSends(t, y, event, EMPTY, p.session, a, b);
  }

  /** No run ever has a MouseWarp on its way. */
  lemma {:induction false} NoWarpIsSent(s: System, steps: seq<Step>, a: DeviceId, b: DeviceId)
    requires Start(s)
    ensures forall p :: p in Chan(Run(s, steps), a, b) ==> !p.message.MouseWarp?
    decreases |steps|
  {
    if steps != [] {
      NoWarpIsSent(s, steps[..|steps| - 1], a, b);
      StepSends(Run(s, steps[..|steps| - 1]), steps[|steps| - 1], a, b);
    }
  }

  // ----- The emergency chord -----

  /** The latest captured event of key `k` on device `d` was a press. */
  function LastPressed(steps: seq<Step>, d: DeviceId, k: LogicalKey): bool
    decreases |steps|
  {
    if steps == [] then false
    else
      var last := steps[|steps| - 1];
      if last.Key? && last.d == d && last.key == k then last.pressed
      else LastPressed(steps[..|steps| - 1], d, k)
  }

  lemma {:induction false} HeldIsHistory(s: System, steps: seq<Step>, d: DeviceId, k: LogicalKey)
    requires Start(s)
    ensures k in Dev(Run(s, steps), d).held <==> LastPressed(steps, d, k)
    ensures Dev(Run(s, steps), d).hotkey == Dev(s, d).hotkey
    decreases |steps|
  {
    if steps != [] {
      HeldIsHistory(s, steps[..|steps| - 1], d, k);
      StepDevices(Run(s, steps[..|steps| - 1]), steps[|steps| - 1], d);
    }
  }

  /** A key event ends the role of its own device if it completes the chord, and
      changes no role otherwise. */
  lemma KeyOutcome(s: System, step: Step, x: DeviceId)
    requires step.Key?
    ensures Dev(Apply(s, step), x).state == if ChordFires(s, step) && x == step.d then Idle else Dev(s, x).state
  {
    var held := Capture.HeldAfter(Dev(s, step.d).held, step.key, step.pressed);
    var t := WithHeld(s, step.d, held);
    var event := LocalKeyEvent(step.key, step.pressed, step.modifiers, held);
    TransitionModest(t, step.d, event, EMPTY);
    CarryOutView(t, step.d, Transition(step.d, Dev(t, step.d).hotkey, Dev(t, step.d).state, event, EMPTY), 0, x, x);
  }

  /** The chord fires exactly on a press after which every one of its keys was
      last pressed. */
  lemma ChordIsHistory(s: System, steps: seq<Step>, step: Step)
    requires Start(s) && step.Key?
    ensures ChordFires(Run(s, steps), step)
       <==> step.pressed && forall k :: k in Dev(s, step.d).hotkey ==> LastPressed(steps + [step], step.d, k)
  {
    var all, before := steps + [step], Run(s, steps);
    assert all[..|all| - 1] == steps;
    forall k ensures k in Capture.HeldAfter(Dev(before, step.d).held, step.key, step.pressed) <==> LastPressed(all, step.d, k) {
      HeldIsHistory(s, steps, step.d, k);
    }
    HeldIsHistory(s, steps, step.d, step.key);
  }

  /** After any interleaving of steps, a key event that is a press and leaves every
      key of the chord last pressed ends in Idle with the switch on; any other key
      event changes no device's role and no switch. */
  lemma {:induction false} EmergencyExact(s: System, steps: seq<Step>, step: Step)
    requires Start(s) && step.Key?
    ensures var before := Run(s, steps);
            var after := Run(s, steps + [step]);
            if step.pressed && forall k :: k in Dev(s, step.d).hotkey ==> LastPressed(steps + [step], step.d, k)
            then Dev(after, step.d).state == Idle && Dev(after, step.d).passThrough
            else forall x :: Dev(after, x).state == Dev(before, x).state
                             && Dev(after, x).passThrough == Dev(before, x).passThrough
  {
    var all, before := steps + [step], Run(s, steps);
    assert all[..|all| - 1] == steps;
    ChordIsHistory(s, steps, step);
    forall x ensures Dev(Run(s, all), x).state == (if ChordFires(before, step) && x == step.d then Idle else Dev(before, x).state)
                     && (Dev(Run(s, all), x).passThrough <==> !Dev(Run(s, all), x).state.Controlling?)
                     && (Dev(before, x).passThrough <==> !Dev(before, x).state.Controlling?)
    {
      KeyOutcome(before, step, x);
      PassThroughEverywhere(s, all, x);
      PassThroughEverywhere(s, steps, x);
    }
  }

  // ----- One device as a service -----

  function Contents(ch: seq<Packet>): seq<Message> {
    if ch == [] then [] else [ch[0].message] + Contents(ch[1..])
  }

  lemma {:induction false} ContentsPush(ch: seq<Packet>, p: Packet)
    ensures Contents(ch + [p]) == Contents(ch) + [p.message]
  {
    if ch == [] {
      assert [p][1..] == [];
    } else {
      assert (ch + [p])[1..] == ch[1..] + [p];
      ContentsPush(ch[1..], p);
    }
  }

  /** The outbound queues of device `d`, as its network sender holds them. */
  function Outbound(s: System, d: DeviceId): map<DeviceId, seq<Message>> {
    map p | p in s.links && p.0 == d :: p.1 := Contents(Chan(s, d, p.1))
  }

  /** Handling an event in the system does to device `d` what `CoreService.Handle`
      promises: the same role, the same switch, the same queues. */
  lemma DeviceIsService(s: System, d: DeviceId, event: Event, layout: Arrangement, stamp: nat)
    ensures var r := Transition(d, Dev(s, d).hotkey, Dev(s, d).state, event, layout);
            var t := Feed(s, d, event, layout, stamp);
            && Dev(t, d).state == r.state
            && Dev(t, d).passThrough == PassThroughAfter(Dev(s, d).passThrough, r.actions)
            && Outbound(t, d) == SendAll(Outbound(s, d), Sends(r.actions))
  {
    var r := Transition(d, Dev(s, d).hotkey, Dev(s, d).state, event, layout);
    TransitionModest(s, d, event, layout);
    CarryOutView(s, d, r, stamp, d, d);
    CarryOutOutbound(s, d, r, stamp);
  }

  lemma CarryOutOutbound(s: System, d: DeviceId, r: Response, stamp: nat)
    requires Modest(Dev(s, d), r)
    ensures Outbound(CarryOut(s, d, r, stamp), d) == SendAll(Outbound(s, d), Sends(r.actions))
  {
    var t := CarryOut(s, d, r, stamp);
    var sends := Sends(r.actions);
    var to, p := if sends == [] then d else sends[0].0,
                 Packet(if sends == [] then EdgeRelease else sends[0].1, Moved(s, Dev(s, d), r, stamp).session);
    forall b ensures Chan(t, d, b) == if sends != [] && b == to && Linked(s, d, b) then Chan(s, d, b) + [p] else Chan(s, d, b)
    {
      CarryOutView(s, d, r, stamp, d, b);
    }
    CarryOutView(s, d, r, stamp, d, d);
    if sends == [] {
      OutboundSame(s, t, d);
    } else {
      OutboundGrows(s, t, d, to, p);
      OneSend(Outbound(s, d), sends);
    }
  }

  lemma OutboundSame(s: System, t: System, d: DeviceId)
    requires t.links == s.links && forall b :: Chan(t, d, b) == Chan(s, d, b)
    ensures Outbound(t, d) == Outbound(s, d)
  {
  }

  lemma OneSend(peers: map<DeviceId, seq<Message>>, sends: seq<(DeviceId, Message)>)
    requires |sends| == 1
    ensures SendAll(peers, sends)
         == if sends[0].0 in peers then peers[sends[0].0 := peers[sends[0].0] + [sends[0].1]] else peers
  {
    assert sends[1..] == [];
  }

  lemma OutboundGrows(s: System, t: System, d: DeviceId, to: DeviceId, p: Packet)
    requires t.links == s.links
    requires forall b :: Chan(t, d, b) == if b == to && Linked(s, d, b) then Chan(s, d, b) + [p] else Chan(s, d, b)
    ensures Outbound(t, d)
         == if to in Outbound(s, d) then Outbound(s, d)[to := Outbound(s, d)[to] + [p.message]] else Outbound(s, d)
  {
    assert to in Outbound(s, d) <==> (d, to) in s.links;
    ContentsPush(Chan(s, d, to), p);
    forall b | b in Outbound(t, d)
      ensures b in Outbound(s, d) && Outbound(t, d)[b] == Contents(Chan(t, d, b)) && Outbound(s, d)[b] == Contents(Chan(s, d, b))
    {
      assert (d, b) in s.links;
    }
    forall b | b in Outbound(s, d) ensures b in Outbound(t, d) {
      assert (d, b) in t.links;
    }
  }
}
