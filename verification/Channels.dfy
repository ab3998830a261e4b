/** What every step does to every link and every channel, read off the state before it. */
module Channels {
  import opened Messages
  import opened Layout
  import opened EdgeMachine
  import opened Network
  import opened Handoff
  import opened Ledger
  import opened Conservation
  import opened Switches

  predicate Joins(s: System, step: Step, a: DeviceId, b: DeviceId) {
    step.Connect? && a != b && !Linked(s, a, b) && ((step.a == a && step.b == b) || (step.a == b && step.b == a))
  }

  /** The messages a step adds at the end of the channel from `a` to `b`. */
  function Appended(s: System, step: Step, a: DeviceId, b: DeviceId): seq<Message> {
    var state := Dev(s, a).state;
    match step
    case Touch(d, edge, position, layout) =>
      var link := Resolve(layout, a, edge, position);
      if d != a || link.None? || link.value.to != b then []
      else if state == Idle then [EdgeEnter(link.value.toEdge, position, 1.0)]
      else if state == BeingControlled(b) then [EdgeRelease]
      else []
    case Local(d, _) => if d == a && state == Controlling(b) then [AsMessage(step)] else []
    case Key(d, _, _, _) =>
      if d == a && state == Controlling(b) then [if ChordFires(s, step) then EdgeRelease else AsMessage(step)] else []
    case Deliver(x, y) =>
      if x == b && y == a && Chan(s, b, a) != [] && Chan(s, b, a)[0].message.EdgeEnter? && state != Idle
      then [EdgeEnterRejected] else []
    case Background(x, y, message) =>
      if x == a && y == b && (message.IsBackground() || message.Disconnect?) then [message] else []
    case _ => []
  }

  /** What is left of the channel before that. */
  function Kept(s: System, step: Step, a: DeviceId, b: DeviceId): seq<Packet> {
    if LosesPair(s, step, a, b) then []
    else if step == Deliver(a, b) && Chan(s, a, b) != [] then Chan(s, a, b)[1..]
    else Chan(s, a, b)
  }

  /** `ch` is `kept` followed by `added`, whatever these are stamped with. */
  ghost predicate Extends(ch: seq<Packet>, kept: seq<Packet>, added: seq<Message>) {
    && |ch| == |kept| + |added| && kept <= ch
    && forall i :: 0 <= i < |added| ==> ch[|kept| + i].message == added[i]
  }

  /** One response, seen by one channel. */
  lemma FeedExtends(s: System, d: DeviceId, event: Event, layout: Arrangement, stamp: nat, a: DeviceId, b: DeviceId)
    requires Linked(s, a, b)
    ensures var sends := Sends(Transition(d, Dev(s, d).hotkey, Dev(s, d).state, event, layout).actions);
            var t := Feed(s, d, event, layout, stamp);
            && t.links == s.links
            && Extends(Chan(t, a, b), Chan(s, a, b),
                       if d == a && sends != [] && sends[0].0 == b then [sends[0].1] else [])
  {
    TransitionModest(s, d, event, layout);
    CarryOutView(s, d, Transition(d, Dev(s, d).hotkey, Dev(s, d).state, event, layout), stamp, a, b);
  }

  lemma TouchExtends(s: System, step: Step, a: DeviceId, b: DeviceId)
    requires step.Touch? && Linked(s, a, b)
    ensures Extends(Chan(Apply(s, step), a, b), Chan(s, a, b), Appended(s, step, a, b))
  {
    var d, event := step.d, LocalCursorAtEdge(step.edge, step.position);
    FeedExtends(s, d, event, step.layout, 0, a, b);
    ResponseShape(d, Dev(s, d).hotkey, Dev(s, d).state, event, step.layout);
  }

  lemma InputExtends(s: System, step: Step, a: DeviceId, b: DeviceId)
    requires step.Local? && Linked(s, a, b)
    ensures Extends(Chan(Apply(s, step), a, b), Chan(s, a, b), Appended(s, step, a, b))
  {
    FeedExtends(s, step.d, step.input.ToEvent(), EMPTY, 0, a, b);
    ResponseShape(step.d, Dev(s, step.d).hotkey, Dev(s, step.d).state, step.input.ToEvent(), EMPTY);
  }

  lemma KeyExtends(s: System, step: Step, a: DeviceId, b: DeviceId)
    requires step.Key? && Linked(s, a, b)
    ensures Extends(Chan(Apply(s, step), a, b), Chan(s, a, b), Appended(s, step, a, b))
  {
    var d, held := step.d, Capture.HeldAfter(Dev(s, step.d).held, step.key, step.pressed);
    var t, event := WithHeld(s, d, held), LocalKeyEvent(step.key, step.pressed, step.modifiers, held);
    FeedExtends(t, d, event, EMPTY, 0, a, b);
    ResponseShape(d, Dev(t, d).hotkey, Dev(t, d).state, event, EMPTY);
  }

  lemma LossExtends(s: System, x: DeviceId, y: DeviceId, a: DeviceId, b: DeviceId)
    ensures var t := Drop(s, x, y);
            var cut := x != y && Linked(s, x, y) && ((a == x && b == y) || (a == y && b == x));
            && (Linked(t, a, b) <==> Linked(s, a, b) && !cut)
            && Chan(t, a, b) == if cut then [] else Chan(s, a, b)
  {
    if x != y && Linked(s, x, y) {
      LossView(Cut(s, x, y), x, y, a, b);
      LossView(Feed(Cut(s, x, y), x, ConnectionLost(y), EMPTY, 0), y, x, a, b);
    }
  }

  lemma DeliveryExtends(s: System, x: DeviceId, y: DeviceId, a: DeviceId, b: DeviceId)
    requires Wired(s) && Chan(s, x, y) != [] && Linked(s, a, b) && !LosesPair(s, Deliver(x, y), a, b)
    ensures var t := Apply(s, Deliver(x, y));
            Linked(t, a, b) && Extends(Chan(t, a, b), Kept(s, Deliver(x, y), a, b), Appended(s, Deliver(x, y), a, b))
  {
    var t, p := Popped(s, x, y), Chan(s, x, y)[0];
    assert Linked(s, x, y) && x != y;
    match Route(x, p.message)
    case Ignore =>
    case Close => LossExtends(t, x, y, a, b);
    case Dispatch(event) =>
      FeedExtends(t, y, event, EMPTY, p.session, a, b);
      ReplyOf(x, y, Dev(t, y).hotkey, Dev(t, y).state, p.message);
  }

  /** A message is answered only if it is an EdgeEnter and the device is busy. */
  lemma ReplyOf(from: DeviceId, me: DeviceId, hotkey: seq<LogicalKey>, state: LocalState, message: Message)
    requires Route(from, message).Dispatch?
    ensures Sends(Transition(me, hotkey, state, Route(from, message).event, EMPTY).actions)
         == if message.EdgeEnter? && state != Idle then [(from, EdgeEnterRejected)] else []
  {
    ResponseShape(me, hotkey, state, Route(from, message).event, EMPTY);
  }

  /** Links come and go by set-up and loss alone. */
  lemma LinksExactly(s: System, step: Step, a: DeviceId, b: DeviceId)
    requires Wired(s)
    ensures Linked(Apply(s, step), a, b)
       <==> (Linked(s, a, b) && !LosesPair(s, step, a, b)) || Joins(s, step, a, b)
  {
    match step
    case Deliver(x, y) => if Chan(s, x, y) != [] { DeliveryLinks(s, x, y, a, b); }
    case Lose(x, y) => LossExtends(s, x, y, a, b);
    case Touch(d, edge, position, layout) => FeedLinks(s, d, LocalCursorAtEdge(edge, position), layout, 0);
    case Local(d, input) => FeedLinks(s, d, input.ToEvent(), EMPTY, 0);
    case Key(d, key, pressed, modifiers) =>
      var held := Capture.HeldAfter(Dev(s, d).held, key, pressed);
      FeedLinks(WithHeld(s, d, held), d, LocalKeyEvent(key, pressed, modifiers, held), EMPTY, 0);
    case Connect(x, y) => assert Linked(s, x, y) <==> Linked(s, y, x);
    case Background(_, _, _) =>
  }

  lemma FeedLinks(s: System, d: DeviceId, event: Event, layout: Arrangement, stamp: nat)
    ensures Feed(s, d, event, layout, stamp).links == s.links
  {
    TransitionModest(s, d, event, layout);
    CarryOutView(s, d, Transition(d, Dev(s, d).hotkey, Dev(s, d).state, event, layout), stamp, d, d);
  }

  lemma DeliveryLinks(s: System, x: DeviceId, y: DeviceId, a: DeviceId, b: DeviceId)
    requires Wired(s) && Chan(s, x, y) != []
    ensures Linked(Apply(s, Deliver(x, y)), a, b) <==> Linked(s, a, b) && !LosesPair(s, Deliver(x, y), a, b)
  {
    var t, p := Popped(s, x, y), Chan(s, x, y)[0];
    assert Linked(s, x, y) && x != y;
    match Route(x, p.message)
    case Ignore =>
    case Close => LossExtends(t, x, y, a, b);
    case Dispatch(event) => FeedLinks(t, y, event, EMPTY, p.session);
  }

  /** Every channel of a link that stays keeps what it held, but for the head that is
      delivered, and gains exactly these messages at its end; one that is new is empty. */
  lemma ChannelsExactly(s: System, step: Step, a: DeviceId, b: DeviceId)
    requires Wired(s)
    ensures var t := Apply(s, step);
            if !Linked(t, a, b) || Joins(s, step, a, b) then Chan(t, a, b) == []
            else Extends(Chan(t, a, b), Kept(s, step, a, b), Appended(s, step, a, b))
  {
    LinksExactly(s, step, a, b);
    StepWired(s, step);
    if Linked(s, a, b) && !LosesPair(s, step, a, b) { StandingChannel(s, step, a, b); }
  }

  lemma StandingChannel(s: System, step: Step, a: DeviceId, b: DeviceId)
    requires Wired(s) && Linked(s, a, b) && !LosesPair(s, step, a, b)
    ensures Extends(Chan(Apply(s, step), a, b), Kept(s, step, a, b), Appended(s, step, a, b))
  {
    match step
    case Touch(_, _, _, _) => TouchExtends(s, step, a, b);
    case Local(_, _) => InputExtends(s, step, a, b);
    case Key(_, _, _, _) => KeyExtends(s, step, a, b);
    case Deliver(x, y) => if Chan(s, x, y) != [] { DeliveryExtends(s, x, y, a, b); }
    case Lose(x, y) => LossExtends(s, x, y, a, b);
    case Connect(_, _) =>
    case Background(_, _, _) =>
  }
}
