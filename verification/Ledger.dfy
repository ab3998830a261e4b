/** Every hand-off is a token: an EdgeEnter on its way, a device being controlled,
    or a release or rejection on its way back. This module accounts for what each
    step does to the tokens of every ordered pair of devices. */
module Ledger {
  import opened Messages
  import opened Layout
  import opened EdgeMachine
  import opened Network
  import opened Handoff

  function One(b: bool): int {
    if b then 1 else 0
  }

  function Enters(ch: seq<Packet>): int {
    if ch == [] then 0 else One(ch[0].message.EdgeEnter?) + Enters(ch[1..])
  }

  function Returns(ch: seq<Packet>): int {
    if ch == [] then 0 else One(ch[0].message.IsReturn()) + Returns(ch[1..])
  }

  lemma {:induction false} CountsPush(ch: seq<Packet>, p: Packet)
    ensures Enters(ch + [p]) == Enters(ch) + One(p.message.EdgeEnter?)
    ensures Returns(ch + [p]) == Returns(ch) + One(p.message.IsReturn())
  {
    if ch == [] {
      assert [p][1..] == [];
    } else {
      assert (ch + [p])[1..] == ch[1..] + [p];
      CountsPush(ch[1..], p);
    }
  }

  lemma {:induction false} CountsNonNegative(ch: seq<Packet>)
    ensures Enters(ch) >= 0 && Returns(ch) >= 0
  {
    if ch != [] {
      CountsNonNegative(ch[1..]);
    }
  }

  /** The places the hand-off from `a` to `b` can be in. */
  function Tokens(s: System, a: DeviceId, b: DeviceId): int {
    Enters(Chan(s, a, b)) + One(Dev(s, b).state == BeingControlled(a)) + Returns(Chan(s, b, a))
  }

  function Holds(s: System, a: DeviceId, b: DeviceId): int {
    One(Dev(s, a).state == Controlling(b))
  }

  function Imbalance(s: System, a: DeviceId, b: DeviceId): int {
    Tokens(s, a, b) - Holds(s, a, b)
  }

  /** Exactly one token for every device that is Controlling, and no other. */
  ghost predicate Conserved(s: System) {
    forall a, b :: Imbalance(s, a, b) == 0
  }

  /** No device is Controlling without something that can end it. */
  ghost predicate NoStall(s: System) {
    forall a, b :: Holds(s, a, b) <= Tokens(s, a, b)
  }

  /** Links are symmetric and never to oneself; without one, nothing is in flight
      and nobody is being controlled. */
  ghost predicate Wired(s: System) {
    && (forall a, b :: Linked(s, a, b) ==> Linked(s, b, a) && a != b)
    && (forall a, b :: !Linked(s, a, b) ==> Chan(s, a, b) == [] && Dev(s, b).state != BeingControlled(a))
  }

  /** The key event a step feeds completes the emergency chord. */
  predicate ChordFires(s: System, step: Step) {
    step.Key? && step.pressed
    && ChordHeld(Dev(s, step.d).hotkey, Capture.HeldAfter(Dev(s, step.d).held, step.key, step.pressed))
  }

  /** An idle device's cursor crosses to a device with which there is no session. */
  predicate CrossesToNobody(s: System, step: Step) {
    step.Touch? && Dev(s, step.d).state.Idle?
    && var link := Resolve(step.layout, step.d, step.edge, step.position);
    link.Some? && !Linked(s, step.d, link.value.to)
  }

  predicate LosesPair(s: System, step: Step, a: DeviceId, b: DeviceId) {
    match step
    case Lose(x, y) => Linked(s, x, y) && ((a == x && b == y) || (a == y && b == x))
    case Deliver(x, y) =>
      && Chan(s, x, y) != [] && Chan(s, x, y)[0].message.Disconnect?
      && ((a == x && b == y) || (a == y && b == x))
    case _ => false
  }

  /** What a step adds to the imbalance of the pair (a, b). */
  function Delta(s: System, step: Step, a: DeviceId, b: DeviceId): int {
    if LosesPair(s, step, a, b) then -Imbalance(s, a, b)
    else match step
         case Touch(d, edge, position, layout) =>
           -One(CrossesToNobody(s, step) && a == d && b == Resolve(layout, d, edge, position).value.to)
         case Key(d, _, _, _) =>
           if !ChordFires(s, step) then 0
           else (match Dev(s, d).state
                 case Idle => 0
                 case BeingControlled(source) => -One(a == source && b == d)
                 case Controlling(target) =>
                   One(a == d && b == target) + One(a == target && b == d && Linked(s, d, target)))
         case Deliver(x, y) =>
           -One(Chan(s, x, y) != [] && Chan(s, x, y)[0].message.IsReturn()
                && a == y && b == x && Dev(s, y).state != Controlling(x))
         case _ => 0
  }

  // ----- One response, accounted for -----

  lemma CarryOutLedger(s: System, d: DeviceId, r: Response, stamp: nat, a: DeviceId, b: DeviceId)
    requires Modest(Dev(s, d), r)
    ensures var sends := Sends(r.actions);
            var t := CarryOut(s, d, r, stamp);
            Imbalance(t, a, b)
            == Imbalance(s, a, b)
            + (if b == d then One(r.state == BeingControlled(a)) - One(Dev(s, d).state == BeingControlled(a)) else 0)
            - (if a == d then One(r.state == Controlling(b)) - One(Dev(s, d).state == Controlling(b)) else 0)
            + (if sends == [] || !Linked(s, d, sends[0].0) then 0
               else One(sends[0].1.EdgeEnter? && a == d && b == sends[0].0)
                    + One(sends[0].1.IsReturn() && b == d && a == sends[0].0))
  {
    CarryOutView(s, d, r, stamp, a, b);
    CarryOutView(s, d, r, stamp, b, a);
    var sends := Sends(r.actions);
    if sends != [] {
      var p := Packet(sends[0].1, Moved(s, Dev(s, d), r, stamp).session);
      CountsPush(Chan(s, a, b), p);
      CountsPush(Chan(s, b, a), p);
    }
  }

  lemma FeedLedger(s: System, d: DeviceId, event: Event, layout: Arrangement, stamp: nat, a: DeviceId, b: DeviceId)
    ensures var r := Transition(d, Dev(s, d).hotkey, Dev(s, d).state, event, layout);
            var sends := Sends(r.actions);
            Imbalance(Feed(s, d, event, layout, stamp), a, b)
            == Imbalance(s, a, b)
            + (if b == d then One(r.state == BeingControlled(a)) - One(Dev(s, d).state == BeingControlled(a)) else 0)
            - (if a == d then One(r.state == Controlling(b)) - One(Dev(s, d).state == Controlling(b)) else 0)
            + (if sends == [] || !Linked(s, d, sends[0].0) then 0
               else One(sends[0].1.EdgeEnter? && a == d && b == sends[0].0)
                    + One(sends[0].1.IsReturn() && b == d && a == sends[0].0))
  {
    TransitionModest(s, d, event, layout);
    CarryOutLedger(s, d, Transition(d, Dev(s, d).hotkey, Dev(s, d).state, event, layout), stamp, a, b);
  }

  // ----- One step, accounted for -----

  lemma CrossingLedger(s: System, step: Step, a: DeviceId, b: DeviceId)
    requires step.Touch? && Dev(s, step.d).state.Idle?
    ensures Imbalance(Apply(s, step), a, b) == Imbalance(s, a, b) + Delta(s, step, a, b)
  {
    var event := LocalCursorAtEdge(step.edge, step.position);
    FeedLedger(s, step.d, event, step.layout, 0, a, b);
    ResponseShape(step.d, Dev(s, step.d).hotkey, Idle, event, step.layout);
  }

  lemma LettingGoLedger(s: System, step: Step, a: DeviceId, b: DeviceId)
    requires Wired(s) && step.Touch? && !Dev(s, step.d).state.Idle?
    ensures Imbalance(Apply(s, step), a, b) == Imbalance(s, a, b)
  {
    var d := step.d;
    var event := LocalCursorAtEdge(step.edge, step.position);
    FeedLedger(s, d, event, step.layout, 0, a, b);
    ResponseShape(d, Dev(s, d).hotkey, Dev(s, d).state, event, step.layout);
  }

  lemma TouchLedger(s: System, step: Step, a: DeviceId, b: DeviceId)
    requires Wired(s) && step.Touch?
    ensures Imbalance(Apply(s, step), a, b) == Imbalance(s, a, b) + Delta(s, step, a, b)
  {
    if Dev(s, step.d).state.Idle? {
      CrossingLedger(s, step, a, b);
    } else {
      LettingGoLedger(s, step, a, b);
    }
  }

  lemma LocalLedger(s: System, step: Step, a: DeviceId, b: DeviceId)
    requires step.Local?
    ensures Imbalance(Apply(s, step), a, b) == Imbalance(s, a, b)
  {
    var d := step.d;
    FeedLedger(s, d, step.input.ToEvent(), EMPTY, 0, a, b);
    ResponseShape(d, Dev(s, d).hotkey, Dev(s, d).state, step.input.ToEvent(), EMPTY);
  }

  lemma WithHeldLedger(s: System, d: DeviceId, held: set<LogicalKey>, a: DeviceId, b: DeviceId)
    ensures var t := WithHeld(s, d, held);
            && Imbalance(t, a, b) == Imbalance(s, a, b) && t.links == s.links
            && Dev(t, d).state == Dev(s, d).state && Dev(t, d).hotkey == Dev(s, d).hotkey
  {
  }

  /** A key that is passed on, or goes nowhere. */
  lemma PlainKeyLedger(s: System, d: DeviceId, event: Event, a: DeviceId, b: DeviceId)
    requires event.LocalKeyEvent? && !(event.pressed && ChordHeld(Dev(s, d).hotkey, event.held))
    ensures Imbalance(Feed(s, d, event, EMPTY, 0), a, b) == Imbalance(s, a, b)
  {
    FeedLedger(s, d, event, EMPTY, 0, a, b);
    ResponseShape(d, Dev(s, d).hotkey, Dev(s, d).state, event, EMPTY);
  }

  /** The emergency release, role by role. */
  lemma ChordLedger(s: System, d: DeviceId, event: Event, a: DeviceId, b: DeviceId)
    requires event.LocalKeyEvent? && event.pressed && ChordHeld(Dev(s, d).hotkey, event.held)
    ensures Imbalance(Feed(s, d, event, EMPTY, 0), a, b)
         == Imbalance(s, a, b)
            + match Dev(s, d).state
              case Idle => 0
              case BeingControlled(source) => -One(a == source && b == d)
              case Controlling(target) =>
                One(a == d && b == target) + One(a == target && b == d && Linked(s, d, target))
  {
    FeedLedger(s, d, event, EMPTY, 0, a, b);
    ResponseShape(d, Dev(s, d).hotkey, Dev(s, d).state, event, EMPTY);
  }

  lemma KeyLedger(s: System, step: Step, a: DeviceId, b: DeviceId)
    requires step.Key?
    ensures Imbalance(Apply(s, step), a, b) == Imbalance(s, a, b) + Delta(s, step, a, b)
  {
    var held := Capture.HeldAfter(Dev(s, step.d).held, step.key, step.pressed);
    var t := WithHeld(s, step.d, held);
    var event := LocalKeyEvent(step.key, step.pressed, step.modifiers, held);
    WithHeldLedger(s, step.d, held, a, b);
    if ChordFires(s, step) {
      ChordLedger(t, step.d, event, a, b);
    } else {
      PlainKeyLedger(t, step.d, event, a, b);
    }
  }

  /** Reporting a loss ends exactly the role played with the lost device. */
  lemma LossLedger(s: System, d: DeviceId, lost: DeviceId, a: DeviceId, b: DeviceId)
    ensures var t := Feed(s, d, ConnectionLost(lost), EMPTY, 0);
            && Imbalance(t, a, b)
               == Imbalance(s, a, b) - One(b == d && a == lost && Dev(s, d).state == BeingControlled(lost))
                  + One(a == d && b == lost && Dev(s, d).state == Controlling(lost))
            && t.links == s.links
            && (a != d ==> Dev(t, a) == Dev(s, a))
            && Chan(t, a, b) == Chan(s, a, b)
  {
    FeedLedger(s, d, ConnectionLost(lost), EMPTY, 0, a, b);
    ResponseShape(d, Dev(s, d).hotkey, Dev(s, d).state, ConnectionLost(lost), EMPTY);
    TransitionModest(s, d, ConnectionLost(lost), EMPTY);
    CarryOutView(s, d, Transition(d, Dev(s, d).hotkey, Dev(s, d).state, ConnectionLost(lost), EMPTY), 0, a, b);
  }

  lemma CutLedger(s: System, x: DeviceId, y: DeviceId, a: DeviceId, b: DeviceId)
    requires x != y
    ensures Imbalance(Cut(s, x, y), a, b)
         == if (a == x && b == y) || (a == y && b == x)
            then One(Dev(s, b).state == BeingControlled(a)) - One(Dev(s, a).state == Controlling(b))
            else Imbalance(s, a, b)
  {
  }

  /** After a loss the pair is balanced, and no other pair has changed. */
  lemma DropLedger(s: System, x: DeviceId, y: DeviceId, a: DeviceId, b: DeviceId)
    requires x != y && Linked(s, x, y)
    ensures Imbalance(Drop(s, x, y), a, b)
         == if (a == x && b == y) || (a == y && b == x) then 0 else Imbalance(s, a, b)
  {
    var cut := Cut(s, x, y);
    CutLedger(s, x, y, a, b);
    LossLedger(cut, x, y, a, b);
    LossLedger(cut, x, y, y, x);
    LossLedger(Feed(cut, x, ConnectionLost(y), EMPTY, 0), y, x, a, b);
  }

  lemma PopLedger(s: System, x: DeviceId, y: DeviceId, a: DeviceId, b: DeviceId)
    requires Chan(s, x, y) != [] && x != y
    ensures Imbalance(Popped(s, x, y), a, b)
         == Imbalance(s, a, b) - One(Chan(s, x, y)[0].message.EdgeEnter? && a == x && b == y)
            - One(Chan(s, x, y)[0].message.IsReturn() && a == y && b == x)
  {
  }

  lemma ReceiveLedger(s: System, x: DeviceId, y: DeviceId, p: Packet, a: DeviceId, b: DeviceId)
    requires x != y && Linked(s, x, y) && Linked(s, y, x)
    ensures Imbalance(Receive(s, x, y, p), a, b)
         == if p.message.Disconnect? && ((a == x && b == y) || (a == y && b == x)) then 0
            else Imbalance(s, a, b) + One(p.message.EdgeEnter? && a == x && b == y)
                 + One(p.message.IsReturn() && a == y && b == x && Dev(s, y).state == Controlling(x))
  {
    match Route(x, p.message)
    case Ignore =>
    case Close => DropLedger(s, x, y, a, b);
    case Dispatch(event) =>
      DispatchLedger(s, x, y, event, p.session, a, b);
      SameBalance(Feed(s, y, event, EMPTY, p.session), Receive(s, x, y, p), a, b);
  }

  lemma SameBalance(s: System, t: System, a: DeviceId, b: DeviceId)
    requires t.devices == s.devices && t.channels == s.channels
    ensures Imbalance(t, a, b) == Imbalance(s, a, b)
  {
    assert Dev(t, a) == Dev(s, a) && Dev(t, b) == Dev(s, b);
    assert Chan(t, a, b) == Chan(s, a, b) && Chan(t, b, a) == Chan(s, b, a);
  }

  lemma DispatchLedger(s: System, x: DeviceId, y: DeviceId, event: Event, stamp: nat, a: DeviceId, b: DeviceId)
    requires x != y && Linked(s, y, x)
    requires event.PeerEdgeEnter? || event.PeerEdgeRelease? || event.PeerEdgeEnterRejected? || event.PeerInputMessage?
    requires event.from == x
    ensures Imbalance(Feed(s, y, event, EMPTY, stamp), a, b)
         == Imbalance(s, a, b) + One(event.PeerEdgeEnter? && a == x && b == y)
            + One((event.PeerEdgeRelease? || event.PeerEdgeEnterRejected?)
                  && a == y && b == x && Dev(s, y).state == Controlling(x))
  {
    FeedLedger(s, y, event, EMPTY, stamp, a, b);
    ResponseShape(y, Dev(s, y).hotkey, Dev(s, y).state, event, EMPTY);
  }

  lemma DeliverLedger(s: System, step: Step, a: DeviceId, b: DeviceId)
    requires Wired(s) && step.Deliver?
    ensures Imbalance(Apply(s, step), a, b) == Imbalance(s, a, b) + Delta(s, step, a, b)
  {
    var Deliver(x, y) := step;
    if Chan(s, x, y) != [] {
      assert Linked(s, x, y) && Linked(s, y, x) && x != y;
      PopLedger(s, x, y, a, b);
      ReceiveLedger(Popped(s, x, y), x, y, Chan(s, x, y)[0], a, b);
    }
  }

  lemma WireLedger(s: System, step: Step, a: DeviceId, b: DeviceId)
    requires Wired(s) && (step.Connect? || step.Background?)
    ensures Imbalance(Apply(s, step), a, b) == Imbalance(s, a, b)
  {
    if step.Background? {
      CountsPush(Chan(s, step.a, step.b), Packet(step.message, 0));
    }
  }

  /** The exact account of every step, for every pair. */
  lemma StepLedger(s: System, step: Step, a: DeviceId, b: DeviceId)
    requires Wired(s)
    ensures Imbalance(Apply(s, step), a, b) == Imbalance(s, a, b) + Delta(s, step, a, b)
  {
    match step
    case Touch(_, _, _, _) => TouchLedger(s, step, a, b);
    case Local(_, _) => LocalLedger(s, step, a, b);
    case Key(_, _, _, _) => KeyLedger(s, step, a, b);
    case Deliver(_, _) => DeliverLedger(s, step, a, b);
    case Lose(x, y) => if x != y && Linked(s, x, y) { DropLedger(s, x, y, a, b); }
    case Connect(_, _) => WireLedger(s, step, a, b);
    case Background(_, _, _) => WireLedger(s, step, a, b);
  }
}
