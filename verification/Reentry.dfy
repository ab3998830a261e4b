/** When inputs of one session end up in another: only after a device has been asked
    to enter again by the very peer that controls it. */
module Reentry {
  import opened Messages
  import opened Layout
  import opened EdgeMachine
  import opened Network
  import opened Handoff
  import opened Ledger
  import opened Conservation
  import opened Sessions

  /** The session whose inputs come next at the head of the channel, if known. */
  function Opened(p: Packet, current: Option<nat>): Option<nat> {
    if p.message.EdgeEnter? then Some(p.session) else current
  }

  /** The session a channel ends in, if it starts in `current`. */
  function Last(ch: seq<Packet>, current: Option<nat>): Option<nat>
    decreases ch
  {
    if ch == [] then current else Last(ch[1..], Opened(ch[0], current))
  }

  /** Every input belongs to the session opened by the latest EdgeEnter before it. */
  predicate Framed(ch: seq<Packet>, current: Option<nat>)
    decreases ch
  {
    ch == [] ||
    ((ch[0].message.IsInput() && current.Some? ==> ch[0].session == current.value)
     && Framed(ch[1..], Opened(ch[0], current)))
  }

  lemma {:induction false} FramedPush(ch: seq<Packet>, p: Packet, current: Option<nat>)
    ensures Last(ch + [p], current) == Opened(p, Last(ch, current))
    ensures Framed(ch + [p], current)
       <==> Framed(ch, current)
            && (p.message.IsInput() && Last(ch, current).Some? ==> p.session == Last(ch, current).value)
    decreases ch
  {
    if ch == [] {
      assert [p][1..] == [];
    } else {
      assert (ch + [p])[1..] == ch[1..] + [p];
      FramedPush(ch[1..], p, Opened(ch[0], current));
    }
  }

  /** The latest EdgeEnter that reached the far end of a channel: its session, and
      whether it found that device already controlled by its sender. */
  datatype Mark = Mark(session: nat, again: bool)

  type Heads = map<(DeviceId, DeviceId), Mark>

  function Known(heads: Heads, a: DeviceId, b: DeviceId): Option<nat> {
    if (a, b) in heads then Some(heads[(a, b)].session) else None
  }

  /** An EdgeEnter is delivered. */
  predicate Arrives(s: System, step: Step) {
    step.Deliver? && Chan(s, step.a, step.b) != [] && Chan(s, step.a, step.b)[0].message.EdgeEnter?
  }

  /** An EdgeEnter is delivered to a device its sender already controls. */
  predicate Reenters(s: System, step: Step) {
    Arrives(s, step) && Dev(s, step.b).state == BeingControlled(step.a)
  }

  function Advance(heads: Heads, s: System, step: Step): Heads {
    if Arrives(s, step)
    then heads[(step.a, step.b) := Mark(Chan(s, step.a, step.b)[0].session, Reenters(s, step))]
    else if (step.Lose? || step.Deliver?) && LosesPair(s, step, step.a, step.b)
      then heads - {(step.a, step.b), (step.b, step.a)}
      else heads
  }

  /** What is in the channel from `a` to `b` continues the session that was opened
      last; a controlled `b` is in that session exactly if it was not asked again. */
  ghost predicate Tagged(s: System, heads: Heads, a: DeviceId, b: DeviceId) {
    var ch, known := Chan(s, a, b), Known(heads, a, b);
    && Framed(ch, known)
    && (Dev(s, a).state == Controlling(b) && Last(ch, known).Some? ==> Last(ch, known).value == Dev(s, a).session)
    && (Dev(s, b).state == BeingControlled(a) ==>
          (a, b) in heads && (heads[(a, b)].session == Dev(s, b).session <==> !heads[(a, b)].again))
    && (!Linked(s, a, b) ==> (a, b) !in heads)
  }

  ghost predicate InStep(s: System, heads: Heads) {
    forall a, b :: Tagged(s, heads, a, b)
  }

  // ----- What keeps devices in step -----

  /** Roles may end and channels stay. */
  lemma FewerRolesInStep(s: System, t: System, heads: Heads)
    requires InStep(s, heads) && s.links <= t.links
    requires forall x :: Dev(t, x).state.Idle? || (Dev(t, x).state == Dev(s, x).state && Dev(t, x).session == Dev(s, x).session)
    requires forall x, y :: Chan(t, x, y) == Chan(s, x, y)
    ensures InStep(t, heads)
  {
    forall a, b ensures Tagged(t, heads, a, b) {
      assert Tagged(s, heads, a, b);
    }
  }

  lemma PopInStep(s: System, heads: Heads, x: DeviceId, y: DeviceId)
    requires InStep(s, heads) && Chan(s, x, y) != [] && !Chan(s, x, y)[0].message.EdgeEnter?
    ensures InStep(Popped(s, x, y), heads)
  {
    forall a, b ensures Tagged(Popped(s, x, y), heads, a, b) {
      assert Tagged(s, heads, a, b);
    }
  }

  /** One packet of the right session more. */
  lemma PushInStep(s: System, t: System, heads: Heads, x: DeviceId, y: DeviceId, p: Packet)
    requires InStep(s, heads) && !p.message.EdgeEnter? && t.links == s.links
    requires p.message.IsInput() ==> Dev(s, x).state == Controlling(y) && p.session == Dev(s, x).session
    requires forall z :: Dev(t, z) == Dev(s, z)
    requires forall a, b :: Chan(t, a, b) == Chan(s, a, b) || (a == x && b == y && Chan(t, a, b) == Chan(s, a, b) + [p])
    ensures InStep(t, heads)
  {
    forall a, b ensures Tagged(t, heads, a, b) {
      assert Tagged(s, heads, a, b);
      FramedPush(Chan(s, a, b), p, Known(heads, a, b));
    }
  }

  lemma CrossInStep(s: System, t: System, heads: Heads, d: DeviceId, to: DeviceId, k: nat, p: Packet)
    requires Wired(s) && InStep(s, heads) && Dev(s, d).state.Idle? && t.links == s.links
    requires p.message.EdgeEnter? && p.session == k
    requires Dev(t, d).state == Controlling(to) && Dev(t, d).session == k
    requires forall x :: x != d ==> Dev(t, x) == Dev(s, x)
    requires forall a, b :: Chan(t, a, b)
                            == if a == d && b == to && Linked(s, d, to) then Chan(s, a, b) + [p] else Chan(s, a, b)
    ensures InStep(t, heads)
  {
    forall a, b ensures Tagged(t, heads, a, b) {
      assert Tagged(s, heads, a, b);
      FramedPush(Chan(s, a, b), p, Known(heads, a, b));
    }
  }

  /** A device asked again is asked under a number that is not the one it is in. */
  lemma AskedAnew(s: System, x: DeviceId, y: DeviceId)
    requires Sound(s) && Chan(s, x, y) != [] && Chan(s, x, y)[0].message.EdgeEnter?
    requires Dev(s, y).state == BeingControlled(x)
    ensures Chan(s, x, y)[0].session != Dev(s, y).session
  {
    var reg :| Registered(s, reg);
    assert PairOk(s, reg, x, y) && EnterOk(s, x, y, Chan(s, x, y)[0].session);
  }

  lemma EnterInStep(s: System, t: System, heads: Heads, x: DeviceId, y: DeviceId)
    requires Wired(s) && InStep(s, heads) && Chan(s, x, y) != [] && Chan(s, x, y)[0].message.EdgeEnter?
    requires Dev(s, y).state == BeingControlled(x) ==> Chan(s, x, y)[0].session != Dev(s, y).session
    requires Dev(s, y).state.Idle? ==> Dev(t, y).state == BeingControlled(x) && Dev(t, y).session == Chan(s, x, y)[0].session
    requires !Dev(s, y).state.Idle? ==> Dev(t, y) == Dev(s, y)
    requires forall z :: z != y ==> Dev(t, z) == Dev(s, z)
    requires forall a, b :: Chan(t, a, b) == Chan(Popped(s, x, y), a, b)
    requires t.links == s.links
    ensures InStep(t, Advance(heads, s, Deliver(x, y)))
  {
    var next := Advance(heads, s, Deliver(x, y));
    assert Linked(s, x, y);
    forall a, b ensures Tagged(t, next, a, b) {
      assert Tagged(s, heads, a, b);
      assert a != x || b != y ==> Known(next, a, b) == Known(heads, a, b);
    }
  }

  // ----- Every step -----

  lemma TouchInStep(s: System, heads: Heads, step: Step)
    requires Wired(s) && InStep(s, heads) && step.Touch?
    ensures InStep(Apply(s, step), heads)
  {
    var d := step.d;
    var dev := Dev(s, d);
    var event := LocalCursorAtEdge(step.edge, step.position);
    var r := Transition(d, dev.hotkey, dev.state, event, step.layout);
    FeedEffect(s, d, event, step.layout, 0);
    ResponseShape(d, dev.hotkey, dev.state, event, step.layout);
    if dev.state.Idle? && r.state != dev.state {
      CrossingInStep(s, heads, step, r);
    } else {
      var t := Became(s, d, r, 0);
      FewerRolesInStep(s, t, heads);
      if r.state != dev.state {
        PushInStep(t, Apply(s, step), heads, d, dev.state.source, Packet(EdgeRelease, dev.session));
      }
    }
  }

  lemma CrossingInStep(s: System, heads: Heads, step: Step, r: Response)
    requires Wired(s) && InStep(s, heads) && step.Touch?
    requires var d := step.d;
             && r == Transition(d, Dev(s, d).hotkey, Dev(s, d).state, LocalCursorAtEdge(step.edge, step.position), step.layout)
             && Dev(s, d).state.Idle? && r.state.Controlling?
    ensures InStep(Apply(s, step), heads)
  {
    var d, to := step.d, r.state.target;
    var event := LocalCursorAtEdge(step.edge, step.position);
    ResponseShape(d, Dev(s, d).hotkey, Idle, event, step.layout);
    TransitionModest(s, d, event, step.layout);
    var p := Packet(Sends(r.actions)[0].1, s.nextSession);
    forall a, b
      ensures Chan(Apply(s, step), a, b) == if a == d && b == to && Linked(s, d, to) then Chan(s, a, b) + [p] else Chan(s, a, b)
    {
      CarryOutView(s, d, r, 0, a, b);
    }
    forall x ensures Dev(Apply(s, step), x) == if x == d then Moved(s, Dev(s, d), r, 0) else Dev(s, x) {
      CarryOutView(s, d, r, 0, x, x);
    }
    CarryOutView(s, d, r, 0, d, d);
    CrossInStep(s, Apply(s, step), heads, d, to, s.nextSession, p);
  }

  lemma LocalEventInStep(s: System, heads: Heads, d: DeviceId, event: Event)
    requires InStep(s, heads)
    requires event.LocalMouseMove? || event.LocalMouseButton? || event.LocalMouseWheel? || event.LocalKeyEvent?
    ensures InStep(Feed(s, d, event, EMPTY, 0), heads)
  {
    var dev := Dev(s, d);
    var r := Transition(d, dev.hotkey, dev.state, event, EMPTY);
    FeedEffect(s, d, event, EMPTY, 0);
    LocalShape(d, dev.hotkey, dev.state, event, EMPTY);
    var t := Became(s, d, r, 0);
    FewerRolesInStep(s, t, heads);
    if dev.state.Controlling? {
      PushInStep(t, Feed(s, d, event, EMPTY, 0), heads, d, dev.state.target, Packet(Sends(r.actions)[0].1, dev.session));
    }
  }

  /** Both ends have lost each other, and with that the latest EdgeEnter is forgotten. */
  lemma SeveredInStep(s: System, t: System, heads: Heads, x: DeviceId, y: DeviceId)
    requires InStep(s, heads)
    requires forall z :: Dev(t, z).state.Idle? || (Dev(t, z).state == Dev(s, z).state && Dev(t, z).session == Dev(s, z).session)
    requires Dev(t, y).state != BeingControlled(x) && Dev(t, x).state != BeingControlled(y)
    requires forall a, b :: Chan(t, a, b) == if (a == x && b == y) || (a == y && b == x) then [] else Chan(s, a, b)
    requires t.links == s.links - {(x, y), (y, x)}
    ensures InStep(t, heads - {(x, y), (y, x)})
  {
    forall a, b ensures Tagged(t, heads - {(x, y), (y, x)}, a, b) {
      assert Tagged(s, heads, a, b);
    }
  }

  lemma DropInStep(s: System, heads: Heads, x: DeviceId, y: DeviceId)
    requires InStep(s, heads) && x != y && Linked(s, x, y)
    ensures InStep(Drop(s, x, y), heads - {(x, y), (y, x)})
  {
    var cut := Cut(s, x, y);
    LossEffect(cut, x, y);
    LossEffect(Feed(cut, x, ConnectionLost(y), EMPTY, 0), y, x);
    SeveredInStep(s, Drop(s, x, y), heads, x, y);
  }

  lemma DispatchInStep(s: System, heads: Heads, x: DeviceId, y: DeviceId, event: Event, stamp: nat)
    requires InStep(s, heads)
    requires event.PeerEdgeRelease? || event.PeerEdgeEnterRejected? || event.PeerInputMessage?
    requires event.from == x
    ensures InStep(Feed(s, y, event, EMPTY, stamp), heads)
  {
    FeedEffect(s, y, event, EMPTY, stamp);
    ResponseShape(y, Dev(s, y).hotkey, Dev(s, y).state, event, EMPTY);
    FewerRolesInStep(s, Feed(s, y, event, EMPTY, stamp), heads);
  }

  lemma DeliverInStep(s: System, heads: Heads, step: Step)
    requires Wired(s) && Sound(s) && InStep(s, heads) && step.Deliver? && Chan(s, step.a, step.b) != []
    ensures InStep(Apply(s, step), Advance(heads, s, step))
  {
    var Deliver(x, y) := step;
    var t, p := Popped(s, x, y), Chan(s, x, y)[0];
    assert Linked(s, x, y) && x != y;
    match Route(x, p.message)
    case Ignore => PopInStep(s, heads, x, y);
    case Close =>
      PopInStep(s, heads, x, y);
      DropInStep(t, heads, x, y);
    case Dispatch(event) =>
      if event.PeerEdgeEnter? {
        EnterDelivered(s, heads, x, y);
      } else {
        PopInStep(s, heads, x, y);
        DispatchInStep(t, heads, x, y, event, p.session);
      }
  }

  lemma EnterDelivered(s: System, heads: Heads, x: DeviceId, y: DeviceId)
    requires Wired(s) && Sound(s) && InStep(s, heads)
    requires Chan(s, x, y) != [] && Chan(s, x, y)[0].message.EdgeEnter?
    ensures InStep(Apply(s, Deliver(x, y)), Advance(heads, s, Deliver(x, y)))
  {
    EnterView(s, x, y);
    if Dev(s, y).state == BeingControlled(x) { AskedAnew(s, x, y); }
    if !Dev(s, y).state.Idle? { RefusalLeavesAlone(s, x, y); }
    var u := Apply(s, Deliver(x, y));
    var v := u.(channels := Popped(s, x, y).channels);
    EnterInStep(s, v, heads, x, y);
    PushInStep(v, u, Advance(heads, s, Deliver(x, y)), y, x, Packet(EdgeEnterRejected, Dev(s, y).session));
  }

  lemma EnterView(s: System, x: DeviceId, y: DeviceId)
    requires Chan(s, x, y) != [] && Chan(s, x, y)[0].message.EdgeEnter?
    ensures var t, u := Popped(s, x, y), Apply(s, Deliver(x, y));
            && u.links == s.links
            && (forall z :: z != y ==> Dev(u, z) == Dev(s, z))
            && (Dev(s, y).state.Idle? ==> Dev(u, y).state == BeingControlled(x) && Dev(u, y).session == Chan(s, x, y)[0].session)
            && forall a, b :: Chan(u, a, b) == Chan(t, a, b)
                              || (a == y && b == x && Chan(u, a, b) == Chan(t, a, b) + [Packet(EdgeEnterRejected, Dev(s, y).session)])
  {
    var t, p := Popped(s, x, y), Chan(s, x, y)[0];
    var event := Route(x, p.message).event;
    FeedEffect(t, y, event, EMPTY, p.session);
    ResponseShape(y, Dev(t, y).hotkey, Dev(t, y).state, event, EMPTY);
  }

  /** A refusing device is left as it was. */
  lemma RefusalLeavesAlone(s: System, x: DeviceId, y: DeviceId)
    requires Chan(s, x, y) != [] && Chan(s, x, y)[0].message.EdgeEnter? && !Dev(s, y).state.Idle?
    ensures Dev(Apply(s, Deliver(x, y)), y) == Dev(s, y)
  {
    var t, p := Popped(s, x, y), Chan(s, x, y)[0];
    var event := Route(x, p.message).event;
    FeedEffect(t, y, event, EMPTY, p.session);
    SwitchKept(y, Dev(t, y).hotkey, Dev(t, y).state, event, EMPTY, Dev(t, y).passThrough);
  }

  /** Every step keeps devices in step, emergencies, losses and re-entries included. */
  lemma StepInStep(s: System, heads: Heads, step: Step)
    requires Wired(s) && Sound(s) && InStep(s, heads)
    ensures InStep(Apply(s, step), Advance(heads, s, step))
  {
    match step
    case Deliver(a, b) => if Chan(s, a, b) != [] { DeliverInStep(s, heads, step); }
    case Lose(a, b) => if a != b && Linked(s, a, b) { DropInStep(s, heads, a, b); }
    case _ => OtherInStep(s, heads, step);
  }

  lemma OtherInStep(s: System, heads: Heads, step: Step)
    requires Wired(s) && InStep(s, heads) && !step.Deliver? && !step.Lose?
    ensures InStep(Apply(s, step), heads)
  {
    match step
    case Touch(_, _, _, _) => TouchInStep(s, heads, step);
    case Local(d, input) => LocalEventInStep(s, heads, d, input.ToEvent());
    case Key(_, _, _, _) => KeyInStep(s, heads, step);
    case Connect(a, b) => ConnectInStep(s, heads, a, b);
    case Background(a, b, message) =>
      if message.IsBackground() || message.Disconnect? {
        PushInStep(s, Apply(s, step), heads, a, b, Packet(message, 0));
      }
  }

  lemma KeyInStep(s: System, heads: Heads, step: Step)
    requires InStep(s, heads) && step.Key?
    ensures InStep(Apply(s, step), heads)
  {
    var held := Capture.HeldAfter(Dev(s, step.d).held, step.key, step.pressed);
    var t := WithHeld(s, step.d, held);
    FewerRolesInStep(s, t, heads);
    LocalEventInStep(t, heads, step.d, LocalKeyEvent(step.key, step.pressed, step.modifiers, held));
  }

  lemma ConnectInStep(s: System, heads: Heads, a: DeviceId, b: DeviceId)
    requires Wired(s) && InStep(s, heads)
    ensures InStep(Apply(s, Connect(a, b)), heads)
  {
    if a != b && !Linked(s, a, b) {
      assert !Linked(s, b, a);
      FewerRolesInStep(s, Apply(s, Connect(a, b)), heads);
    }
  }

  // ----- What is injected belongs to the session -----

  ghost predicate Homogeneous(s: System, k: nat) {
    forall e :: e in Injected(s, k) ==> e.packet.session == k
  }

  ghost predicate Unmixed(s: System) {
    forall k :: Homogeneous(s, k)
  }

  /** The next delivery injects something stamped with another session. */
  predicate Strays(s: System, step: Step) {
    && step.Deliver? && Chan(s, step.a, step.b) != [] && Chan(s, step.a, step.b)[0].message.IsInput()
    && Dev(s, step.b).state == BeingControlled(step.a)
    && Chan(s, step.a, step.b)[0].session != Dev(s, step.b).session
  }

  /** A step adds at most one entry to the log of what was injected. */
  lemma InjectionView(s: System, d: DeviceId, event: Event, layout: Arrangement, stamp: nat, k: nat)
    ensures Injected(Feed(s, d, event, layout, stamp), k)
         == Injected(s, k)
            + if event.PeerInputMessage? && Dev(s, d).state == BeingControlled(event.from) && Dev(s, d).session == k
            then [Entry(event.from, d, Packet(event.message, stamp))] else []
  {
    FeedEffect(s, d, event, layout, stamp);
    ResponseShape(d, Dev(s, d).hotkey, Dev(s, d).state, event, layout);
  }

  lemma DropInjects(s: System, x: DeviceId, y: DeviceId, k: nat)
    ensures Injected(Drop(s, x, y), k) == Injected(s, k)
  {
    if x != y && Linked(s, x, y) {
      var cut := Cut(s, x, y);
      InjectionView(cut, x, ConnectionLost(y), EMPTY, 0, k);
      InjectionView(Feed(cut, x, ConnectionLost(y), EMPTY, 0), y, ConnectionLost(x), EMPTY, 0, k);
    }
  }

  lemma StepInjects(s: System, step: Step, k: nat)
    ensures var delivers := step.Deliver? && Chan(s, step.a, step.b) != [];
            Injected(Apply(s, step), k)
            == Injected(s, k)
            + if delivers && Chan(s, step.a, step.b)[0].message.IsInput()
                 && Dev(s, step.b).state == BeingControlled(step.a) && Dev(s, step.b).session == k
            then [Entry(step.a, step.b, Chan(s, step.a, step.b)[0])] else []
  {
    match step
    case Touch(d, edge, position, layout) => InjectionView(s, d, LocalCursorAtEdge(edge, position), layout, 0, k);
    case Local(d, input) => InjectionView(s, d, input.ToEvent(), EMPTY, 0, k);
    case Key(d, key, pressed, modifiers) =>
      var held := Capture.HeldAfter(Dev(s, d).held, key, pressed);
      InjectionView(WithHeld(s, d, held), d, LocalKeyEvent(key, pressed, modifiers, held), EMPTY, 0, k);
    case Deliver(a, b) => if Chan(s, a, b) != [] { DeliverInjects(s, a, b, k); }
    case Lose(a, b) => DropInjects(s, a, b, k);
    case Connect(_, _) =>
    case Background(_, _, _) =>
  }

  lemma DeliverInjects(s: System, a: DeviceId, b: DeviceId, k: nat)
    requires Chan(s, a, b) != []
    ensures Injected(Apply(s, Deliver(a, b)), k)
         == Injected(s, k)
            + if Chan(s, a, b)[0].message.IsInput() && Dev(s, b).state == BeingControlled(a) && Dev(s, b).session == k
            then [Entry(a, b, Chan(s, a, b)[0])] else []
  {
    var t, p := Popped(s, a, b), Chan(s, a, b)[0];
    match Route(a, p.message)
    case Ignore =>
    case Close => DropInjects(t, a, b, k);
    case Dispatch(event) => InjectionView(t, b, event, EMPTY, p.session, k);
  }

  /** Homogeneous logs stay so exactly under steps that do not stray. */
  lemma HomogeneousStep(s: System, step: Step)
    requires Unmixed(s)
    ensures Unmixed(Apply(s, step)) <==> !Strays(s, step)
  {
    var t := Apply(s, step);
    if Strays(s, step) {
      var k, e := Dev(s, step.b).session, Entry(step.a, step.b, Chan(s, step.a, step.b)[0]);
      StepInjects(s, step, k);
      assert e in Injected(t, k) && e.packet.session != k;
      assert !Homogeneous(t, k);
    } else {
      forall k ensures Homogeneous(t, k) {
        assert Homogeneous(s, k);
        StepInjects(s, step, k);
      }
    }
  }

  lemma StrayRemains(s: System, step: Step, k: nat)
    requires !Homogeneous(s, k)
    ensures !Homogeneous(Apply(s, step), k)
  {
    StepInjects(s, step, k);
    var e :| e in Injected(s, k) && e.packet.session != k;
    assert e in Injected(Apply(s, step), k);
  }

  ghost predicate NoReentry(s: System, steps: seq<Step>)
    decreases |steps|
  {
    steps != [] ==>
      && NoReentry(s, steps[..|steps| - 1])
      && !Reenters(Run(s, steps[..|steps| - 1]), steps[|steps| - 1])
  }

  ghost predicate NoStray(s: System, steps: seq<Step>)
    decreases |steps|
  {
    steps != [] ==>
      && NoStray(s, steps[..|steps| - 1])
      && !Strays(Run(s, steps[..|steps| - 1]), steps[|steps| - 1])
  }

  ghost predicate AlwaysPrefix(s: System, steps: seq<Step>)
    decreases |steps|
  {
    && (forall k :: Injected(Run(s, steps), k) <= Sent(Run(s, steps), k))
    && (steps != [] ==> AlwaysPrefix(s, steps[..|steps| - 1]))
  }

  lemma {:induction false} NoStrayHomogeneous(s: System, steps: seq<Step>)
    requires Start(s)
    ensures NoStray(s, steps) <==> Unmixed(Run(s, steps))
    decreases |steps|
  {
    if steps == [] {
      forall k ensures Homogeneous(s, k) {
        assert Injected(s, k) == [];
      }
    } else {
      var before, last := Run(s, steps[..|steps| - 1]), steps[|steps| - 1];
      NoStrayHomogeneous(s, steps[..|steps| - 1]);
      assert Run(s, steps) == Apply(before, last);
      assert NoStray(s, steps) <==> NoStray(s, steps[..|steps| - 1]) && !Strays(before, last);
      if Unmixed(before) {
        HomogeneousStep(before, last);
      } else {
        var k :| !Homogeneous(before, k);
        StrayRemains(before, last, k);
      }
    }
  }

  /** At every point of a run all that was injected is, session by session, a prefix
      of what was forwarded exactly if no delivery of the run strays. */
  lemma {:induction false} PrefixExactly(s: System, steps: seq<Step>)
    requires Start(s)
    ensures AlwaysPrefix(s, steps) <==> NoStray(s, steps)
    decreases |steps|
  {
    NoStrayHomogeneous(s, steps);
    forall k ensures Injected(Run(s, steps), k) <= Sent(Run(s, steps), k) <==> Homogeneous(Run(s, steps), k) {
      PrefixExact(s, steps, k);
    }
    if steps != [] {
      PrefixExactly(s, steps[..|steps| - 1]);
    }
  }

  // ----- In terms of messages and roles alone -----

  /** The latest EdgeEnter of the run that reached `b` from `a` found `b` already
      controlled by `a`. */
  predicate Again(s: System, steps: seq<Step>, a: DeviceId, b: DeviceId)
    decreases |steps|
  {
    steps != [] &&
    var before, last := Run(s, steps[..|steps| - 1]), steps[|steps| - 1];
    if Arrives(before, last) && last.a == a && last.b == b then Reenters(before, last)
    else Again(s, steps[..|steps| - 1], a, b)
  }

  /** An input is delivered to a device that its sender controls and has asked again. */
  predicate InputAfterReentry(s: System, steps: seq<Step>, step: Step) {
    var t := Run(s, steps);
    && step.Deliver? && Chan(t, step.a, step.b) != [] && Chan(t, step.a, step.b)[0].message.IsInput()
    && Dev(t, step.b).state == BeingControlled(step.a)
    && Again(s, steps, step.a, step.b)
  }

  ghost predicate NoInputAfterReentry(s: System, steps: seq<Step>)
    decreases |steps|
  {
    steps != [] ==>
      && NoInputAfterReentry(s, steps[..|steps| - 1])
      && !InputAfterReentry(s, steps[..|steps| - 1], steps[|steps| - 1])
  }

  function HeadsOf(s: System, steps: seq<Step>): Heads
    decreases |steps|
  {
    if steps == [] then map[]
    else Advance(HeadsOf(s, steps[..|steps| - 1]), Run(s, steps[..|steps| - 1]), steps[|steps| - 1])
  }

  lemma {:induction false} HeadsKnowAgain(s: System, steps: seq<Step>, a: DeviceId, b: DeviceId)
    ensures (a, b) in HeadsOf(s, steps) ==> HeadsOf(s, steps)[(a, b)].again == Again(s, steps, a, b)
    decreases |steps|
  {
    if steps != [] {
      HeadsKnowAgain(s, steps[..|steps| - 1], a, b);
    }
  }

  lemma {:induction false} RunInStep(s: System, steps: seq<Step>)
    requires Start(s)
    ensures Wired(Run(s, steps)) && Sound(Run(s, steps)) && InStep(Run(s, steps), HeadsOf(s, steps))
    decreases |steps|
  {
    RunSound(s, steps);
    if steps == [] {
      forall a, b ensures Tagged(s, map[], a, b) {
        assert Dev(s, a).state == Idle && Dev(s, b).state == Idle;
      }
    } else {
      RunInStep(s, steps[..|steps| - 1]);
      StepInStep(Run(s, steps[..|steps| - 1]), HeadsOf(s, steps[..|steps| - 1]), steps[|steps| - 1]);
    }
  }

  /** A delivery strays exactly if it hands an input to a device that its sender
      controls and has asked to enter again since. */
  lemma StrayIsReentry(s: System, steps: seq<Step>, step: Step)
    requires Start(s)
    ensures Strays(Run(s, steps), step) <==> InputAfterReentry(s, steps, step)
  {
    RunInStep(s, steps);
    if step.Deliver? {
      assert Tagged(Run(s, steps), HeadsOf(s, steps), step.a, step.b);
      HeadsKnowAgain(s, steps, step.a, step.b);
    }
  }

  lemma {:induction false} NoStrayIsNoReentry(s: System, steps: seq<Step>)
    requires Start(s)
    ensures NoStray(s, steps) <==> NoInputAfterReentry(s, steps)
    decreases |steps|
  {
    if steps != [] {
      NoStrayIsNoReentry(s, steps[..|steps| - 1]);
      StrayIsReentry(s, steps[..|steps| - 1], steps[|steps| - 1]);
    }
  }

  lemma {:induction false} NoReentryNeverAgain(s: System, steps: seq<Step>)
    requires NoReentry(s, steps)
    ensures NoInputAfterReentry(s, steps)
    ensures forall a, b :: !Again(s, steps, a, b)
    decreases |steps|
  {
    if steps != [] {
      NoReentryNeverAgain(s, steps[..|steps| - 1]);
    }
  }

  /** While hand-offs are conserved nobody is asked to enter again. */
  lemma ConservedForbidsReentry(s: System, step: Step)
    requires Conserved(s)
    ensures !Reenters(s, step)
  {
    if step.Deliver? && Chan(s, step.a, step.b) != [] {
      var x, y := step.a, step.b;
      CountsNonNegative(Chan(s, x, y)[1..]);
      CountsNonNegative(Chan(s, y, x));
      assert Imbalance(s, x, y) == 0;
    }
  }

  lemma {:induction false} BenignForbidsReentry(s: System, steps: seq<Step>)
    requires Start(s) && BenignRun(s, steps)
    ensures NoReentry(s, steps)
    decreases |steps|
  {
    if steps != [] {
      var before := steps[..|steps| - 1];
      BenignForbidsReentry(s, before);
      TokenConservation(s, before);
      ConservedForbidsReentry(Run(s, before), steps[|steps| - 1]);
    }
  }

  /** At every point of a run, emergencies, losses and dropped sends included, what
      each session injected is a prefix of what was forwarded in it, if and only if no
      input was delivered to a device that its sender had asked to enter again while
      it controlled it. Runs in which nobody is asked again are of that kind, and so
      are those that conserve hand-offs. */
  lemma {:induction false} NoStragglers(s: System, steps: seq<Step>, k: nat)
    requires Start(s)
    ensures AlwaysPrefix(s, steps) <==> NoInputAfterReentry(s, steps)
    ensures NoReentry(s, steps) || BenignRun(s, steps) ==> NoInputAfterReentry(s, steps)
    ensures var t := Run(s, steps);
            NoInputAfterReentry(s, steps) ==>
              && Injected(t, k) <= Sent(t, k)
              && (forall e :: e in Injected(t, k) ==> e.packet.session == k && e.packet.message.IsInput())
              && (k in t.refused || k !in t.accepted ==> Injected(t, k) == [])
  {
    PrefixIffNoReentry(s, steps);
    if BenignRun(s, steps) { BenignForbidsReentry(s, steps); }
    if NoReentry(s, steps) { NoReentryNeverAgain(s, steps); }
    PrefixExact(s, steps, k);
  }

  lemma ForwardedNext(t: System, a: DeviceId, b: DeviceId, input: LocalInput)
    requires Dev(t, a).state == Controlling(b) && Dev(t, b).state == BeingControlled(a)
    requires Linked(t, a, b) && Chan(t, a, b) == []
    ensures var u := Apply(t, Local(a, input));
            && |Chan(u, a, b)| == 1 && Chan(u, a, b)[0].message.IsInput()
            && Dev(u, b).state == BeingControlled(a)
  {
    var event := input.ToEvent();
    ResponseShape(a, Dev(t, a).hotkey, Dev(t, a).state, event, EMPTY);
    TransitionModest(t, a, event, EMPTY);
    var r := Transition(a, Dev(t, a).hotkey, Dev(t, a).state, event, EMPTY);
    CarryOutView(t, a, r, 0, a, b);
    CarryOutView(t, a, r, 0, b, b);
  }

  /** Wherever a run has brought two devices that are in session with each other with
      nothing on its way: the next input, forwarded and delivered, breaks the prefix
      property exactly if the controlled one was asked again. */
  lemma {:induction false} NextInputStrays(s: System, steps: seq<Step>, a: DeviceId, b: DeviceId, input: LocalInput)
    requires Start(s)
    requires var t := Run(s, steps);
             && Dev(t, a).state == Controlling(b) && Dev(t, b).state == BeingControlled(a)
             && Linked(t, a, b) && Chan(t, a, b) == []
    ensures AlwaysPrefix(s, steps + [Local(a, input), Deliver(a, b)])
       <==> AlwaysPrefix(s, steps) && !Again(s, steps, a, b)
  {
    var local, more := steps + [Local(a, input)], steps + [Local(a, input), Deliver(a, b)];
    assert local[..|steps|] == steps && more[..|steps| + 1] == local;
    assert Run(s, local) == Apply(Run(s, steps), Local(a, input));
    ForwardedNext(Run(s, steps), a, b, input);
    PrefixIffNoReentry(s, steps);
    PrefixIffNoReentry(s, more);
    assert NoInputAfterReentry(s, local) <==> NoInputAfterReentry(s, steps);
  }

  lemma PrefixIffNoReentry(s: System, steps: seq<Step>)
    requires Start(s)
    ensures AlwaysPrefix(s, steps) <==> NoInputAfterReentry(s, steps)
  {
    PrefixExactly(s, steps);
    NoStrayIsNoReentry(s, steps);
  }

  // ----- Devices nobody has asked again -----

  /** In step, and no channel's latest EdgeEnter was a re-entry. */
  ghost predicate Aligned(s: System) {
    exists heads :: InStep(s, heads) && Unrepeated(heads)
  }

  ghost predicate Unrepeated(heads: Heads) {
    forall k :: k in heads ==> !heads[k].again
  }

  lemma StepAligned(s: System, step: Step)
    requires Wired(s) && Sound(s) && Aligned(s) && !Reenters(s, step)
    ensures Aligned(Apply(s, step)) && !Strays(s, step)
  {
    var heads :| InStep(s, heads) && Unrepeated(heads);
    StepInStep(s, heads, step);
    assert Unrepeated(Advance(heads, s, step));
    if step.Deliver? { assert Tagged(s, heads, step.a, step.b); }
  }

  lemma {:induction false} RunAligned(s: System, steps: seq<Step>)
    requires Start(s) && NoReentry(s, steps)
    ensures Aligned(Run(s, steps)) && Unmixed(Run(s, steps))
  {
    RunInStep(s, steps);
    NoReentryNeverAgain(s, steps);
    NoStrayIsNoReentry(s, steps);
    NoStrayHomogeneous(s, steps);
    var heads := HeadsOf(s, steps);
    forall k | k in heads ensures !heads[k].again {
      HeadsKnowAgain(s, steps, k.0, k.1);
    }
    assert Unrepeated(heads);
  }
}
