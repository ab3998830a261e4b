/** Concrete runs in which the code does not keep what it keeps otherwise, and what
    the exact conditions say of them. */
module Failures {
  import opened Messages
  import opened Layout
  import opened EdgeMachine
  import opened Network
  import opened Handoff
  import opened Ledger
  import opened Conservation
  import opened Reentry
  import opened Stalls
  import opened Orphans
  import opened Drain
  import opened Crossing

  const NODE_A := ComputerNode(1, "A", true, 0.0, 0.0)
  const NODE_B := ComputerNode(2, "B", true, 0.0, 0.0)
  const A_TO_B := EdgeLink(1, Right, 2, Left, 0.0, 1.0)
  const PAIR := Arrangement(map[1 := NODE_A, 2 := NODE_B], [A_TO_B, A_TO_B.Mirror()])
  const PANIC: LogicalKey := 7
  const READY := Device(Idle, true, {}, [PANIC], 0)
  const TWO := System(map[1 := READY, 2 := READY], map[], {}, 0, map[], map[], {}, {})
  const NO_MODIFIERS := Modifiers(false, false, false, false, false)
  const CROSS := Touch(1, Right, 0.5, PAIR)

  lemma PairResolves()
    ensures Resolve(PAIR, 1, Right, 0.5) == Some(A_TO_B)
    ensures Resolve(PAIR, 2, Left, 0.5) == Some(A_TO_B.Mirror())
  {
    assert PAIR.edges[1..] == [A_TO_B.Mirror()];
    var wanted := (l: EdgeLink) => l.LeavesAt(2, Left) && Enabled(PAIR, l.to) && Live(l, 0.5);
    assert !wanted(PAIR.edges[0]) && wanted(PAIR.edges[1..][0]);
  }

  lemma NobodyLeg(s: System, a: DeviceId, edge: ScreenEdge, position: real, layout: Arrangement)
    requires Dev(s, a).state.Idle? && Dev(s, a).passThrough
    requires Resolve(layout, a, edge, position).Some?
    requires !Linked(s, a, Resolve(layout, a, edge, position).value.to)
    ensures var to := Resolve(layout, a, edge, position).value.to;
            Apply(s, Touch(a, edge, position, layout))
            == s.(devices := s.devices[a := Dev(s, a).(state := Controlling(to), passThrough := false,
            session := s.nextSession)],
            nextSession := s.nextSession + 1)
  {
    CrossSend(s, a, edge, position, layout);
  }

  /** Crossing to a linked device with which there is no session: local input is off,
      and nothing is on its way that could turn it back on. */
  lemma {:induction false} CrossingToNobodyStalls()
    ensures Start(TWO) && !NeverStalled(TWO, [CROSS])
    ensures var t := Run(TWO, [CROSS]);
            Stuck(t, 1, 2) && !Dev(t, 1).passThrough && Quiescent(t)
  {
    PairResolves();
    NobodyLeg(TWO, 1, Right, 0.5, PAIR);
    var t := Apply(TWO, CROSS);
    assert [CROSS][1..] == [];
    assert After(TWO, [CROSS]) == t;
    AfterIsRun(TWO, [CROSS]);
    StuckIsStalled(TWO, [CROSS], 1, 2);
  }

  const PANICKED := Key(2, PANIC, true, NO_MODIFIERS)

  /** After that stall a connection and a crossing by the other device do not help; its
      emergency chord then does. */
  lemma {:induction false} PeerCanFree()
    ensures var s := Apply(Apply(Run(TWO, [CROSS]), Connect(1, 2)), Touch(2, Left, 0.5, PAIR));
            Stuck(s, 1, 2) && Frees(s, PANICKED, 1, 2) && !Stuck(Apply(s, PANICKED), 1, 2)
  {
    CrossingToNobodyStalls();
    RunWired(TWO, [CROSS]);
    DroppedState(Run(TWO, [CROSS]));
    ConnectAndCrossBack(Run(TWO, [CROSS]));
  }

  lemma ConnectAndCrossBack(s: System)
    requires Wired(s) && Stuck(s, 1, 2) && Dev(s, 2) == READY && s.links == {}
    ensures var t := Apply(Apply(s, Connect(1, 2)), Touch(2, Left, 0.5, PAIR));
            Stuck(t, 1, 2) && Frees(t, PANICKED, 1, 2) && !Stuck(Apply(t, PANICKED), 1, 2)
  {
    StepWired(s, Connect(1, 2));
    StuckStep(s, Connect(1, 2), 1, 2);
    CrossBack(Apply(s, Connect(1, 2)));
  }

  lemma {:induction false} DroppedState(s: System)
    requires s == Run(TWO, [CROSS])
    ensures Dev(s, 2) == READY && s.links == {}
  {
    PairResolves();
    NobodyLeg(TWO, 1, Right, 0.5, PAIR);
    assert [CROSS][..0] == [] && s == Apply(TWO, CROSS);
  }

  lemma CrossBack(s: System)
    requires Wired(s) && Stuck(s, 1, 2) && Dev(s, 2) == READY && Linked(s, 2, 1)
    ensures var t := Apply(s, Touch(2, Left, 0.5, PAIR));
            Stuck(t, 1, 2) && Frees(t, PANICKED, 1, 2) && !Stuck(Apply(t, PANICKED), 1, 2)
  {
    PairResolves();
    CrossLeg(s, 2, Left, 0.5, PAIR);
    var back := Touch(2, Left, 0.5, PAIR);
    StuckStep(s, back, 1, 2);
    StepWired(s, back);
    StuckStep(Apply(s, back), PANICKED, 1, 2);
  }

  /** Connected, crossed, and taken up. */
  lemma {:induction false} UnderControl()
    ensures var t := Apply(Apply(Apply(TWO, Connect(1, 2)), CROSS), Deliver(1, 2));
            && Dev(t, 1) == READY.(state := Controlling(2), passThrough := false)
            && Dev(t, 2) == READY.(state := BeingControlled(1))
            && (forall x, y :: Chan(t, x, y) == [])
            && t.links == {(1, 2), (2, 1)} && t.nextSession == 1
            && t.sent == map[] && t.injected == map[] && t.accepted == {0} && t.refused == {}
  {
    PairResolves();
    var s1 := Apply(TWO, Connect(1, 2));
    CrossLeg(s1, 1, Right, 0.5, PAIR);
    var s2 := Apply(s1, CROSS);
    assert Chan(s2, 1, 2) == [Packet(EdgeEnter(Left, 0.5, 1.0), 0)];
    EnterLeg(s2, 1, 2);
  }

  /** A device's record once the chord has been pressed on it. */
  function Released(dev: Device): Device {
    dev.(state := Idle, held := dev.held + {PANIC}, passThrough := dev.passThrough || dev.state.Controlling?)
  }

  /** The chord: Idle, and a release to whoever was being controlled. */
  lemma KeyLeg(s: System, d: DeviceId)
    requires Dev(s, d).hotkey == [PANIC]
    ensures var dev := Dev(s, d);
            var base := s.(devices := s.devices[d := Released(dev)]);
            Apply(s, Key(d, PANIC, true, NO_MODIFIERS))
            == if dev.state.Controlling? then Send(base, d, dev.state.target, Packet(EdgeRelease, dev.session)) else base
  {
    var dev := Dev(s, d);
    var u := WithHeld(s, d, dev.held + {PANIC});
    var event := LocalKeyEvent(PANIC, true, NO_MODIFIERS, dev.held + {PANIC});
    var r := ForceRelease(dev.state);
    assert Dev(u, d) == dev.(held := dev.held + {PANIC});
    assert Transition(d, [PANIC], dev.state, event, EMPTY) == r;
    FeedEffect(u, d, event, EMPTY, 0);
    LocalShape(d, [PANIC], dev.state, event, EMPTY);
    if dev.state.Controlling? { SwitchThenSend(dev.passThrough, r.actions); }
    assert Moved(u, Dev(u, d), r, 0) == Released(dev);
    assert u.devices[d := Released(dev)] == s.devices[d := Released(dev)];
  }

  const ABANDONED := [Connect(1, 2), CROSS, Deliver(1, 2), PANICKED]

  /** The emergency chord pressed on the controlled device: it sends nothing, so its
      controller stays Controlling, local input off, with nothing on its way. */
  lemma {:induction false} EmergencyStrandsController()
    ensures Start(TWO) && !NeverStalled(TWO, ABANDONED)
    ensures var t := Run(TWO, ABANDONED);
            Stuck(t, 1, 2) && !Dev(t, 1).passThrough && Dev(t, 2).state == Idle && Quiescent(t)
  {
    AbandonedRun();
    StuckIsStalled(TWO, ABANDONED, 1, 2);
  }

  lemma {:induction false} AbandonedRun()
    ensures Start(TWO)
    ensures var t := Run(TWO, ABANDONED);
            Stuck(t, 1, 2) && !Dev(t, 1).passThrough && Dev(t, 2).state == Idle && Quiescent(t)
  {
    UnderControl();
    AbandonedLeg(Apply(Apply(Apply(TWO, Connect(1, 2)), CROSS), Deliver(1, 2)));
    FourSteps(TWO, ABANDONED);
    AfterIsRun(TWO, ABANDONED);
  }

  lemma AbandonedLeg(s: System)
    requires Dev(s, 1) == READY.(state := Controlling(2), passThrough := false)
    requires Dev(s, 2) == READY.(state := BeingControlled(1))
    requires forall x, y :: Chan(s, x, y) == []
    ensures var t := Apply(s, PANICKED);
            Stuck(t, 1, 2) && !Dev(t, 1).passThrough && Dev(t, 2).state == Idle && Quiescent(t)
  {
    KeyLeg(s, 2);
    var t := Apply(s, PANICKED);
    assert forall x, y :: Chan(t, x, y) == Chan(s, x, y);
  }

  lemma IgnoredReturnLeg(s: System, a: DeviceId, b: DeviceId)
    requires Dev(s, b).state != Controlling(a)
    requires Chan(s, a, b) != [] && Chan(s, a, b)[0].message.IsReturn()
    ensures Apply(s, Deliver(a, b)) == Popped(s, a, b).(devices := s.devices[b := Dev(s, b)])
  {
    var t, p := Popped(s, a, b), Chan(s, a, b)[0];
    var event := Route(a, p.message).event;
    FeedEffect(t, b, event, EMPTY, p.session);
    ResponseShape(b, Dev(t, b).hotkey, Dev(t, b).state, event, EMPTY);
    SwitchKept(b, Dev(t, b).hotkey, Dev(t, b).state, event, EMPTY, Dev(t, b).passThrough);
  }

  lemma RefuseLeg(s: System, a: DeviceId, b: DeviceId)
    requires !Dev(s, b).state.Idle? && Linked(s, b, a) && a != b
    requires Chan(s, a, b) != [] && Chan(s, a, b)[0].message.EdgeEnter?
    ensures var t := Popped(s, a, b);
            Apply(s, Deliver(a, b))
            == t.(devices := s.devices[b := Dev(s, b)],
            channels := t.channels[(b, a) := Chan(s, b, a) + [Packet(EdgeEnterRejected, Dev(s, b).session)]],
              refused := s.refused + {Chan(s, a, b)[0].session})
  {
    var t, p := Popped(s, a, b), Chan(s, a, b)[0];
    var event := Route(a, p.message).event;
    assert Chan(t, b, a) == Chan(s, b, a);
    FeedEffect(t, b, event, EMPTY, p.session);
    ResponseShape(b, Dev(t, b).hotkey, Dev(t, b).state, event, EMPTY);
    SwitchKept(b, Dev(t, b).hotkey, Dev(t, b).state, event, EMPTY, Dev(t, b).passThrough);
  }

  lemma MoveLeg(s: System, a: DeviceId, b: DeviceId, dx: real, dy: real)
    requires Dev(s, a).state == Controlling(b) && Linked(s, a, b)
    ensures var p := Packet(MouseMove(dx, dy, 0), Dev(s, a).session);
            Apply(s, Local(a, Move(dx, dy)))
            == s.(devices := s.devices[a := Dev(s, a)],
            channels := s.channels[(a, b) := Chan(s, a, b) + [p]],
              sent := s.sent[p.session := Sent(s, p.session) + [Entry(a, b, p)]])
  {
    var event := LocalMouseMove(dx, dy);
    FeedEffect(s, a, event, EMPTY, 0);
    ResponseShape(a, Dev(s, a).hotkey, Dev(s, a).state, event, EMPTY);
    SwitchKept(a, Dev(s, a).hotkey, Dev(s, a).state, event, EMPTY, Dev(s, a).passThrough);
  }

  lemma InjectLeg(s: System, a: DeviceId, b: DeviceId)
    requires Dev(s, b).state == BeingControlled(a)
    requires Chan(s, a, b) != [] && Chan(s, a, b)[0].message.IsInput()
    ensures var k := Dev(s, b).session;
            Apply(s, Deliver(a, b))
            == Popped(s, a, b).(devices := s.devices[b := Dev(s, b)],
            injected := s.injected[k := Injected(s, k) + [Entry(a, b, Chan(s, a, b)[0])]])
  {
    var t, p := Popped(s, a, b), Chan(s, a, b)[0];
    var event := PeerInputMessage(a, p.message);
    FeedEffect(t, b, event, EMPTY, p.session);
    ResponseShape(b, Dev(t, b).hotkey, Dev(t, b).state, event, EMPTY);
    SwitchKept(b, Dev(t, b).hotkey, Dev(t, b).state, event, EMPTY, Dev(t, b).passThrough);
  }

  const CHORD := Key(1, PANIC, true, NO_MODIFIERS)
  const NUDGE := Local(1, Move(1.0, 0.0))

  /** The chord on the controller releases it; the controlled device ignores that. */
  lemma ReleasedWhileControlled(s: System)
    requires Dev(s, 1) == READY.(state := Controlling(2), passThrough := false)
    requires Dev(s, 2) == READY.(state := BeingControlled(1))
    requires Chan(s, 1, 2) == [] && s.links == {(1, 2), (2, 1)}
    ensures var t := Apply(Apply(s, CHORD), Deliver(1, 2));
            && Dev(t, 1).state.Idle? && Dev(t, 1).passThrough && Dev(t, 2) == Dev(s, 2)
            && Chan(t, 1, 2) == [] && (forall x, y :: Chan(t, x, y) == Chan(s, x, y))
            && t == s.(devices := t.devices, channels := t.channels)
  {
    KeyLeg(s, 1);
    var t := Apply(s, CHORD);
    assert Chan(t, 1, 2) == [Packet(EdgeRelease, 0)];
    assert Dev(t, 2) == Dev(s, 2);
    IgnoredReturnLeg(t, 1, 2);
  }

  lemma {:induction false} FiveRun(s: System, steps: seq<Step>)
    requires |steps| == 5
    ensures Run(s, steps) == Apply(Apply(Apply(Apply(Apply(s, steps[0]), steps[1]), steps[2]), steps[3]), steps[4])
  {
    AfterIsRun(s, steps[..4]);
    FourSteps(s, steps[..4]);
  }

  lemma OrphanShows(s: System, steps: seq<Step>, a: DeviceId, b: DeviceId)
    requires Dev(Run(s, steps), b).state == BeingControlled(a) && Dev(Run(s, steps), a).state != Controlling(b)
    ensures !AlwaysMatched(s, steps)
  {
  }

  const LEFT := [Connect(1, 2), CROSS, Deliver(1, 2), CHORD, Deliver(1, 2)]

  /** The chord on the controller leaves the controlled device where it is, with nothing
      in flight that could end it. */
  lemma {:induction false} EmergencyLeavesOrphan()
    ensures Start(TWO) && !AlwaysMatched(TWO, LEFT)
    ensures var t := Run(TWO, LEFT);
            Dev(t, 1).state == Idle && Dev(t, 2).state == BeingControlled(1) && Quiescent(t)
  {
    LeftRun();
    OrphanShows(TWO, LEFT, 1, 2);
  }

  lemma {:induction false} LeftRun()
    ensures var t := Run(TWO, LEFT);
            Dev(t, 1).state == Idle && Dev(t, 2).state == BeingControlled(1) && Quiescent(t)
  {
    UnderControl();
    ReleasedWhileControlled(Apply(Apply(Apply(TWO, Connect(1, 2)), CROSS), Deliver(1, 2)));
    FiveRun(TWO, LEFT);
  }

  const CANCELLED := [Connect(1, 2), CROSS, CHORD, Deliver(1, 2), Deliver(1, 2)]

  /** The chord while the EdgeEnter is still on its way: it is taken up all the same, and
      the release behind it is ignored. */
  lemma {:induction false} CancelledIsTakenUp()
    ensures Start(TWO) && !AlwaysMatched(TWO, CANCELLED)
    ensures var t := Run(TWO, CANCELLED);
            Dev(t, 1).state == Idle && Dev(t, 2).state == BeingControlled(1) && Quiescent(t)
  {
    CancelledRun();
    OrphanShows(TWO, CANCELLED, 1, 2);
  }

  lemma {:induction false} CancelledRun()
    ensures var t := Run(TWO, CANCELLED);
            Dev(t, 1).state == Idle && Dev(t, 2).state == BeingControlled(1) && Quiescent(t)
  {
    PairResolves();
    var s1 := Apply(TWO, Connect(1, 2));
    CrossLeg(s1, 1, Right, 0.5, PAIR);
    CancelledLegs(Apply(s1, CROSS));
    FiveRun(TWO, CANCELLED);
  }

  lemma CancelledLegs(s: System)
    requires Dev(s, 1) == READY.(state := Controlling(2), passThrough := false) && Dev(s, 2) == READY
    requires Chan(s, 1, 2) == [Packet(EdgeEnter(Left, 0.5, 1.0), 0)] && Linked(s, 1, 2)
    requires forall x, y :: !(x == 1 && y == 2) ==> Chan(s, x, y) == []
    ensures var t := Apply(Apply(Apply(s, CHORD), Deliver(1, 2)), Deliver(1, 2));
            Dev(t, 1).state == Idle && Dev(t, 2).state == BeingControlled(1) && Quiescent(t)
  {
    KeyLeg(s, 1);
    var t := Apply(s, CHORD);
    assert Chan(t, 1, 2) == Chan(s, 1, 2) + [Packet(EdgeRelease, 0)] && Dev(t, 2) == READY;
    EnterLeg(t, 1, 2);
    var u := Apply(t, Deliver(1, 2));
    assert Chan(u, 1, 2) == [Packet(EdgeRelease, 0)];
    IgnoredReturnLeg(u, 1, 2);
    var v := Apply(u, Deliver(1, 2));
    assert Chan(v, 1, 2) == [];
    assert forall x, y :: !(x == 1 && y == 2) ==> Chan(v, x, y) == Chan(s, x, y);
  }

  /** The next crossing, session 1, is refused; its sender does not know yet. */
  lemma RefusedWhileControlled(s: System)
    requires Dev(s, 1).state.Idle? && Dev(s, 1).passThrough && Dev(s, 2) == READY.(state := BeingControlled(1))
    requires Chan(s, 1, 2) == [] && s.links == {(1, 2), (2, 1)} && s.nextSession == 1
    ensures var t := Apply(Apply(s, CROSS), Deliver(1, 2));
            && Dev(t, 1).state == Controlling(2) && Dev(t, 1).session == 1
            && Dev(t, 2) == Dev(s, 2)
            && Chan(t, 1, 2) == []
            && t == s.(devices := t.devices, channels := t.channels, nextSession := 2, refused := s.refused + {1})
  {
    PairResolves();
    CrossLeg(s, 1, Right, 0.5, PAIR);
    var t := Apply(s, CROSS);
    assert Chan(t, 1, 2) == [Packet(EdgeEnter(Left, 0.5, 1.0), 1)] && Dev(t, 2) == Dev(s, 2);
    RefuseLeg(t, 1, 2);
  }

  /** What its sender forwards meanwhile is injected in the session still open. */
  lemma InjectedWhileControlled(s: System)
    requires Dev(s, 1).state == Controlling(2) && Dev(s, 1).session == 1
    requires Dev(s, 2) == READY.(state := BeingControlled(1))
    requires Chan(s, 1, 2) == [] && s.links == {(1, 2), (2, 1)}
    ensures var t := Apply(Apply(s, NUDGE), Deliver(1, 2));
            var e := Entry(1, 2, Packet(MouseMove(1.0, 0.0, 0), 1));
            t == s.(devices := t.devices, channels := t.channels,
            sent := s.sent[1 := Sent(s, 1) + [e]], injected := s.injected[0 := Injected(s, 0) + [e]])
  {
    MoveLeg(s, 1, 2, 1.0, 0.0);
    var t := Apply(s, NUDGE);
    assert Chan(t, 1, 2) == [Packet(MouseMove(1.0, 0.0, 0), 1)] && Dev(t, 2) == Dev(s, 2);
    InjectLeg(t, 1, 2);
  }

  const FORGOTTEN := [Connect(1, 2), CROSS, Deliver(1, 2), CHORD]
  + [Deliver(1, 2), CROSS, Deliver(1, 2), NUDGE] + [Deliver(1, 2)]

  /** After an emergency release by the controller the prefix property fails: the
      input forwarded in the refused session 1 is injected in session 0, in which
      nothing was forwarded at all. */
  lemma {:induction false} EmergencyLeaksRefusedInput()
    ensures Start(TWO) && !AlwaysPrefix(TWO, FORGOTTEN) && !NoInputAfterReentry(TWO, FORGOTTEN)
    ensures var t := Run(TWO, FORGOTTEN);
            && Injected(t, 0) == [Entry(1, 2, Packet(MouseMove(1.0, 0.0, 0), 1))] && Sent(t, 0) == []
            && 1 in t.refused && !(Injected(t, 0) <= Sent(t, 0))
  {
    ForgottenRun();
    AfterIsRun(TWO, FORGOTTEN);
    NoStragglers(TWO, FORGOTTEN, 0);
  }

  lemma {:induction false} ForgottenRun()
    ensures var t := After(TWO, FORGOTTEN);
            && Injected(t, 0) == [Entry(1, 2, Packet(MouseMove(1.0, 0.0, 0), 1))] && Sent(t, 0) == []
            && 1 in t.refused && !(Injected(t, 0) <= Sent(t, 0))
  {
    var first, second := [Connect(1, 2), CROSS, Deliver(1, 2), CHORD], [Deliver(1, 2), CROSS, Deliver(1, 2), NUDGE];
    UnderControl();
    var s3 := Apply(Apply(Apply(TWO, Connect(1, 2)), CROSS), Deliver(1, 2));
    ReleasedWhileControlled(s3);
    var s5 := Apply(Apply(s3, CHORD), Deliver(1, 2));
    RefusedWhileControlled(s5);
    var s7 := Apply(Apply(s5, CROSS), Deliver(1, 2));
    InjectedWhileControlled(s7);
    FourSteps(TWO, first);
    FourSteps(Apply(s3, CHORD), second);
    AfterSplit(TWO, first + second, [Deliver(1, 2)]);
    AfterSplit(TWO, first, second);
    assert After(Apply(s7, NUDGE), [Deliver(1, 2)]) == Apply(Apply(s7, NUDGE), Deliver(1, 2)) by {
      assert [Deliver(1, 2)][1..] == [];
    }
  }

  lemma {:induction false} AfterSplit(s: System, xs: seq<Step>, ys: seq<Step>)
    ensures After(s, xs + ys) == After(After(s, xs), ys)
    decreases |xs|
  {
    if xs == [] {
      assert xs + ys == ys;
    } else {
      assert (xs + ys)[1..] == xs[1..] + ys;
      AfterSplit(Apply(s, xs[0]), xs[1..], ys);
    }
  }
}
