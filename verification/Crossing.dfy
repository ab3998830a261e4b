/** One hand-off from end to end over a shared arrangement, and the runs that show
    where the code does not keep what it keeps otherwise. */
module Crossing {
  import opened Messages
  import opened Layout
  import opened EdgeMachine
  import opened Network
  import opened Handoff
  import opened Ledger
  import opened Drain

  /** Taking steps from the front or from the back is the same run. */
  lemma {:induction false} AfterIsRun(s: System, steps: seq<Step>)
    ensures After(s, steps) == Run(s, steps)
    decreases |steps|
  {
    if |steps| == 1 {
      assert steps[..0] == [] && steps[1..] == [];
    } else if |steps| > 1 {
      var front, last := steps[..|steps| - 1], steps[|steps| - 1];
      AfterIsRun(Apply(s, steps[0]), steps[1..]);
      AfterIsRun(s, front);
      AfterIsRun(Apply(s, front[0]), front[1..]);
      assert steps[1..][..|steps| - 2] == front[1..] && steps[1..][|steps| - 2] == last;
    }
  }

  // ----- The four legs of a hand-off -----

  /** The state machine starts controlling; its EdgeEnter is sent, or dropped. */
  lemma CrossSend(s: System, a: DeviceId, edge: ScreenEdge, position: real, layout: Arrangement)
    requires Dev(s, a).state.Idle? && Dev(s, a).passThrough
    requires Resolve(layout, a, edge, position).Some?
    ensures var link := Resolve(layout, a, edge, position).value;
            Apply(s, Touch(a, edge, position, layout))
            == Send(s.(devices := s.devices[a := Dev(s, a).(state := Controlling(link.to), passThrough := false,
                    session := s.nextSession)],
                    nextSession := s.nextSession + 1),
                    a, link.to, Packet(EdgeEnter(link.toEdge, position, 1.0), s.nextSession))
  {
    var event := LocalCursorAtEdge(edge, position);
    FeedEffect(s, a, event, layout, 0);
    ResponseShape(a, Dev(s, a).hotkey, Idle, event, layout);
    PassThroughFollowsRole(a, Dev(s, a).hotkey, Idle, event, layout);
  }

  lemma CrossLeg(s: System, a: DeviceId, edge: ScreenEdge, position: real, layout: Arrangement)
    requires Dev(s, a).state.Idle? && Dev(s, a).passThrough
    requires Resolve(layout, a, edge, position).Some?
    requires Linked(s, a, Resolve(layout, a, edge, position).value.to)
    ensures var link := Resolve(layout, a, edge, position).value;
            Apply(s, Touch(a, edge, position, layout))
            == s.(devices := s.devices[a := Dev(s, a).(state := Controlling(link.to), passThrough := false,
            session := s.nextSession)],
            nextSession := s.nextSession + 1,
            channels := s.channels[(a, link.to) := Chan(s, a, link.to)
              + [Packet(EdgeEnter(link.toEdge, position, 1.0), s.nextSession)]])
  {
    CrossSend(s, a, edge, position, layout);
  }

  lemma EnterLeg(s: System, a: DeviceId, b: DeviceId)
    requires Dev(s, b).state.Idle? && Dev(s, b).passThrough
    requires Chan(s, a, b) != [] && Chan(s, a, b)[0].message.EdgeEnter?
    ensures var k := Chan(s, a, b)[0].session;
            Apply(s, Deliver(a, b))
            == Popped(s, a, b).(devices := s.devices[b := Dev(s, b).(state := BeingControlled(a), session := k)],
            accepted := s.accepted + {k})
  {
    var t, p := Popped(s, a, b), Chan(s, a, b)[0];
    var event := Route(a, p.message).event;
    FeedEffect(t, b, event, EMPTY, p.session);
    ResponseShape(b, Dev(t, b).hotkey, Idle, event, EMPTY);
    PassThroughFollowsRole(b, Dev(t, b).hotkey, Idle, event, EMPTY);
  }

  /** The controlled device lets go; its release is sent, or dropped. */
  lemma ReleaseSend(s: System, a: DeviceId, b: DeviceId, edge: ScreenEdge, position: real, layout: Arrangement)
    requires Dev(s, b).state == BeingControlled(a)
    requires Resolve(layout, b, edge, position).Some? && Resolve(layout, b, edge, position).value.to == a
    ensures Apply(s, Touch(b, edge, position, layout))
         == Send(s.(devices := s.devices[b := Dev(s, b).(state := Idle)]), b, a, Packet(EdgeRelease, Dev(s, b).session))
  {
    var event := LocalCursorAtEdge(edge, position);
    FeedEffect(s, b, event, layout, 0);
    ResponseShape(b, Dev(s, b).hotkey, BeingControlled(a), event, layout);
    OneAction(Dev(s, b).passThrough, [SendMessage(a, EdgeRelease)]);
  }

  lemma ReleaseLeg(s: System, a: DeviceId, b: DeviceId, edge: ScreenEdge, position: real, layout: Arrangement)
    requires Dev(s, b).state == BeingControlled(a) && Linked(s, b, a)
    requires Resolve(layout, b, edge, position).Some? && Resolve(layout, b, edge, position).value.to == a
    ensures Apply(s, Touch(b, edge, position, layout))
         == s.(devices := s.devices[b := Dev(s, b).(state := Idle)],
            channels := s.channels[(b, a) := Chan(s, b, a) + [Packet(EdgeRelease, Dev(s, b).session)]])
  {
    ReleaseSend(s, a, b, edge, position, layout);
  }

  lemma ReturnLeg(s: System, b: DeviceId, a: DeviceId)
    requires Dev(s, a).state == Controlling(b) && !Dev(s, a).passThrough
    requires Chan(s, b, a) != [] && Chan(s, b, a)[0].message.IsReturn()
    ensures Apply(s, Deliver(b, a))
         == Popped(s, b, a).(devices := s.devices[a := Dev(s, a).(state := Idle, passThrough := true)])
  {
    var t, p := Popped(s, b, a), Chan(s, b, a)[0];
    var event := Route(b, p.message).event;
    FeedEffect(t, a, event, EMPTY, p.session);
    ResponseShape(a, Dev(t, a).hotkey, Controlling(b), event, EMPTY);
    PassThroughFollowsRole(a, Dev(t, a).hotkey, Controlling(b), event, EMPTY);
  }

  /** Two idle, connected devices that share a well-formed arrangement: cross, take
      up, touch the entered edge at any position that is live on it, deliver. Both
      are Idle again with their switches on, and every channel and every other
      device is as before. */
  lemma RoundTrip(s: System, layout: Arrangement, a: DeviceId, edge: ScreenEdge, position: real, back: real)
    requires Wired(s) && WellFormed(layout)
    requires Resolve(layout, a, edge, position).Some?
    requires var link := Resolve(layout, a, edge, position).value;
             && Live(link, back)
             && Dev(s, a).state.Idle? && Dev(s, a).passThrough
             && Dev(s, link.to).state.Idle? && Dev(s, link.to).passThrough
             && Linked(s, a, link.to) && Chan(s, a, link.to) == [] && Chan(s, link.to, a) == []
    ensures var link := Resolve(layout, a, edge, position).value;
            var b := link.to;
            var t := After(s, [Touch(a, edge, position, layout), Deliver(a, b),
                               Touch(b, link.toEdge, back, layout), Deliver(b, a)]);
            && Dev(t, a) == Dev(s, a).(session := s.nextSession)
            && Dev(t, b) == Dev(s, b).(session := s.nextSession)
            && (forall x :: x != a && x != b ==> Dev(t, x) == Dev(s, x))
            && (forall x, y :: Chan(t, x, y) == Chan(s, x, y))
            && t.accepted == s.accepted + {s.nextSession} && t.refused == s.refused
  {
    var link := Resolve(layout, a, edge, position).value;
    var b := link.to;
    ResolveInvolution(layout, a, edge, position, back);
    Outward(s, layout, a, edge, position);
    Homeward(Apply(Apply(s, Touch(a, edge, position, layout)), Deliver(a, b)), layout, a, b, link.toEdge, back);
    FourSteps(s, [Touch(a, edge, position, layout), Deliver(a, b), Touch(b, link.toEdge, back, layout), Deliver(b, a)]);
  }

  lemma Outward(s: System, layout: Arrangement, a: DeviceId, edge: ScreenEdge, position: real)
    requires Resolve(layout, a, edge, position).Some?
    requires var b := Resolve(layout, a, edge, position).value.to;
             && a != b && Linked(s, a, b) && Chan(s, a, b) == []
             && Dev(s, a).state.Idle? && Dev(s, a).passThrough && Dev(s, b).state.Idle? && Dev(s, b).passThrough
    ensures var b := Resolve(layout, a, edge, position).value.to;
            var k := s.nextSession;
            var t := Apply(Apply(s, Touch(a, edge, position, layout)), Deliver(a, b));
            && Dev(t, a) == Dev(s, a).(state := Controlling(b), passThrough := false, session := k)
            && Dev(t, b) == Dev(s, b).(state := BeingControlled(a), session := k)
            && (forall x :: x != a && x != b ==> Dev(t, x) == Dev(s, x))
            && (forall x, y :: Chan(t, x, y) == Chan(s, x, y))
            && t.links == s.links && t.accepted == s.accepted + {k} && t.refused == s.refused
  {
    var link := Resolve(layout, a, edge, position).value;
    var t := Apply(s, Touch(a, edge, position, layout));
    CrossLeg(s, a, edge, position, layout);
    assert Chan(t, a, link.to) == [Packet(EdgeEnter(link.toEdge, position, 1.0), s.nextSession)];
    assert Dev(t, link.to) == Dev(s, link.to);
    EnterLeg(t, a, link.to);
  }

  lemma {:induction false} Homeward(s: System, layout: Arrangement, a: DeviceId, b: DeviceId, edge: ScreenEdge, position: real)
    requires Resolve(layout, b, edge, position).Some? && Resolve(layout, b, edge, position).value.to == a
    requires a != b && Linked(s, b, a) && Chan(s, b, a) == []
    requires Dev(s, a).state == Controlling(b) && !Dev(s, a).passThrough
    requires Dev(s, b).state == BeingControlled(a) && Dev(s, b).passThrough
    ensures var t := Apply(Apply(s, Touch(b, edge, position, layout)), Deliver(b, a));
            && Dev(t, a) == Dev(s, a).(state := Idle, passThrough := true)
            && Dev(t, b) == Dev(s, b).(state := Idle)
            && (forall x :: x != a && x != b ==> Dev(t, x) == Dev(s, x))
            && (forall x, y :: Chan(t, x, y) == Chan(s, x, y))
            && t.accepted == s.accepted && t.refused == s.refused
  {
    var t := Apply(s, Touch(b, edge, position, layout));
    ReleaseLeg(s, a, b, edge, position, layout);
    assert Chan(t, b, a) == [Packet(EdgeRelease, Dev(s, b).session)];
    assert Dev(t, a) == Dev(s, a);
    ReturnLeg(t, b, a);
  }

  lemma FourSteps(s: System, steps: seq<Step>)
    requires |steps| == 4
    ensures After(s, steps) == Apply(Apply(Apply(Apply(s, steps[0]), steps[1]), steps[2]), steps[3])
  {
    var s1 := Apply(s, steps[0]);
    var s2 := Apply(s1, steps[1]);
    var s3 := Apply(s2, steps[2]);
    assert After(s, steps) == After(s1, steps[1..]);
    assert After(s1, steps[1..]) == After(s2, steps[2..]) by { assert steps[1..][1..] == steps[2..]; }
    assert After(s2, steps[2..]) == After(s3, steps[3..]) by { assert steps[2..][1..] == steps[3..]; }
    assert After(s3, steps[3..]) == After(Apply(s3, steps[3]), []) by { assert steps[3..][1..] == []; }
  }

  /** A controlled device is let go by an edge exactly if that edge leads, at that
      position, to the device that controls it. Then it is Idle and tells that device,
      if the session is live; any other touch changes nothing. */
  lemma ReturnEdgeExact(s: System, a: DeviceId, b: DeviceId, edge: ScreenEdge, position: real, layout: Arrangement)
    requires Dev(s, b).state == BeingControlled(a)
    ensures var t := Apply(s, Touch(b, edge, position, layout));
            var link := Resolve(layout, b, edge, position);
            if link.None? || link.value.to != a then t == s.(devices := s.devices[b := Dev(s, b)])
            else t == s.(devices := s.devices[b := Dev(s, b).(state := Idle)],
                      channels := if Linked(s, b, a)
                      then s.channels[(b, a) := Chan(s, b, a) + [Packet(EdgeRelease, Dev(s, b).session)]]
                      else s.channels)
  {
    var link := Resolve(layout, b, edge, position);
    if link.Some? && link.value.to == a {
      ReleaseSend(s, a, b, edge, position, layout);
    } else {
      HoldLeg(s, a, b, edge, position, layout);
    }
  }

  lemma HoldLeg(s: System, a: DeviceId, b: DeviceId, edge: ScreenEdge, position: real, layout: Arrangement)
    requires Dev(s, b).state == BeingControlled(a)
    requires var link := Resolve(layout, b, edge, position); link.None? || link.value.to != a
    ensures Apply(s, Touch(b, edge, position, layout)) == s.(devices := s.devices[b := Dev(s, b)])
  {
    var event := LocalCursorAtEdge(edge, position);
    FeedEffect(s, b, event, layout, 0);
    ResponseShape(b, Dev(s, b).hotkey, BeingControlled(a), event, layout);
  }
}
