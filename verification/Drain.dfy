/** What deliveries alone lead to: they run out, and then everybody agrees on who
    controls whom. */
module Drain {
  import opened Messages
  import opened Layout
  import opened EdgeMachine
  import opened Network
  import opened Handoff
  import opened Ledger
  import opened Conservation
  import opened Sessions
  import opened Reentry

  /** An EdgeEnter counts twice: it can still turn into a rejection. */
  function Weight(ch: seq<Packet>): int {
    |ch| + Enters(ch)
  }

  ghost function Load(channels: map<(DeviceId, DeviceId), seq<Packet>>): int
    decreases |channels|
  {
    if channels == map[] then 0
    else
      var k :| k in channels;
      Weight(channels[k]) + Load(channels - {k})
  }

  lemma {:induction false} LoadSplit(channels: map<(DeviceId, DeviceId), seq<Packet>>, k: (DeviceId, DeviceId))
    requires k in channels
    ensures Load(channels) == Weight(channels[k]) + Load(channels - {k})
    decreases |channels|
  {
    var j :| j in channels && Load(channels) == Weight(channels[j]) + Load(channels - {j});
    if j != k {
      LoadSplit(channels - {j}, k);
      LoadSplit(channels - {k}, j);
      assert channels - {j} - {k} == channels - {k} - {j};
    }
  }

  lemma LoadUpdate(s: System, a: DeviceId, b: DeviceId, ch: seq<Packet>)
    ensures Load(s.channels[(a, b) := ch]) == Load(s.channels) - Weight(Chan(s, a, b)) + Weight(ch)
  {
    var k := (a, b);
    LoadSplit(s.channels[k := ch], k);
    if k in s.channels {
      LoadSplit(s.channels, k);
      assert s.channels[k := ch] - {k} == s.channels - {k};
    } else {
      assert s.channels[k := ch] - {k} == s.channels;
    }
  }

  lemma {:induction false} LoadNonNegative(channels: map<(DeviceId, DeviceId), seq<Packet>>)
    ensures Load(channels) >= 0
    decreases |channels|
  {
    if channels != map[] {
      var k :| k in channels;
      CountsNonNegative(channels[k]);
      LoadNonNegative(channels - {k});
      LoadSplit(channels, k);
    }
  }

  lemma DropLoad(s: System, x: DeviceId, y: DeviceId)
    ensures Load(Drop(s, x, y).channels) <= Load(s.channels)
  {
    if x != y && Linked(s, x, y) {
      var cut := Cut(s, x, y);
      var half := s.(channels := s.channels[(x, y) := []]);
      LoadUpdate(s, x, y, []);
      LoadUpdate(half, y, x, []);
      CountsNonNegative(Chan(s, x, y));
      CountsNonNegative(Chan(half, y, x));
      LossEffect(cut, x, y);
      LossEffect(Feed(cut, x, ConnectionLost(y), EMPTY, 0), y, x);
    }
  }

  /** Every delivery lightens the load, by whatever it triggers. */
  lemma DeliverLightens(s: System, x: DeviceId, y: DeviceId)
    requires Wired(s) && Chan(s, x, y) != []
    ensures Load(Apply(s, Deliver(x, y)).channels) < Load(s.channels)
  {
    var t, p := Popped(s, x, y), Chan(s, x, y)[0];
    assert Linked(s, x, y) && x != y;
    LoadUpdate(s, x, y, Chan(s, x, y)[1..]);
    match Route(x, p.message)
    case Ignore =>
    case Close => DropLoad(t, x, y);
    case Dispatch(event) => DispatchLoad(t, x, y, event, p.session);
  }

  /** Handling what was delivered adds at most one message, and only for an EdgeEnter. */
  lemma DispatchLoad(s: System, x: DeviceId, y: DeviceId, event: Event, stamp: nat)
    requires event.PeerEdgeEnter? || event.PeerEdgeRelease? || event.PeerEdgeEnterRejected? || event.PeerInputMessage?
    requires event.from == x
    ensures Load(Feed(s, y, event, EMPTY, stamp).channels)
         <= Load(s.channels) + One(event.PeerEdgeEnter?)
  {
    FeedEffect(s, y, event, EMPTY, stamp);
    ResponseShape(y, Dev(s, y).hotkey, Dev(s, y).state, event, EMPTY);
    var reply := Packet(EdgeEnterRejected, Dev(s, y).session);
    CountsPush(Chan(s, y, x), reply);
    LoadUpdate(s, y, x, Chan(s, y, x) + [reply]);
  }

  ghost predicate Quiescent(s: System) {
    forall a, b :: Chan(s, a, b) == []
  }

  /** Deliveries only, each of a channel that holds something. */
  ghost predicate Deliveries(s: System, steps: seq<Step>)
    decreases |steps|
  {
    steps != [] ==>
      && steps[0].Deliver? && Chan(s, steps[0].a, steps[0].b) != []
      && Deliveries(Apply(s, steps[0]), steps[1..])
  }

  function After(s: System, steps: seq<Step>): System
    decreases |steps|
  {
    if steps == [] then s else After(Apply(s, steps[0]), steps[1..])
  }

  /** However deliveries are ordered, from any wired state there are at most `Load`
      of them before nothing is in flight. */
  lemma {:induction false} DrainBounded(s: System, steps: seq<Step>)
    requires Wired(s) && Deliveries(s, steps)
    ensures |steps| <= Load(s.channels) - Load(After(s, steps).channels)
    ensures Wired(After(s, steps))
    decreases |steps|
  {
    if steps != [] {
      DeliverLightens(s, steps[0].a, steps[0].b);
      StepWired(s, steps[0]);
      DrainBounded(Apply(s, steps[0]), steps[1..]);
    }
  }

  /** A state that is not quiescent can deliver, so some order reaches quiescence. */
  lemma {:induction false} DrainReachesQuiescence(s: System) returns (steps: seq<Step>)
    requires Wired(s)
    ensures Deliveries(s, steps) && Quiescent(After(s, steps))
    decreases Load(s.channels)
  {
    LoadNonNegative(s.channels);
    if Quiescent(s) {
      steps := [];
    } else {
      var a, b :| Chan(s, a, b) != [];
      var first := Deliver(a, b);
      DeliverLightens(s, a, b);
      LoadNonNegative(Apply(s, first).channels);
      StepWired(s, first);
      var rest := DrainReachesQuiescence(Apply(s, first));
      steps := [first] + rest;
      assert steps[1..] == rest;
    }
  }

  ghost predicate Session(s: System, a: DeviceId, b: DeviceId) {
    Dev(s, a).state == Controlling(b)
  }

  /** What every conserving run keeps. */
  ghost predicate Healthy(s: System) {
    Wired(s) && Conserved(s) && Sound(s) && Aligned(s) && Unmixed(s)
  }

  lemma DeliverHealthy(s: System, a: DeviceId, b: DeviceId)
    requires Healthy(s)
    ensures Healthy(Apply(s, Deliver(a, b)))
  {
    StepWired(s, Deliver(a, b));
    ConservationStep(s, Deliver(a, b));
    StepSound(s, Deliver(a, b));
    ConservedForbidsReentry(s, Deliver(a, b));
    StepAligned(s, Deliver(a, b));
    HomogeneousStep(s, Deliver(a, b));
  }

  lemma {:induction false} DrainHealthy(s: System, steps: seq<Step>)
    requires Healthy(s) && Deliveries(s, steps)
    ensures Healthy(After(s, steps))
    decreases |steps|
  {
    if steps != [] {
      DeliverHealthy(s, steps[0].a, steps[0].b);
      DrainHealthy(Apply(s, steps[0]), steps[1..]);
    }
  }

  /** A session with nothing in flight: both ends number it alike, and all that was
      forwarded in it has been injected. */
  lemma SettledSession(s: System, a: DeviceId, b: DeviceId)
    requires Healthy(s) && Dev(s, b).state == BeingControlled(a) && Session(s, a, b)
    requires Chan(s, a, b) == []
    ensures a != b && Dev(s, a).session == Dev(s, b).session
    ensures Injected(s, Dev(s, b).session) == Sent(s, Dev(s, a).session)
  {
    var reg :| Registered(s, reg);
    var k := Dev(s, b).session;
    var heads :| InStep(s, heads) && Unrepeated(heads);
    assert PairOk(s, reg, a, b) && Tagged(s, heads, a, b) && Homogeneous(s, k);
    OwnIsAll(Injected(s, k), k);
    assert Own(Injected(s, k), k) + [] == Own(Injected(s, k), k);
  }

  /** Both ends of every session agree, sessions share no device, and all that was
      forwarded in them has been injected. */
  ghost predicate Agreed(t: System) {
    && (forall a, b :: Session(t, a, b) <==> Dev(t, b).state == BeingControlled(a))
    && (forall a, b, c, d :: Session(t, a, b) && Session(t, c, d) && (a == c || b == d || a == d || b == c)
                             ==> a == c && b == d && a != b)
    && (forall a, b :: Session(t, a, b) ==>
                         Dev(t, a).session == Dev(t, b).session
                         && Injected(t, Dev(t, b).session) == Sent(t, Dev(t, a).session))
  }

  lemma Settled(t: System)
    requires Healthy(t) && Quiescent(t)
    ensures Agreed(t)
  {
    forall a, b ensures Session(t, a, b) <==> Dev(t, b).state == BeingControlled(a) {
      assert Imbalance(t, a, b) == 0;
      assert Chan(t, a, b) == [] && Chan(t, b, a) == [];
    }
    forall a, b | Session(t, a, b)
      ensures a != b && Dev(t, a).session == Dev(t, b).session
              && Injected(t, Dev(t, b).session) == Sent(t, Dev(t, a).session)
    {
      assert Chan(t, a, b) == [];
      SettledSession(t, a, b);
    }
  }

  lemma {:induction false} BenignHealthy(s: System, steps: seq<Step>)
    requires Start(s) && BenignRun(s, steps)
    ensures Healthy(Run(s, steps))
  {
    RunSound(s, steps);
    TokenConservation(s, steps);
    BenignForbidsReentry(s, steps);
    RunAligned(s, steps);
  }

  /** After any run at all, any order of deliveries is at most `Load` long. If the run
      was benign, simultaneous crossings of any number of devices included, then once
      nothing is in flight both ends of every session agree, sessions share no device,
      and all that was forwarded in them has been injected. */
  lemma {:induction false} DrainAgreement(s: System, steps: seq<Step>, deliveries: seq<Step>)
    requires Start(s) && Deliveries(Run(s, steps), deliveries)
    ensures |deliveries| <= Load(Run(s, steps).channels)
    ensures var t := After(Run(s, steps), deliveries);
            BenignRun(s, steps) && Quiescent(t) ==> Agreed(t)
  {
    var t := After(Run(s, steps), deliveries);
    RunWired(s, steps);
    DrainBounded(Run(s, steps), deliveries);
    LoadNonNegative(t.channels);
    if BenignRun(s, steps) && Quiescent(t) {
      BenignHealthy(s, steps);
      DrainHealthy(Run(s, steps), deliveries);
      Settled(t);
    }
  }
}
