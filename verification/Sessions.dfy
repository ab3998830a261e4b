/** What a controlled device injects, in any run at all: of the inputs stamped with
    the session it is in, a prefix of what was forwarded in that session. */
module Sessions {
  import opened Messages
  import opened Layout
  import opened EdgeMachine
  import opened Network
  import opened Handoff
  import opened Ledger
  import opened Conservation

  /** The inputs of session `k` in a channel from `a` to `b`, as log entries. */
  function Stamped(ch: seq<Packet>, a: DeviceId, b: DeviceId, k: nat): seq<Entry> {
    if ch == [] then []
    else (if ch[0].message.IsInput() && ch[0].session == k then [Entry(a, b, ch[0])] else []) + Stamped(ch[1..], a, b, k)
  }

  /** The entries that carry the stamp `k`. */
  function Own(log: seq<Entry>, k: nat): seq<Entry> {
    if log == [] then []
    else Own(log[..|log| - 1], k) + (if log[|log| - 1].packet.session == k then [log[|log| - 1]] else [])
  }

  /** What follows the EdgeEnter of session `k`, if it is still in the channel. */
  function Behind(ch: seq<Packet>, k: nat): Option<seq<Packet>> {
    if ch == [] then None
    else if ch[0].message.EdgeEnter? && ch[0].session == k then Some(ch[1..])
    else Behind(ch[1..], k)
  }

  lemma {:induction false} StampedPush(ch: seq<Packet>, p: Packet, a: DeviceId, b: DeviceId, k: nat)
    ensures Stamped(ch + [p], a, b, k)
         == Stamped(ch, a, b, k) + if p.message.IsInput() && p.session == k then [Entry(a, b, p)] else []
  {
    if ch == [] {
      assert [p][1..] == [];
    } else {
      assert (ch + [p])[1..] == ch[1..] + [p];
      StampedPush(ch[1..], p, a, b, k);
      var head := if ch[0].message.IsInput() && ch[0].session == k then [Entry(a, b, ch[0])] else [];
      var last := if p.message.IsInput() && p.session == k then [Entry(a, b, p)] else [];
      assert head + (Stamped(ch[1..], a, b, k) + last) == (head + Stamped(ch[1..], a, b, k)) + last;
    }
  }

  lemma {:induction false} BehindPush(ch: seq<Packet>, p: Packet, k: nat)
    ensures Behind(ch + [p], k)
         == if Behind(ch, k).Some? then Some(Behind(ch, k).value + [p])
            else if p.message.EdgeEnter? && p.session == k then Some([]) else None
  {
    if ch == [] {
      assert [p][1..] == [];
    } else {
      assert (ch + [p])[1..] == ch[1..] + [p];
      BehindPush(ch[1..], p, k);
    }
  }

  lemma OwnPush(log: seq<Entry>, e: Entry, k: nat)
    ensures Own(log + [e], k) == Own(log, k) + if e.packet.session == k then [e] else []
  {
    assert (log + [e])[..|log|] == log;
  }

  lemma {:induction false} BehindIsInside(ch: seq<Packet>, k: nat) returns (p: Packet)
    requires Behind(ch, k).Some?
    ensures p in ch && p.message.EdgeEnter? && p.session == k
  {
    if ch[0].message.EdgeEnter? && ch[0].session == k {
      p := ch[0];
    } else {
      p := BehindIsInside(ch[1..], k);
    }
  }

  lemma {:induction false} OwnInside(log: seq<Entry>, k: nat)
    ensures forall e :: e in Own(log, k) ==> e.packet.session == k
  {
    if log != [] {
      OwnInside(log[..|log| - 1], k);
    }
  }

  lemma {:induction false} OwnKeepsAll(log: seq<Entry>, k: nat)
    requires forall e :: e in log ==> e.packet.session == k
    ensures Own(log, k) == log
  {
    if log != [] {
      var front, last := log[..|log| - 1], log[|log| - 1];
      OwnKeepsAll(front, k);
      assert last in log && log == front + [last];
    }
  }

  /** The part of a log that carries its own stamp is the whole log exactly if
      nothing else is in it. */
  lemma OwnIsAll(log: seq<Entry>, k: nat)
    ensures Own(log, k) == log <==> forall e :: e in log ==> e.packet.session == k
  {
    OwnInside(log, k);
    if forall e :: e in log ==> e.packet.session == k {
      OwnKeepsAll(log, k);
    }
  }

  // ----- The invariant -----

  /** Which device each session number was given to, and to reach which. */
  type Registry = map<nat, (DeviceId, DeviceId)>

  ghost predicate Owns(reg: Registry, k: nat, a: DeviceId, b: DeviceId) {
    k in reg && reg[k] == (a, b)
  }

  ghost predicate RoleOk(s: System, reg: Registry, d: DeviceId) {
    match Dev(s, d).state
    case Idle => true
    case Controlling(target) => Owns(reg, Dev(s, d).session, d, target)
    case BeingControlled(source) => Owns(reg, Dev(s, d).session, source, d)
  }

  ghost predicate PacketsOk(s: System, reg: Registry, a: DeviceId, b: DeviceId) {
    forall p :: p in Chan(s, a, b) && (p.message.EdgeEnter? || p.message.IsInput()) ==> Owns(reg, p.session, a, b)
  }

  /** While the EdgeEnter of session `k` is on its way, it is undecided, and all that
      was forwarded in it queues behind. */
  ghost predicate EnterOk(s: System, a: DeviceId, b: DeviceId, k: nat) {
    var behind := Behind(Chan(s, a, b), k);
    behind.Some? ==>
      && Behind(behind.value, k).None?
      && k !in s.accepted && k !in s.refused
      && Injected(s, k) == [] && Sent(s, k) == Stamped(behind.value, a, b, k)
  }

  /** While `b` is in a session, what was injected of it and what is in flight of it
      make up exactly what was forwarded in it. */
  ghost predicate ControlOk(s: System, a: DeviceId, b: DeviceId) {
    Dev(s, b).state == BeingControlled(a) ==>
      var k := Dev(s, b).session;
      && k in s.accepted && Behind(Chan(s, a, b), k).None?
      && Sent(s, k) == Own(Injected(s, k), k) + Stamped(Chan(s, a, b), a, b, k)
  }

  ghost predicate LogOk(s: System, reg: Registry, k: nat) {
    && Own(Injected(s, k), k) <= Sent(s, k)
    && (k !in reg ==> Sent(s, k) == [] && k !in s.accepted && k !in s.refused)
    && (k in reg ==> k < s.nextSession)
    && (Injected(s, k) != [] ==> k in s.accepted)
    && !(k in s.accepted && k in s.refused)
    && (forall e :: e in Sent(s, k) ==> e.packet.session == k && e.packet.message.IsInput())
    && (forall e :: e in Injected(s, k) ==> e.packet.message.IsInput())
  }

  ghost predicate PairOk(s: System, reg: Registry, a: DeviceId, b: DeviceId) {
    && PacketsOk(s, reg, a, b)
    && ControlOk(s, a, b)
    && forall k :: EnterOk(s, a, b, k)
  }

  ghost predicate Registered(s: System, reg: Registry) {
    && (forall d :: RoleOk(s, reg, d))
    && (forall a, b :: PairOk(s, reg, a, b))
    && (forall k :: LogOk(s, reg, k))
  }

  ghost predicate Sound(s: System) {
    exists reg :: Registered(s, reg)
  }

  // ----- The elementary changes -----

  /** Nothing the invariant speaks of has changed but by removal. */
  lemma PopSound(s: System, reg: Registry, x: DeviceId, y: DeviceId)
    requires Registered(s, reg) && Chan(s, x, y) != []
    requires !Chan(s, x, y)[0].message.EdgeEnter?
    requires Chan(s, x, y)[0].message.IsInput() ==> Dev(s, y).state != BeingControlled(x)
    ensures Registered(Popped(s, x, y), reg)
  {
    var t := Popped(s, x, y);
    forall d ensures RoleOk(t, reg, d) {
      assert RoleOk(s, reg, d);
    }
    forall a, b ensures PairOk(t, reg, a, b) {
      assert PairOk(s, reg, a, b);
      forall k ensures EnterOk(t, a, b, k) {
        assert EnterOk(s, a, b, k);
      }
    }
    forall k ensures LogOk(t, reg, k) {
      assert LogOk(s, reg, k);
    }
  }

  /** The same logs and channels; no role but old ones, and sessions kept. */
  lemma FewerRolesSound(s: System, t: System, reg: Registry)
    requires Registered(s, reg) && t == s.(devices := t.devices)
    requires forall x :: Dev(t, x).session == Dev(s, x).session
    requires forall x :: Dev(t, x).state == Dev(s, x).state || Dev(t, x).state.Idle?
    ensures Registered(t, reg)
  {
    forall d ensures RoleOk(t, reg, d) {
      assert RoleOk(s, reg, d);
    }
    forall a, b ensures PairOk(t, reg, a, b) {
      assert PairOk(s, reg, a, b);
      forall k ensures EnterOk(t, a, b, k) {
        assert EnterOk(s, a, b, k);
      }
    }
    forall k ensures LogOk(t, reg, k) {
      assert LogOk(s, reg, k);
    }
  }

  /** A message that is neither an input nor an EdgeEnter changes nothing either. */
  lemma PushSound(s: System, t: System, reg: Registry, x: DeviceId, y: DeviceId, p: Packet)
    requires Registered(s, reg) && !p.message.IsInput() && !p.message.EdgeEnter?
    requires t == s || t == s.(channels := s.channels[(x, y) := Chan(s, x, y) + [p]])
    ensures Registered(t, reg)
  {
    forall d ensures RoleOk(t, reg, d) {
      assert RoleOk(s, reg, d);
    }
    forall a, b ensures PairOk(t, reg, a, b) {
      assert PairOk(s, reg, a, b);
      PushPair(s, t, a, b, p);
    }
    forall k ensures LogOk(t, reg, k) {
      assert LogOk(s, reg, k);
    }
  }

  /** One more packet in the channel from `a` to `b`, of none of its live sessions. */
  lemma PushPair(s: System, t: System, a: DeviceId, b: DeviceId, p: Packet)
    requires ControlOk(s, a, b) && forall k :: EnterOk(s, a, b, k)
    requires Chan(t, a, b) == Chan(s, a, b) || Chan(t, a, b) == Chan(s, a, b) + [p]
    requires !p.message.IsInput() && !p.message.EdgeEnter?
    requires t == s.(channels := t.channels)
    ensures ControlOk(t, a, b) && forall k :: EnterOk(t, a, b, k)
  {
    StampedPush(Chan(s, a, b), p, a, b, Dev(s, b).session);
    BehindPush(Chan(s, a, b), p, Dev(s, b).session);
    forall k ensures EnterOk(t, a, b, k) {
      assert EnterOk(s, a, b, k);
      BehindPush(Chan(s, a, b), p, k);
      var behind := Behind(Chan(s, a, b), k);
      if behind.Some? {
        StampedPush(behind.value, p, a, b, k);
        BehindPush(behind.value, p, k);
      }
    }
  }

  /** An idle device crosses: a fresh session, its EdgeEnter last in the channel if
      there is one. */
  lemma CrossSound(s: System, t: System, reg: Registry, d: DeviceId, to: DeviceId, dev: Device, m: Message)
    requires Registered(s, reg) && Dev(s, d).state.Idle? && m.EdgeEnter?
    requires dev.state == Controlling(to) && dev.session == s.nextSession
    requires t == s.(devices := s.devices[d := dev], nextSession := s.nextSession + 1, channels := t.channels)
    requires t.channels == s.channels
             || t.channels == s.channels[(d, to) := Chan(s, d, to) + [Packet(m, s.nextSession)]]
    ensures Registered(t, reg[s.nextSession := (d, to)])
  {
    var k, grown := s.nextSession, reg[s.nextSession := (d, to)];
    assert LogOk(s, reg, k);
    forall x ensures RoleOk(t, grown, x) {
      assert RoleOk(s, reg, x);
    }
    forall a, b ensures PairOk(t, grown, a, b) {
      assert PairOk(s, reg, a, b);
      CrossPair(s, t, reg, a, b, Packet(m, k));
    }
    forall j ensures LogOk(t, grown, j) {
      assert LogOk(s, reg, j);
    }
  }

  lemma CrossPair(s: System, t: System, reg: Registry, a: DeviceId, b: DeviceId, p: Packet)
    requires PairOk(s, reg, a, b) && p.message.EdgeEnter? && p.session !in reg
    requires LogOk(s, reg, p.session) && RoleOk(s, reg, b)
    requires t.sent == s.sent && t.injected == s.injected && t.accepted == s.accepted && t.refused == s.refused
    requires Dev(t, b).state.BeingControlled? ==> Dev(t, b) == Dev(s, b)
    requires Chan(t, a, b) == Chan(s, a, b) || Chan(t, a, b) == Chan(s, a, b) + [p]
    ensures ControlOk(t, a, b) && forall k :: EnterOk(t, a, b, k)
  {
    var ch := Chan(s, a, b);
    StampedPush(ch, p, a, b, Dev(s, b).session);
    BehindPush(ch, p, Dev(s, b).session);
    forall k ensures EnterOk(t, a, b, k) {
      assert EnterOk(s, a, b, k);
      BehindPush(ch, p, k);
      if Behind(ch, k).Some? {
        var inside := BehindIsInside(ch, k);
        StampedPush(Behind(ch, k).value, p, a, b, k);
        BehindPush(Behind(ch, k).value, p, k);
      } else if k == p.session {
        NoneCarried(s, reg, k);
      }
    }
  }

  /** Nothing is logged under a number that was never given out. */
  lemma NoneCarried(s: System, reg: Registry, k: nat)
    requires LogOk(s, reg, k) && k !in reg
    ensures Injected(s, k) == [] && Sent(s, k) == [] && k !in s.accepted && k !in s.refused
  {
  }

  /** `Send` of one input by the controller of its session. */
  lemma ForwardSound(s: System, reg: Registry, d: DeviceId, to: DeviceId, m: Message)
    requires Wired(s) && Registered(s, reg) && Dev(s, d).state == Controlling(to) && m.IsInput()
    ensures Registered(Send(s, d, to, Packet(m, Dev(s, d).session)), reg)
  {
    var p := Packet(m, Dev(s, d).session);
    var t := Send(s, d, to, p);
    assert RoleOk(s, reg, d);
    forall x ensures RoleOk(t, reg, x) {
      assert RoleOk(s, reg, x);
    }
    forall a, b ensures PairOk(t, reg, a, b) {
      assert PairOk(s, reg, a, b) && RoleOk(s, reg, b);
      assert Chan(t, a, b) == if a == d && b == to && Linked(s, d, to) then Chan(s, a, b) + [p] else Chan(s, a, b);
      if a == d && b == to {
        ForwardPair(s, t, d, to, p);
      } else {
        ForwardElsewhere(s, t, reg, a, b, p);
      }
    }
    forall j ensures LogOk(t, reg, j) {
      assert LogOk(s, reg, j);
    }
  }

  lemma ForwardPair(s: System, t: System, a: DeviceId, b: DeviceId, p: Packet)
    requires ControlOk(s, a, b) && forall k :: EnterOk(s, a, b, k)
    requires p.message.IsInput()
    requires !Linked(s, a, b) ==> Chan(s, a, b) == [] && Dev(s, b).state != BeingControlled(a)
    requires t == Send(s, a, b, p)
    ensures ControlOk(t, a, b) && forall k :: EnterOk(t, a, b, k)
  {
    assert Chan(t, a, b) == if Linked(s, a, b) then Chan(s, a, b) + [p] else Chan(s, a, b);
    assert forall k :: Sent(t, k) == if k == p.session then Sent(s, k) + [Entry(a, b, p)] else Sent(s, k);
    if Linked(s, a, b) {
      if Dev(s, b).state == BeingControlled(a) { ForwardControl(s, t, a, b, p); }
      forall k ensures EnterOk(t, a, b, k) {
        assert EnterOk(s, a, b, k);
        ForwardEnter(s, t, a, b, p, k);
      }
    }
  }

  /** The forwarded input joins what is in flight, last in the log and in the channel. */
  lemma ForwardControl(s: System, t: System, a: DeviceId, b: DeviceId, p: Packet)
    requires ControlOk(s, a, b) && Dev(s, b).state == BeingControlled(a) && p.message.IsInput()
    requires t.devices == s.devices && t.injected == s.injected && t.accepted == s.accepted
    requires Chan(t, a, b) == Chan(s, a, b) + [p]
    requires var k := Dev(s, b).session; Sent(t, k) == if k == p.session then Sent(s, k) + [Entry(a, b, p)] else Sent(s, k)
    ensures ControlOk(t, a, b)
  {
    var k, ch := Dev(s, b).session, Chan(s, a, b);
    StampedPush(ch, p, a, b, k);
    BehindPush(ch, p, k);
    var mine := Own(Injected(s, k), k);
    assert (mine + Stamped(ch, a, b, k)) + [Entry(a, b, p)] == mine + (Stamped(ch, a, b, k) + [Entry(a, b, p)]);
    assert Stamped(ch, a, b, k) + [] == Stamped(ch, a, b, k);
  }

  lemma ForwardEnter(s: System, t: System, a: DeviceId, b: DeviceId, p: Packet, k: nat)
    requires EnterOk(s, a, b, k) && p.message.IsInput()
    requires t.injected == s.injected && t.accepted == s.accepted && t.refused == s.refused
    requires Chan(t, a, b) == Chan(s, a, b) + [p]
    requires Sent(t, k) == if k == p.session then Sent(s, k) + [Entry(a, b, p)] else Sent(s, k)
    ensures EnterOk(t, a, b, k)
  {
    var behind := Behind(Chan(s, a, b), k);
    BehindPush(Chan(s, a, b), p, k);
    if behind.Some? {
      StampedPush(behind.value, p, a, b, k);
      BehindPush(behind.value, p, k);
      assert Stamped(behind.value, a, b, k) + [] == Stamped(behind.value, a, b, k);
    }
  }

  lemma ForwardElsewhere(s: System, t: System, reg: Registry, a: DeviceId, b: DeviceId, p: Packet)
    requires PairOk(s, reg, a, b) && RoleOk(s, reg, b)
    requires p.session in reg && reg[p.session] != (a, b)
    requires t.devices == s.devices && t.injected == s.injected && t.accepted == s.accepted && t.refused == s.refused
    requires Chan(t, a, b) == Chan(s, a, b)
    requires forall k :: k != p.session ==> Sent(t, k) == Sent(s, k)
    ensures PairOk(t, reg, a, b)
  {
    forall k ensures EnterOk(t, a, b, k) {
      assert EnterOk(s, a, b, k);
      if Behind(Chan(s, a, b), k).Some? {
        var inside := BehindIsInside(Chan(s, a, b), k);
      }
    }
  }

  /** The head EdgeEnter from `x` is taken up by the idle `y`. */
  lemma AcceptSound(s: System, t: System, reg: Registry, x: DeviceId, y: DeviceId, dev: Device)
    requires Registered(s, reg) && Chan(s, x, y) != [] && Chan(s, x, y)[0].message.EdgeEnter?
    requires Dev(s, y).state.Idle?
    requires var k := Chan(s, x, y)[0].session;
             && dev.state == BeingControlled(x) && dev.session == k
             && t == Popped(s, x, y).(devices := s.devices[y := dev], accepted := s.accepted + {k})
    ensures Registered(t, reg)
  {
    var k := Chan(s, x, y)[0].session;
    assert PairOk(s, reg, x, y) && EnterOk(s, x, y, k);
    forall d ensures RoleOk(t, reg, d) {
      assert RoleOk(s, reg, d);
    }
    forall a, b ensures PairOk(t, reg, a, b) {
      assert PairOk(s, reg, a, b);
      DecidedPair(s, t, reg, x, y, a, b);
      assert ControlOk(t, a, b) by {
        if a == x && b == y { assert Own([], k) == []; }
      }
    }
    forall j ensures LogOk(t, reg, j) {
      assert LogOk(s, reg, j);
    }
  }

  /** Deciding the head EdgeEnter from `x` leaves the other ones undecided. */
  lemma DecidedPair(s: System, t: System, reg: Registry, x: DeviceId, y: DeviceId, a: DeviceId, b: DeviceId)
    requires PairOk(s, reg, a, b) && PairOk(s, reg, x, y)
    requires Chan(s, x, y) != [] && Chan(s, x, y)[0].message.EdgeEnter?
    requires Chan(t, a, b) == Chan(Popped(s, x, y), a, b) && t.sent == s.sent && t.injected == s.injected
    requires var k := Chan(s, x, y)[0].session;
             t.accepted <= s.accepted + {k} && t.refused <= s.refused + {k}
    ensures PacketsOk(t, reg, a, b) && forall j :: EnterOk(t, a, b, j)
  {
    var k := Chan(s, x, y)[0].session;
    assert EnterOk(s, x, y, k);
    forall j ensures EnterOk(t, a, b, j) {
      assert EnterOk(s, a, b, j);
      if Behind(Chan(t, a, b), j).Some? {
        var inside := BehindIsInside(Chan(t, a, b), j);
        assert inside in Chan(s, a, b);
      }
    }
  }

  /** The head EdgeEnter from `x` is refused by the busy `y`. */
  lemma RefuseSound(s: System, t: System, reg: Registry, x: DeviceId, y: DeviceId)
    requires Registered(s, reg) && Chan(s, x, y) != [] && Chan(s, x, y)[0].message.EdgeEnter?
    requires t == Popped(s, x, y).(refused := s.refused + {Chan(s, x, y)[0].session})
    ensures Registered(t, reg)
  {
    var k := Chan(s, x, y)[0].session;
    assert PairOk(s, reg, x, y) && EnterOk(s, x, y, k);
    forall d ensures RoleOk(t, reg, d) {
      assert RoleOk(s, reg, d);
    }
    forall a, b ensures PairOk(t, reg, a, b) {
      assert PairOk(s, reg, a, b);
      DecidedPair(s, t, reg, x, y, a, b);
      PoppedControl(s, t, x, y, a, b);
    }
    forall j ensures LogOk(t, reg, j) {
      assert LogOk(s, reg, j);
      RefusedLog(s, t, reg, k, j);
    }
  }

  lemma PoppedControl(s: System, t: System, x: DeviceId, y: DeviceId, a: DeviceId, b: DeviceId)
    requires ControlOk(s, a, b) && Chan(s, x, y) != [] && Chan(s, x, y)[0].message.EdgeEnter?
    requires Dev(t, b) == Dev(s, b) && Chan(t, a, b) == Chan(Popped(s, x, y), a, b)
    requires t.sent == s.sent && t.injected == s.injected && t.accepted == s.accepted
    ensures ControlOk(t, a, b)
  {
  }

  lemma RefusedLog(s: System, t: System, reg: Registry, k: nat, j: nat)
    requires LogOk(s, reg, j) && k in reg && k !in s.accepted
    requires t.sent == s.sent && t.injected == s.injected && t.nextSession == s.nextSession
    requires t.accepted == s.accepted && t.refused == s.refused + {k}
    ensures LogOk(t, reg, j)
  {
    assert Sent(t, j) == Sent(s, j) && Injected(t, j) == Injected(s, j);
  }

  /** The head input from `x` is injected by `y`, which `x` controls. */
  lemma InjectSound(s: System, t: System, reg: Registry, x: DeviceId, y: DeviceId)
    requires Registered(s, reg) && Chan(s, x, y) != [] && Chan(s, x, y)[0].message.IsInput()
    requires Dev(s, y).state == BeingControlled(x)
    requires var k := Dev(s, y).session;
             t == Popped(s, x, y).(injected := s.injected[k := Injected(s, k) + [Entry(x, y, Chan(s, x, y)[0])]])
    ensures Registered(t, reg)
  {
    var k, e := Dev(s, y).session, Entry(x, y, Chan(s, x, y)[0]);
    assert RoleOk(s, reg, y) && PairOk(s, reg, x, y);
    assert forall j :: Injected(t, j) == if j == k then Injected(s, j) + [e] else Injected(s, j);
    InjectedHere(s, t, reg, x, y, e);
    forall d ensures RoleOk(t, reg, d) {
      assert RoleOk(s, reg, d);
    }
    forall a, b ensures PairOk(t, reg, a, b) {
      assert PairOk(s, reg, a, b) && RoleOk(s, reg, b);
      if a != x || b != y {
        InjectElsewhere(s, t, reg, a, b, k);
      }
    }
    forall j ensures LogOk(t, reg, j) {
      assert LogOk(s, reg, j);
      InjectedLog(s, t, reg, e, k, j);
    }
  }

  lemma InjectedLog(s: System, t: System, reg: Registry, e: Entry, k: nat, j: nat)
    requires LogOk(s, reg, j) && k in s.accepted && e.packet.message.IsInput()
    requires Injected(t, j) == if j == k then Injected(s, j) + [e] else Injected(s, j)
    requires Own(Injected(t, k), k) <= Sent(s, k)
    requires t.sent == s.sent && t.accepted == s.accepted && t.refused == s.refused && t.nextSession == s.nextSession
    ensures LogOk(t, reg, j)
  {
    assert Sent(t, j) == Sent(s, j);
  }

  lemma InjectedHere(s: System, t: System, reg: Registry, x: DeviceId, y: DeviceId, e: Entry)
    requires PairOk(s, reg, x, y) && Dev(s, y).state == BeingControlled(x)
    requires Chan(s, x, y) != [] && Chan(s, x, y)[0].message.IsInput() && e == Entry(x, y, Chan(s, x, y)[0])
    requires t.devices == s.devices && t.sent == s.sent && t.accepted == s.accepted && t.refused == s.refused
    requires Chan(t, x, y) == Chan(s, x, y)[1..]
    requires forall j :: Injected(t, j) == if j == Dev(s, y).session then Injected(s, j) + [e] else Injected(s, j)
    ensures PairOk(t, reg, x, y)
    ensures Own(Injected(t, Dev(s, y).session), Dev(s, y).session) <= Sent(s, Dev(s, y).session)
  {
    var k := Dev(s, y).session;
    InjectSplit(Injected(s, k), Chan(s, x, y), x, y, k);
    assert ControlOk(s, x, y) && Sent(t, k) == Sent(s, k);
    forall j ensures EnterOk(t, x, y, j) {
      assert EnterOk(s, x, y, j);
      InjectedEnter(s, t, x, y, j);
    }
  }

  lemma InjectedEnter(s: System, t: System, x: DeviceId, y: DeviceId, j: nat)
    requires EnterOk(s, x, y, j) && Chan(s, x, y) != [] && Chan(s, x, y)[0].message.IsInput()
    requires t.sent == s.sent && t.accepted == s.accepted && t.refused == s.refused
    requires Chan(t, x, y) == Chan(s, x, y)[1..] && (j !in s.accepted ==> Injected(t, j) == Injected(s, j))
    ensures EnterOk(t, x, y, j)
  {
    assert Sent(t, j) == Sent(s, j);
  }

  /** What moves from the channel to the log keeps its place between the two. */
  lemma InjectSplit(log: seq<Entry>, ch: seq<Packet>, x: DeviceId, y: DeviceId, k: nat)
    requires ch != [] && ch[0].message.IsInput()
    ensures Own(log + [Entry(x, y, ch[0])], k) + Stamped(ch[1..], x, y, k) == Own(log, k) + Stamped(ch, x, y, k)
  {
    var e, rest := Entry(x, y, ch[0]), Stamped(ch[1..], x, y, k);
    OwnPush(log, e, k);
    if e.packet.session == k {
      assert Own(log, k) + ([e] + rest) == (Own(log, k) + [e]) + rest;
    } else {
      assert [] + rest == rest && Own(log, k) + [] == Own(log, k);
    }
  }

  lemma InjectElsewhere(s: System, t: System, reg: Registry, a: DeviceId, b: DeviceId, k: nat)
    requires PairOk(s, reg, a, b) && RoleOk(s, reg, b) && k in reg && reg[k] != (a, b)
    requires t.devices == s.devices && t.sent == s.sent && t.accepted == s.accepted && t.refused == s.refused
    requires Chan(t, a, b) == Chan(s, a, b)
    requires forall j :: j != k ==> Injected(t, j) == Injected(s, j)
    ensures PairOk(t, reg, a, b)
  {
    forall j ensures EnterOk(t, a, b, j) {
      assert EnterOk(s, a, b, j);
      if Behind(Chan(s, a, b), j).Some? {
        var inside := BehindIsInside(Chan(s, a, b), j);
      }
    }
  }

  // ----- Every step -----

  lemma TouchSound(s: System, reg: Registry, step: Step) returns (grown: Registry)
    requires Registered(s, reg) && step.Touch?
    ensures Registered(Apply(s, step), grown)
  {
    var d := step.d;
    var dev := Dev(s, d);
    var event := LocalCursorAtEdge(step.edge, step.position);
    var r := Transition(d, dev.hotkey, dev.state, event, step.layout);
    FeedEffect(s, d, event, step.layout, 0);
    ResponseShape(d, dev.hotkey, dev.state, event, step.layout);
    var t := Became(s, d, r, 0);
    grown := reg;
    if r.state == dev.state {
      FewerRolesSound(s, t, reg);
    } else if dev.state.Idle? {
      grown := reg[s.nextSession := (d, r.state.target)];
      CrossSound(s, Apply(s, step), reg, d, r.state.target, Dev(t, d), Sends(r.actions)[0].1);
    } else {
      FewerRolesSound(s, t, reg);
      PushSound(t, Apply(s, step), reg, d, dev.state.source, Packet(EdgeRelease, dev.session));
    }
  }

  /** A local event other than a touch, emergency or not: a role ended, and one
      release or one input sent. */
  lemma LocalEventSound(s: System, reg: Registry, d: DeviceId, event: Event)
    requires Wired(s) && Registered(s, reg)
    requires event.LocalMouseMove? || event.LocalMouseButton? || event.LocalMouseWheel? || event.LocalKeyEvent?
    ensures Registered(Feed(s, d, event, EMPTY, 0), reg)
  {
    var dev := Dev(s, d);
    var r := Transition(d, dev.hotkey, dev.state, event, EMPTY);
    FeedEffect(s, d, event, EMPTY, 0);
    LocalShape(d, dev.hotkey, dev.state, event, EMPTY);
    var t := Became(s, d, r, 0);
    FewerRolesSound(s, t, reg);
    if dev.state.Controlling? {
      var to, m := dev.state.target, Sends(r.actions)[0].1;
      if m.EdgeRelease? {
        PushSound(t, Feed(s, d, event, EMPTY, 0), reg, d, to, Packet(m, dev.session));
      } else {
        LighterWired(s, t);
        ForwardSound(t, reg, d, to, m);
      }
    }
  }

  lemma KeySound(s: System, reg: Registry, step: Step)
    requires Wired(s) && Registered(s, reg) && step.Key?
    ensures Registered(Apply(s, step), reg)
  {
    var held := Capture.HeldAfter(Dev(s, step.d).held, step.key, step.pressed);
    var t := WithHeld(s, step.d, held);
    FewerRolesSound(s, t, reg);
    LighterWired(s, t);
    LocalEventSound(t, reg, step.d, LocalKeyEvent(step.key, step.pressed, step.modifiers, held));
  }

  /** Both ends' roles with each other over, and nothing in flight between them. */
  lemma SeveredSound(s: System, t: System, reg: Registry, x: DeviceId, y: DeviceId)
    requires Registered(s, reg)
    requires t == s.(devices := t.devices, links := t.links, channels := s.channels[(x, y) := []][(y, x) := []])
    requires forall z :: Dev(t, z).session == Dev(s, z).session
    requires forall z :: Dev(t, z).state == Dev(s, z).state || Dev(t, z).state.Idle?
    requires Dev(t, y).state != BeingControlled(x) && Dev(t, x).state != BeingControlled(y)
    ensures Registered(t, reg)
  {
    forall d ensures RoleOk(t, reg, d) {
      assert RoleOk(s, reg, d);
    }
    forall a, b ensures PairOk(t, reg, a, b) {
      assert PairOk(s, reg, a, b);
      assert Chan(t, a, b) == if (a == x && b == y) || (a == y && b == x) then [] else Chan(s, a, b);
      forall k ensures EnterOk(t, a, b, k) {
        assert EnterOk(s, a, b, k);
      }
    }
    forall k ensures LogOk(t, reg, k) {
      assert LogOk(s, reg, k);
    }
  }

  lemma DropSound(s: System, reg: Registry, x: DeviceId, y: DeviceId)
    requires Registered(s, reg)
    ensures Registered(Drop(s, x, y), reg)
  {
    if x != y && Linked(s, x, y) {
      var cut := Cut(s, x, y);
      LossEffect(cut, x, y);
      LossEffect(Feed(cut, x, ConnectionLost(y), EMPTY, 0), y, x);
      SeveredSound(s, Drop(s, x, y), reg, x, y);
    }
  }

  lemma ConnectSound(s: System, reg: Registry, x: DeviceId, y: DeviceId)
    requires Wired(s) && Registered(s, reg)
    ensures Registered(Apply(s, Connect(x, y)), reg)
  {
    if x != y && !Linked(s, x, y) {
      assert !Linked(s, y, x);
      SeveredSound(s, Apply(s, Connect(x, y)), reg, x, y);
    }
  }

  lemma ReturnSound(s: System, reg: Registry, x: DeviceId, y: DeviceId)
    requires Registered(s, reg) && Chan(s, x, y) != [] && Chan(s, x, y)[0].message.IsReturn()
    ensures Registered(Apply(s, Deliver(x, y)), reg)
  {
    var t := Popped(s, x, y);
    var event := Route(x, Chan(s, x, y)[0].message).event;
    var stamp := Chan(s, x, y)[0].session;
    PopSound(s, reg, x, y);
    FeedEffect(t, y, event, EMPTY, stamp);
    ResponseShape(y, Dev(t, y).hotkey, Dev(t, y).state, event, EMPTY);
    FewerRolesSound(t, Feed(t, y, event, EMPTY, stamp), reg);
  }

  lemma EnterSound(s: System, reg: Registry, x: DeviceId, y: DeviceId)
    requires Registered(s, reg) && Chan(s, x, y) != [] && Chan(s, x, y)[0].message.EdgeEnter?
    ensures Registered(Apply(s, Deliver(x, y)), reg)
  {
    var t, p := Popped(s, x, y), Chan(s, x, y)[0];
    var event := Route(x, p.message).event;
    FeedEffect(t, y, event, EMPTY, p.session);
    ResponseShape(y, Dev(t, y).hotkey, Dev(t, y).state, event, EMPTY);
    var u := Feed(t, y, event, EMPTY, p.session);
    if Dev(s, y).state.Idle? {
      AcceptSound(s, Apply(s, Deliver(x, y)), reg, x, y, Dev(u, y));
    } else {
      var v := t.(refused := t.refused + {p.session});
      RefuseSound(s, v, reg, x, y);
      ReplySound(v, Apply(s, Deliver(x, y)), reg, x, y, Dev(u, y));
    }
  }

  /** The rejection goes out; the device itself stays in its role. */
  lemma ReplySound(s: System, t: System, reg: Registry, x: DeviceId, y: DeviceId, dev: Device)
    requires Registered(s, reg) && dev.state == Dev(s, y).state && dev.session == Dev(s, y).session
    requires var u := s.(devices := s.devices[y := dev]);
             t == u || t == u.(channels := u.channels[(y, x) := Chan(u, y, x) + [Packet(EdgeEnterRejected, dev.session)]])
    ensures Registered(t, reg)
  {
    var u := s.(devices := s.devices[y := dev]);
    FewerRolesSound(s, u, reg);
    PushSound(u, t, reg, y, x, Packet(EdgeEnterRejected, dev.session));
  }

  lemma InputSound(s: System, reg: Registry, x: DeviceId, y: DeviceId)
    requires Registered(s, reg) && Chan(s, x, y) != [] && Chan(s, x, y)[0].message.IsInput()
    ensures Registered(Apply(s, Deliver(x, y)), reg)
  {
    var t, p := Popped(s, x, y), Chan(s, x, y)[0];
    var event := PeerInputMessage(x, p.message);
    FeedEffect(t, y, event, EMPTY, p.session);
    ResponseShape(y, Dev(t, y).hotkey, Dev(t, y).state, event, EMPTY);
    var u := Feed(t, y, event, EMPTY, p.session);
    if Dev(s, y).state == BeingControlled(x) {
      var k := Dev(s, y).session;
      var v := t.(injected := s.injected[k := Injected(s, k) + [Entry(x, y, p)]]);
      InjectSound(s, v, reg, x, y);
      FewerRolesSound(v, u, reg);
    } else {
      PopSound(s, reg, x, y);
      FewerRolesSound(t, u, reg);
    }
  }

  lemma DeliverSound(s: System, reg: Registry, x: DeviceId, y: DeviceId)
    requires Registered(s, reg)
    ensures Registered(Apply(s, Deliver(x, y)), reg)
  {
    if Chan(s, x, y) != [] {
      var m := Chan(s, x, y)[0].message;
      if m.IsReturn() {
        ReturnSound(s, reg, x, y);
      } else if m.EdgeEnter? {
        EnterSound(s, reg, x, y);
      } else if m.IsInput() {
        InputSound(s, reg, x, y);
      } else {
        PopSound(s, reg, x, y);
        DropSound(Popped(s, x, y), reg, x, y);
      }
    }
  }

  /** Every step keeps the invariant, emergencies, losses and dropped sends included. */
  lemma StepSound(s: System, step: Step)
    requires Wired(s) && Sound(s)
    ensures Sound(Apply(s, step))
  {
    var reg :| Registered(s, reg);
    match step
    case Touch(_, _, _, _) => var grown := TouchSound(s, reg, step);
    case Local(d, input) => LocalEventSound(s, reg, d, input.ToEvent());
    case Key(_, _, _, _) => KeySound(s, reg, step);
    case Deliver(a, b) => DeliverSound(s, reg, a, b);
    case Lose(a, b) => DropSound(s, reg, a, b);
    case Connect(a, b) => ConnectSound(s, reg, a, b);
    case Background(a, b, message) =>
      if message.IsBackground() || message.Disconnect? { PushSound(s, Apply(s, step), reg, a, b, Packet(message, 0)); }
  }

  // ----- Main results -----

  lemma StartSound(s: System)
    requires Start(s)
    ensures Sound(s)
  {
    var reg: Registry := map[];
    forall d ensures RoleOk(s, reg, d) {
      assert Dev(s, d).state == Idle;
    }
    forall a, b ensures PairOk(s, reg, a, b) {
      assert Dev(s, b).state == Idle;
    }
    forall k ensures LogOk(s, reg, k) {
      assert Own(Injected(s, k), k) == [];
    }
    assert Registered(s, reg);
  }

  lemma {:induction false} RunSound(s: System, steps: seq<Step>)
    requires Start(s)
    ensures Wired(Run(s, steps)) && Sound(Run(s, steps))
    decreases |steps|
  {
    RunWired(s, steps);
    if steps == [] {
      StartSound(s);
    } else {
      var before := steps[..|steps| - 1];
      RunSound(s, before);
      StepSound(Run(s, before), steps[|steps| - 1]);
    }
  }

  /** In every run at all: what was injected in a session is a prefix of what was
      forwarded in it exactly if nothing from another session was injected in it.
      What was injected of the session itself always is such a prefix, and nothing
      is ever injected in a session that was refused or not yet taken up. */
  lemma PrefixExact(s: System, steps: seq<Step>, k: nat)
    requires Start(s)
    ensures var t := Run(s, steps);
            && (Injected(t, k) <= Sent(t, k) <==> forall e :: e in Injected(t, k) ==> e.packet.session == k)
            && Own(Injected(t, k), k) <= Sent(t, k)
            && (forall e :: e in Injected(t, k) ==> e.packet.message.IsInput())
            && (k in t.refused || k !in t.accepted ==> Injected(t, k) == [])
  {
    RunSound(s, steps);
    var t := Run(s, steps);
    var reg :| Registered(t, reg);
    assert LogOk(t, reg, k);
    OwnIsAll(Injected(t, k), k);
    if Injected(t, k) <= Sent(t, k) {
      forall e | e in Injected(t, k) ensures e.packet.session == k {
        var i :| 0 <= i < |Injected(t, k)| && Injected(t, k)[i] == e;
        assert Sent(t, k)[i] == e;
      }
    }
  }
}
