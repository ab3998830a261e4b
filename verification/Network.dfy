/** The registry of live sessions and the routing of what arrives on one
    (crates/ms-daemon/src/network.rs). */
module Network {
  import opened Messages
  import opened EdgeMachine

  /** What the read loop does with one arriving message. */
  datatype Routed = Dispatch(event: Event) | Ignore | Close

  function Route(peer: DeviceId, message: Message): (routed: Routed)
    ensures routed.Close? <==> message.Disconnect?
    ensures message.IsBackground() ==> routed.Ignore?
    ensures message.EdgeEnter? ==> routed == Dispatch(PeerEdgeEnter(peer, message.edge, message.position))
    ensures message.EdgeRelease? ==> routed == Dispatch(PeerEdgeRelease(peer))
    ensures message.EdgeEnterRejected? ==> routed == Dispatch(PeerEdgeEnterRejected(peer))
    ensures message.IsInput() ==> routed == Dispatch(PeerInputMessage(peer, message))
  {
    match message
    case EdgeEnter(edge, position, _) => Dispatch(PeerEdgeEnter(peer, edge, position))
    case EdgeRelease => Dispatch(PeerEdgeRelease(peer))
    case EdgeEnterRejected => Dispatch(PeerEdgeEnterRejected(peer))
    case Disconnect(_) => Close
    case _ => if message.IsInput() then Dispatch(PeerInputMessage(peer, message)) else Ignore
  }

  /** What the event queue receives from messages alone: everything up to the
      first graceful disconnect. */
  function Events(peer: DeviceId, arriving: seq<Message>): seq<Event> {
    if arriving == [] then []
    else match Route(peer, arriving[0])
         case Close => []
         case Ignore => Events(peer, arriving[1..])
         case Dispatch(event) => [event] + Events(peer, arriving[1..])
  }

  lemma {:induction false} EventsExtend(peer: DeviceId, before: seq<Message>, message: Message)
    requires forall m :: m in before ==> !m.Disconnect?
    ensures Events(peer, before + [message])
         == Events(peer, before)
            + if Route(peer, message).Dispatch? then [Route(peer, message).event] else []
    ensures Events(peer, []) == []
  {
    if before == [] {
      assert ([message])[1..] == [];
    } else {
      assert (before + [message])[1..] == before[1..] + [message];
      EventsExtend(peer, before[1..], message);
    }
  }

  lemma {:induction false} EventsStop(peer: DeviceId, before: seq<Message>, after: seq<Message>)
    requires forall m :: m in before ==> !m.Disconnect?
    requires after != [] && after[0].Disconnect?
    ensures Events(peer, before + after) == Events(peer, before)
  {
    if before == [] {
      assert before + after == after;
    } else {
      assert (before + after)[1..] == before[1..] + after;
      EventsStop(peer, before[1..], after);
    }
  }

  lemma EventsNext(peer: DeviceId, arriving: seq<Message>, i: nat)
    requires i < |arriving| && forall m :: m in arriving[..i] ==> !m.Disconnect?
    ensures Events(peer, arriving[..i + 1])
         == Events(peer, arriving[..i])
            + if Route(peer, arriving[i]).Dispatch? then [Route(peer, arriving[i]).event] else []
  {
    assert arriving[..i + 1] == arriving[..i] + [arriving[i]];
    EventsExtend(peer, arriving[..i], arriving[i]);
  }

  lemma EventsUpTo(peer: DeviceId, arriving: seq<Message>, i: nat)
    requires i <= |arriving| && forall m :: m in arriving[..i] ==> !m.Disconnect?
    requires i < |arriving| ==> arriving[i].Disconnect?
    ensures Events(peer, arriving) == Events(peer, arriving[..i])
  {
    assert arriving == arriving[..i] + arriving[i..];
    if i < |arriving| {
      EventsStop(peer, arriving[..i], arriving[i..]);
    } else {
      assert arriving[..i] == arriving;
    }
  }

  /** Queues a list of messages, dropping those to peers with no live session. */
  function SendAll(peers: map<DeviceId, seq<Message>>, sends: seq<(DeviceId, Message)>): map<DeviceId, seq<Message>> {
    if sends == [] then peers
    else
      var (to, message) := sends[0];
      SendAll(if to in peers then peers[to := peers[to] + [message]] else peers, sends[1..])
  }

  /** What of it is for one peer. */
  function MessagesTo(peer: DeviceId, sends: seq<(DeviceId, Message)>): seq<Message> {
    if sends == [] then []
    else (if sends[0].0 == peer then [sends[0].1] else []) + MessagesTo(peer, sends[1..])
  }

  /** Every live session's queue grows by what is for its peer, in order, and no other
      session comes to be. */
  lemma {:induction false} SendAllExactly(peers: map<DeviceId, seq<Message>>, sends: seq<(DeviceId, Message)>, peer: DeviceId)
    ensures peer in SendAll(peers, sends) <==> peer in peers
    ensures peer in peers ==> SendAll(peers, sends)[peer] == peers[peer] + MessagesTo(peer, sends)
    decreases sends
  {
    if sends != [] {
      var (to, message) := sends[0];
      SendAllExactly(if to in peers then peers[to := peers[to] + [message]] else peers, sends[1..], peer);
      if peer in peers {
        var first := if to == peer then [message] else [];
        assert (peers[peer] + first) + MessagesTo(peer, sends[1..]) == peers[peer] + (first + MessagesTo(peer, sends[1..]));
      }
    }
  }

  lemma {:induction false} SendAllExtend(peers: map<DeviceId, seq<Message>>,
                                         before: seq<(DeviceId, Message)>, after: seq<(DeviceId, Message)>)
    ensures SendAll(peers, before + after) == SendAll(SendAll(peers, before), after)
    decreases before
  {
    if before == [] {
      assert before + after == after;
    } else {
      assert (before + after)[1..] == before[1..] + after;
      var (to, message) := before[0];
      SendAllExtend(if to in peers then peers[to := peers[to] + [message]] else peers, before[1..], after);
    }
  }

  class ChannelNetworkSender {
    /** Each live session's outbound queue. */
    var peers: map<DeviceId, seq<Message>>

    constructor ()
      ensures peers == map[]
    {
      peers := map[];
    }

    method Register(device: DeviceId)
      modifies this
      ensures peers == old(peers)[device := []]
    {
      peers := peers[device := []];
    }

    method Unregister(device: DeviceId)
      modifies this
      ensures peers == old(peers) - {device}
    {
      peers := peers - {device};
    }

    method Send(to: DeviceId, message: Message)
      modifies this
      ensures peers == SendAll(old(peers), [(to, message)])
    {
      assert [(to, message)][1..] == [];
      if to in peers {
        peers := peers[to := peers[to] + [message]];
      }
    }
  }

  /** The queue `CoreService`'s task reads. */
  class EventQueue {
    var events: seq<Event>

    constructor ()
      ensures events == []
    {
      events := [];
    }
  }

  /** What other tasks send while a session lasts: one batch before each of its reads. */
  function SentDuring(meanwhile: seq<seq<(DeviceId, Message)>>, rounds: nat): seq<(DeviceId, Message)> {
    if rounds == 0 then []
    else SentDuring(meanwhile, rounds - 1) + if rounds <= |meanwhile| then meanwhile[rounds - 1] else []
  }

  /** How often the session reads: up to a disconnect, or the end of the stream. */
  function ReadsOf(arriving: seq<Message>): nat {
    if arriving == [] || arriving[0].Disconnect? then 1 else 1 + ReadsOf(arriving[1..])
  }

  lemma {:induction false} ReadsUpTo(arriving: seq<Message>, i: nat)
    requires i <= |arriving| && forall k :: 0 <= k < i ==> !arriving[k].Disconnect?
    requires i < |arriving| ==> arriving[i].Disconnect?
    ensures ReadsOf(arriving) == i + 1
    decreases i
  {
    if i > 0 {
      ReadsUpTo(arriving[1..], i - 1);
    }
  }

  method SendBatch(network: ChannelNetworkSender, sends: seq<(DeviceId, Message)>)
    modifies network
    ensures network.peers == SendAll(old(network.peers), sends)
  {
    var i := 0;
    while i < |sends|
      invariant 0 <= i <= |sends|
      invariant network.peers == SendAll(old(network.peers), sends[..i])
    {
      SendAllExtend(old(network.peers), sends[..i], [sends[i]]);
      assert sends[..i + 1] == sends[..i] + [sends[i]];
      network.Send(sends[i].0, sends[i].1);
      i := i + 1;
    }
    assert sends[..i] == sends;
  }

  /** The life of one established session: register, route what arrives until the
      stream ends (by end of input, error or disconnect), unregister, report the loss.
      Whatever arrives, the loss is reported exactly once and last. What other tasks send
      to the peer meanwhile, all of it and in order, is what its writer is handed. */
  method RunSession(peer: DeviceId, arriving: seq<Message>, meanwhile: seq<seq<(DeviceId, Message)>>,
                    network: ChannelNetworkSender, queue: EventQueue)
    returns (handed: seq<Message>)
    modifies network, queue
    ensures handed == MessagesTo(peer, SentDuring(meanwhile, ReadsOf(arriving)))
    ensures peer !in network.peers
    ensures forall p :: p != peer ==>
                          && (p in network.peers <==> p in old(network.peers))
                          && (p in network.peers ==>
                                network.peers[p]
                                == old(network.peers)[p] + MessagesTo(p, SentDuring(meanwhile, ReadsOf(arriving))))
    ensures queue.events == old(queue.events) + Events(peer, arriving) + [ConnectionLost(peer)]
  {
    network.Register(peer);
    var rounds := Pump(peer, arriving, meanwhile, network, queue);
    SessionQueues(old(network.peers), peer, SentDuring(meanwhile, rounds));
    handed := network.peers[peer];
    network.Unregister(peer);
    queue.events := queue.events + [ConnectionLost(peer)];
  }

  /** The read loop, with what others send meanwhile. */
  method Pump(peer: DeviceId, arriving: seq<Message>, meanwhile: seq<seq<(DeviceId, Message)>>,
              network: ChannelNetworkSender, queue: EventQueue)
    returns (rounds: nat)
    modifies network, queue
    ensures rounds == ReadsOf(arriving)
    ensures network.peers == SendAll(old(network.peers), SentDuring(meanwhile, rounds))
    ensures queue.events == old(queue.events) + Events(peer, arriving)
  {
    rounds := 0;
    var i := 0;
    while rounds == i
      invariant 0 <= i <= |arriving| && i <= rounds <= i + 1
      invariant forall k :: 0 <= k < i ==> !arriving[k].Disconnect?
      invariant rounds > i && i < |arriving| ==> arriving[i].Disconnect?
      invariant queue.events == old(queue.events) + Events(peer, arriving[..i])
      invariant network.peers == SendAll(old(network.peers), SentDuring(meanwhile, rounds))
      decreases |arriving| - i, i + 1 - rounds
    {
      SendRound(meanwhile, rounds, network, old(network.peers));
      rounds := rounds + 1;
      if i < |arriving| && !arriving[i].Disconnect? {
        EventsNext(peer, arriving, i);
        var routed := Route(peer, arriving[i]);
        if routed.Dispatch? {
          queue.events := queue.events + [routed.event];
        }
        i := i + 1;
      }
    }
    EventsUpTo(peer, arriving, i);
    ReadsUpTo(arriving, i);
  }

  method SendRound(meanwhile: seq<seq<(DeviceId, Message)>>, round: nat, network: ChannelNetworkSender,
                   ghost first: map<DeviceId, seq<Message>>)
    requires network.peers == SendAll(first, SentDuring(meanwhile, round))
    modifies network
    ensures network.peers == SendAll(first, SentDuring(meanwhile, round + 1))
  {
    var batch := if round < |meanwhile| then meanwhile[round] else [];
    SendAllExtend(first, SentDuring(meanwhile, round), batch);
    SendBatch(network, batch);
  }

  /** From a fresh queue for `peer`, and everybody else's as it was. */
  lemma SessionQueues(peers: map<DeviceId, seq<Message>>, peer: DeviceId, sends: seq<(DeviceId, Message)>)
    ensures var after := SendAll(peers[peer := []], sends);
            && peer in after && after[peer] == MessagesTo(peer, sends)
            && forall p :: p != peer ==>
                             (p in after <==> p in peers) && (p in after ==> after[p] == peers[p] + MessagesTo(p, sends))
  {
    SendAllExactly(peers[peer := []], sends, peer);
    forall p | p != peer
      ensures p in SendAll(peers[peer := []], sends) <==> p in peers
      ensures p in peers ==> SendAll(peers[peer := []], sends)[p] == peers[p] + MessagesTo(p, sends)
    {
      SendAllExactly(peers[peer := []], sends, p);
    }
  }
}
