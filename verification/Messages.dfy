/** The wire vocabulary shared by every device: identities, screen edges and the
    single flat message type (crates/ms-protocol/src/messages.rs). */
module Messages {

  /** A device's or a session's UUID; only equality of identities matters. */
  type DeviceId = nat
  type SessionId = nat

  /** A platform-independent physical key; only equality matters. */
  type LogicalKey = nat

  /** One past the largest `u32`. */
  const TWO32: int := 0x1_0000_0000

  datatype Option<+T> = None | Some(value: T)

  datatype ScreenEdge = Left | Right | Top | Bottom

  datatype OperatingSystem = Windows | MacOs

  datatype Button = LeftButton | RightButton | MiddleButton | BackButton | ForwardButton | OtherButton(n: nat)

  datatype Modifiers = Modifiers(shift: bool, control: bool, alt: bool, meta: bool, capsLock: bool)

  datatype HelloInfo = HelloInfo(
    protocolVersion: nat, deviceId: DeviceId, deviceName: string, os: OperatingSystem, sessionId: SessionId)

  datatype AckInfo = AckInfo(protocolVersion: nat, accepted: bool, reason: Option<string>)

  datatype Message =
    | Hello(hello: HelloInfo)
    | HelloAck(ack: AckInfo)
    | Heartbeat(beat: nat, sentAtMs: nat)
    | HeartbeatAck(ackedBeat: nat)
    | MouseMove(dx: real, dy: real, moveSeq: nat)
    | MouseWarp(x: real, y: real)
    | MouseButton(button: Button, buttonDown: bool)
    | MouseWheel(deltaX: real, deltaY: real, highResolution: bool)
    | KeyEvent(key: LogicalKey, keyDown: bool, modifiers: Modifiers, keySeq: nat)
    | EdgeEnter(edge: ScreenEdge, position: real, senderScale: real)
    | EdgeRelease
    | EdgeEnterRejected
    | ClipboardOffer(formats: nat)
    | ClipboardRequest
    | ClipboardData(data: seq<nat>)
    | Disconnect(reason: string)
  {
    /** The five kinds that are injected rather than interpreted. */
    predicate IsInput() {
      MouseMove? || MouseWarp? || MouseButton? || MouseWheel? || KeyEvent?
    }

    /** A hand-off coming back: the peer gave control back, or never took it. */
    predicate IsReturn() {
      EdgeRelease? || EdgeEnterRejected?
    }

    /** The kinds an established session only logs or uses for liveness. */
    predicate IsBackground() {
      Hello? || HelloAck? || Heartbeat? || HeartbeatAck? ||
      ClipboardOffer? || ClipboardRequest? || ClipboardData?
    }
  }
}
