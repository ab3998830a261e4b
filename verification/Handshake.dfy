/** The symmetric Hello / HelloAck exchange (crates/ms-core-service/src/session.rs):
    one end as a procedure, and both ends over every interleaving. */
module Handshake {
  import opened Messages

  datatype SessionError =
    | FramingFailed
    | ClosedDuringHandshake
    | RejectedByPeer(reason: string)
    | VersionMismatch(local: nat, peer: nat)

  datatype Verdict = Agreed(peer: HelloInfo) | Refused(error: SessionError)

  /** How a stream ends: the peer closed it, or reading it failed. */
  datatype Ending = Eof | Broken

  function EndError(ending: Ending): SessionError {
    match ending
    case Eof => ClosedDuringHandshake
    case Broken => FramingFailed
  }

  function Decimal(n: nat): string {
    if n < 10 then [('0' as int + n) as char] else Decimal(n / 10) + [('0' as int + n % 10) as char]
  }

  function AckFor(expects: nat, peer: HelloInfo): Message {
    var accepted := peer.protocolVersion == expects;
    HelloAck(AckInfo(expects, accepted, if accepted then None else Some("expected protocol version " + Decimal(expects))))
  }

  /** What the exchange comes to, given all that arrives and how the stream ends. */
  function Judge(expects: nat, arrived: seq<Message>, ending: Ending): Verdict {
    if arrived == [] then Refused(EndError(ending))
    else if !arrived[0].Hello? then Refused(RejectedByPeer("expected Hello as the first message"))
    else
      var peer := arrived[0].hello;
      if peer.protocolVersion != expects then Refused(VersionMismatch(expects, peer.protocolVersion))
      else if |arrived| == 1 then Refused(EndError(ending))
      else match arrived[1]
           case HelloAck(ack) =>
             if ack.accepted then Agreed(peer)
             else Refused(RejectedByPeer(if ack.reason.Some? then ack.reason.value else "no reason given"))
           case _ => Refused(RejectedByPeer("expected HelloAck as the second message"))
  }

  /** What is written: a Hello, and an answer if a Hello came. */
  function Script(hello: HelloInfo, expects: nat, arrived: seq<Message>): seq<Message> {
    [Hello(hello)] + if arrived != [] && arrived[0].Hello? then [AckFor(expects, arrived[0].hello)] else []
  }

  /** An end agrees, and then with the one who said Hello, if and only if a Hello of the
      version it expects came first and an accepting HelloAck next. What else comes first
      or next decides what it refuses with. */
  lemma JudgeExactly(expects: nat, arrived: seq<Message>, ending: Ending)
    ensures var verdict := Judge(expects, arrived, ending);
            var greeted := |arrived| >= 1 && arrived[0].Hello?;
            var matched := greeted && arrived[0].hello.protocolVersion == expects;
            var over := if ending == Eof then ClosedDuringHandshake else FramingFailed;
            && (verdict.Agreed? <==> matched && |arrived| >= 2 && arrived[1].HelloAck? && arrived[1].ack.accepted)
            && (verdict.Agreed? ==> verdict.peer == arrived[0].hello)
            && (|arrived| == 0 || (matched && |arrived| == 1) ==> verdict == Refused(over))
            && (|arrived| >= 1 && !greeted ==>
                  verdict == Refused(RejectedByPeer("expected Hello as the first message")))
            && (greeted && !matched ==>
                  verdict == Refused(VersionMismatch(expects, arrived[0].hello.protocolVersion)))
            && (matched && |arrived| >= 2 && !arrived[1].HelloAck? ==>
                  verdict == Refused(RejectedByPeer("expected HelloAck as the second message")))
            && (matched && |arrived| >= 2 && arrived[1].HelloAck? && !arrived[1].ack.accepted ==>
                  verdict == Refused(RejectedByPeer(match arrived[1].ack.reason
                                                    case None => "no reason given"
                                                    case Some(reason) => reason)))
  {
  }

  /** What is written: the own Hello; and to a Hello an answer that accepts exactly the
      expected version, and names it otherwise. */
  lemma ScriptExactly(hello: HelloInfo, expects: nat, arrived: seq<Message>)
    ensures var written := Script(hello, expects, arrived);
            var greeted := |arrived| >= 1 && arrived[0].Hello?;
            && |written| == (if greeted then 2 else 1) && written[0] == Hello(hello)
            && (greeted ==>
                  && written[1].HelloAck? && written[1].ack.protocolVersion == expects
                  && (written[1].ack.accepted <==> arrived[0].hello.protocolVersion == expects)
                  && written[1].ack.reason
                     == if written[1].ack.accepted then None
                        else Some("expected protocol version " + Decimal(expects)))
  {
  }

  function ReadDecimal(digits: string): int {
    if digits == [] then 0
    else 10 * ReadDecimal(digits[..|digits| - 1]) + (digits[|digits| - 1] as int - '0' as int)
  }

  /** The version in that text reads back as the number, in digits and without a leading
      zero but for zero itself. */
  lemma {:induction false} DecimalReadsBack(n: nat)
    ensures ReadDecimal(Decimal(n)) == n && |Decimal(n)| >= 1
    ensures forall i :: 0 <= i < |Decimal(n)| ==> '0' <= Decimal(n)[i] <= '9'
    ensures n > 0 ==> Decimal(n)[0] != '0'
  {
    var digit := ('0' as int + n % 10) as char;
    if n >= 10 {
      DecimalReadsBack(n / 10);
      assert Decimal(n)[..|Decimal(n)| - 1] == Decimal(n / 10);
    } else {
      assert n % 10 == n;
      assert Decimal(n)[..0] == [];
    }
  }

  // ----- One end, as a procedure -----

  datatype StreamOp = Wrote(message: Message) | Awaited

  class MessageStream {
    var inbox: seq<Message>
    const ending: Ending
    var outbox: seq<Message>
    /** Every write and read, in the order in which they were made. */
    var log: seq<StreamOp>

    constructor (inbox: seq<Message>, ending: Ending)
      ensures this.inbox == inbox && this.ending == ending && outbox == [] && log == []
    {
      this.inbox, this.ending, outbox, log := inbox, ending, [], [];
    }

    method Read() returns (message: Option<Message>)
      modifies this`inbox, this`log
      ensures old(inbox) == [] ==> message == None && inbox == []
      ensures old(inbox) != [] ==> message == Some(old(inbox)[0]) && inbox == old(inbox)[1..]
      ensures log == old(log) + [Awaited]
    {
      log := log + [Awaited];
      if inbox == [] {
        return None;
      }
      message := Some(inbox[0]);
      inbox := inbox[1..];
    }

    method Write(message: Message)
      modifies this`outbox, this`log
      ensures outbox == old(outbox) + [message]
      ensures log == old(log) + [Wrote(message)]
    {
      outbox := outbox + [message];
      log := log + [Wrote(message)];
    }
  }

  /** The order of writes and reads: the own Hello before anything is awaited, the answer
      before the other's answer is, so that two ends never wait for each other. */
  function Order(hello: HelloInfo, expects: nat, arrived: seq<Message>): seq<StreamOp> {
    if |arrived| == 0 || !arrived[0].Hello? then [Wrote(Hello(hello)), Awaited]
    else
      var answer := Wrote(AckFor(expects, arrived[0].hello));
      if arrived[0].hello.protocolVersion != expects then [Wrote(Hello(hello)), Awaited, answer]
      else [Wrote(Hello(hello)), Awaited, answer, Awaited]
  }

  method Handshake(stream: MessageStream, local: HelloInfo, expects: nat) returns (verdict: Verdict)
    modifies stream
    ensures verdict == Judge(expects, old(stream.inbox), stream.ending)
    ensures stream.outbox == old(stream.outbox) + Script(local, expects, old(stream.inbox))
    ensures stream.log == old(stream.log) + Order(local, expects, old(stream.inbox))
  {
    stream.Write(Hello(local));
    var first := stream.Read();
    if first.None? {
      return Refused(EndError(stream.ending));
    }
    if !first.value.Hello? {
      return Refused(RejectedByPeer("expected Hello as the first message"));
    }
    var peer := first.value.hello;
    stream.Write(AckFor(expects, peer));
    if peer.protocolVersion != expects {
      return Refused(VersionMismatch(expects, peer.protocolVersion));
    }
    var second := stream.Read();
    if second.None? {
      return Refused(EndError(stream.ending));
    }
    match second.value
    case HelloAck(ack) =>
      if ack.accepted {
        return Agreed(peer);
      }
      return Refused(RejectedByPeer(if ack.reason.Some? then ack.reason.value else "no reason given"));
    case _ =>
      return Refused(RejectedByPeer("expected HelloAck as the second message"));
  }

  // ----- Both ends, step by step -----

  /** The next thing an end will do. */
  datatype Stage = SayHello | AwaitHello | Answer | AwaitAnswer | Finished(verdict: Verdict)

  /** `received` and `written` are the whole history of this end. */
  datatype End = End(hello: HelloInfo, expects: nat, stage: Stage, received: seq<Message>, written: seq<Message>)

  /** One direction of the connection; a closed one takes nothing more. */
  datatype Line = Line(queue: seq<Message>, open: bool)

  /** The two ends, and the line into each. */
  datatype Pair = Pair(a: End, b: End, toA: Line, toB: Line)

  /** The same connection, seen from the other end. */
  function Flip(p: Pair): Pair {
    Pair(p.b, p.a, p.toB, p.toA)
  }

  /** `noticed`: a write to a closed line, or a read past its end, fails at once
      rather than going unnoticed or reading as a clean end. */
  datatype Move =
    | Act(noticed: bool)
    | Hangup
    | Cut(keep: nat)

  datatype Step = Step(atA: bool, move: Move)

  function WriteA(p: Pair, message: Message, next: Stage, noticed: bool): Pair {
    if p.toB.open then
      p.(a := p.a.(stage := next, written := p.a.written + [message]), toB := p.toB.(queue := p.toB.queue + [message]))
    else if noticed then p.(a := p.a.(stage := Finished(Refused(FramingFailed))))
    else p.(a := p.a.(stage := next, written := p.a.written + [message]))
  }

  /** After a message: answer a Hello, or finish with what `Judge` says of the history. */
  function StageAfter(e: End): Stage {
    if |e.received| == 1 && e.received[0].Hello? then Answer
    else Finished(Judge(e.expects, e.received, Eof))
  }

  function ReadA(p: Pair, noticed: bool): Pair {
    if p.toA.queue != [] then
      var got := p.a.(received := p.a.received + [p.toA.queue[0]]);
      p.(a := got.(stage := StageAfter(got)), toA := p.toA.(queue := p.toA.queue[1..]))
    else if p.toA.open then p
    else p.(a := p.a.(stage := Finished(Judge(p.a.expects, p.a.received, if noticed then Broken else Eof))))
  }

  function ActA(p: Pair, noticed: bool): Pair {
    match p.a.stage
    case SayHello => WriteA(p, Hello(p.a.hello), AwaitHello, noticed)
    case AwaitHello => ReadA(p, noticed)
    case Answer =>
      if p.a.received == [] || !p.a.received[0].Hello? then p
      else
        var peer := p.a.received[0].hello;
        WriteA(p, AckFor(p.a.expects, peer),
               if peer.protocolVersion == p.a.expects then AwaitAnswer
               else Finished(Refused(VersionMismatch(p.a.expects, peer.protocolVersion))), noticed)
    case AwaitAnswer => ReadA(p, noticed)
    case Finished(_) => p
  }

  /** What can happen at end `a`: its next action, its stream dropped once it has
      failed, or the line into it cut with only `keep` messages still to come. */
  function NextA(p: Pair, move: Move): Pair {
    match move
    case Act(noticed) => ActA(p, noticed)
    case Hangup =>
      if p.a.stage.Finished? && p.a.stage.verdict.Refused?
      then p.(toA := p.toA.(open := false), toB := p.toB.(open := false))
      else p
    case Cut(keep) =>
      p.(toA := Line(if keep < |p.toA.queue| then p.toA.queue[..keep] else p.toA.queue, false))
  }

  function Next(p: Pair, step: Step): Pair {
    if step.atA then NextA(p, step.move) else Flip(NextA(Flip(p), step.move))
  }

  function Run(p: Pair, steps: seq<Step>): Pair
    decreases |steps|
  {
    if steps == [] then p else Next(Run(p, steps[..|steps| - 1]), steps[|steps| - 1])
  }

  predicate Unstarted(e: End) {
    e.stage == SayHello && e.received == [] && e.written == []
  }

  predicate Start(p: Pair) {
    Unstarted(p.a) && Unstarted(p.b) && p.toA == Line([], true) && p.toB == Line([], true)
  }

  /** Each end announces the version the other expects. */
  predicate Compatible(p: Pair) {
    p.a.hello.protocolVersion == p.b.expects && p.b.hello.protocolVersion == p.a.expects
  }

  predicate SamePeople(p: Pair, q: Pair) {
    && p.a.hello == q.a.hello && p.a.expects == q.a.expects
    && p.b.hello == q.b.hello && p.b.expects == q.b.expects
  }

  // ----- What every interleaving keeps, cuts included -----

  ghost predicate HistoryOk(e: End, other: End) {
    && |e.received| <= 2 && |e.written| <= 2
    && (|e.written| >= 1 ==> e.written[0] == Hello(e.hello))
    && (|e.written| == 2 ==> |e.received| >= 1 && e.written[1] == AckFor(e.expects, other.hello))
    && (|e.received| >= 1 ==> |e.written| >= 1 && e.received[0] == Hello(other.hello))
    && (|e.received| == 2 ==> |e.written| == 2 && e.received[1] == AckFor(other.expects, e.hello)
                              && other.hello.protocolVersion == e.expects)
  }

  ghost predicate StageOk(e: End, other: End) {
    match e.stage
    case SayHello => |e.written| == 0 && |e.received| == 0
    case AwaitHello => |e.written| == 1 && |e.received| == 0
    case Answer => |e.written| == 1 && |e.received| == 1
    case AwaitAnswer => |e.written| == 2 && |e.received| == 1 && other.hello.protocolVersion == e.expects
    case Finished(verdict) =>
      && (verdict == Refused(FramingFailed) || verdict == Judge(e.expects, e.received, Eof))
      && (verdict.Agreed? ==> |e.received| == 2)
      && (verdict.Refused? && |e.received| == 2 ==> e.hello.protocolVersion != other.expects)
  }

  /** What `e` has received and may still receive is a prefix of what was written to
      it; all of it while the line is open. */
  ghost predicate LineOk(e: End, line: Line, other: End) {
    e.received + line.queue <= other.written && (line.open ==> e.received + line.queue == other.written)
  }

  ghost predicate Orderly(p: Pair) {
    && HistoryOk(p.a, p.b) && HistoryOk(p.b, p.a)
    && StageOk(p.a, p.b) && StageOk(p.b, p.a)
    && LineOk(p.a, p.toA, p.b) && LineOk(p.b, p.toB, p.a)
  }

  lemma StartOrderly(p: Pair)
    requires Start(p)
    ensures Orderly(p)
  {
  }

  lemma WriteOrderly(p: Pair, message: Message, next: Stage, noticed: bool)
    requires Orderly(p) && |p.a.received| < 2
    requires var e := p.a.(stage := next, written := p.a.written + [message]);
             HistoryOk(e, p.b) && StageOk(e, p.b)
    ensures Orderly(WriteA(p, message, next, noticed))
  {
    if p.toB.open {
      assert p.b.received + (p.toB.queue + [message]) == (p.b.received + p.toB.queue) + [message];
    }
  }

  lemma ReadOrderly(p: Pair, noticed: bool)
    requires Orderly(p) && (p.a.stage.AwaitHello? || p.a.stage.AwaitAnswer?)
    ensures Orderly(ReadA(p, noticed))
  {
    if p.toA.queue != [] {
      var m := p.toA.queue[0];
      assert p.b.written[|p.a.received|] == m by {
        assert (p.a.received + p.toA.queue)[|p.a.received|] == m;
      }
      assert (p.a.received + [m]) + p.toA.queue[1..] == p.a.received + p.toA.queue;
    }
  }

  lemma ActOrderly(p: Pair, noticed: bool)
    requires Orderly(p)
    ensures Orderly(ActA(p, noticed)) && SamePeople(p, ActA(p, noticed))
  {
    match p.a.stage
    case SayHello => WriteOrderly(p, Hello(p.a.hello), AwaitHello, noticed);
    case AwaitHello => ReadOrderly(p, noticed);
    case Answer =>
      var peer := p.a.received[0].hello;
      WriteOrderly(p, AckFor(p.a.expects, peer),
                   if peer.protocolVersion == p.a.expects then AwaitAnswer
                   else Finished(Refused(VersionMismatch(p.a.expects, peer.protocolVersion))), noticed);
    case AwaitAnswer => ReadOrderly(p, noticed);
    case Finished(_) =>
  }

  lemma NextAOrderly(p: Pair, move: Move)
    requires Orderly(p)
    ensures Orderly(NextA(p, move)) && SamePeople(p, NextA(p, move))
  {
    match move
    case Act(noticed) => ActOrderly(p, noticed);
    case Hangup =>
    case Cut(keep) => CutOrderly(p, keep);
  }

  lemma CutOrderly(p: Pair, keep: nat)
    requires Orderly(p)
    ensures Orderly(NextA(p, Cut(keep))) && SamePeople(p, NextA(p, Cut(keep)))
  {
    if keep < |p.toA.queue| {
      assert p.a.received + p.toA.queue[..keep] == (p.a.received + p.toA.queue)[..|p.a.received| + keep];
    }
  }

  lemma NextOrderly(p: Pair, step: Step)
    requires Orderly(p)
    ensures Orderly(Next(p, step)) && SamePeople(p, Next(p, step))
  {
    NextAOrderly(if step.atA then p else Flip(p), step.move);
  }

  lemma {:induction false} RunOrderly(p: Pair, steps: seq<Step>)
    requires Start(p)
    ensures Orderly(Run(p, steps)) && SamePeople(p, Run(p, steps))
    decreases |steps|
  {
    if steps == [] {
      StartOrderly(p);
    } else {
      RunOrderly(p, steps[..|steps| - 1]);
      NextOrderly(Run(p, steps[..|steps| - 1]), steps[|steps| - 1]);
    }
  }

  // ----- Agreement, wherever and whenever the connection is cut -----

  /** Whatever is cut and in whatever order things happen: an end that agrees has the
      other's Hello, and each end announced what the other expects. */
  lemma {:induction false} AgreementMeansCompatible(p: Pair, steps: seq<Step>)
    requires Start(p)
    ensures var q := Run(p, steps);
            && (q.a.stage.Finished? && q.a.stage.verdict.Agreed? ==> q.a.stage.verdict.peer == p.b.hello && Compatible(p))
            && (q.b.stage.Finished? && q.b.stage.verdict.Agreed? ==> q.b.stage.verdict.peer == p.a.hello && Compatible(p))
  {
    RunOrderly(p, steps);
    var q := Run(p, steps);
    AgreedEnd(q);
    AgreedEnd(Flip(q));
  }

  lemma AgreedEnd(q: Pair)
    requires Orderly(q)
    ensures q.a.stage.Finished? && q.a.stage.verdict.Agreed? ==> q.a.stage.verdict.peer == q.b.hello && Compatible(q)
  {
  }

  /** Every finished end decided as the sequential procedure would on what it had
      received, or failed to write. */
  lemma {:induction false} EndsJudge(p: Pair, steps: seq<Step>)
    requires Start(p)
    ensures var q := Run(p, steps);
            && (q.a.stage.Finished? ==> q.a.stage.verdict == Refused(FramingFailed)
                                        || q.a.stage.verdict == Judge(p.a.expects, q.a.received, Eof))
            && (q.b.stage.Finished? ==> q.b.stage.verdict == Refused(FramingFailed)
                                        || q.b.stage.verdict == Judge(p.b.expects, q.b.received, Eof))
            && q.a.written <= Script(p.a.hello, p.a.expects, q.a.received)
            && q.b.written <= Script(p.b.hello, p.b.expects, q.b.received)
  {
    RunOrderly(p, steps);
    EndJudges(Run(p, steps));
    EndJudges(Flip(Run(p, steps)));
  }

  lemma EndJudges(q: Pair)
    requires Orderly(q)
    ensures q.a.stage.Finished? ==> q.a.stage.verdict == Refused(FramingFailed)
                                    || q.a.stage.verdict == Judge(q.a.expects, q.a.received, Eof)
    ensures q.a.written <= Script(q.a.hello, q.a.expects, q.a.received)
  {
  }

  // ----- Reliable connections: no deadlock, and both ends agree -----

  predicate Uncut(steps: seq<Step>) {
    forall i :: 0 <= i < |steps| ==> !steps[i].move.Cut?
  }

  predicate Failed(e: End) {
    e.stage.Finished? && e.stage.verdict.Refused?
  }

  /** Lines close only because an end has failed, and failures only happen between
      ends that are not compatible. */
  ghost predicate Fair(p: Pair) {
    && p.toA.open == p.toB.open
    && (!p.toA.open ==> Failed(p.a) || Failed(p.b))
    && (Compatible(p) ==> !Failed(p.a) && !Failed(p.b))
  }

  lemma NextAFair(p: Pair, move: Move)
    requires Orderly(p) && Fair(p) && !move.Cut?
    ensures Fair(NextA(p, move))
  {
    NextAOrderly(p, move);
    var q := NextA(p, move);
    if move.Act? && Failed(q.a) && !Failed(p.a) && Compatible(p) {
      assert p.toA.open && p.toB.open;
      assert p.a.received + p.toA.queue == p.b.written;
    }
  }

  lemma {:induction false} RunFair(p: Pair, steps: seq<Step>)
    requires Start(p) && Uncut(steps)
    ensures Orderly(Run(p, steps)) && Fair(Run(p, steps)) && SamePeople(p, Run(p, steps))
    decreases |steps|
  {
    RunOrderly(p, steps);
    if steps != [] {
      var before, last := steps[..|steps| - 1], steps[|steps| - 1];
      RunFair(p, before);
      NextAFair(if last.atA then Run(p, before) else Flip(Run(p, before)), last.move);
    }
  }

  function Rank(stage: Stage): nat {
    match stage
    case SayHello => 4
    case AwaitHello => 3
    case Answer => 2
    case AwaitAnswer => 1
    case Finished(_) => 0
  }

  /** What is left to do: at most ten steps that change anything. */
  function Left(p: Pair): nat {
    Rank(p.a.stage) + Rank(p.b.stage) + (if p.toA.open then 1 else 0) + (if p.toB.open then 1 else 0)
  }

  /** A step either changes nothing or leaves less to do. */
  lemma StepsCount(p: Pair, step: Step)
    requires Orderly(p) && !step.move.Cut?
    ensures Next(p, step) == p || Left(Next(p, step)) < Left(p)
  {
    StepACounts(if step.atA then p else Flip(p), step.move);
  }

  lemma StepACounts(p: Pair, move: Move)
    requires Orderly(p) && !move.Cut?
    ensures NextA(p, move) == p || Left(NextA(p, move)) < Left(p)
  {
    if move.Act? && (p.a.stage.AwaitHello? || p.a.stage.AwaitAnswer?) && p.toA.queue != [] {
      ActOrderly(p, move.noticed);
    }
  }

  predicate Over(p: Pair) {
    p.a.stage.Finished? && p.b.stage.Finished?
  }

  /** While an end is unfinished, one of the two can act, or a failed end's hang-up
      is still to come. */
  lemma NoDeadlock(p: Pair, steps: seq<Step>) returns (step: Step)
    requires Start(p) && Uncut(steps) && !Over(Run(p, steps))
    ensures !step.move.Cut? && Left(Next(Run(p, steps), step)) < Left(Run(p, steps))
  {
    RunFair(p, steps);
    var q := Run(p, steps);
    if !q.a.stage.Finished? {
      step := Unblock(q);
    } else {
      var mirrored := Unblock(Flip(q));
      step := Step(!mirrored.atA, mirrored.move);
    }
  }

  lemma Unblock(p: Pair) returns (step: Step)
    requires Orderly(p) && Fair(p) && !p.a.stage.Finished?
    ensures !step.move.Cut? && Left(Next(p, step)) < Left(p)
  {
    if p.a.stage.SayHello? || p.a.stage.Answer? || p.toA.queue != [] || !p.toA.open {
      step := Step(true, Act(false));
    } else if Failed(p.b) {
      step := Step(false, Hangup);
    } else {
      assert p.b.written == p.a.received;
      step := Step(false, Act(false));
      if p.b.stage.AwaitHello? {
        assert |p.a.written| == 2 && p.b.received + p.toB.queue == p.a.written;
        assert p.toB.queue != [];
      }
    }
  }

  /** On a connection that is not cut, in every interleaving: once both ends are done,
      both agree, each with the other's Hello, if they are compatible, and both refuse
      if they are not. */
  lemma {:induction false} HandshakeAgreement(p: Pair, steps: seq<Step>)
    requires Start(p) && Uncut(steps) && Over(Run(p, steps))
    ensures var q := Run(p, steps);
            if Compatible(p) then q.a.stage.verdict == Agreed(p.b.hello) && q.b.stage.verdict == Agreed(p.a.hello)
            else q.a.stage.verdict.Refused? && q.b.stage.verdict.Refused?
  {
    RunFair(p, steps);
    AgreementMeansCompatible(p, steps);
  }
}
