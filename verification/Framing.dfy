/** Length-prefixed messages on a byte stream (crates/ms-protocol/src/framing.rs) and
    the two pumps over it (crates/ms-core-service/src/session.rs). The body encoding
    is a parameter: any codec that decodes what it encodes. */
module Framing {
  import opened Messages

  newtype Byte = b: int | 0 <= b < 256

  const MAX_MESSAGE_BYTES: int := 16 * 1024 * 1024

  datatype Codec<!M> = Codec(encode: M -> seq<Byte>, decode: seq<Byte> -> Option<M>)

  ghost predicate Faithful<M(!new)>(c: Codec<M>) {
    forall m :: c.decode(c.encode(m)) == Some(m)
  }

  datatype FramingError = Io | TooLarge(length: int) | Decode

  datatype ReadResult<+M> = Got(message: M) | Closed | Failed(error: FramingError)

  // ----- The length header -----

  /** The low `width` bytes of `n`, least significant first. */
  function LeBytes(n: nat, width: nat): (bytes: seq<Byte>)
    ensures |bytes| == width
  {
    if width == 0 then [] else [(n % 256) as Byte] + LeBytes(n / 256, width - 1)
  }

  function FromLeBytes(bytes: seq<Byte>): nat {
    if bytes == [] then 0 else bytes[0] as int + 256 * FromLeBytes(bytes[1..])
  }

  function Pow256(width: nat): nat {
    if width == 0 then 1 else 256 * Pow256(width - 1)
  }

  /** Reading the bytes back gives the number truncated to their width. */
  lemma {:induction false} LeBytesRoundTrip(n: nat, width: nat) returns (q: nat)
    ensures n == q * Pow256(width) + FromLeBytes(LeBytes(n, width))
    ensures FromLeBytes(LeBytes(n, width)) < Pow256(width)
  {
    if width == 0 {
      q := n;
    } else {
      var p := Pow256(width - 1);
      q := LeBytesRoundTrip(n / 256, width - 1);
      var low := FromLeBytes(LeBytes(n / 256, width - 1));
      assert LeBytes(n, width)[1..] == LeBytes(n / 256, width - 1);
      assert n == 256 * (q * p + low) + n % 256;
      MulRegroup(q, p);
    }
  }

  lemma MulRegroup(q: int, p: int)
    ensures 256 * (q * p) == q * (256 * p)
  {
  }

  /** `(n as u32).to_le_bytes()`: the length truncated to 32 bits. */
  function Header(n: nat): (bytes: seq<Byte>)
    ensures |bytes| == 4
  {
    LeBytes(n, 4)
  }

  lemma HeaderRoundTrip(n: nat)
    ensures FromLeBytes(Header(n)) == n % TWO32
  {
    var q := LeBytesRoundTrip(n, 4);
    assert Pow256(4) == 256 * Pow256(3) && Pow256(3) == 256 * Pow256(2) && Pow256(2) == 256 * Pow256(1);
    RemainderOf(n, q, FromLeBytes(Header(n)));
  }

  lemma RemainderOf(n: int, q: int, r: int)
    requires n == q * TWO32 + r && 0 <= r < TWO32
    ensures n % TWO32 == r
  {
  }

  // ----- Writing and reading -----

  function Frame<M>(c: Codec<M>, m: M): seq<Byte> {
    Header(|c.encode(m)|) + c.encode(m)
  }

  /** What a reader finds at the head of its input, and what it leaves behind. */
  function ReadOne<M>(c: Codec<M>, input: seq<Byte>): (ReadResult<M>, seq<Byte>) {
    if |input| < 4 then (Closed, [])
    else
      var length := FromLeBytes(input[..4]);
      if length > MAX_MESSAGE_BYTES then (Failed(TooLarge(length)), input[4..])
      else if |input| - 4 < length then (Failed(Io), [])
      else
        var rest := input[4 + length..];
        match c.decode(input[4..4 + length])
        case None => (Failed(Decode), rest)
        case Some(m) => (Got(m), rest)
  }

  /** Everything a reader gets until the stream ends, and how it ends. */
  function ReadAll<M>(c: Codec<M>, input: seq<Byte>): (seq<M>, ReadResult<M>)
    decreases |input|
  {
    var (result, rest) := ReadOne(c, input);
    if result.Got? then
      var (more, end) := ReadAll(c, rest);
      ([result.message] + more, end)
    else ([], result)
  }

  function Wire<M>(c: Codec<M>, ms: seq<M>): seq<Byte> {
    if ms == [] then [] else Frame(c, ms[0]) + Wire(c, ms[1..])
  }

  predicate Fits<M>(c: Codec<M>, m: M) {
    |c.encode(m)| <= MAX_MESSAGE_BYTES
  }

  /** Four bytes, the first the least significant. */
  lemma HeaderReads(bytes: seq<Byte>)
    requires |bytes| == 4
    ensures FromLeBytes(bytes)
         == bytes[0] as int + 256 * bytes[1] as int + 65536 * bytes[2] as int + 16777216 * bytes[3] as int
  {
    assert bytes[1..][1..] == bytes[2..] && bytes[2..][1..] == bytes[3..] && bytes[3..][1..] == [];
    assert FromLeBytes(bytes[3..]) == bytes[3] as int;
    assert FromLeBytes(bytes[2..]) == bytes[2] as int + 256 * bytes[3] as int;
  }

  lemma HeaderWrites(n: nat)
    ensures Header(n) == [(n % 256) as Byte, (n / 256 % 256) as Byte, (n / 65536 % 256) as Byte, (n / 16777216 % 256) as Byte]
  {
    assert n / 256 / 256 == n / 65536 && n / 65536 / 256 == n / 16777216;
    assert LeBytes(n / 16777216, 1) == [(n / 16777216 % 256) as Byte];
    assert LeBytes(n / 65536, 2) == [(n / 65536 % 256) as Byte] + LeBytes(n / 16777216, 1);
    assert LeBytes(n / 256, 3) == [(n / 256 % 256) as Byte] + LeBytes(n / 65536, 2);
  }

  /** What a reader makes of any input at all: nothing of less than a header, no more than
      16 MiB at a time, all of the body or none, and only what decodes. */
  lemma ReadExactly<M>(c: Codec<M>, input: seq<Byte>)
    ensures var (result, rest) := ReadOne(c, input);
            if |input| < 4 then result == Closed && rest == []
            else
              var n := input[0] as int + 256 * input[1] as int + 65536 * input[2] as int + 16777216 * input[3] as int;
              && (result == Failed(TooLarge(n)) <==> n > 16777216)
              && (n > 16777216 ==> rest == input[4..])
              && (n <= 16777216 && |input| < 4 + n ==> result == Failed(Io) && rest == [])
              && (n <= 16777216 && |input| >= 4 + n ==>
                    && rest == input[4 + n..]
                    && result == match c.decode(input[4..4 + n])
                                 case None => Failed(Decode)
                                 case Some(m) => Got(m))
  {
    if |input| >= 4 { HeaderReads(input[..4]); }
  }

  // ----- One frame at the head of the input -----

  lemma FrameHead<M>(c: Codec<M>, m: M, rest: seq<Byte>)
    ensures var input := Frame(c, m) + rest;
            && |input| >= 4 && FromLeBytes(input[..4]) == |c.encode(m)| % TWO32
            && input[4..] == c.encode(m) + rest
  {
    HeaderRoundTrip(|c.encode(m)|);
    assert (Frame(c, m) + rest)[..4] == Header(|c.encode(m)|);
  }

  lemma ReadFrame<M(!new)>(c: Codec<M>, m: M, rest: seq<Byte>)
    requires Faithful(c) && Fits(c, m)
    ensures ReadOne(c, Frame(c, m) + rest) == (Got(m), rest)
  {
    FrameHead(c, m, rest);
    var input, n := Frame(c, m) + rest, |c.encode(m)|;
    assert input[4..4 + n] == c.encode(m);
    assert input[4 + n..] == rest;
  }

  /** A frame cut short: silent inside the header, an error inside the body. */
  lemma ReadCutFrame<M>(c: Codec<M>, m: M, n: nat)
    requires Fits(c, m) && n < |Frame(c, m)|
    ensures ReadOne(c, Frame(c, m)[..n]).0 == if n < 4 then Closed else Failed(Io)
  {
    FrameHead(c, m, []);
    assert Frame(c, m) + [] == Frame(c, m);
    if n >= 4 {
      assert Frame(c, m)[..n][..4] == Frame(c, m)[..4];
    }
  }

  lemma ReadAllCons<M(!new)>(c: Codec<M>, m: M, rest: seq<Byte>)
    requires Faithful(c) && Fits(c, m)
    ensures ReadAll(c, Frame(c, m) + rest) == ([m] + ReadAll(c, rest).0, ReadAll(c, rest).1)
  {
    ReadFrame(c, m, rest);
  }

  lemma ReadAllCut<M>(c: Codec<M>, m: M, n: nat)
    requires Fits(c, m) && n < |Frame(c, m)|
    ensures ReadAll(c, Frame(c, m)[..n]) == ([], if n < 4 then Closed else Failed(Io))
  {
    ReadCutFrame(c, m, n);
  }

  // ----- Whole streams -----

  /** How many leading messages are within the limit. */
  function FitCount<M>(c: Codec<M>, ms: seq<M>): (n: nat)
    ensures n <= |ms|
    ensures forall i :: 0 <= i < n ==> Fits(c, ms[i])
    ensures n < |ms| ==> !Fits(c, ms[n])
  {
    if ms == [] || !Fits(c, ms[0]) then 0 else 1 + FitCount(c, ms[1..])
  }

  /** Messages within the limit are read as sent, up to the first that is not. */
  lemma {:induction false} StreamReads<M(!new)>(c: Codec<M>, ms: seq<M>)
    requires Faithful(c)
    ensures var n := FitCount(c, ms);
            var (more, end) := ReadAll(c, Wire(c, ms[n..]));
            ReadAll(c, Wire(c, ms)) == (ms[..n] + more, end)
    decreases |ms|
  {
    var n := FitCount(c, ms);
    var rest := ReadAll(c, Wire(c, ms[n..]));
    if n == 0 {
      assert ms[0..] == ms && ms[..0] == [];
      assert [] + rest.0 == rest.0;
    } else {
      StreamReads(c, ms[1..]);
      assert ms[1..][n - 1..] == ms[n..];
      StreamStep(c, ms, n, rest.0, rest.1);
    }
  }

  lemma StreamStep<M(!new)>(c: Codec<M>, ms: seq<M>, n: nat, more: seq<M>, end: ReadResult<M>)
    requires Faithful(c) && 0 < n <= |ms| && Fits(c, ms[0])
    requires ReadAll(c, Wire(c, ms[1..])) == (ms[1..][..n - 1] + more, end)
    ensures ReadAll(c, Wire(c, ms)) == (ms[..n] + more, end)
  {
    ReadAllCons(c, ms[0], Wire(c, ms[1..]));
    PrependTake(ms, n, more);
  }

  lemma PrependTake<T>(xs: seq<T>, n: nat, more: seq<T>)
    requires 0 < n <= |xs|
    ensures [xs[0]] + (xs[1..][..n - 1] + more) == xs[..n] + more
  {
    TakeCons(xs, n - 1);
  }

  /** What a reader makes of a body over the limit. The header has its length modulo
      2^32; if that is over the limit too, the reader stops and names it, if not, it
      takes that much of the body for a message. */
  lemma ReadMisfit<M>(c: Codec<M>, m: M, rest: seq<Byte>)
    requires !Fits(c, m)
    ensures var w := |c.encode(m)| % TWO32;
            var all := ReadAll(c, Frame(c, m) + rest);
            if w > MAX_MESSAGE_BYTES then all == ([], Failed(TooLarge(w)))
            else match c.decode(c.encode(m)[..w])
                 case None => all == ([], Failed(Decode))
                 case Some(other) => all.0 != [] && all.0[0] == other
  {
    FrameHead(c, m, rest);
    var input, w := Frame(c, m) + rest, |c.encode(m)| % TWO32;
    if w <= MAX_MESSAGE_BYTES {
      TakePrefix(c.encode(m), rest, w);
      assert input[4..4 + w] == input[4..][..w];
    }
  }

  lemma TakePrefix<T>(front: seq<T>, back: seq<T>, n: nat)
    requires n <= |front|
    ensures (front + back)[..n] == front[..n]
  {
  }

  /** No body but its own decodes to a message. */
  ghost predicate Strict<M(!new)>(c: Codec<M>) {
    forall m, body :: c.decode(body) == Some(m) ==> body == c.encode(m)
  }

  /** Messages whose bodies are within the limit come back as sent, in order, and then
      a clean end. With a strict codec or lengths that a header can hold, that is so
      only if they all are. Before the first one that is not, everything comes back;
      then the error that names its length modulo 2^32, or, if just that is within the
      limit, whatever so much of its body decodes to. */
  lemma {:induction false} StreamRoundTrip<M(!new)>(c: Codec<M>, ms: seq<M>)
    requires Faithful(c)
    ensures (forall i :: 0 <= i < |ms| ==> Fits(c, ms[i])) ==> ReadAll(c, Wire(c, ms)) == (ms, Closed)
    ensures Strict(c) || (forall i :: 0 <= i < |ms| ==> |c.encode(ms[i])| < TWO32) ==>
              (ReadAll(c, Wire(c, ms)) == (ms, Closed) <==> forall i :: 0 <= i < |ms| ==> Fits(c, ms[i]))
    ensures forall n :: 0 <= n < |ms| && !Fits(c, ms[n]) && (forall i :: 0 <= i < n ==> Fits(c, ms[i])) ==>
                          MisfitRead(c, ms, n)
  {
    var n := FitCount(c, ms);
    StreamReads(c, ms);
    if n == |ms| {
      assert ms[n..] == [] && ms[..n] == ms;
      EmptyWire(c);
      assert ms + [] == ms;
    } else {
      MisfitDecides(c, ms, n);
    }
  }

  lemma EmptyWire<M>(c: Codec<M>)
    ensures ReadAll(c, Wire<M>(c, [])) == ([], Closed)
  {
  }

  /** The outcome when message `n` is the first over the limit. */
  ghost predicate MisfitRead<M>(c: Codec<M>, ms: seq<M>, n: nat)
    requires n < |ms|
  {
    var w := |c.encode(ms[n])| % TWO32;
    var all := ReadAll(c, Wire(c, ms));
    if w > MAX_MESSAGE_BYTES then all == (ms[..n], Failed(TooLarge(w)))
    else
      w <= |c.encode(ms[n])| &&
      match c.decode(c.encode(ms[n])[..w])
      case None => all == (ms[..n], Failed(Decode))
      case Some(other) => ms[..n] + [other] <= all.0
  }

  lemma MisfitDecides<M(!new)>(c: Codec<M>, ms: seq<M>, n: nat)
    requires Faithful(c) && n < |ms| && n == FitCount(c, ms)
    ensures MisfitRead(c, ms, n)
    ensures Strict(c) || |c.encode(ms[n])| < TWO32 ==> ReadAll(c, Wire(c, ms)) != (ms, Closed)
  {
    var (more, end) := ReadAll(c, Wire(c, ms[n..]));
    StreamReads(c, ms);
    ReadMisfit(c, ms[n], Wire(c, ms[n..][1..]));
    assert Wire(c, ms[n..]) == Frame(c, ms[n]) + Wire(c, ms[n..][1..]);
    if more == [] {
      assert ms[..n] + [] == ms[..n];
    } else {
      FirstOf(ms, n, more);
    }
  }

  lemma FirstOf<T>(xs: seq<T>, n: nat, more: seq<T>)
    requires n < |xs| && more != []
    ensures xs[..n] + [more[0]] <= xs[..n] + more && (xs[..n] + more)[n] == more[0]
  {
    assert xs[..n] + more == (xs[..n] + [more[0]]) + more[1..];
  }

  /** How many frames are whole in the first `n` bytes of the wire form. */
  function WholeFrames<M>(c: Codec<M>, ms: seq<M>, n: int): (whole: nat)
    ensures whole <= |ms|
    decreases |ms|
  {
    if ms == [] || n < |Frame(c, ms[0])| then 0 else 1 + WholeFrames(c, ms[1..], n - |Frame(c, ms[0])|)
  }

  lemma {:induction false} WholeFramesMaximal<M>(c: Codec<M>, ms: seq<M>, n: nat)
    ensures var whole := WholeFrames(c, ms, n);
            |Wire(c, ms[..whole])| <= n && (whole < |ms| ==> n < |Wire(c, ms[..whole + 1])|)
    decreases |ms|
  {
    if ms != [] {
      if n < |Frame(c, ms[0])| {
        WirePrefix(c, ms, 0);
        assert ms[1..][..0] == [];
      } else {
        var whole := WholeFrames(c, ms[1..], n - |Frame(c, ms[0])|);
        WholeFramesMaximal(c, ms[1..], n - |Frame(c, ms[0])|);
        WirePrefix(c, ms, whole);
        if whole + 1 < |ms| { WirePrefix(c, ms, whole + 1); }
      }
    }
  }

  lemma CutInFirst<M>(c: Codec<M>, ms: seq<M>, n: nat)
    requires ms != [] && Fits(c, ms[0]) && n < |Frame(c, ms[0])|
    ensures ReadAll(c, Wire(c, ms)[..n]) == ([], if n < 4 then Closed else Failed(Io))
  {
    assert Wire(c, ms)[..n] == Frame(c, ms[0])[..n];
    ReadAllCut(c, ms[0], n);
  }

  /** The reader's account of the first `n` bytes: the whole frames, then the end. */
  ghost predicate ReadsWhole<M>(c: Codec<M>, ms: seq<M>, n: nat)
    requires n <= |Wire(c, ms)|
  {
    var whole := WholeFrames(c, ms, n);
    ReadAll(c, Wire(c, ms)[..n])
    == (ms[..whole], if n - |Wire(c, ms[..whole])| < 4 then Closed else Failed(Io))
  }

  lemma CutLater<M(!new)>(c: Codec<M>, ms: seq<M>, n: nat)
    requires Faithful(c) && ms != [] && Fits(c, ms[0]) && |Frame(c, ms[0])| <= n <= |Wire(c, ms)|
    requires ReadsWhole(c, ms[1..], n - |Frame(c, ms[0])|)
    ensures ReadsWhole(c, ms, n)
  {
    var size := |Frame(c, ms[0])|;
    TakePast(Frame(c, ms[0]), Wire(c, ms[1..]), n);
    ReadAllCons(c, ms[0], Wire(c, ms[1..])[..n - size]);
    var whole := WholeFrames(c, ms[1..], n - size);
    WirePrefix(c, ms, whole);
    TakeCons(ms, whole);
  }

  lemma TakePast<T>(front: seq<T>, back: seq<T>, n: nat)
    requires |front| <= n <= |front| + |back|
    ensures (front + back)[..n] == front + back[..n - |front|]
  {
  }

  lemma TakeCons<T>(xs: seq<T>, k: nat)
    requires k < |xs|
    ensures xs[..k + 1] == [xs[0]] + xs[1..][..k]
  {
  }

  /** However the byte stream is cut, the reader gets the messages that arrived whole;
      it is told nothing if the cut is between frames or inside a header, and gets an
      error if the cut is inside a body. */
  lemma {:induction false} Truncation<M(!new)>(c: Codec<M>, ms: seq<M>, n: nat)
    requires Faithful(c) && (forall i :: 0 <= i < |ms| ==> Fits(c, ms[i]))
    requires n <= |Wire(c, ms)|
    ensures ReadsWhole(c, ms, n)
    decreases |ms|
  {
    if ms != [] {
      if n < |Frame(c, ms[0])| {
        CutInFirst(c, ms, n);
        assert ms[..0] == [];
      } else {
        Truncation(c, ms[1..], n - |Frame(c, ms[0])|);
        CutLater(c, ms, n);
      }
    }
  }

  lemma WirePrefix<M>(c: Codec<M>, ms: seq<M>, k: nat)
    requires ms != [] && k < |ms|
    ensures Wire(c, ms[..k + 1]) == Frame(c, ms[0]) + Wire(c, ms[1..][..k])
  {
    assert ms[..k + 1][1..] == ms[1..][..k];
  }

  // ----- The stream ends and the pumps -----

  /** The writing end: bytes that got through, and how many more will. */
  class ByteWriter {
    var output: seq<Byte>
    var room: nat

    constructor (room: nat)
      ensures output == [] && this.room == room
    {
      output := [];
      this.room := room;
    }

    /** `write_all`: on failure, some of the bytes may have got through. */
    method WriteAll(bytes: seq<Byte>) returns (ok: bool)
      modifies this
      ensures ok <==> |bytes| <= old(room)
      ensures output == old(output) + (if ok then bytes else bytes[..old(room)])
      ensures room == old(room) - (if ok then |bytes| else old(room))
    {
      if |bytes| <= room {
        output, room := output + bytes, room - |bytes|;
        return true;
      }
      output, room := output + bytes[..room], 0;
      return false;
    }
  }

  class ByteReader {
    var input: seq<Byte>

    constructor (input: seq<Byte>)
      ensures this.input == input
    {
      this.input := input;
    }

    /** `read_exact`: at the end of the stream, what was there is used up. */
    method ReadExact(n: nat) returns (ok: bool, bytes: seq<Byte>)
      modifies this
      ensures ok <==> n <= |old(input)|
      ensures ok ==> bytes == old(input)[..n] && input == old(input)[n..]
      ensures !ok ==> input == []
    {
      if n <= |input| {
        ok, bytes := true, input[..n];
        input := input[n..];
      } else {
        ok, bytes := false, [];
        input := [];
      }
    }
  }

  method EncodeMessage<M>(c: Codec<M>, m: M) returns (out: seq<Byte>)
    ensures out == Frame(c, m)
  {
    var body := c.encode(m);
    out := [];
    out := out + Header(|body|);
    out := out + body;
  }

  method ReadMessage<M>(c: Codec<M>, reader: ByteReader) returns (result: ReadResult<M>)
    modifies reader
    ensures (result, reader.input) == ReadOne(c, old(reader.input))
  {
    ghost var input := reader.input;
    var ok, header := reader.ReadExact(4);
    if !ok {
      return Closed;
    }
    var length := FromLeBytes(header);
    if length > MAX_MESSAGE_BYTES {
      return Failed(TooLarge(length));
    }
    var complete, body := reader.ReadExact(length);
    if !complete {
      return Failed(Io);
    }
    assert body == input[4..4 + length] && reader.input == input[4 + length..];
    match c.decode(body)
    case None => return Failed(Decode);
    case Some(m) => return Got(m);
  }

  /** Reads until the stream ends, handing on every message in order. */
  method ReadLoop<M>(c: Codec<M>, reader: ByteReader) returns (sink: seq<M>)
    modifies reader
    ensures sink == ReadAll(c, old(reader.input)).0
  {
    sink := [];
    var result := Closed;
    var more := true;
    while more
      invariant more ==> ReadAll(c, old(reader.input)).0 == sink + ReadAll(c, reader.input).0
      invariant !more ==> ReadAll(c, old(reader.input)).0 == sink
      decreases more, |reader.input|
    {
      ghost var input := reader.input;
      result := ReadMessage(c, reader);
      if result.Got? {
        assert ReadAll(c, input).0 == [result.message] + ReadAll(c, reader.input).0;
        assert sink + ([result.message] + ReadAll(c, reader.input).0)
            == (sink + [result.message]) + ReadAll(c, reader.input).0;
        sink := sink + [result.message];
      } else {
        assert ReadAll(c, input).0 == [];
        more := false;
      }
    }
  }

  /** Writes every message in order until one does not get through: what the other
      end sees is the wire form of all of them, cut where the stream broke. */
  method WriteLoop<M>(c: Codec<M>, writer: ByteWriter, outbound: seq<M>)
    modifies writer
    ensures var wire := Wire(c, outbound);
            writer.output == old(writer.output) + wire[..if |wire| <= old(writer.room) then |wire| else old(writer.room)]
  {
    ghost var before, room, wire := writer.output, writer.room, Wire(c, outbound);
    var i := 0;
    assert outbound[..0] == [];
    while i < |outbound|
      invariant 0 <= i <= |outbound|
      invariant writer.output == before + Wire(c, outbound[..i])
      invariant writer.room == room - |Wire(c, outbound[..i])|
    {
      ghost var sent := Wire(c, outbound[..i]);
      var bytes := EncodeMessage(c, outbound[i]);
      WireStep(c, outbound, i);
      ghost var had := writer.room;
      var ok := writer.WriteAll(bytes);
      if !ok {
        CutInside(before, sent, bytes, wire, had);
        return;
      }
      assert (before + sent) + bytes == before + (sent + bytes);
      i := i + 1;
    }
    assert outbound[..i] == outbound;
    assert wire[..|wire|] == wire;
  }

  lemma CutInside(before: seq<Byte>, sent: seq<Byte>, bytes: seq<Byte>, wire: seq<Byte>, had: nat)
    requires sent + bytes <= wire && had < |bytes|
    ensures |sent| + had < |wire| && (before + sent) + bytes[..had] == before + wire[..|sent| + had]
  {
    assert sent + bytes[..had] == (sent + bytes)[..|sent| + had];
    assert (before + sent) + bytes[..had] == before + (sent + bytes[..had]);
  }

  lemma WireStep<M>(c: Codec<M>, ms: seq<M>, i: nat)
    requires i < |ms|
    ensures Wire(c, ms[..i + 1]) == Wire(c, ms[..i]) + Frame(c, ms[i])
    ensures Wire(c, ms[..i]) + Frame(c, ms[i]) <= Wire(c, ms)
  {
    assert ms[..i + 1] == ms[..i] + [ms[i]];
    WireSplit(c, ms[..i], [ms[i]]);
    assert [ms[i]][1..] == [];
    assert ms == ms[..i + 1] + ms[i + 1..];
    WireSplit(c, ms[..i + 1], ms[i + 1..]);
  }

  lemma {:induction false} WireSplit<M>(c: Codec<M>, xs: seq<M>, ys: seq<M>)
    ensures Wire(c, xs + ys) == Wire(c, xs) + Wire(c, ys)
  {
    if xs == [] {
      assert xs + ys == ys;
    } else {
      assert (xs + ys)[1..] == xs[1..] + ys;
      WireSplit(c, xs[1..], ys);
    }
  }

  /** Why the channels of the hand-off system are FIFO: whatever is written, and
      wherever the stream breaks, the reader hands on a prefix of it; all of it if
      the stream does not break. */
  method PumpIsFifo<M(!new)>(c: Codec<M>, outbound: seq<M>, room: nat) returns (sink: seq<M>)
    requires Faithful(c) && forall i :: 0 <= i < |outbound| ==> Fits(c, outbound[i])
    ensures sink <= outbound
    ensures room >= |Wire(c, outbound)| ==> sink == outbound
    ensures |sink| < |outbound| ==> room < |Wire(c, outbound[..|sink| + 1])|
  {
    var writer := new ByteWriter(room);
    WriteLoop(c, writer, outbound);
    var reader := new ByteReader(writer.output);
    sink := ReadLoop(c, reader);
    ghost var wire := Wire(c, outbound);
    ghost var n := if |wire| <= room then |wire| else room;
    assert writer.output == wire[..n];
    Truncation(c, outbound, n);
    WholeFramesMaximal(c, outbound, n);
    if |sink| < |outbound| {
      WireGrows(c, outbound, |sink| + 1);
    }
  }

  lemma {:induction false} WireGrows<M>(c: Codec<M>, ms: seq<M>, k: nat)
    requires k <= |ms|
    ensures |Wire(c, ms[..k])| <= |Wire(c, ms)|
    decreases |ms|
  {
    if k > 0 {
      WirePrefix(c, ms, k - 1);
      WireGrows(c, ms[1..], k - 1);
    } else {
      assert ms[..0] == [];
    }
  }
}
