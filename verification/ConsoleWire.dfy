/** The console on the wire: message frames, the multiplexed exec stream, and the client's reading loop. */
module ConsoleWire {
  import opened Ipv4

  type Byte = b: int | 0 <= b < 256

  /** Includes the channel byte of a binary message. */
  const MAX_DATA: nat := 64 * 1024

  // ---- Frames ----

  function Frame(channel: Byte, data: seq<Byte>): Option<seq<Byte>> {
    if |data| + 1 > MAX_DATA then None else Some([channel] + data)
  }

  function InputFrame(data: seq<Byte>): Option<seq<Byte>> {
    Frame(0, data)
  }

  function ParseInputFrame(raw: seq<Byte>): Option<seq<Byte>> {
    if |raw| == 0 || |raw| > MAX_DATA || raw[0] != 0 then None else Some(raw[1..])
  }

  function OutputFrame(channel: Byte, data: seq<Byte>): Option<seq<Byte>> {
    if channel != 1 && channel != 2 then None else Frame(channel, data)
  }

  datatype Chunk = Chunk(channel: Byte, data: seq<Byte>)

  function ParseOutputFrame(raw: seq<Byte>): Option<Chunk> {
    if |raw| == 0 || |raw| > MAX_DATA || (raw[0] != 1 && raw[0] != 2) then None else Some(Chunk(raw[0], raw[1..]))
  }

  /** Every frame parses back to what was framed, and only frames parse. */
  lemma OutputFramesRoundTrip(channel: Byte, data: seq<Byte>, raw: seq<Byte>)
    ensures OutputFrame(channel, data) == Some(raw) <==> ParseOutputFrame(raw) == Some(Chunk(channel, data))
  {
    if OutputFrame(channel, data) == Some(raw) {
      assert raw[1..] == data;
    }
    if ParseOutputFrame(raw) == Some(Chunk(channel, data)) {
      assert raw == [raw[0]] + raw[1..];
    }
  }

  lemma InputFramesRoundTrip(data: seq<Byte>, raw: seq<Byte>)
    ensures InputFrame(data) == Some(raw) <==> ParseInputFrame(raw) == Some(data)
  {
    if InputFrame(data) == Some(raw) {
      assert raw[1..] == data;
    }
    if ParseInputFrame(raw) == Some(data) {
      assert raw == [raw[0]] + raw[1..];
    }
  }

  // ---- The multiplexed stream ----

  /** How the connection stops delivering bytes. */
  datatype End = Clean | Broken

  /** An error that wraps end-of-file looks like end-of-file to a reader. */
  datatype Failure = NoFailure | WrappedEof | OtherFailure

  datatype Output = Output(out: seq<Byte>, err: seq<Byte>, failure: Failure)

  /** A big-endian 32-bit number. */
  function Number(a: int, b: int, c: int, d: int): int {
    a * 0x100_0000 + b * 0x1_0000 + c * 0x100 + d
  }

  function Size(header: seq<Byte>): (n: nat)
    requires |header| == 8
    ensures n < 0x1_0000_0000
  {
    Number(header[4], header[5], header[6], header[7])
  }

  predicate GoodHeader(header: seq<Byte>)
    requires |header| == 8
  {
    header[1] == 0 && header[2] == 0 && header[3] == 0 && (header[0] == 1 || header[0] == 2)
  }

  function Prepend(channel: Byte, data: seq<Byte>, rest: Output): Output {
    if channel == 1 then rest.(out := data + rest.out) else rest.(err := data + rest.err)
  }

  /** Where a header was read: its payload, as far as it is there, and what follows it. */
  predicate Framed(raw: seq<Byte>) {
    |raw| >= 8 && GoodHeader(raw[..8])
  }

  predicate Whole(raw: seq<Byte>)
    requires |raw| >= 8
  {
    8 + Size(raw[..8]) <= |raw|
  }

  function Payload(raw: seq<Byte>): seq<Byte>
    requires |raw| >= 8
  {
    if Whole(raw) then raw[8..8 + Size(raw[..8])] else raw[8..]
  }

  function Following(raw: seq<Byte>): (rest: seq<Byte>)
    requires |raw| >= 8 && Whole(raw)
    ensures |rest| < |raw|
  {
    raw[8 + Size(raw[..8])..]
  }

  function Stop(end: End, clean: Failure): Failure {
    if end.Clean? then clean else OtherFailure
  }

  /** What a stream carries: frame after frame until it stops, and whether it stopped where it may. */
  function Demux(raw: seq<Byte>, end: End): Output
    decreases |raw|
  {
    if raw == [] then Output([], [], Stop(end, NoFailure))
    else if !Framed(raw) then Output([], [], OtherFailure)
    else Prepend(raw[0], Payload(raw),
                 if Whole(raw) then Demux(Following(raw), end) else Output([], [], Stop(end, WrappedEof)))
  }

  /** Output that is already out, and the rest. */
  function Ahead(out: seq<Byte>, err: seq<Byte>, rest: Output): Output {
    Output(out + rest.out, err + rest.err, rest.failure)
  }

  lemma AheadPrepends(out: seq<Byte>, err: seq<Byte>, channel: Byte, data: seq<Byte>, rest: Output)
    ensures Ahead(out, err, Prepend(channel, data, rest)) ==
            if channel == 1 then Ahead(out + data, err, rest) else Ahead(out, err + data, rest)
  {
    assert out + (data + rest.out) == (out + data) + rest.out;
    assert err + (data + rest.err) == (err + data) + rest.err;
  }

  /** The loop of demux over the bytes a connection delivers. */
  method DemuxStream(raw: seq<Byte>, end: End) returns (r: Output)
    ensures r == Demux(raw, end)
  {
    var out, err, rest := [], [], raw;
    while rest != []
      invariant Ahead(out, err, Demux(rest, end)) == Demux(raw, end)
      decreases |rest|
    {
      if !Framed(rest) {
        return Output(out, err, OtherFailure);
      }
      AheadPrepends(out, err, rest[0], Payload(rest),
                    if Whole(rest) then Demux(Following(rest), end) else Output([], [], Stop(end, WrappedEof)));
      if rest[0] == 1 {
        out := out + Payload(rest);
      } else {
        err := err + Payload(rest);
      }
      if !Whole(rest) {
        return Output(out, err, Stop(end, WrappedEof));
      }
      rest := Following(rest);
    }
    r := Output(out, err, Stop(end, NoFailure));
  }

  /** One frame as the runtime writes it. */
  predicate Sendable(p: Chunk) {
    (p.channel == 1 || p.channel == 2) && |p.data| < 0x1_0000_0000
  }

  function Header(p: Chunk): (h: seq<Byte>)
    requires Sendable(p)
    ensures |h| == 8
  {
    var n := |p.data|;
    [p.channel, 0, 0, 0, n / 0x100_0000, n / 0x1_0000 % 256, n / 0x100 % 256, n % 256]
  }

  function Mux(pieces: seq<Chunk>): seq<Byte>
    requires forall p :: p in pieces ==> Sendable(p)
  {
    if pieces == [] then []
    else
      assert pieces[0] in pieces && forall p :: p in pieces[1..] ==> p in pieces;
      Header(pieces[0]) + (pieces[0].data + Mux(pieces[1..]))
  }

  function Joined(pieces: seq<Chunk>, channel: Byte): seq<Byte> {
    if pieces == [] then []
    else (if pieces[0].channel == channel then pieces[0].data else []) + Joined(pieces[1..], channel)
  }

  lemma DigitsOfNumber(n: nat)
    ensures Number(n / 0x100_0000, n / 0x1_0000 % 256, n / 0x100 % 256, n % 256) == n
  {
    assert n / 0x1_0000 / 256 == n / 0x100_0000;
    assert n / 0x100 / 256 == n / 0x1_0000;
  }

  lemma NumberOfDigits(a: nat, b: nat, c: nat, d: nat)
    requires b < 256 && c < 256 && d < 256
    ensures
      var n := Number(a, b, c, d);
      n / 0x100_0000 == a && n / 0x1_0000 % 256 == b && n / 0x100 % 256 == c && n % 256 == d
  {
    var n, n1, n2 := Number(a, b, c, d), a * 0x1_0000 + b * 0x100 + c, a * 0x100 + b;
    LastDigit(n, n1, d);
    LastDigit(n1, n2, c);
    LastDigit(n2, a, b);
    assert n / 0x100 == n1 && n / 0x1_0000 == n1 / 256 && n / 0x100_0000 == n2 / 256;
  }

  lemma LastDigit(n: nat, m: nat, d: nat)
    requires n == m * 256 + d && d < 256
    ensures n / 256 == m && n % 256 == d
  {}

  lemma FrameFound(p: Chunk, rest: seq<Byte>)
    requires Sendable(p)
    ensures
      var raw := Header(p) + (p.data + rest);
      Framed(raw) && Whole(raw) && raw[0] == p.channel && Payload(raw) == p.data && Following(raw) == rest
  {
    var raw := Header(p) + (p.data + rest);
    assert raw[..8] == Header(p);
    DigitsOfNumber(|p.data|);
    assert raw[8..] == p.data + rest;
    assert Payload(raw) == raw[8..][..|p.data|];
    assert Following(raw) == raw[8..][|p.data|..];
  }

  /** Demultiplexing what was multiplexed gives both channels back, byte for byte. */
  lemma {:induction false} DemuxInvertsMux(pieces: seq<Chunk>)
    requires forall p :: p in pieces ==> Sendable(p)
    ensures Demux(Mux(pieces), Clean) == Output(Joined(pieces, 1), Joined(pieces, 2), NoFailure)
  {
    if pieces != [] {
      var p, rest := pieces[0], pieces[1..];
      assert p in pieces && forall q :: q in rest ==> q in pieces;
      FrameFound(p, Mux(rest));
      DemuxInvertsMux(rest);
    }
  }

  lemma HeaderOfFrame(raw: seq<Byte>)
    requires Framed(raw) && Whole(raw)
    ensures
      var p := Chunk(raw[0], Payload(raw));
      Sendable(p) && raw == Header(p) + (p.data + Following(raw))
  {
    var p, h := Chunk(raw[0], Payload(raw)), raw[..8];
    assert |p.data| == Size(h);
    NumberOfDigits(h[4], h[5], h[6], h[7]);
    assert Header(p) == h;
    assert raw[8..] == p.data + Following(raw);
  }

  /** Only whole frames and a clean end are demultiplexed without failure. */
  lemma {:induction false} OnlyWholeFramesSucceed(raw: seq<Byte>, end: End) returns (pieces: seq<Chunk>)
    requires Demux(raw, end).failure == NoFailure
    ensures end.Clean? && (forall p :: p in pieces ==> Sendable(p)) && Mux(pieces) == raw
    decreases |raw|
  {
    if raw == [] {
      pieces := [];
    } else {
      var rest := OnlyWholeFramesSucceed(Following(raw), end);
      HeaderOfFrame(raw);
      pieces := [Chunk(raw[0], Payload(raw))] + rest;
      assert pieces[1..] == rest;
    }
  }

  // ---- The client ----

  /** Messages of the socket, in order. Control texts are taken as decoded. */
  datatype Message = Binary(raw: seq<Byte>) | ExitText(code: int) | ErrorText | Closed(normal: bool)

  datatype Received = Received(out: seq<Byte>, err: seq<Byte>, exit: Option<int>)

  datatype ClientResult = Waiting | Returned(code: int) | Refused

  datatype Client = Client(got: Received, result: ClientResult)

  function Read(c: Client, m: Message, tty: bool): Client {
    if !c.result.Waiting? then c
    else if m.Closed? then
      c.(result := if c.got.exit.Some? && m.normal then Returned(c.got.exit.value) else Refused)
    else if c.got.exit.Some? then c.(result := Refused)
    else
      match m
      case Binary(raw) =>
        (match ParseOutputFrame(raw)
         case None => c.(result := Refused)
         case Some(chunk) =>
           if chunk.channel == 1 then c.(got := c.got.(out := c.got.out + chunk.data))
           else if tty then c.(result := Refused)
           else c.(got := c.got.(err := c.got.err + chunk.data)))
      case ExitText(code) => if 0 <= code <= 255 then c.(got := c.got.(exit := Some(code))) else c.(result := Refused)
      case ErrorText => c.(result := Refused)
  }

  function ReadAll(messages: seq<Message>, tty: bool): Client {
    if messages == [] then Client(Received([], [], None), Waiting)
    else Read(ReadAll(messages[..|messages| - 1], tty), messages[|messages| - 1], tty)
  }

  /** readRemoteConsole: one message at a time until a result. */
  method ReadRemoteConsole(messages: seq<Message>, tty: bool) returns (c: Client)
    ensures c == ReadAll(messages, tty)
  {
    c := Client(Received([], [], None), Waiting);
    for i := 0 to |messages|
      invariant c == ReadAll(messages[..i], tty)
    {
      assert messages[..i + 1][..i] == messages[..i];
      c := Read(c, messages[i], tty);
    }
    assert messages[..|messages|] == messages;
  }
}
