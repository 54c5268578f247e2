/** Completeness of the console: no exit before the last byte, and no success without all of them. */
module ConsoleProofs {
  import opened ConsoleWire
  import opened ConsoleMachine

  // ---- Bytes under way ----

  function BytesOf(e: Event, side: Side): seq<Byte> {
    if e.Data? && e.side == side then e.bytes else []
  }

  function Queued(events: seq<Event>, side: Side): seq<Byte> {
    if events == [] then [] else BytesOf(events[0], side) + Queued(events[1..], side)
  }

  function CarriedBy(m: Message, side: Side): seq<Byte> {
    if m.Binary? && ParseOutputFrame(m.raw).Some? && ParseOutputFrame(m.raw).value.channel == Channel(side)
    then ParseOutputFrame(m.raw).value.data else []
  }

  function Sent(socket: seq<Message>, side: Side): seq<Byte> {
    if socket == [] then [] else Sent(socket[..|socket| - 1], side) + CarriedBy(socket[|socket| - 1], side)
  }

  function Held(pump: Pump): seq<Byte> {
    if pump.Holding? then pump.bytes else []
  }

  lemma {:induction false} QueuedMore(events: seq<Event>, e: Event, side: Side)
    ensures Queued(events + [e], side) == Queued(events, side) + BytesOf(e, side)
  {
    var more := events + [e];
    if events == [] {
      assert more[0] == e && more[1..] == [];
    } else {
      assert more[0] == events[0] && more[1..] == events[1..] + [e];
      QueuedMore(events[1..], e, side);
      Associates(BytesOf(events[0], side), Queued(events[1..], side), BytesOf(e, side));
    }
  }

  lemma Associates(a: seq<Byte>, b: seq<Byte>, c: seq<Byte>)
    ensures a + (b + c) == (a + b) + c
  {}

  lemma SentMore(socket: seq<Message>, m: Message, side: Side)
    ensures Sent(socket + [m], side) == Sent(socket, side) + CarriedBy(m, side)
  {
    assert (socket + [m])[..|socket|] == socket;
  }

  // ---- The reader ----

  /** What is still to come from the reader. */
  function Remaining(reader: Reader, rest: seq<Byte>, end: End): Output {
    match reader
    case AtHeader => Demux(rest, end)
    case InPayload(side, left) =>
      if left <= |rest| then Prepend(Channel(side), rest[..left], Demux(rest[left..], end))
      else Prepend(Channel(side), rest, Output([], [], Stop(end, WrappedEof)))
    case Copying => Output(rest, [], Stop(end, NoFailure))
    case Ended(failure) => Output([], [], failure)
  }

  /** What was written and what is to come is what the stream carries, unless the reader was cut off. */
  ghost predicate ReadOk(reader: Reader, rest: seq<Byte>, end: End, out: seq<Byte>, err: seq<Byte>, cut: bool,
                         total: Output) {
    !cut ==> Ahead(out, err, Remaining(reader, rest, end)) == total
  }

  ghost predicate ReaderOk(s: Session) {
    && ReadOk(s.reader, s.rest, s.end, s.out.written, s.err.written, s.cut, Carried(s.tty, s.stream, s.end))
    && (if s.tty then s.reader.Copying? || s.reader.Ended? else !s.reader.Copying?)
  }

  lemma HeaderRemains(rest: seq<Byte>, end: End)
    requires rest != []
    ensures
      Demux(rest, end) == if Framed(rest)
        then Remaining(InPayload(if rest[0] == 1 then Stdout else Stderr, ConsoleWire.Size(rest[..8])), rest[8..], end)
                          else Output([], [], OtherFailure)
  {
    if Framed(rest) {
      var size := ConsoleWire.Size(rest[..8]);
      if Whole(rest) {
        assert rest[8..][..size] == rest[8..8 + size];
        assert rest[8..][size..] == rest[8 + size..];
      }
    }
  }

  lemma SplitAt(rest: seq<Byte>, n: nat, left: nat)
    requires n <= left <= |rest|
    ensures rest[..left] == rest[..n] + rest[n..][..left - n] && rest[left..] == rest[n..][left - n..]
  {}

  lemma PayloadRemains(side: Side, left: nat, n: nat, rest: seq<Byte>, end: End)
    requires 0 < n <= |rest| && n <= left
    ensures Remaining(InPayload(side, left), rest, end) ==
            Prepend(Channel(side), rest[..n], Remaining(InPayload(side, left - n), rest[n..], end))
  {
    if left <= |rest| {
      SplitAt(rest, n, left);
    } else {
      assert rest == rest[..n] + rest[n..];
    }
  }

  lemma ReadHeaderKeeps(s: Session)
    requires ReaderOk(s)
    ensures ReaderOk(ReadHeaderStep(s))
  {
    if s.reader.AtHeader? && s.rest != [] {
      HeaderRemains(s.rest, s.end);
    }
  }

  lemma CopyKeeps(s: Session, n: nat)
    requires ReaderOk(s)
    ensures ReaderOk(CopyStep(s, n))
  {
    if 0 < n <= |s.rest| {
      if s.reader.InPayload? && n <= s.reader.left {
        var side, left := s.reader.side, s.reader.left;
        PayloadRemains(side, left, n, s.rest, s.end);
        AheadPrepends(s.out.written, s.err.written, Channel(side), s.rest[..n],
                      Remaining(InPayload(side, left - n), s.rest[n..], s.end));
      } else if s.reader.Copying? {
        assert s.rest == s.rest[..n] + s.rest[n..];
        assert s.out.written + s.rest == (s.out.written + s.rest[..n]) + s.rest[n..];
      }
    }
  }

  lemma NothingLeft(side: Side, rest: seq<Byte>, end: End)
    ensures Remaining(InPayload(side, 0), rest, end) == Demux(rest, end)
    ensures rest == [] ==> forall left: nat :: left > 0 ==>
            Remaining(InPayload(side, left), rest, end) == Output([], [], Stop(end, WrappedEof))
  {
    assert rest[..0] == [] && rest[0..] == rest;
    var d := Demux(rest, end);
    assert [] + d.out == d.out && [] + d.err == d.err;
  }

  lemma ReadEndsKeeps(s: Session)
    requires ReaderOk(s)
    ensures ReaderOk(ReadEndsStep(s))
  {
    if s.reader.InPayload? {
      NothingLeft(s.reader.side, s.rest, s.end);
    }
  }

  // ---- The lanes ----

  /** Nothing is lost on the way: delivered, queued, held and piped bytes, in this order, were written. */
  predicate Flows(sent: seq<Byte>, queued: seq<Byte>, lane: Lane) {
    sent + (queued + (Held(lane.pump) + lane.pipe)) == lane.written
  }

  ghost predicate LaneOk(socket: seq<Message>, events: seq<Event>, lane: Lane, side: Side, lost: bool) {
    !lost ==> Flows(Sent(socket, side), Queued(events, side), lane)
  }

  /** A pump stops only on an empty pipe whose writer has ended. */
  predicate Drained(lane: Lane, reader: Reader, lost: bool) {
    !lost && (lane.pump.Finished? || lane.pump.Failing?) ==> lane.pipe == [] && reader.Ended?
  }

  ghost predicate LanesOk(s: Session) {
    && LaneOk(s.socket, s.events, s.out, Stdout, s.lost) && LaneOk(s.socket, s.events, s.err, Stderr, s.lost)
    && Drained(s.out, s.reader, s.lost) &&
       (if s.tty then s.err == Lane([], [], Finished) else Drained(s.err, s.reader, s.lost))
  }

  predicate SmallPump(pump: Pump) {
    pump.Holding? ==> |pump.bytes| <= CHUNK
  }

  ghost predicate SmallEvents(events: seq<Event>) {
    forall k :: 0 <= k < |events| && events[k].Data? ==> |events[k].bytes| <= CHUNK
  }

  ghost predicate SizesOk(s: Session) {
    SmallPump(s.out.pump) && SmallPump(s.err.pump) && SmallEvents(s.events)
  }

  // ---- The exit ----

  /** Everything has been read, pumped and kept. */
  predicate Complete(s: Session) {
    s.out.pump.Finished? && s.err.pump.Finished? && s.out.pipe == [] && s.err.pipe == [] && !s.lost && !s.cut &&
      s.reader == Ended(NoFailure)
  }

  predicate NoExit(events: seq<Event>) {
    forall k :: 0 <= k < |events| ==> !events[k].Exited?
  }

  predicate ExitLast(events: seq<Event>) {
    forall k :: 0 <= k < |events| - 1 ==> !events[k].Exited?
  }

  /** An exit event is the last one, and there only once everything is complete. */
  ghost predicate ExitOk(waiter: Waiter, bridge: Bridge, events: seq<Event>, complete: bool) {
    && (!bridge.Stopped? ==> ExitLast(events)) && (bridge.Exiting? ==> events == []) &&
       (waiter.Reports? ==> !waiter.event.Data?)
    && (!waiter.Gone? ==> NoExit(events) && !bridge.Exiting? && !bridge.Closing?)
    && (!bridge.Stopped? && ((waiter.Reports? && waiter.event.Exited?) || !NoExit(events) || bridge.Exiting?) ==>
       complete)
  }

  predicate DataOnly(socket: seq<Message>) {
    forall k :: 0 <= k < |socket| ==> socket[k].Binary?
  }

  predicate ExitAt(socket: seq<Message>, k: nat, total: Output)
    requires k < |socket|
  {
    socket[k].ExitText? ==>
      DataOnly(socket[..k]) && Sent(socket[..k], Stdout) == total.out && Sent(socket[..k], Stderr) == total.err &&
        total.failure.NoFailure?
  }

  /** An exit text stands behind all bytes of both channels, of a stream that carried no failure; a
      normal close stands right behind an exit text. */
  ghost predicate SocketOk(socket: seq<Message>, total: Output) {
    && (forall k {:trigger ExitAt(socket, k, total)} :: 0 <= k < |socket| ==> ExitAt(socket, k, total))
    && (forall k :: 0 <= k < |socket| && socket[k] == Closed(true) ==> k > 0 && socket[k - 1].ExitText?)
  }

  ghost predicate BridgeOk(bridge: Bridge, socket: seq<Message>) {
    && (bridge.Serving? || bridge.Exiting? ==> DataOnly(socket))
    && (bridge.Closing? ==> socket != [] && socket[|socket| - 1].ExitText?)
  }

  ghost predicate Inv(s: Session) {
    && ReaderOk(s) && LanesOk(s) && SizesOk(s) && ExitOk(s.waiter, s.bridge, s.events, Complete(s))
    && BridgeOk(s.bridge, s.socket) && SocketOk(s.socket, Carried(s.tty, s.stream, s.end))
    && (s.lost || s.cut ==> s.cancelled)
  }

  lemma StartOk(tty: bool, stream: seq<Byte>, end: End)
    ensures Inv(Start(tty, stream, end))
  {
    var r := Remaining(Start(tty, stream, end).reader, stream, end);
    assert [] + r.out == r.out && [] + r.err == r.err;
  }

  // ---- The reader's steps ----

  lemma ReaderSteps(s: Session, t: Session)
    requires Inv(s) && ReaderOk(t) && !s.reader.Ended?
    requires t == s.(reader := t.reader, rest := t.rest, cut := t.cut) && (t.cut ==> t.cancelled)
    ensures Inv(t)
  {
    assert !Complete(s);
  }

  predicate ReaderOnly(s: Session, t: Session) {
    t == s.(reader := t.reader, rest := t.rest, cut := t.cut) && (t.cut ==> s.cut || s.cancelled) &&
      (s.reader.Ended? ==> t == s)
  }

  lemma HeaderFrame(s: Session)
    ensures ReaderOnly(s, ReadHeaderStep(s))
  {}

  lemma EndsFrame(s: Session)
    ensures ReaderOnly(s, ReadEndsStep(s))
  {}

  lemma CutFrame(s: Session)
    ensures ReaderOnly(s, CutReaderStep(s))
  {}

  lemma CutKeeps(s: Session)
    requires ReaderOk(s)
    ensures ReaderOk(CutReaderStep(s))
  {}

  lemma ReaderMoves(s: Session, t: Session)
    requires Inv(s) && ReaderOnly(s, t) && ReaderOk(t)
    ensures Inv(t)
  {
    if !s.reader.Ended? {
      ReaderSteps(s, t);
    }
  }

  lemma HeaderStepKeeps(s: Session)
    requires Inv(s)
    ensures Inv(ReadHeaderStep(s))
  {
    HeaderFrame(s);
    ReadHeaderKeeps(s);
    ReaderMoves(s, ReadHeaderStep(s));
  }

  lemma EndsStepKeeps(s: Session)
    requires Inv(s)
    ensures Inv(ReadEndsStep(s))
  {
    EndsFrame(s);
    ReadEndsKeeps(s);
    ReaderMoves(s, ReadEndsStep(s));
  }

  lemma CutStepKeeps(s: Session)
    requires Inv(s)
    ensures Inv(CutReaderStep(s))
  {
    CutFrame(s);
    CutKeeps(s);
    ReaderMoves(s, CutReaderStep(s));
  }

  lemma FedLane(socket: seq<Message>, events: seq<Event>, lane: Lane, side: Side, lost: bool, more: seq<Byte>)
    requires LaneOk(socket, events, lane, side, lost)
    ensures LaneOk(socket, events, lane.(written := lane.written + more, pipe := lane.pipe + more), side, lost)
  {
    var a, b, c, d := Sent(socket, side), Queued(events, side), Held(lane.pump), lane.pipe;
    assert a + (b + (c + (d + more))) == a + (b + (c + d)) + more;
  }

  lemma FeedKeeps(s: Session, side: Side, n: nat)
    requires LanesOk(s) && n <= |s.rest| && !s.reader.Ended? && (s.tty ==> side.Stdout?)
    ensures LanesOk(Feed(s, side, n))
  {
    FedLane(s.socket, s.events, LaneOf(s, side), side, s.lost, s.rest[..n]);
  }

  /** Before everything is complete nothing has been said about an exit, so lanes and reader may move. */
  lemma LaneSteps(s: Session, t: Session)
    requires Inv(s) && !Complete(s) && ReaderOk(t) && LanesOk(t) && SizesOk(t)
    requires LanesOnly(s, t) && (t.lost ==> t.cancelled)
    ensures Inv(t)
  {}

  predicate LanesOnly(s: Session, t: Session) {
    t == s.(reader := t.reader, rest := t.rest, out := t.out, err := t.err, lost := t.lost)
  }

  lemma CopyFrame(s: Session, n: nat)
    ensures LanesOnly(s, CopyStep(s, n)) && CopyStep(s, n).lost == s.lost
    ensures CopyStep(s, n).out.pump == s.out.pump && CopyStep(s, n).err.pump == s.err.pump
  {
    if 0 < n <= |s.rest| && Copies(s.reader, n) {
      FeedFrame(s, if s.reader.Copying? then Stdout else s.reader.side, n);
    }
  }

  lemma FeedFrame(s: Session, side: Side, n: nat)
    requires n <= |s.rest|
    ensures LanesOnly(s, Feed(s, side, n)) && Feed(s, side, n).lost == s.lost
    ensures Feed(s, side, n).out.pump == s.out.pump && Feed(s, side, n).err.pump == s.err.pump
  {}

  lemma CopyLanes(s: Session, n: nat)
    requires LanesOk(s) && ReaderOk(s) && !s.reader.Ended?
    ensures LanesOk(CopyStep(s, n))
  {
    if 0 < n <= |s.rest| {
      if s.reader.InPayload? && n <= s.reader.left {
        FeedKeeps(s, s.reader.side, n);
      } else if s.reader.Copying? {
        FeedKeeps(s, Stdout, n);
      }
    }
  }

  lemma CopyStepKeeps(s: Session, n: nat)
    requires Inv(s)
    ensures Inv(CopyStep(s, n))
  {
    if !s.reader.Ended? {
      CopyKeeps(s, n);
      CopyLanes(s, n);
      CopyFrame(s, n);
      LaneSteps(s, CopyStep(s, n));
    }
  }

  // ---- The pumps' steps ----

  lemma HeldNow(socket: seq<Message>, events: seq<Event>, lane: Lane, side: Side, lost: bool, n: nat)
    requires LaneOk(socket, events, lane, side, lost) && lane.pump.Reading? && n <= |lane.pipe|
    ensures LaneOk(socket, events, lane.(pipe := lane.pipe[n..], pump := Holding(lane.pipe[..n])), side, lost)
  {
    assert [] + lane.pipe == lane.pipe[..n] + lane.pipe[n..];
  }

  lemma ReadingIsIncomplete(s: Session, side: Side)
    requires Inv(s) && LaneOf(s, side).pump.Reading?
    ensures !Complete(s) && (s.tty ==> side.Stdout?)
  {}

  /** One lane moves, without another byte written into it. */
  lemma LaneMoves(s: Session, side: Side, lane: Lane)
    requires Inv(s) && !Complete(s) && (s.tty ==> side.Stdout?) && lane.written == LaneOf(s, side).written
    requires LaneOk(s.socket, s.events, lane, side, s.lost) && Drained(lane, s.reader, s.lost) && SmallPump(lane.pump)
    ensures Inv(WithLane(s, side, lane))
  {
    LaneSteps(s, WithLane(s, side, lane));
  }

  lemma LaneHolds(s: Session, side: Side)
    requires Inv(s)
    ensures LaneOk(s.socket, s.events, LaneOf(s, side), side, s.lost)
  {
    if s.tty && side.Stderr? {
      assert LaneOf(s, side) == s.err;
    }
  }

  lemma PumpReadsKeeps(s: Session, side: Side, n: nat)
    requires Inv(s)
    ensures Inv(PumpReadsStep(s, side, n))
  {
    var lane := LaneOf(s, side);
    if lane.pump.Reading? && 0 < n <= |lane.pipe| && n <= CHUNK {
      ReadingIsIncomplete(s, side);
      LaneHolds(s, side);
      HeldNow(s.socket, s.events, lane, side, s.lost, n);
      LaneMoves(s, side, lane.(pipe := lane.pipe[n..], pump := Holding(lane.pipe[..n])));
    }
  }

  lemma PumpEndsKeeps(s: Session, side: Side)
    requires Inv(s)
    ensures Inv(PumpEndsStep(s, side))
  {
    var lane := LaneOf(s, side);
    if lane.pump.Reading? && lane.pipe == [] && s.reader.Ended? {
      ReadingIsIncomplete(s, side);
      LaneHolds(s, side);
      LaneMoves(s, side, lane.(pump := if s.reader.failure.OtherFailure? then Failing else Finished));
    }
  }

  lemma PumpCutKeeps(s: Session, side: Side)
    requires Inv(s)
    ensures Inv(PumpCutStep(s, side))
  {
    if LaneOf(s, side).pump.Reading? {
      LaneSteps(s, PumpCutStep(s, side));
    }
  }

  lemma PumpDropsKeeps(s: Session, side: Side)
    requires Inv(s)
    ensures Inv(PumpDropsStep(s, side))
  {
    if !LaneOf(s, side).pump.Finished? {
      LaneSteps(s, PumpDropsStep(s, side));
    }
  }

  lemma QueuedNow(socket: seq<Message>, events: seq<Event>, lane: Lane, side: Side, lost: bool)
    requires LaneOk(socket, events, lane, side, lost) && lane.pump.Holding?
    ensures LaneOk(socket, events + [Data(side, lane.pump.bytes)], lane.(pump := Reading), side, lost)
  {
    var a, b, c, d := Sent(socket, side), Queued(events, side), lane.pump.bytes, lane.pipe;
    QueuedMore(events, Data(side, c), side);
    assert a + (b + (c + d)) == a + ((b + c) + ([] + d));
  }

  lemma QueuedElsewhere(socket: seq<Message>, events: seq<Event>, lane: Lane, side: Side, lost: bool, e: Event)
    requires LaneOk(socket, events, lane, side, lost) && BytesOf(e, side) == []
    ensures LaneOk(socket, events + [e], lane, side, lost)
  {
    QueuedMore(events, e, side);
    assert Queued(events, side) + [] == Queued(events, side);
  }

  lemma MoreEvents(waiter: Waiter, bridge: Bridge, events: seq<Event>, e: Event)
    requires ExitOk(waiter, bridge, events, false) && !e.Exited?
    ensures bridge.Stopped? || !bridge.Exiting?
    ensures !bridge.Exiting? ==> ExitOk(waiter, bridge, events + [e], false)
  {
    if !bridge.Stopped? {
      assert NoExit(events);
    }
  }

  lemma SendData(s: Session, side: Side)
    requires LanesOk(s) && LaneOf(s, side).pump.Holding?
    ensures
      var lane := LaneOf(s, side);
      LanesOk(WithLane(s, side, lane.(pump := Reading)).(events := s.events + [Data(side, lane.pump.bytes)]))
  {
    var lane := LaneOf(s, side);
    var other := if side.Stdout? then Stderr else Stdout;
    QueuedNow(s.socket, s.events, lane, side, s.lost);
    QueuedElsewhere(s.socket, s.events, LaneOf(s, other), other, s.lost, Data(side, lane.pump.bytes));
  }

  lemma SendOther(s: Session, e: Event)
    requires LanesOk(s) && !e.Data?
    ensures LanesOk(s.(events := s.events + [e]))
  {
    QueuedElsewhere(s.socket, s.events, s.out, Stdout, s.lost, e);
    QueuedElsewhere(s.socket, s.events, s.err, Stderr, s.lost, e);
  }

  lemma SendFailure(s: Session, side: Side)
    requires LanesOk(s) && LaneOf(s, side).pump.Failing?
    ensures LanesOk(WithLane(s, side, LaneOf(s, side).(pump := Finished)).(events := s.events + [Failed]))
  {
    SendOther(s, Failed);
  }

  lemma DataSentKeeps(s: Session, side: Side)
    requires Inv(s) && LaneOf(s, side).pump.Holding?
    ensures Inv(PumpSendsStep(s, side))
  {
    var lane := LaneOf(s, side);
    assert !Complete(s);
    SendData(s, side);
    MoreEvents(s.waiter, s.bridge, s.events, Data(side, lane.pump.bytes));
  }

  lemma FailureSentKeeps(s: Session, side: Side)
    requires Inv(s) && LaneOf(s, side).pump.Failing?
    ensures Inv(PumpSendsStep(s, side))
  {
    assert !Complete(s);
    SendFailure(s, side);
    MoreEvents(s.waiter, s.bridge, s.events, Failed);
  }

  lemma PumpSendsKeeps(s: Session, side: Side)
    requires Inv(s)
    ensures Inv(PumpSendsStep(s, side))
  {
    var lane := LaneOf(s, side);
    if lane.pump.Holding? {
      DataSentKeeps(s, side);
    } else if lane.pump.Failing? {
      FailureSentKeeps(s, side);
    }
  }

  // ---- The waiter's steps ----

  /** The waiter reports an exit only when both pumps drained an uncut, unbroken stream. */
  lemma WaitReturnsKeeps(s: Session, code: int, works: bool)
    requires Inv(s)
    ensures Inv(WaitReturnsStep(s, code, works))
  {}

  lemma ExitQueued(waiter: Waiter, bridge: Bridge, events: seq<Event>, complete: bool)
    requires ExitOk(waiter, bridge, events, complete) && waiter.Reports?
    ensures ExitOk(Gone, bridge, events + [waiter.event], complete)
  {}

  lemma WaiterSendsKeeps(s: Session)
    requires Inv(s)
    ensures Inv(WaiterSendsStep(s))
  {
    if s.waiter.Reports? {
      SendOther(s, s.waiter.event);
      ExitQueued(s.waiter, s.bridge, s.events, Complete(s));
    }
  }

  lemma WaiterDropsKeeps(s: Session)
    requires Inv(s)
    ensures Inv(WaiterDropsStep(s))
  {}

  // ---- The bridge's steps ----

  lemma MoreSocket(socket: seq<Message>, m: Message, total: Output)
    requires SocketOk(socket, total) && !m.ExitText? &&
             (m == Closed(true) ==> socket != [] && socket[|socket| - 1].ExitText?)
    ensures SocketOk(socket + [m], total)
  {
    var more := socket + [m];
    forall k | 0 <= k < |more| ensures ExitAt(more, k, total) {
      if k < |socket| {
        assert more[..k] == socket[..k];
        assert ExitAt(socket, k, total);
      }
    }
  }

  lemma GiveUpKeeps(s: Session, written: bool, closed: bool)
    requires ReaderOk(s) && (s.tty ==> s.err == Lane([], [], Finished)) && SizesOk(s) &&
             SocketOk(s.socket, Carried(s.tty, s.stream, s.end))
    requires (!s.waiter.Gone? ==> NoExit(s.events)) && (s.waiter.Reports? ==> !s.waiter.event.Data?)
    ensures Inv(GiveUp(s, written, closed))
  {
    var total := Carried(s.tty, s.stream, s.end);
    var first := s.socket + (if written then [ErrorText] else []);
    if written {
      MoreSocket(s.socket, ErrorText, total);
    } else {
      assert first == s.socket;
    }
    if closed {
      MoreSocket(first, Closed(false), total);
    } else {
      assert first + [] == first;
    }
  }

  lemma FrameCarries(side: Side, bytes: seq<Byte>)
    requires |bytes| <= CHUNK
    ensures OutputFrame(Channel(side), bytes).Some?
    ensures
      var m := Binary(OutputFrame(Channel(side), bytes).value);
      forall other :: CarriedBy(m, other) == BytesOf(Data(side, bytes), other)
  {
    OutputFramesRoundTrip(Channel(side), bytes, OutputFrame(Channel(side), bytes).value);
  }

  lemma DeliveredNow(socket: seq<Message>, events: seq<Event>, lane: Lane, side: Side, lost: bool, m: Message)
    requires LaneOk(socket, events, lane, side, lost) && events != [] && CarriedBy(m, side) == BytesOf(events[0], side)
    ensures LaneOk(socket + [m], events[1..], lane, side, lost)
  {
    SentMore(socket, m, side);
    Regrouped(Sent(socket, side), BytesOf(events[0], side), Queued(events[1..], side), Held(lane.pump) + lane.pipe);
  }

  lemma Regrouped(a: seq<Byte>, b: seq<Byte>, c: seq<Byte>, d: seq<Byte>)
    ensures a + ((b + c) + d) == (a + b) + (c + d)
  {}

  lemma DeliverKeeps(s: Session)
    requires Inv(s) && s.bridge.Serving? && s.events != [] && s.events[0].Data?
    ensures
      var e := s.events[0];
      && OutputFrame(Channel(e.side), e.bytes).Some?
      && Inv(s.(events := s.events[1..], socket := s.socket + [Binary(OutputFrame(Channel(e.side), e.bytes).value)]))
  {
    var e := s.events[0];
    FrameCarries(e.side, e.bytes);
    var m := Binary(OutputFrame(Channel(e.side), e.bytes).value);
    DeliveredNow(s.socket, s.events, s.out, Stdout, s.lost, m);
    DeliveredNow(s.socket, s.events, s.err, Stderr, s.lost, m);
    MoreSocket(s.socket, m, Carried(s.tty, s.stream, s.end));
    assert forall k :: 0 <= k < |s.events[1..]| ==> s.events[1..][k] == s.events[k + 1];
  }

  lemma PoppedKeeps(s: Session, socket: seq<Message>, written: bool, closed: bool)
    requires Inv(s) && s.events != [] && SocketOk(socket, Carried(s.tty, s.stream, s.end))
    ensures Inv(GiveUp(s.(events := s.events[1..], socket := socket), written, closed))
  {
    assert forall k :: 0 <= k < |s.events[1..]| ==> s.events[1..][k] == s.events[k + 1];
    GiveUpKeeps(s.(events := s.events[1..], socket := socket), written, closed);
  }

  lemma ExitTaken(s: Session)
    requires Inv(s) && s.bridge.Serving? && s.events != [] && s.events[0].Exited?
    ensures Inv(s.(events := s.events[1..], bridge := Exiting(s.events[0].code)))
  {
    assert !NoExit(s.events);
    assert s.events[1..] == [];
    assert BytesOf(s.events[0], Stdout) == [] && BytesOf(s.events[0], Stderr) == [];
    assert Queued(s.events, Stdout) == [] + Queued(s.events[1..], Stdout);
    assert Queued(s.events, Stderr) == [] + Queued(s.events[1..], Stderr);
  }

  lemma BridgeTakesKeeps(s: Session, works: bool, delivered: bool, written: bool, closed: bool)
    requires Inv(s)
    ensures Inv(BridgeTakesStep(s, works, delivered, written, closed))
  {
    if s.bridge.Serving? && s.events != [] {
      PoppedKeeps(s, s.socket, written, closed);
      if s.events[0].Exited? {
        ExitTaken(s);
      } else if s.events[0].Data? {
        DeliverKeeps(s);
        var e := s.events[0];
        PoppedKeeps(s, s.socket + [Binary(OutputFrame(Channel(e.side), e.bytes).value)], written, closed);
      }
    }
  }

  lemma AllSent(s: Session, side: Side)
    requires Inv(s) && s.bridge.Exiting?
    ensures Sent(s.socket, side) == LaneOf(s, side).written
  {
    var sent := Sent(s.socket, side);
    assert Queued(s.events, side) == [] && Held(LaneOf(s, side).pump) == [];
    assert sent + ([] + ([] + [])) == sent;
  }

  /** When the bridge is about to write the exit text, everything the stream carries has been sent. */
  lemma ExitIsDue(s: Session)
    requires Inv(s) && s.bridge.Exiting?
    ensures
      var total := Carried(s.tty, s.stream, s.end);
      Sent(s.socket, Stdout) == total.out && Sent(s.socket, Stderr) == total.err && total.failure.NoFailure? &&
        DataOnly(s.socket)
  {
    AllSent(s, Stdout);
    AllSent(s, Stderr);
    assert s.out.written + [] == s.out.written && s.err.written + [] == s.err.written;
  }

  lemma ExitWritten(s: Session)
    requires Inv(s) && s.bridge.Exiting?
    ensures SocketOk(s.socket + [ExitText(s.bridge.code)], Carried(s.tty, s.stream, s.end))
  {
    var total := Carried(s.tty, s.stream, s.end);
    var more := s.socket + [ExitText(s.bridge.code)];
    ExitIsDue(s);
    forall k | 0 <= k < |more| ensures ExitAt(more, k, total) {
      assert more[..|s.socket|] == s.socket;
      if k < |s.socket| {
        assert more[..k] == s.socket[..k];
        assert ExitAt(s.socket, k, total);
      }
    }
  }

  lemma BridgeExitsKeeps(s: Session, closes: bool, works: bool, delivered: bool, written: bool, closed: bool)
    requires Inv(s)
    ensures Inv(BridgeExitsStep(s, closes, works, delivered, written, closed))
  {
    if s.bridge.Exiting? {
      var t := s.(socket := s.socket + [ExitText(s.bridge.code)]);
      ExitWritten(s);
      GiveUpKeeps(s, written, closed);
      GiveUpKeeps(t, written, closed);
      ExitStands(s, t.socket);
    }
  }

  lemma ExitStands(s: Session, socket: seq<Message>)
    requires Inv(s) && s.bridge.Exiting? && socket == s.socket + [ExitText(s.bridge.code)]
    requires SocketOk(socket, Carried(s.tty, s.stream, s.end))
    ensures Inv(s.(socket := socket, bridge := Closing(s.bridge.code)))
  {
    var m := ExitText(s.bridge.code);
    SentMore(s.socket, m, Stdout);
    SentMore(s.socket, m, Stderr);
    assert Sent(s.socket, Stdout) + [] == Sent(s.socket, Stdout) &&
      Sent(s.socket, Stderr) + [] == Sent(s.socket, Stderr);
  }

  lemma BridgeClosesKeeps(s: Session, works: bool, delivered: bool, written: bool, closed: bool)
    requires Inv(s)
    ensures Inv(BridgeClosesStep(s, works, delivered, written, closed))
  {
    if s.bridge.Closing? {
      MoreSocket(s.socket, Closed(true), Carried(s.tty, s.stream, s.end));
      if works {
        ClosedNormally(s, s.socket + [Closed(true)]);
      } else {
        GiveUpKeeps(if delivered then s.(socket := s.socket + [Closed(true)]) else s, written, closed);
      }
    }
  }

  lemma ClosedNormally(s: Session, socket: seq<Message>)
    requires Inv(s) && s.bridge.Closing? && socket == s.socket + [Closed(true)]
    requires SocketOk(socket, Carried(s.tty, s.stream, s.end))
    ensures Inv(s.(bridge := Stopped, cancelled := true, socket := socket))
  {
    SentMore(s.socket, Closed(true), Stdout);
    SentMore(s.socket, Closed(true), Stderr);
    assert Sent(s.socket, Stdout) + [] == Sent(s.socket, Stdout) &&
      Sent(s.socket, Stderr) + [] == Sent(s.socket, Stderr);
  }

  lemma BridgeFailsKeeps(s: Session, written: bool, closed: bool)
    requires Inv(s)
    ensures Inv(BridgeFailsStep(s, written, closed))
  {
    if s.bridge.Serving? {
      GiveUpKeeps(s, written, closed);
    }
  }

  lemma CancelKeeps(s: Session)
    requires Inv(s)
    ensures Inv(s.(cancelled := true))
  {}

  predicate OfBridge(a: Action) {
    a.BridgeTakes? || a.BridgeExits? || a.BridgeCloses? || a.BridgeFails?
  }

  lemma ServingKeeps(s: Session, a: Action)
    requires Inv(s) && (a.BridgeTakes? || a.BridgeFails?)
    ensures Inv(Step(s, a))
  {
    match a
    case BridgeTakes(works, delivered, written, closed) => BridgeTakesKeeps(s, works, delivered, written, closed);
    case BridgeFails(written, closed) => BridgeFailsKeeps(s, written, closed);
  }

  lemma EndingKeeps(s: Session, a: Action)
    requires Inv(s) && (a.BridgeExits? || a.BridgeCloses?)
    ensures Inv(Step(s, a))
  {
    match a
    case BridgeExits(closes, works, delivered, written, closed) =>
      BridgeExitsKeeps(s, closes, works, delivered, written, closed);
    case BridgeCloses(works, delivered, written, closed) => BridgeClosesKeeps(s, works, delivered, written, closed);
  }

  lemma PumpTakesKeeps(s: Session, a: Action)
    requires Inv(s) && (a.PumpReads? || a.PumpEnds? || a.PumpCut?)
    ensures Inv(Step(s, a))
  {
    match a
    case PumpReads(side, n) => PumpReadsKeeps(s, side, n);
    case PumpEnds(side) => PumpEndsKeeps(s, side);
    case PumpCut(side) => PumpCutKeeps(s, side);
  }

  lemma PumpGivesKeeps(s: Session, a: Action)
    requires Inv(s) && (a.PumpSends? || a.PumpDrops?)
    ensures Inv(Step(s, a))
  {
    match a
    case PumpSends(side) => PumpSendsKeeps(s, side);
    case PumpDrops(side) => PumpDropsKeeps(s, side);
  }

  lemma StepKeeps(s: Session, a: Action)
    requires Inv(s)
    ensures Inv(Step(s, a))
  {
    if a.BridgeTakes? || a.BridgeFails? {
      ServingKeeps(s, a);
    } else if a.BridgeExits? || a.BridgeCloses? {
      EndingKeeps(s, a);
    } else if a.PumpReads? || a.PumpEnds? || a.PumpCut? {
      PumpTakesKeeps(s, a);
    } else if a.PumpSends? || a.PumpDrops? {
      PumpGivesKeeps(s, a);
    } else {
      match a
      case ReadHeader => HeaderStepKeeps(s);
      case Copy(n) => CopyStepKeeps(s, n);
      case ReadEnds => EndsStepKeeps(s);
      case CutReader => CutStepKeeps(s);
      case WaitReturns(code, works) => WaitReturnsKeeps(s, code, works);
      case WaiterSends => WaiterSendsKeeps(s);
      case WaiterDrops => WaiterDropsKeeps(s);
      case Cancel => CancelKeeps(s);
    }
  }

  predicate SameSession(s: Session, t: Session) {
    t.tty == s.tty && t.stream == s.stream && t.end == s.end
  }

  lemma ReaderSame(s: Session, a: Action)
    requires a.ReadHeader? || a.Copy? || a.ReadEnds? || a.CutReader? || a.Cancel?
    ensures SameSession(s, Step(s, a))
  {
    if a.Copy? {
      CopyFrame(s, a.n);
    }
  }

  lemma PumpSame(s: Session, a: Action)
    requires a.PumpReads? || a.PumpEnds? || a.PumpCut? || a.PumpDrops?
    ensures SameSession(s, Step(s, a))
  {}

  lemma SendSame(s: Session, a: Action)
    requires a.PumpSends? || a.WaitReturns? || a.WaiterSends? || a.WaiterDrops?
    ensures SameSession(s, Step(s, a))
  {}

  lemma TakesSame(s: Session, works: bool, delivered: bool, written: bool, closed: bool)
    ensures SameSession(s, BridgeTakesStep(s, works, delivered, written, closed))
  {
    if s.bridge.Serving? && s.events != [] {
      var t := s.(events := s.events[1..]);
      GivenUpSame(s, t, written, closed);
      if s.events[0].Data? {
        var frame := OutputFrame(Channel(s.events[0].side), s.events[0].bytes);
        if frame.Some? {
          GivenUpSame(s, t.(socket := s.socket + [Binary(frame.value)]), written, closed);
        }
      }
    }
  }

  lemma GivenUpSame(s: Session, t: Session, written: bool, closed: bool)
    requires SameSession(s, t)
    ensures SameSession(s, GiveUp(t, written, closed))
  {}

  lemma ExitsSame(s: Session, closes: bool, works: bool, delivered: bool, written: bool, closed: bool)
    ensures SameSession(s, BridgeExitsStep(s, closes, works, delivered, written, closed))
  {}

  lemma ClosesSame(s: Session, works: bool, delivered: bool, written: bool, closed: bool)
    ensures SameSession(s, BridgeClosesStep(s, works, delivered, written, closed))
  {}

  lemma EndingSame(s: Session, a: Action)
    requires a.BridgeExits? || a.BridgeCloses? || a.BridgeFails?
    ensures SameSession(s, Step(s, a))
  {
    match a
    case BridgeExits(closes, works, delivered, written, closed) =>
      ExitsSame(s, closes, works, delivered, written, closed);
    case BridgeCloses(works, delivered, written, closed) => ClosesSame(s, works, delivered, written, closed);
    case BridgeFails(written, closed) => GivenUpSame(s, s, written, closed);
  }

  lemma BridgeSame(s: Session, a: Action)
    requires OfBridge(a)
    ensures SameSession(s, Step(s, a))
  {
    if a.BridgeTakes? {
      TakesSame(s, a.works, a.delivered, a.written, a.closed);
    } else {
      EndingSame(s, a);
    }
  }

  lemma StepSame(s: Session, a: Action)
    ensures SameSession(s, Step(s, a))
  {
    if a.ReadHeader? || a.Copy? || a.ReadEnds? || a.CutReader? || a.Cancel? {
      ReaderSame(s, a);
    } else if a.PumpReads? || a.PumpEnds? || a.PumpCut? || a.PumpDrops? {
      PumpSame(s, a);
    } else if a.PumpSends? || a.WaitReturns? || a.WaiterSends? || a.WaiterDrops? {
      SendSame(s, a);
    } else {
      BridgeSame(s, a);
    }
  }

  lemma {:induction false} ExecKeeps(s: Session, run: seq<Action>)
    requires Inv(s)
    ensures Inv(Exec(s, run)) && SameSession(s, Exec(s, run))
    decreases |run|
  {
    if run != [] {
      StepKeeps(s, run[0]);
      StepSame(s, run[0]);
      ExecKeeps(Step(s, run[0]), run[1..]);
    }
  }

  // ---- The promises ----

  /** In every run, over every stream: an exit text is written only after every byte the stream
      carries on either channel, and only for a stream that ended whole. */
  lemma ExitComesLast(tty: bool, stream: seq<Byte>, end: End, run: seq<Action>, k: nat)
    requires k < |Exec(Start(tty, stream, end), run).socket| && Exec(Start(tty, stream, end), run).socket[k].ExitText?
    ensures
      var before := Exec(Start(tty, stream, end), run).socket[..k];
      var total := Carried(tty, stream, end);
      Sent(before, Stdout) == total.out && Sent(before, Stderr) == total.err && DataOnly(before) &&
        total.failure.NoFailure?
  {
    StartOk(tty, stream, end);
    ExecKeeps(Start(tty, stream, end), run);
    var s := Exec(Start(tty, stream, end), run);
    assert ExitAt(s.socket, k, Carried(tty, stream, end));
  }

  /** A truncated or malformed multiplexed stream never yields an exit, although a short payload looks
      like plain end-of-file to the pumps. */
  lemma BadStreamNeverExits(stream: seq<Byte>, end: End, run: seq<Action>, k: nat)
    requires Demux(stream, end).failure != NoFailure
    requires k < |Exec(Start(false, stream, end), run).socket|
    ensures !Exec(Start(false, stream, end), run).socket[k].ExitText?
  {
    if Exec(Start(false, stream, end), run).socket[k].ExitText? {
      ExitComesLast(false, stream, end, run, k);
    }
  }

  // ---- The client ----

  /** What a client that is still reading has read: data only, or data and then the exit text. */
  ghost predicate HasRead(c: Client, messages: seq<Message>) {
    if c.got.exit.None? then DataOnly(messages) && c.got.out == Sent(messages, Stdout) &&
      c.got.err == Sent(messages, Stderr)
    else
      && |messages| > 0 && messages[|messages| - 1] == ExitText(c.got.exit.value)
      && var data := messages[..|messages| - 1];
         DataOnly(data) && c.got.out == Sent(data, Stdout) && c.got.err == Sent(data, Stderr)
  }

  lemma ReadOne(c: Client, before: seq<Message>, m: Message, tty: bool)
    requires c.result.Waiting? && HasRead(c, before) && Read(c, m, tty).result.Waiting?
    ensures HasRead(Read(c, m, tty), before + [m])
  {
    SentMore(before, m, Stdout);
    SentMore(before, m, Stderr);
    assert (before + [m])[..|before|] == before;
    assert c.got.out + [] == c.got.out && c.got.err + [] == c.got.err;
  }

  lemma {:induction false} ClientFollows(messages: seq<Message>, tty: bool)
    requires ReadAll(messages, tty).result.Waiting?
    ensures HasRead(ReadAll(messages, tty), messages)
    decreases |messages|
  {
    if messages != [] {
      var before, m := messages[..|messages| - 1], messages[|messages| - 1];
      assert messages == before + [m];
      ClientFollows(before, tty);
      ReadOne(ReadAll(before, tty), before, m, tty);
    }
  }

  lemma ClosesOnExit(c: Client, last: Message, tty: bool)
    requires c.result.Waiting? && Read(c, last, tty).result.Returned?
    ensures Read(c, last, tty).got == c.got && c.got.exit.Some? && c.got.exit.value == Read(c, last, tty).result.code
  {}

  lemma {:induction false} ClientReturned(messages: seq<Message>, tty: bool) returns (k: nat)
    requires ReadAll(messages, tty).result.Returned?
    ensures
      var c := ReadAll(messages, tty);
      && k < |messages| && messages[k] == ExitText(c.result.code)
      && c.got.out == Sent(messages[..k], Stdout) && c.got.err == Sent(messages[..k], Stderr)
    decreases |messages|
  {
    var before, last := messages[..|messages| - 1], messages[|messages| - 1];
    if ReadAll(before, tty).result.Waiting? {
      ClientFollows(before, tty);
      ClosesOnExit(ReadAll(before, tty), last, tty);
      k := |before| - 1;
      assert messages[..k] == before[..k];
    } else {
      k := ClientReturned(before, tty);
      assert messages[..k] == before[..k];
    }
  }

  /** A client result without an error means that each channel received exactly the bytes the stream
      carried for it. The client may have read any prefix of what the server wrote. */
  lemma SuccessMeansEverything(tty: bool, stream: seq<Byte>, end: End, run: seq<Action>, n: nat)
    requires n <= |Exec(Start(tty, stream, end), run).socket|
    requires ReadAll(Exec(Start(tty, stream, end), run).socket[..n], tty).result.Returned?
    ensures
      var c := ReadAll(Exec(Start(tty, stream, end), run).socket[..n], tty);
      var total := Carried(tty, stream, end);
      c.got.out == total.out && c.got.err == total.err && total.failure.NoFailure?
  {
    var socket := Exec(Start(tty, stream, end), run).socket;
    var k := ClientReturned(socket[..n], tty);
    assert socket[..n][..k] == socket[..k];
    ExitComesLast(tty, stream, end, run, k);
  }
}
