/** The console session as concurrent steps: the demultiplexer, one pump per channel, the event queue,
    the waiter, the bridge and the socket. Cancellation may fall anywhere. */
module ConsoleMachine {
  import opened ConsoleWire

  const QUEUE: nat := 8
  const CHUNK: nat := MAX_DATA - 1

  /** Which of the two output channels. */
  datatype Side = Stdout | Stderr

  function Channel(side: Side): Byte {
    if side.Stdout? then 1 else 2
  }

  datatype Event = Data(side: Side, bytes: seq<Byte>) | Exited(code: int) | Failed

  /** Where readOutput is; a terminal session is copied raw. */
  datatype Reader = AtHeader | InPayload(side: Side, left: nat) | Copying | Ended(failure: Failure)

  datatype Pump = Reading | Holding(bytes: seq<Byte>) | Failing | Finished

  datatype Waiter = Waits | Reports(event: Event) | Gone

  datatype Bridge = Serving | Exiting(code: int) | Closing(code: int) | Stopped

  /** One output channel: what was written into its pipe, what is still in it, and its pump. */
  datatype Lane = Lane(written: seq<Byte>, pipe: seq<Byte>, pump: Pump)

  /** `lost` remembers that some byte was given up, `cut` that the reader was stopped from outside. */
  datatype Session = Session(tty: bool, stream: seq<Byte>, end: End, rest: seq<Byte>, reader: Reader, out: Lane,
                             err: Lane, events: seq<Event>, waiter: Waiter, bridge: Bridge, socket: seq<Message>,
                               cancelled: bool, lost: bool, cut: bool)

  datatype Action =
    | ReadHeader
    | Copy(n: nat)
    | ReadEnds
    | CutReader
    | PumpReads(side: Side, n: nat)
    | PumpEnds(side: Side)
    | PumpCut(side: Side)
    | PumpSends(side: Side)
    | PumpDrops(side: Side)
    | WaitReturns(code: int, works: bool)
    | WaiterSends
    | WaiterDrops
    | BridgeTakes(works: bool, delivered: bool, written: bool, closed: bool)
    | BridgeExits(closes: bool, works: bool, delivered: bool, written: bool, closed: bool)
    | BridgeCloses(works: bool, delivered: bool, written: bool, closed: bool)
    | BridgeFails(written: bool, closed: bool)
    | Cancel

  function LaneOf(s: Session, side: Side): Lane {
    if side.Stdout? then s.out else s.err
  }

  function WithLane(s: Session, side: Side, lane: Lane): Session {
    if side.Stdout? then s.(out := lane) else s.(err := lane)
  }

  // ---- The reader ----

  function ReadHeaderStep(s: Session): Session {
    if !s.reader.AtHeader? || s.rest == [] then s
    else if !Framed(s.rest) then s.(reader := Ended(OtherFailure))
    else s.(reader := InPayload(if s.rest[0] == 1 then Stdout else Stderr, Size(s.rest[..8])), rest := s.rest[8..])
  }

  function Feed(s: Session, side: Side, n: nat): Session
    requires n <= |s.rest|
  {
    var lane := LaneOf(s, side);
    WithLane(s, side, lane.(written := lane.written + s.rest[..n],
                            pipe := lane.pipe + s.rest[..n])).(rest := s.rest[n..])
  }

  predicate Copies(reader: Reader, n: nat) {
    reader.Copying? || (reader.InPayload? && n <= reader.left)
  }

  /** Copies some of the payload, in pieces of any size. */
  function CopyStep(s: Session, n: nat): Session {
    if n > |s.rest| || n == 0 || !Copies(s.reader, n) then s
    else if s.reader.Copying? then Feed(s, Stdout, n)
    else Feed(s, s.reader.side, n).(reader := InPayload(s.reader.side, s.reader.left - n))
  }

  function ReadEndsStep(s: Session): Session {
    match s.reader
    case AtHeader => if s.rest == [] then s.(reader := Ended(Stop(s.end, NoFailure))) else s
    case Copying => if s.rest == [] then s.(reader := Ended(Stop(s.end, NoFailure))) else s
    case InPayload(_, left) =>
      if left == 0 then s.(reader := AtHeader)
      else if s.rest == [] then s.(reader := Ended(Stop(s.end, WrappedEof)))
      else s
    case Ended(_) => s
  }

  /** Closing the session, or cancelling it, fails whatever the reader is doing. */
  function CutReaderStep(s: Session): Session {
    if !s.cancelled || s.reader.Ended? then s else s.(reader := Ended(OtherFailure), cut := true)
  }

  // ---- The pumps ----

  function PumpReadsStep(s: Session, side: Side, n: nat): Session {
    var lane := LaneOf(s, side);
    if !lane.pump.Reading? || n == 0 || n > |lane.pipe| || n > CHUNK then s
    else WithLane(s, side, lane.(pipe := lane.pipe[n..], pump := Holding(lane.pipe[..n])))
  }

  /** An empty pipe reports how the reader ended; an error that wraps end-of-file counts as one. */
  function PumpEndsStep(s: Session, side: Side): Session {
    var lane := LaneOf(s, side);
    if !lane.pump.Reading? || lane.pipe != [] || !s.reader.Ended? then s
    else WithLane(s, side, lane.(pump := if s.reader.failure.OtherFailure? then Failing else Finished))
  }

  function PumpCutStep(s: Session, side: Side): Session {
    var lane := LaneOf(s, side);
    if !lane.pump.Reading? || !s.cancelled then s
    else WithLane(s, side, lane.(pump := Failing)).(lost := true)
  }

  function PumpSendsStep(s: Session, side: Side): Session {
    var lane := LaneOf(s, side);
    if |s.events| >= QUEUE then s
    else
      match lane.pump
      case Holding(bytes) => WithLane(s, side, lane.(pump := Reading)).(events := s.events + [Data(side, bytes)])
      case Failing => WithLane(s, side, lane.(pump := Finished)).(events := s.events + [Failed])
      case _ => s
  }

  function PumpDropsStep(s: Session, side: Side): Session {
    var lane := LaneOf(s, side);
    if !s.cancelled then s
    else
      match lane.pump
      case Holding(_) => WithLane(s, side, lane.(pump := Reading)).(lost := true)
      case Failing => WithLane(s, side, lane.(pump := Finished))
      case _ => s
  }

  // ---- The waiter ----

  /** Both pumps have finished; then Wait looks at the context, the stream and the runtime, in that order. */
  function WaitReturnsStep(s: Session, code: int, works: bool): Session {
    if !s.waiter.Waits? || !s.out.pump.Finished? || !s.err.pump.Finished? then s
    else if s.cancelled then s.(waiter := Reports(Failed))
    else if !s.reader.Ended? then s
    else if s.reader.failure != NoFailure || !works || code < 0 || code > 255 then s.(waiter := Reports(Failed))
    else s.(waiter := Reports(Exited(code)))
  }

  function WaiterSendsStep(s: Session): Session {
    if !s.waiter.Reports? || |s.events| >= QUEUE then s
    else s.(waiter := Gone, events := s.events + [s.waiter.event])
  }

  function WaiterDropsStep(s: Session): Session {
    if !s.waiter.Reports? || !s.cancelled then s else s.(waiter := Gone)
  }

  // ---- The bridge ----

  /** The bridge gives up: an error text and a policy close, either of which may not get through. */
  function GiveUp(s: Session, written: bool, closed: bool): Session {
    s.(bridge := Stopped, cancelled := true, lost := true, socket := Farewell(s.socket, written, closed))
  }

  function Farewell(socket: seq<Message>, written: bool, closed: bool): seq<Message> {
    socket + (if written then [ErrorText] else []) + (if closed then [Closed(false)] else [])
  }

  function BridgeTakesStep(s: Session, works: bool, delivered: bool, written: bool, closed: bool): Session {
    if !s.bridge.Serving? || s.events == [] then s
    else
      var t := s.(events := s.events[1..]);
      match s.events[0]
      case Failed => GiveUp(t, written, closed)
      case Exited(code) => t.(bridge := Exiting(code))
      case Data(side, bytes) =>
        match OutputFrame(Channel(side), bytes)
        case None => GiveUp(t, written, closed)
        case Some(raw) =>
          if s.tty && side.Stderr? then GiveUp(t, written, closed)
          else if works then t.(socket := s.socket + [Binary(raw)])
          else GiveUp(if delivered then t.(socket := s.socket + [Binary(raw)]) else t, written, closed)
  }

  /** Close the session, then write the exit text. */
  function BridgeExitsStep(s: Session, closes: bool, works: bool, delivered: bool, written: bool, closed: bool)
    : Session
  {
    if !s.bridge.Exiting? then s
    else if !closes then GiveUp(s, written, closed)
    else
      var t := s.(socket := s.socket + [ExitText(s.bridge.code)]);
      if works then t.(bridge := Closing(s.bridge.code))
      else GiveUp(if delivered then t else s, written, closed)
  }

  /** The close frame may get through although the handshake then fails. */
  function BridgeClosesStep(s: Session, works: bool, delivered: bool, written: bool, closed: bool): Session {
    if !s.bridge.Closing? then s
    else
      var t := s.(socket := s.socket + [Closed(true)]);
      if works then t.(bridge := Stopped, cancelled := true)
      else GiveUp(if delivered then t else s, written, closed)
  }

  /** The input side disconnected, or the context was cancelled. */
  function BridgeFailsStep(s: Session, written: bool, closed: bool): Session {
    if !s.bridge.Serving? then s else GiveUp(s, written, closed)
  }

  function Step(s: Session, a: Action): Session {
    match a
    case ReadHeader => ReadHeaderStep(s)
    case Copy(n) => CopyStep(s, n)
    case ReadEnds => ReadEndsStep(s)
    case CutReader => CutReaderStep(s)
    case PumpReads(side, n) => PumpReadsStep(s, side, n)
    case PumpEnds(side) => PumpEndsStep(s, side)
    case PumpCut(side) => PumpCutStep(s, side)
    case PumpSends(side) => PumpSendsStep(s, side)
    case PumpDrops(side) => PumpDropsStep(s, side)
    case WaitReturns(code, works) => WaitReturnsStep(s, code, works)
    case WaiterSends => WaiterSendsStep(s)
    case WaiterDrops => WaiterDropsStep(s)
    case BridgeTakes(works, delivered, written, closed) => BridgeTakesStep(s, works, delivered, written, closed)
    case BridgeExits(closes, works, delivered, written, closed) =>
      BridgeExitsStep(s, closes, works, delivered, written, closed)
    case BridgeCloses(works, delivered, written, closed) => BridgeClosesStep(s, works, delivered, written, closed)
    case BridgeFails(written, closed) => BridgeFailsStep(s, written, closed)
    case Cancel => s.(cancelled := true)
  }

  function Exec(s: Session, run: seq<Action>): Session
    decreases |run|
  {
    if run == [] then s else Exec(Step(s, run[0]), run[1..])
  }

  /** A session over any stream; a terminal session has no pump for the error channel. */
  function Start(tty: bool, stream: seq<Byte>, end: End): Session {
    Session(tty, stream, end, stream, if tty then Copying else AtHeader, Lane([], [], Reading),
            Lane([], [], if tty then Finished else Reading),
            [], Waits, Serving, [], false, false, false)
  }

  /** What the stream carries for each channel, and whether it may count as complete. */
  function Carried(tty: bool, stream: seq<Byte>, end: End): Output {
    if tty then Output(stream, [], Stop(end, NoFailure)) else Demux(stream, end)
  }
}
