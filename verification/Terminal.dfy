/** One typed terminal stream end to end: output, input, resizing and every way it can end. The client
    has one reader, one writer, one resizer and one closer; the server has the forwardOutput goroutine,
    the frame loop and the waitProcess goroutine. Every critical section and every frame write is one
    step. A terminal read writes its window update before it raises its own credit, unlike a download,
    and the server closes the ID before it tells the client. */
module Terminal {
  import Buffer
  import opened Common
  import Machine
  import opened Protocol

  // ----- sending under credit, the same loop at both ends -----

  /** `Idle`: no data at hand. `Loop`: about to look for credit. `Asleep`: waiting for a credit token.
      `Sending`: credit spent, data frame not yet written. `Stopped`: the goroutine has returned. */
  datatype Sender =
    | Idle
    | Loop(rest: seq<Byte>)
    | Asleep(rest: seq<Byte>)
    | Sending(chunk: seq<Byte>, rest: seq<Byte>)
    | Stopped

  function ChunkSize(rest: seq<Byte>, credit: nat): nat { Min(Min(|rest|, MAX_CHUNK), credit) }

  /** The locked section that looks for credit. */
  function Spend(rest: seq<Byte>, credit: nat): Sender
  {
    if credit == 0 then Asleep(rest)
    else var n := ChunkSize(rest, credit); Sending(rest[..n], rest[n..])
  }

  function AfterChunk(rest: seq<Byte>): Sender { if rest == [] then Idle else Loop(rest) }

  function Pending(k: Sender): seq<Byte>
  {
    match k
    case Loop(rest) => rest
    case Asleep(rest) => rest
    case Sending(chunk, rest) => chunk + rest
    case _ => []
  }

  function Unwritten(k: Sender): seq<Byte> { if k.Sending? then k.chunk else [] }

  predicate SenderOk(k: Sender)
  {
    && (k.Loop? || k.Asleep? ==> k.rest != [])
    && (k.Sending? ==> ValidData(k.chunk))
  }

  lemma SpendOk(rest: seq<Byte>, credit: nat)
    requires rest != []
    ensures SenderOk(Spend(rest, credit)) && Pending(Spend(rest, credit)) == rest
    ensures credit > 0 ==> |Unwritten(Spend(rest, credit))| == ChunkSize(rest, credit) <= credit
  {
  }

  // ----- client -----

  /** As in a download, except that `Announced` comes before the credit is raised; `last` is what the
      call will report as the end of the stream. */
  datatype Reader =
    | ReadIdle
    | Looking(max: nat)
    | Sleeping(max: nat)
    | Took(data: seq<Byte>, last: bool)
    | Announced(data: seq<Byte>, last: bool)

  /** `returned` is everything ReadTerminalStream has returned; `ended`: some call reported the end. */
  datatype Screen = Screen(buffer: Buffer.Buffer, reader: Reader, returned: seq<Byte>, ended: bool)

  /** `written` is everything WriteTerminalStream has put on the wire, `lost` the credit it has spent on
      chunks it never wrote. */
  datatype Keyboard = Keyboard(sendCredit: nat, token: bool, writer: Sender, written: seq<Byte>, lost: nat)

  datatype Closer = NotClosing | SendsClose | AwaitsClose

  datatype Control = Control(closing: bool, closer: Closer, resizing: bool)

  datatype Monitor = Listening | NotifyingOutput | NotifyingCredit

  /** `done`: the child was removed from the map and its done channel is closed. */
  datatype Client = Client(accepted: bool, done: bool, monitor: Monitor,
                           screen: Screen, keyboard: Keyboard, control: Control)

  function NewClient(): Client
  {
    Client(false, false, Listening, Screen(Buffer.Empty(), ReadIdle, [], false), Keyboard(0, false, Idle, [], 0),
           Control(false, NotClosing, false))
  }

  /** A call finds its child only while the stream is in the map. */
  predicate Found(c: Client) { c.accepted && !c.done }

  datatype ReaderMove = StartRead(max: nat) | Look | WakeRead | WakeDone | GiveUpRead | Announce | CreditBack
  datatype WriterMove =
    | StartWrite(data: seq<Byte>) | SpendCredit | WakeWrite | WriteEnds | GiveUpWrite | WriteData | DropChunk
  datatype ControlMove =
    | Notify | StartResize | SendResize | DropResize | StartClose | SendClose | EndClose | GiveUpClose
  datatype ClientMove = Reads(r: ReaderMove) | Writes(w: WriterMove) | Controls(k: ControlMove)

  /** The locked section in which a read looks at the queue. */
  function LookStep(v: Screen, done: bool, max: nat): Screen
  {
    if v.buffer.queue != [] then
      var rest := Buffer.Rest(v.buffer, max);
      v.(buffer := rest, reader := Took(Buffer.Front(v.buffer, max), done && rest.outputBytes == 0))
    else if done then v.(reader := ReadIdle, ended := true)
    else v.(reader := Sleeping(max))
  }

  function ReaderStep(c: Client, m: ReaderMove): Outcome<Client>
  {
    var v := c.screen;
    match m
    case StartRead(max) =>
      if !v.reader.ReadIdle? || !Found(c) || !(1 <= max <= PTY_CHUNK) then Blocked
      else Moves(c.(screen := v.(reader := Looking(max))), [])
    case Look => if v.reader.Looking? then Moves(c.(screen := LookStep(v, c.done, v.reader.max)), []) else Blocked
    case WakeRead =>
      if !v.reader.Sleeping? || !v.buffer.token then Blocked
      else Moves(c.(screen := v.(buffer := v.buffer.(token := false), reader := Looking(v.reader.max))), [])
    case WakeDone =>
      if !v.reader.Sleeping? || !c.done then Blocked
      else Moves(c.(screen := v.(reader := Looking(v.reader.max))), [])
    case GiveUpRead => if v.reader.Sleeping? then Moves(c.(screen := v.(reader := ReadIdle)), []) else Blocked
    case Announce =>
      if !v.reader.Took? then Blocked
      else
        Moves(c.(screen := v.(reader := Announced(v.reader.data, v.reader.last))), [WindowUpdate(|v.reader.data|)])
    case CreditBack =>
      if !v.reader.Announced? then Blocked
      else
        var n := |v.reader.data|;
        Moves(c.(screen := Screen(v.buffer.(recvCredit := v.buffer.recvCredit + n), ReadIdle,
                                  v.returned + v.reader.data, v.ended || v.reader.last)), [])
  }

  /** A write that sleeps returns an error when the stream ends or when its caller gives up. */
  function WriterStep(c: Client, m: WriterMove): Outcome<Client>
  {
    var v := c.keyboard;
    match m
    case StartWrite(data) =>
      if !v.writer.Idle? || !Found(c) || !(1 <= |data| <= PTY_CHUNK) then Blocked
      else Moves(c.(keyboard := v.(writer := Loop(data))), [])
    case SpendCredit =>
      if !v.writer.Loop? then Blocked
      else if c.done then Moves(c.(keyboard := v.(writer := Idle)), [])
      else
        var k := Spend(v.writer.rest, v.sendCredit);
        Moves(c.(keyboard := v.(sendCredit := v.sendCredit - |Unwritten(k)|, writer := k)), [])
    case WakeWrite =>
      if !v.writer.Asleep? || !v.token then Blocked
      else Moves(c.(keyboard := v.(token := false, writer := Loop(v.writer.rest))), [])
    case WriteEnds =>
      if v.writer.Asleep? && c.done then Moves(c.(keyboard := v.(writer := Idle)), []) else Blocked
    case GiveUpWrite => if v.writer.Asleep? then Moves(c.(keyboard := v.(writer := Idle)), []) else Blocked
    case WriteData =>
      if !v.writer.Sending? then Blocked
      else
        Moves(c.(keyboard := v.(writer := AfterChunk(v.writer.rest), written := v.written + v.writer.chunk)),
              [Data(v.writer.chunk)])
    case DropChunk =>                             // the context ends before the frame can be written
      if !v.writer.Sending? then Blocked
      else Moves(c.(keyboard := v.(writer := Idle, lost := v.lost + |v.writer.chunk|)), [])
  }

  function ControlStep(c: Client, m: ControlMove): Outcome<Client>
  {
    var v := c.control;
    match m
    case Notify =>
      match c.monitor {
        case Listening => Blocked
        case NotifyingOutput =>
          Moves(c.(monitor := Listening, screen := c.screen.(buffer := c.screen.buffer.(token := true))), [])
        case NotifyingCredit => Moves(c.(monitor := Listening, keyboard := c.keyboard.(token := true)), [])
      }
    case StartResize => if !Found(c) || v.resizing then Blocked else Moves(c.(control := v.(resizing := true)), [])
    case SendResize => if !v.resizing then Blocked else Moves(c.(control := v.(resizing := false)), [Resize])
    case DropResize => if !v.resizing then Blocked else Moves(c.(control := v.(resizing := false)), [])
    case StartClose =>
      if !Found(c) || !v.closer.NotClosing? then Blocked
      else Moves(c.(control := v.(closing := true, closer := if v.closing then AwaitsClose else SendsClose)), [])
    case SendClose =>
      if !v.closer.SendsClose? then Blocked
      else Moves(c.(control := v.(closer := AwaitsClose)), [Close(ClientClose)])
    case EndClose =>
      if !v.closer.AwaitsClose? || !c.done then Blocked else Moves(c.(control := v.(closer := NotClosing)), [])
    case GiveUpClose => if !v.closer.AwaitsClose? then Blocked else Moves(c.(control := v.(closer := NotClosing)), [])
  }

  function ClientStep(c: Client, m: ClientMove): Outcome<Client>
  {
    match m
    case Reads(r) => ReaderStep(c, r)
    case Writes(w) => WriterStep(c, w)
    case Controls(k) => ControlStep(c, k)
  }

  /** closeChild: the child leaves the map and both kinds of waiters are woken. */
  function Finish(c: Client): Client
  {
    c.(done := true, screen := c.screen.(buffer := c.screen.buffer.(token := true)),
       keyboard := c.keyboard.(token := true))
  }

  function ClientReceive(c: Client, f: Frame): Outcome<Client>
  {
    if !c.monitor.Listening? then Blocked
    else if c.done then Refused
    else
      var b := c.screen.buffer;
      match f
      case Accepted(w) =>
        if c.accepted || c.control.closing || !(0 < w <= MAX_WINDOW) then Refused
        else Moves(c.(accepted := true, keyboard := c.keyboard.(sendCredit := w)), [])
      case Data(p) =>
        if !ValidData(p) || !c.accepted || !Buffer.CreditTest(b, p) || !Buffer.QueueTest(b, p) then Refused
        else Moves(c.(screen := c.screen.(buffer := Buffer.Enqueue(b, p)), monitor := NotifyingOutput), [])
      case WindowUpdate(n) =>
        if !ValidUpdate(n) || !c.accepted || n + c.keyboard.sendCredit > MAX_WINDOW then Refused
        else
          Moves(c.(keyboard := c.keyboard.(sendCredit := c.keyboard.sendCredit + n), monitor := NotifyingCredit), [])
      case Close(_) => if c.accepted then Moves(Finish(c), []) else Refused
      case StreamError => Moves(Finish(c), [])
      case Resize => Refused
  }

  // ----- server -----

  /** Why the server closed the ID. */
  datatype Cause = Exited | TimedOut | InputFailed | ResizeFailed | ClientClosed

  /** `produced` is everything the PTY has put out, `lost` what forwardOutput dropped when it found the
      stream closed. */
  datatype Source = Source(sendCredit: nat, token: bool, sender: Sender, produced: seq<Byte>, lost: seq<Byte>)

  /** `typed` is everything the PTY was given; `short`: one write to it came up short. */
  datatype Sink = Sink(recvCredit: nat, typed: seq<Byte>, short: bool)

  /** The frame loop: free, about to post a credit token, about to announce or refund input credit, about
      to close the stream after a PTY error, about to write the stream error, or about to acknowledge a
      close. */
  datatype FrameLoop =
    | Free
    | Posting
    | Announcing(n: nat)
    | Refunding(n: nat)
    | Failing(cause: Cause)
    | Answering
    | Acking

  /** waitProcess: waiting for the process, waiting for its output to drain, closed the ID but not yet
      written the close frame, or returned. */
  datatype Waiter = Watching | Draining | Closing(reason: Reason) | Gone

  datatype Server = Server(source: Source, sink: Sink, loop: FrameLoop, waiter: Waiter, closed: Option<Cause>)

  function NewServer(): Server
  {
    Server(Source(RECEIVE_WINDOW, false, Idle, [], []), Sink(RECEIVE_WINDOW, [], false), Free, Watching, None)
  }

  datatype SenderMove = Produce(data: seq<Byte>) | EndOutput | SpendOut | WakeSend | WakeClosed | WriteOutput
  datatype LoopMove = PostToken | AnnounceInput | Refund | FailStream | Answer | Ack
  datatype WaiterMove = Exit | Drained | TimeOut | Dismiss | WriteExit
  datatype ServerMove = Sends(s: SenderMove) | Loops(l: LoopMove) | Waits(e: WaiterMove)

  /** What the PTY makes of one input or resize frame. */
  datatype PtyFault = PtyFault(n: nat, fails: bool)

  function SenderStep(s: Server, m: SenderMove): Outcome<Server>
  {
    var v := s.source;
    match m
    case Produce(data) =>
      if !v.sender.Idle? || !(0 < |data| <= PTY_CHUNK) then Blocked
      else Moves(s.(source := v.(sender := Loop(data), produced := v.produced + data)), [])
    case EndOutput => if !v.sender.Idle? then Blocked else Moves(s.(source := v.(sender := Stopped)), [])
    case SpendOut =>
      if !v.sender.Loop? then Blocked
      else
        var k := Spend(v.sender.rest, v.sendCredit);
        Moves(s.(source := v.(sendCredit := v.sendCredit - |Unwritten(k)|, sender := k)), [])
    case WakeSend =>
      if !v.sender.Asleep? || !v.token then Blocked
      else Moves(s.(source := v.(token := false, sender := Loop(v.sender.rest))), [])
    case WakeClosed =>
      if !v.sender.Asleep? || s.closed.None? then Blocked
      else Moves(s.(source := v.(sender := Stopped, lost := v.sender.rest)), [])
    case WriteOutput =>
      if !v.sender.Sending? then Blocked
      else Moves(s.(source := v.(sender := AfterChunk(v.sender.rest))), [Data(v.sender.chunk)])
  }

  /** closeStream: only the first close counts. */
  function CloseId(s: Server, cause: Cause): Server { if s.closed.None? then s.(closed := Some(cause)) else s }

  function LoopStep(s: Server, m: LoopMove): Outcome<Server>
  {
    match m
    case PostToken =>
      if !s.loop.Posting? then Blocked else Moves(s.(loop := Free, source := s.source.(token := true)), [])
    case AnnounceInput =>
      if !s.loop.Announcing? then Blocked else Moves(s.(loop := Refunding(s.loop.n)), [WindowUpdate(s.loop.n)])
    case Refund =>
      if !s.loop.Refunding? then Blocked
      else if s.sink.recvCredit + s.loop.n > MAX_WINDOW then Refused
      else Moves(s.(loop := Free, sink := s.sink.(recvCredit := s.sink.recvCredit + s.loop.n)), [])
    case FailStream =>
      if !s.loop.Failing? then Blocked else Moves(CloseId(s, s.loop.cause).(loop := Answering), [])
    case Answer => if !s.loop.Answering? then Blocked else Moves(s.(loop := Free), [StreamError])
    case Ack => if !s.loop.Acking? then Blocked else Moves(s.(loop := Free), [Close(PeerClose)])
  }

  /** closeStream on behalf of waitProcess. */
  function CloseAfterExit(s: Server, cause: Cause, reason: Reason): Server
  {
    if s.closed.Some? then s.(waiter := Gone) else s.(closed := Some(cause), waiter := Closing(reason))
  }

  /** `Exit`: the process ends. `Drained`: forwardOutput has returned. `TimeOut`: the drain timer fires.
      `Dismiss`: somebody else has closed the stream, and the PTY with it, so that the process ends too. */
  function WaiterStep(s: Server, m: WaiterMove): Outcome<Server>
  {
    match m
    case Exit => if !s.waiter.Watching? then Blocked else Moves(s.(waiter := Draining), [])
    case Drained =>
      if !s.waiter.Draining? || !s.source.sender.Stopped? then Blocked
      else Moves(CloseAfterExit(s, Exited, ProcessExit), [])
    case TimeOut =>
      if !s.waiter.Draining? then Blocked else Moves(CloseAfterExit(s, TimedOut, DrainTimeout), [])
    case Dismiss =>
      if !(s.waiter.Watching? || s.waiter.Draining?) || s.closed.None? then Blocked
      else Moves(s.(waiter := Gone), [])
    case WriteExit => if !s.waiter.Closing? then Blocked else Moves(s.(waiter := Gone), [Close(s.waiter.reason)])
  }

  function ServerStep(s: Server, m: ServerMove): Outcome<Server>
  {
    match m
    case Sends(x) => SenderStep(s, x)
    case Loops(x) => LoopStep(s, x)
    case Waits(x) => WaiterStep(s, x)
  }

  function ServerReceive(s: Server, f: Frame, x: PtyFault): Outcome<Server>
  {
    if !s.loop.Free? then Blocked
    else if s.closed.Some? then Refused            // dispatch finds no live record for the ID
    else
      match f
      case Data(p) =>
        if !ValidData(p) || |p| > s.sink.recvCredit then Refused
        else
          var kept := p[..Min(x.n, |p|)];
          var ok := !x.fails && |kept| == |p|;
          Moves(s.(sink := Sink(s.sink.recvCredit - |p|, s.sink.typed + kept, s.sink.short || !ok),
                   loop := if ok then Announcing(|p|) else Failing(InputFailed)), [])
      case WindowUpdate(n) =>
        if !ValidUpdate(n) || s.source.sendCredit + n > MAX_WINDOW then Refused
        else Moves(s.(source := s.source.(sendCredit := s.source.sendCredit + n), loop := Posting), [])
      case Resize => Moves(if x.fails then s.(loop := Failing(ResizeFailed)) else s, [])
      case Close(_) => Moves(s.(closed := Some(ClientClosed), loop := Acking), [])
      case StreamError => Moves(s.(closed := Some(ClientClosed)), [])
      case Accepted(_) => Refused
  }

  // ----- the stream -----

  type Stream = Link<Client, Server>

  datatype Action =
    | ClientDoes(cm: ClientMove)
    | ServerDoes(sm: ServerMove)
    | ClientReceives
    | ServerReceives(x: PtyFault)

  function Init(): Stream { Link(NewClient(), NewServer(), [], [Accepted(RECEIVE_WINDOW)], Live) }

  function Do(l: Stream, a: Action): Stream
  {
    if !l.status.Live? then l
    else
      match a
      case ClientDoes(m) => AfterClient(l, ClientStep(l.client, m))
      case ServerDoes(m) => AfterServer(l, ServerStep(l.server, m))
      case ClientReceives => if l.down == [] then l else ClientTakes(l, ClientReceive(l.client, l.down[0]))
      case ServerReceives(x) => if l.up == [] then l else ServerTakes(l, ServerReceive(l.server, l.up[0], x))
  }

  function Run(l: Stream, schedule: seq<Action>): Stream { Machine.Run(Do, l, schedule) }

  // ----- the ledger of each end -----

  function InReader(r: Reader): seq<Byte> { if r.Took? || r.Announced? then r.data else [] }

  /** Bytes whose credit was announced but not yet added. */
  function Early(r: Reader): nat { if r.Announced? then |r.data| else 0 }

  function Arrived(v: Screen): seq<Byte> { v.returned + (InReader(v.reader) + Flatten(v.buffer.queue)) }

  /** Output credit the client has granted in frames it has written. */
  function OutOwed(v: Screen): nat { v.buffer.recvCredit + Early(v.reader) }

  /** Output credit the server holds or has spent on a frame it has not written. */
  function OutHeld(v: Source): nat { v.sendCredit + |Unwritten(v.sender)| }

  /** Output that has not left the server, in order. */
  function Tail(v: Source): seq<Byte> { Pending(v.sender) + v.lost }

  /** Input credit the client holds, has spent on a chunk it has yet to write, or has lost. */
  function InHeld(v: Keyboard): nat { v.sendCredit + |Unwritten(v.writer)| + v.lost }

  /** Input credit the server has granted in frames it has written. */
  function InOwed(s: Server): nat { s.sink.recvCredit + if s.loop.Refunding? then s.loop.n else 0 }

  /** Input bytes taken from the window that the next window update will give back. */
  function InLoop(k: FrameLoop): nat
  {
    match k
    case Announcing(n) => n
    case Refunding(n) => n
    case _ => 0
  }

  predicate ScreenOk(v: Screen, m: Monitor, done: bool)
  {
    && Buffer.Ok(v.buffer)
    && v.buffer.recvCredit + v.buffer.outputBytes + |InReader(v.reader)| == RECEIVE_WINDOW
    && (v.reader.Looking? || v.reader.Sleeping? ==> 1 <= v.reader.max <= PTY_CHUNK)
    && (v.reader.Took? || v.reader.Announced? ==>
          v.reader.data != [] && (v.reader.last ==> done && v.buffer.queue == []))
    && (v.reader.Sleeping? && v.buffer.queue != [] ==> v.buffer.token || m.NotifyingOutput? || done)
    && (v.ended ==> done && v.buffer.queue == [] && InReader(v.reader) == [])
  }

  predicate KeyboardOk(v: Keyboard, m: Monitor, done: bool)
  {
    && SenderOk(v.writer) && !v.writer.Stopped?
    && (v.writer.Asleep? && v.sendCredit > 0 ==> v.token || m.NotifyingCredit? || done)
  }

  predicate ControlOk(c: Client)
  {
    && (!c.control.closer.NotClosing? ==> c.control.closing)
    && (!c.monitor.Listening? ==> !c.done)
    && (!c.accepted ==>
          && !c.done && c.monitor.Listening? && c.keyboard.sendCredit == 0 && c.keyboard.lost == 0
          && c.keyboard.writer.Idle?
          && c.screen.reader.ReadIdle? && !c.control.closing && !c.control.resizing)
  }

  predicate ClientOk(c: Client)
  {
    ScreenOk(c.screen, c.monitor, c.done) && KeyboardOk(c.keyboard, c.monitor, c.done) && ControlOk(c)
  }

  predicate SourceOk(v: Source, k: FrameLoop, closed: Option<Cause>)
  {
    && SenderOk(v.sender)
    && (v.sender.Asleep? && v.sendCredit > 0 ==> v.token || k.Posting? || closed.Some?)
    && (v.lost != [] ==> v.sender.Stopped? && closed.Some?)
    && (closed == Some(Exited) ==> v.sender.Stopped? && v.lost == [])
  }

  predicate SinkOk(s: Server)
  {
    && s.sink.recvCredit + InLoop(s.loop) <= RECEIVE_WINDOW
    && (!s.sink.short ==> s.sink.recvCredit + InLoop(s.loop) == RECEIVE_WINDOW)
    && (s.loop.Announcing? || s.loop.Refunding? ==> s.loop.n > 0)
    && (s.sink.short ==> s.loop.Failing? || s.closed.Some?)
  }

  predicate CloseOk(s: Server)
  {
    && (s.loop.Answering? || s.loop.Acking? ==> s.closed.Some?)
    && (s.loop.Failing? ==> s.loop.cause == InputFailed || s.loop.cause == ResizeFailed)
    && (s.waiter.Closing? ==> s.closed == Some(Exited) || s.closed == Some(TimedOut))
  }

  predicate ServerOk(s: Server) { SourceOk(s.source, s.loop, s.closed) && SinkOk(s) && CloseOk(s) }

  /** A client move keeps the client in order and balances what it writes. */
  predicate ClientBalanced(c: Client, o: Outcome<Client>)
    requires o.Moves?
  {
    && ClientOk(o.next)
    && Arrived(o.next.screen) == Arrived(c.screen) && OutOwed(o.next.screen) == OutOwed(c.screen) + CreditOf(o.emits)
    && InHeld(o.next.keyboard) + |DataOf(o.emits)| == InHeld(c.keyboard)
    && o.next.keyboard.written == c.keyboard.written + DataOf(o.emits)
  }

  lemma LookLedger(v: Screen, m: Monitor, done: bool, max: nat)
    requires ScreenOk(v, m, done) && v.reader == Looking(max)
    ensures var v' := LookStep(v, done, max);
      ScreenOk(v', m, done) && Arrived(v') == Arrived(v) && OutOwed(v') == OutOwed(v)
  {
    if v.buffer.queue != [] {
      Buffer.RestOk(v.buffer, max);
    }
  }

  lemma ScreenLedger(c: Client, m: ReaderMove)
    requires ScreenOk(c.screen, c.monitor, c.done) && ReaderStep(c, m).Moves?
    ensures var o := ReaderStep(c, m);
      && ScreenOk(o.next.screen, c.monitor, c.done) && Arrived(o.next.screen) == Arrived(c.screen)
      && OutOwed(o.next.screen) == OutOwed(c.screen) + CreditOf(o.emits) && DataOf(o.emits) == []
  {
    match m
    case Look => LookLedger(c.screen, c.monitor, c.done, c.screen.reader.max);
    case Announce => assert CreditOf([WindowUpdate(|c.screen.reader.data|)]) == |c.screen.reader.data|;
    case _ =>
  }

  lemma ReaderLedger(c: Client, m: ReaderMove)
    requires ClientOk(c) && ReaderStep(c, m).Moves?
    ensures ClientBalanced(c, ReaderStep(c, m))
  {
    var o := ReaderStep(c, m);
    ScreenLedger(c, m);
    assert o.next == c.(screen := o.next.screen);
    assert c.keyboard.written + [] == c.keyboard.written;
  }

  lemma WriterLedger(c: Client, m: WriterMove)
    requires ClientOk(c) && WriterStep(c, m).Moves?
    ensures ClientBalanced(c, WriterStep(c, m))
  {
    match m
    case SpendCredit => if !c.done { SpendOk(c.keyboard.writer.rest, c.keyboard.sendCredit); }
    case WriteData => assert DataOf([Data(c.keyboard.writer.chunk)]) == c.keyboard.writer.chunk;
    case _ =>
  }

  lemma ControlLedger(c: Client, m: ControlMove)
    requires ClientOk(c) && ControlStep(c, m).Moves?
    ensures ClientBalanced(c, ControlStep(c, m))
  {
    var o := ControlStep(c, m);
    OneFrame(Resize);
    OneFrame(Close(ClientClose));
    assert DataOf(o.emits) == [] && CreditOf(o.emits) == 0;
  }

  lemma ClientStepLedger(c: Client, m: ClientMove)
    requires ClientOk(c) && ClientStep(c, m).Moves?
    ensures ClientBalanced(c, ClientStep(c, m))
  {
    match m
    case Reads(r) => ReaderLedger(c, r);
    case Writes(w) => WriterLedger(c, w);
    case Controls(k) => ControlLedger(c, k);
  }

  lemma ClientReceiveLedger(c: Client, f: Frame)
    requires ClientOk(c) && ClientReceive(c, f).Moves? && (f.StreamError? ==> c.accepted)
    ensures var o := ClientReceive(c, f);
      && ClientOk(o.next) && o.emits == []
      && Arrived(o.next.screen) == Arrived(c.screen) + Payload(f)
      && OutOwed(o.next.screen) + |Payload(f)| == OutOwed(c.screen)
      && InHeld(o.next.keyboard) == InHeld(c.keyboard) + Granted(f)
      && o.next.keyboard.written == c.keyboard.written
  {
    if f.Data? {
      Buffer.EnqueueOk(c.screen.buffer, f.payload);
      assert Flatten(Buffer.Enqueue(c.screen.buffer, f.payload).queue) == Flatten(c.screen.buffer.queue) + f.payload;
    }
  }

  /** The output a move adds. */
  function Added(m: ServerMove): seq<Byte> { if m.Sends? && m.s.Produce? then m.s.data else [] }

  predicate ServerBalanced(s: Server, m: ServerMove, o: Outcome<Server>)
    requires o.Moves?
  {
    && ServerOk(o.next)
    && OutHeld(o.next.source) + |DataOf(o.emits)| == OutHeld(s.source)
    && DataOf(o.emits) + Tail(o.next.source) == Tail(s.source) + Added(m)
    && o.next.source.produced == s.source.produced + Added(m)
    && InOwed(o.next) == InOwed(s) + CreditOf(o.emits)
    && o.next.sink.typed == s.sink.typed && o.next.sink.short == s.sink.short
  }

  lemma SourceLedger(s: Server, m: SenderMove)
    requires SourceOk(s.source, s.loop, s.closed) && SenderStep(s, m).Moves?
    ensures var o := SenderStep(s, m);
      var v := o.next.source;
      && SourceOk(v, s.loop, s.closed) && OutHeld(v) + |DataOf(o.emits)| == OutHeld(s.source)
      && DataOf(o.emits) + Tail(v) == Tail(s.source) + Added(Sends(m))
      && v.produced == s.source.produced + Added(Sends(m)) && CreditOf(o.emits) == 0
  {
    var v := s.source;
    match m
    case SpendOut => SpendOk(v.sender.rest, v.sendCredit);
    case WriteOutput => assert DataOf([Data(v.sender.chunk)]) == v.sender.chunk;
    case _ =>
  }

  lemma SenderLedger(s: Server, m: SenderMove)
    requires ServerOk(s) && SenderStep(s, m).Moves?
    ensures ServerBalanced(s, Sends(m), SenderStep(s, m))
  {
    var o := SenderStep(s, m);
    SourceLedger(s, m);
    assert o.next == s.(source := o.next.source);
  }

  lemma CreditLedger(s: Server, m: LoopMove)
    requires ServerOk(s) && (m.AnnounceInput? || m.Refund?)
    ensures !LoopStep(s, m).Refused?
    ensures LoopStep(s, m).Moves? ==> ServerBalanced(s, Loops(m), LoopStep(s, m))
  {
    var o := LoopStep(s, m);
    if o.Moves? {
      assert m.AnnounceInput? ==> CreditOf([WindowUpdate(s.loop.n)]) == s.loop.n;
      assert o.next.source == s.source && DataOf(o.emits) == [];
      assert [] + Tail(s.source) == Tail(s.source) + [];
    }
  }

  /** A step that leaves the credits and the bytes alone and writes no frame that carries any. */
  lemma NothingMoves(s: Server, m: LoopMove, o: Outcome<Server>)
    requires o.Moves? && ServerOk(o.next)
    requires o.emits == [] || o.emits == [StreamError] || o.emits == [Close(PeerClose)]
    requires o.next.source == s.source.(token := o.next.source.token)
    requires o.next.sink == s.sink && InOwed(o.next) == InOwed(s)
    ensures ServerBalanced(s, Loops(m), o)
  {
    assert DataOf(o.emits) == [] && CreditOf(o.emits) == 0;
    assert [] + Tail(s.source) == Tail(s.source) + [];
  }

  lemma LoopLedger(s: Server, m: LoopMove)
    requires ServerOk(s)
    ensures !LoopStep(s, m).Refused?
    ensures LoopStep(s, m).Moves? ==> ServerBalanced(s, Loops(m), LoopStep(s, m))
  {
    if m.AnnounceInput? || m.Refund? {
      CreditLedger(s, m);
    } else if LoopStep(s, m).Moves? {
      NothingMoves(s, m, LoopStep(s, m));
    }
  }

  lemma WaiterLedger(s: Server, m: WaiterMove)
    requires ServerOk(s) && WaiterStep(s, m).Moves?
    ensures ServerBalanced(s, Waits(m), WaiterStep(s, m))
  {
  }

  lemma ServerStepLedger(s: Server, m: ServerMove)
    requires ServerOk(s)
    ensures !ServerStep(s, m).Refused?
    ensures ServerStep(s, m).Moves? ==> ServerBalanced(s, m, ServerStep(s, m))
  {
    match m
    case Sends(x) => if SenderStep(s, x).Moves? { SenderLedger(s, x); }
    case Loops(x) => LoopLedger(s, x);
    case Waits(x) => if WaiterStep(s, x).Moves? { WaiterLedger(s, x); }
  }

  lemma ServerReceiveLedger(s: Server, f: Frame, x: PtyFault)
    requires ServerOk(s) && ServerReceive(s, f, x).Moves? && !f.Accepted?
    ensures var o := ServerReceive(s, f, x);
      && ServerOk(o.next) && o.emits == []
      && OutHeld(o.next.source) == OutHeld(s.source) + Granted(f)
      && Tail(o.next.source) == Tail(s.source) && o.next.source.produced == s.source.produced
      && InOwed(o.next) + |Payload(f)| == InOwed(s)
      && s.sink.typed <= o.next.sink.typed <= s.sink.typed + Payload(f)
      && (s.sink.short ==> o.next.sink.short)
      && (!o.next.sink.short ==> o.next.sink.typed == s.sink.typed + Payload(f))
  {
  }

  // ----- the invariant of the whole stream -----

  predicate OutBytes(l: Stream)
  {
    l.server.source.produced == Arrived(l.client.screen) + (DataOf(l.down) + Tail(l.server.source))
  }

  predicate OutCredit(l: Stream)
  {
    OutOwed(l.client.screen) == OutHeld(l.server.source) + |DataOf(l.down)| + CreditOf(l.up)
  }

  predicate InBytes(l: Stream)
  {
    && l.server.sink.typed <= l.client.keyboard.written
    && (!l.server.sink.short ==> l.client.keyboard.written == l.server.sink.typed + DataOf(l.up))
  }

  predicate InCredit(l: Stream)
  {
    InOwed(l.server) == InHeld(l.client.keyboard) + |DataOf(l.up)| + CreditOf(l.down)
  }

  predicate Accounts(l: Stream)
  {
    ClientOk(l.client) && ServerOk(l.server) && OutBytes(l) && OutCredit(l) && InBytes(l) && InCredit(l)
  }

  predicate DownFrame(f: Frame, first: bool)
  {
    if first then f == Accepted(RECEIVE_WINDOW)
    else (f.Data? && ValidData(f.payload)) || (f.WindowUpdate? && f.bytes > 0) || f.Last()
  }

  predicate UpFrame(f: Frame)
  {
    (f.Data? && ValidData(f.payload)) || (f.WindowUpdate? && f.bytes > 0) || f.Resize? || f.Close?
  }

  predicate Shape(l: Stream)
  {
    && (forall i :: 0 <= i < |l.down| ==> DownFrame(l.down[i], i == 0 && !l.client.accepted))
    && (forall i :: 0 <= i < |l.up| ==> UpFrame(l.up[i]))
    && (!l.client.accepted ==> l.down != [] && l.up == [])
  }

  predicate HasLast(ch: seq<Frame>) { exists i :: 0 <= i < |ch| && ch[i].Last() }

  predicate HasClose(ch: seq<Frame>) { exists i :: 0 <= i < |ch| && ch[i].Close? }

  /** No data behind a last frame. */
  predicate Drained(ch: seq<Frame>) { forall i, j :: 0 <= i < j < |ch| && ch[i].Last() ==> !ch[j].Data? }

  predicate NoData(ch: seq<Frame>) { forall i :: 0 <= i < |ch| ==> !ch[i].Data? }

  /** Someone at the server is about to tell the client that the stream has ended. */
  predicate WillTell(s: Server) { s.loop.Answering? || s.loop.Acking? || s.waiter.Closing? }

  /** The close frame has been written and not been answered. */
  predicate Asked(c: Client) { c.control.closing && !c.control.closer.SendsClose? && !c.done }

  predicate Endgame(l: Stream)
  {
    && (l.server.closed.None? ==> !l.client.done && !HasLast(l.down))
    && (l.server.closed.Some? ==> l.client.done || HasLast(l.down) || WillTell(l.server))
    && (l.server.closed == Some(Exited) ==> Drained(l.down) && (l.client.done ==> NoData(l.down)))
    && (Asked(l.client) ==> HasClose(l.up) || l.server.closed.Some?)
  }

  predicate Inv(l: Stream)
  {
    && Accounts(l) && Shape(l) && Endgame(l)
    && (l.status.ServerRefused? ==> l.server.closed.Some?)
    && (l.status.ClientRefused? ==> l.client.done || l.client.screen.reader.Announced?)
  }

  // ----- every step keeps the accounts -----

  lemma Assoc(a: seq<Byte>, b: seq<Byte>, c: seq<Byte>)
    ensures a + (b + c) == (a + b) + c
  {
  }

  lemma ClientBalances(l: Stream, c: Client, emits: seq<Frame>)
    requires Accounts(l) && ClientBalanced(l.client, Moves(c, emits))
    ensures Accounts(l.(client := c, up := l.up + emits))
  {
    CreditOfConcat(l.up, emits);
    DataOfConcat(l.up, emits);
    Assoc(l.server.sink.typed, DataOf(l.up), DataOf(emits));
  }

  lemma ServerBalances(l: Stream, m: ServerMove, s: Server, emits: seq<Frame>)
    requires Accounts(l) && ServerBalanced(l.server, m, Moves(s, emits))
    ensures Accounts(l.(server := s, down := l.down + emits))
  {
    CreditOfConcat(l.down, emits);
    DataOfConcat(l.down, emits);
    Regroup(Arrived(l.client.screen), DataOf(l.down), Tail(l.server.source), Added(m), DataOf(emits), Tail(s.source));
  }

  lemma Regroup(a: seq<Byte>, b: seq<Byte>, tail: seq<Byte>, added: seq<Byte>, sent: seq<Byte>, tail': seq<Byte>)
    requires sent + tail' == tail + added
    ensures (a + (b + tail)) + added == a + ((b + sent) + tail')
  {
    assert (b + sent) + tail' == b + (sent + tail') == b + (tail + added);
  }

  lemma HeadOf(ch: seq<Frame>)
    requires ch != []
    ensures DataOf(ch) == Payload(ch[0]) + DataOf(ch[1..]) && CreditOf(ch) == Granted(ch[0]) + CreditOf(ch[1..])
  {
  }

  lemma ClientReceiveAccounts(l: Stream)
    requires Accounts(l) && l.down != [] && ClientReceive(l.client, l.down[0]).Moves?
    requires l.down[0].StreamError? ==> l.client.accepted
    ensures Accounts(ClientTakes(l, ClientReceive(l.client, l.down[0])))
  {
    var o := ClientReceive(l.client, l.down[0]);
    ClientReceiveLedger(l.client, l.down[0]);
    HeadOf(l.down);
    assert l.up + o.emits == l.up;
    ReceiveRegroup(Arrived(l.client.screen), Payload(l.down[0]), DataOf(l.down[1..]), Tail(l.server.source));
  }

  lemma ReceiveRegroup(a: seq<Byte>, p: seq<Byte>, rest: seq<Byte>, tail: seq<Byte>)
    ensures a + ((p + rest) + tail) == (a + p) + (rest + tail)
  {
  }

  lemma ServerReceiveAccounts(l: Stream, x: PtyFault)
    requires Accounts(l) && l.up != [] && ServerReceive(l.server, l.up[0], x).Moves? && !l.up[0].Accepted?
    ensures Accounts(ServerTakes(l, ServerReceive(l.server, l.up[0], x)))
  {
    var o := ServerReceive(l.server, l.up[0], x);
    ServerReceiveLedger(l.server, l.up[0], x);
    HeadOf(l.up);
    assert l.down + o.emits == l.down;
    InputRegroup(l, o.next);
  }

  lemma InputRegroup(l: Stream, s: Server)
    requires InBytes(l) && l.up != [] && DataOf(l.up) == Payload(l.up[0]) + DataOf(l.up[1..])
    requires l.server.sink.typed <= s.sink.typed <= l.server.sink.typed + Payload(l.up[0])
    requires l.server.sink.short ==> s.sink.short && s.sink.typed == l.server.sink.typed
    requires !s.sink.short ==> s.sink.typed == l.server.sink.typed + Payload(l.up[0])
    ensures InBytes(l.(server := s, up := l.up[1..]))
  {
    Assoc(l.server.sink.typed, Payload(l.up[0]), DataOf(l.up[1..]));
  }

  // ----- every step keeps the shape and the endgame -----

  lemma LastsConcat(a: seq<Frame>, b: seq<Frame>)
    ensures HasLast(a + b) <==> HasLast(a) || HasLast(b)
    ensures HasClose(a + b) <==> HasClose(a) || HasClose(b)
  {
    forall i | 0 <= i < |a| ensures a[i] == (a + b)[i] {}
    forall i | 0 <= i < |b| ensures b[i] == (a + b)[|a| + i] {}
    if HasLast(a) {
      var i :| 0 <= i < |a| && a[i].Last();
      assert (a + b)[i].Last();
    }
    if HasLast(b) {
      var i :| 0 <= i < |b| && b[i].Last();
      assert (a + b)[|a| + i].Last();
    }
    if HasClose(a) {
      var i :| 0 <= i < |a| && a[i].Close?;
      assert (a + b)[i].Close?;
    }
    if HasClose(b) {
      var i :| 0 <= i < |b| && b[i].Close?;
      assert (a + b)[|a| + i].Close?;
    }
  }

  lemma LastsHead(ch: seq<Frame>)
    requires ch != []
    ensures HasLast(ch) <==> ch[0].Last() || HasLast(ch[1..])
    ensures HasClose(ch) <==> ch[0].Close? || HasClose(ch[1..])
    ensures Drained(ch) ==> Drained(ch[1..]) && (ch[0].Last() ==> NoData(ch[1..]))
    ensures NoData(ch) ==> NoData(ch[1..])
  {
    assert ch == [ch[0]] + ch[1..];
    LastsConcat([ch[0]], ch[1..]);
    assert HasLast([ch[0]]) <==> ch[0].Last() by {
      assert [ch[0]][0] == ch[0];
    }
    assert HasClose([ch[0]]) <==> ch[0].Close? by {
      assert [ch[0]][0] == ch[0];
    }
  }

  /** A client that writes a frame has been accepted and writes a proper one. */
  lemma ClientWrites(c: Client, m: ClientMove)
    requires ClientOk(c) && ClientStep(c, m).Moves?
    ensures var o := ClientStep(c, m);
      && o.next.accepted == c.accepted
      && (o.emits == [] || (c.accepted && |o.emits| == 1 && UpFrame(o.emits[0])))
  {
  }

  lemma ClientStepShape(l: Stream, m: ClientMove)
    requires ClientOk(l.client) && Shape(l) && ClientStep(l.client, m).Moves?
    ensures Shape(AfterClient(l, ClientStep(l.client, m)))
  {
    ClientWrites(l.client, m);
    var o := ClientStep(l.client, m);
    if o.emits == [] {
      assert l.up + o.emits == l.up;
    }
  }

  lemma OnlySendCloseAsks(c: Client, m: ClientMove)
    requires ClientOk(c) && ClientStep(c, m).Moves?
    ensures var o := ClientStep(c, m);
      o.next.done == c.done && (Asked(o.next) ==> Asked(c) || o.emits == [Close(ClientClose)])
  {
  }

  lemma ClientStepEndgame(l: Stream, m: ClientMove)
    requires ClientOk(l.client) && Endgame(l) && ClientStep(l.client, m).Moves?
    ensures Endgame(AfterClient(l, ClientStep(l.client, m)))
  {
    var o := ClientStep(l.client, m);
    OnlySendCloseAsks(l.client, m);
    LastsConcat(l.up, o.emits);
    assert o.emits == [Close(ClientClose)] ==> o.emits[0].Close?;
  }

  lemma ServerStepShape(l: Stream, m: ServerMove)
    requires ServerOk(l.server) && Shape(l) && ServerStep(l.server, m).Moves?
    ensures Shape(AfterServer(l, ServerStep(l.server, m)))
  {
    var o := ServerStep(l.server, m);
    if o.emits == [] {
      assert l.down + o.emits == l.down;
    }
  }

  /** What a server move writes and how it moves towards the end. */
  lemma ServerWrites(s: Server, m: ServerMove)
    requires ServerOk(s) && ServerStep(s, m).Moves?
    ensures var o := ServerStep(s, m);
      && |o.emits| <= 1
      && (o.emits != [] && o.emits[0].Last() ==> s.closed.Some?)
      && (o.emits != [] && o.emits[0].Data? ==> s.closed != Some(Exited))
      && (s.closed.Some? ==> o.next.closed == s.closed)
      && (s.closed.None? && o.next.closed.Some? ==> WillTell(o.next) && o.emits == [])
      && (WillTell(s) && !WillTell(o.next) ==> o.emits != [] && o.emits[0].Last())
  {
  }

  lemma ServerStepEndgame(l: Stream, m: ServerMove)
    requires ServerOk(l.server) && Endgame(l) && ServerStep(l.server, m).Moves?
    ensures Endgame(AfterServer(l, ServerStep(l.server, m)))
  {
    var o := ServerStep(l.server, m);
    ServerWrites(l.server, m);
    LastsConcat(l.down, o.emits);
    if o.emits == [] {
      assert l.down + o.emits == l.down;
    } else {
      assert HasLast(o.emits) <==> o.emits[0].Last();
    }
  }

  lemma ClientReceiveShape(l: Stream)
    requires Shape(l) && l.down != [] && ClientReceive(l.client, l.down[0]).Moves?
    ensures Shape(ClientTakes(l, ClientReceive(l.client, l.down[0])))
  {
    var o := ClientReceive(l.client, l.down[0]);
    assert DownFrame(l.down[0], !l.client.accepted);
    assert l.up + o.emits == l.up;
  }

  lemma ClientReceiveEndgame(l: Stream)
    requires Shape(l) && Endgame(l) && l.down != [] && ClientReceive(l.client, l.down[0]).Moves?
    ensures Endgame(ClientTakes(l, ClientReceive(l.client, l.down[0])))
  {
    var o := ClientReceive(l.client, l.down[0]);
    assert DownFrame(l.down[0], !l.client.accepted);
    LastsHead(l.down);
    assert l.up + o.emits == l.up;
    assert o.next.done == l.down[0].Last() && o.next.control == l.client.control;
  }

  lemma ServerReceiveShape(l: Stream, x: PtyFault)
    requires Shape(l) && l.up != [] && ServerReceive(l.server, l.up[0], x).Moves?
    ensures Shape(ServerTakes(l, ServerReceive(l.server, l.up[0], x)))
  {
    var o := ServerReceive(l.server, l.up[0], x);
    assert l.down + o.emits == l.down;
  }

  lemma ServerReceiveEndgame(l: Stream, x: PtyFault)
    requires Shape(l) && Endgame(l) && l.up != [] && ServerReceive(l.server, l.up[0], x).Moves?
    ensures Endgame(ServerTakes(l, ServerReceive(l.server, l.up[0], x)))
  {
    var o := ServerReceive(l.server, l.up[0], x);
    assert UpFrame(l.up[0]);
    LastsHead(l.up);
    assert l.down + o.emits == l.down;
  }

  // ----- who refuses what -----

  /** The client refuses a frame of this server exactly when the stream is gone from its map, or when the
      frame carries more than the receive credit; and then a read has announced that credit already. */
  lemma ClientRefusal(l: Stream)
    requires Accounts(l) && Shape(l) && l.down != [] && l.client.monitor.Listening?
    ensures ClientReceive(l.client, l.down[0]).Refused? <==>
      l.client.done || (l.down[0].Data? && |l.down[0].payload| > l.client.screen.buffer.recvCredit)
    ensures l.down[0].Data? && |l.down[0].payload| > l.client.screen.buffer.recvCredit ==>
      l.client.screen.reader.Announced?
    ensures l.down[0].Data? && !Buffer.QueueTest(l.client.screen.buffer, l.down[0].payload) ==>
      !Buffer.CreditTest(l.client.screen.buffer, l.down[0].payload)
  {
    assert DownFrame(l.down[0], !l.client.accepted);
    HeadOf(l.down);
  }

  /** The server refuses a frame of this client exactly when it has closed the ID. */
  lemma ServerRefusal(l: Stream, x: PtyFault)
    requires Accounts(l) && Shape(l) && l.up != [] && l.server.loop.Free?
    ensures ServerReceive(l.server, l.up[0], x).Refused? <==> l.server.closed.Some?
  {
    assert UpFrame(l.up[0]);
    HeadOf(l.up);
  }

  lemma ClientStepAccounts(l: Stream, m: ClientMove)
    requires Accounts(l) && ClientStep(l.client, m).Moves?
    ensures Accounts(AfterClient(l, ClientStep(l.client, m)))
  {
    var o := ClientStep(l.client, m);
    ClientStepLedger(l.client, m);
    ClientBalances(l, o.next, o.emits);
  }

  lemma OwnStepsAreNotRefused(c: Client, m: ClientMove)
    ensures !ClientStep(c, m).Refused?
  {
  }

  lemma ClientStepKeeps(l: Stream, m: ClientMove)
    requires Inv(l) && l.status.Live?
    ensures Inv(AfterClient(l, ClientStep(l.client, m)))
  {
    OwnStepsAreNotRefused(l.client, m);
    if ClientStep(l.client, m).Moves? {
      ClientStepAccounts(l, m);
      ClientStepShape(l, m);
      ClientStepEndgame(l, m);
    }
  }

  lemma ServerStepKeeps(l: Stream, m: ServerMove)
    requires Inv(l) && l.status.Live?
    ensures Inv(AfterServer(l, ServerStep(l.server, m)))
  {
    var o := ServerStep(l.server, m);
    ServerStepLedger(l.server, m);
    if o.Moves? {
      ServerBalances(l, m, o.next, o.emits);
      ServerStepShape(l, m);
      ServerStepEndgame(l, m);
    }
  }

  lemma ClientReceiveKeeps(l: Stream)
    requires Inv(l) && l.status.Live? && l.down != []
    ensures Inv(ClientTakes(l, ClientReceive(l.client, l.down[0])))
  {
    assert DownFrame(l.down[0], !l.client.accepted);
    if ClientReceive(l.client, l.down[0]).Moves? {
      ClientReceiveAccounts(l);
      ClientReceiveShape(l);
      ClientReceiveEndgame(l);
    } else if l.client.monitor.Listening? {
      ClientRefusal(l);
    }
  }

  lemma ServerReceiveKeeps(l: Stream, x: PtyFault)
    requires Inv(l) && l.status.Live? && l.up != []
    ensures Inv(ServerTakes(l, ServerReceive(l.server, l.up[0], x)))
  {
    assert UpFrame(l.up[0]);
    if ServerReceive(l.server, l.up[0], x).Moves? {
      ServerReceiveAccounts(l, x);
      ServerReceiveShape(l, x);
      ServerReceiveEndgame(l, x);
    } else if l.server.loop.Free? {
      ServerRefusal(l, x);
    }
  }

  lemma DoKeeps(l: Stream, a: Action)
    requires Inv(l)
    ensures Inv(Do(l, a))
  {
    if l.status.Live? {
      match a
      case ClientDoes(m) => ClientStepKeeps(l, m);
      case ServerDoes(m) => ServerStepKeeps(l, m);
      case ClientReceives => if l.down != [] { ClientReceiveKeeps(l); }
      case ServerReceives(x) => if l.up != [] { ServerReceiveKeeps(l, x); }
    }
  }

  lemma InitEnds()
    ensures ClientOk(NewClient()) && ServerOk(NewServer())
  {
  }

  lemma InitAccounts()
    ensures Accounts(Init())
  {
    InitEnds();
    OneFrame(Accepted(RECEIVE_WINDOW));
  }

  lemma InitShape()
    ensures Shape(Init()) && Endgame(Init())
  {
    assert DownFrame(Accepted(RECEIVE_WINDOW), true);
  }

  lemma InitHolds()
    ensures Inv(Init())
  {
    InitAccounts();
    InitShape();
  }

  lemma Reachable(schedule: seq<Action>)
    ensures Inv(Run(Init(), schedule))
  {
    InitHolds();
    forall l, a | Inv(l) ensures Inv(Do(l, a)) {
      DoKeeps(l, a);
    }
    Machine.RunKeeps(Do, l => Inv(l), Init(), schedule);
  }

  // ----- the promises, over every interleaving -----

  /** Output: credit is conserved, bytes stay in order, the window and the buffer share 256 KiB, and
      neither the sender nor a read sleeps on something it could use. */
  lemma OutputIsAccountedFor(schedule: seq<Action>)
    ensures var l := Run(Init(), schedule);
      var v, w := l.client.screen, l.server.source;
      && v.buffer.recvCredit + Early(v.reader) ==
         w.sendCredit + |Unwritten(w.sender)| + |DataOf(l.down)| + CreditOf(l.up)
      && v.buffer.recvCredit + |Flatten(v.buffer.queue)| <= RECEIVE_WINDOW
      && w.produced == Arrived(v) + (DataOf(l.down) + Tail(w)) && (w.lost != [] ==> l.server.closed.Some?)
      && (w.sender.Asleep? && w.sendCredit > 0 ==> w.token || l.server.loop.Posting? || l.server.closed.Some?)
      && (v.reader.Sleeping? && v.buffer.queue != [] ==>
            v.buffer.token || l.client.monitor.NotifyingOutput? || l.client.done)
  {
    Reachable(schedule);
  }

  /** Input: credit is conserved, the PTY gets a prefix of what was written, all of it up to the frames in
      flight unless one PTY write came up short, and a writer never sleeps on credit it could use. */
  lemma InputIsAccountedFor(schedule: seq<Action>)
    ensures var l := Run(Init(), schedule);
      var v := l.client.keyboard;
      && InOwed(l.server) == v.sendCredit + |Unwritten(v.writer)| + v.lost + |DataOf(l.up)| + CreditOf(l.down)
      && l.server.sink.typed <= v.written
      && (!l.server.sink.short ==> v.written == l.server.sink.typed + DataOf(l.up))
      && (v.writer.Asleep? && v.sendCredit > 0 ==> v.token || l.client.monitor.NotifyingCredit? || l.client.done)
  {
    Reachable(schedule);
  }

  /** Exactly when either end refuses a frame of the other, both being honest. The client: the stream is
      gone from its map, or the frame exceeds the receive credit, which happens only between the two halves
      of a read. The server: it has closed the ID. The client's queue test adds nothing to its credit test. */
  lemma RefusedExactlyWhen(schedule: seq<Action>, x: PtyFault)
    ensures var l := Run(Init(), schedule);
      && (l.down != [] && l.client.monitor.Listening? ==>
            (ClientReceive(l.client, l.down[0]).Refused? <==>
               l.client.done || (l.down[0].Data? && |l.down[0].payload| > l.client.screen.buffer.recvCredit)))
      && (l.down != [] && l.down[0].Data? && |l.down[0].payload| > l.client.screen.buffer.recvCredit ==>
            l.client.screen.reader.Announced?)
      && (l.down != [] && l.down[0].Data? && !Buffer.QueueTest(l.client.screen.buffer, l.down[0].payload) ==>
            !Buffer.CreditTest(l.client.screen.buffer, l.down[0].payload))
      && (l.up != [] && l.server.loop.Free? ==>
            (ServerReceive(l.server, l.up[0], x).Refused? <==> l.server.closed.Some?))
  {
    Reachable(schedule);
    var l := Run(Init(), schedule);
    if l.down != [] {
      if l.down[0].Data? {
        DataRefusal(l);
      }
      if l.client.monitor.Listening? {
        ClientRefusal(l);
      }
    }
    if l.up != [] && l.server.loop.Free? {
      ServerRefusal(l, x);
    }
  }

  lemma DataRefusal(l: Stream)
    requires Accounts(l) && l.down != [] && l.down[0].Data?
    ensures |l.down[0].payload| > l.client.screen.buffer.recvCredit ==> l.client.screen.reader.Announced?
    ensures !Buffer.QueueTest(l.client.screen.buffer, l.down[0].payload) ==>
      !Buffer.CreditTest(l.client.screen.buffer, l.down[0].payload)
  {
    HeadOf(l.down);
  }

  lemma {:induction false} NoDataIsEmpty(ch: seq<Frame>)
    requires NoData(ch)
    ensures DataOf(ch) == []
  {
    if ch != [] {
      NoDataIsEmpty(ch[1..]);
    }
  }

  /** After a drained exit, a read that reports the end of the stream has returned all output. */
  lemma EndMeansAllOutput(schedule: seq<Action>)
    ensures var l := Run(Init(), schedule);
      l.client.screen.ended && l.server.closed == Some(Exited) ==>
        l.client.screen.returned == l.server.source.produced
  {
    Reachable(schedule);
    var l := Run(Init(), schedule);
    if l.client.screen.ended && l.server.closed == Some(Exited) {
      NoDataIsEmpty(l.down);
      assert Arrived(l.client.screen) == l.client.screen.returned;
    }
  }

  // ----- what can still be read once the stream has left the map -----

  predicate InCall(r: Reader) { r.Looking? || r.Sleeping? }

  /** What the read in progress can still return. */
  function Deliverable(v: Screen): seq<Byte>
  {
    v.returned + InReader(v.reader) +
    if InCall(v.reader) && v.buffer.queue != [] then Buffer.Front(v.buffer, v.reader.max) else []
  }

  lemma ClientAfterDone(c: Client, m: ClientMove)
    requires ClientOk(c) && c.done && ClientStep(c, m).Moves?
    ensures var c' := ClientStep(c, m).next; c'.done && Deliverable(c'.screen) <= Deliverable(c.screen)
  {
    if m == Reads(Look) && c.screen.buffer.queue != [] {
      Buffer.RestOk(c.screen.buffer, c.screen.reader.max);
    }
  }

  lemma StepAfterDone(l: Stream, a: Action)
    requires Inv(l) && l.client.done
    ensures var l' := Do(l, a); l'.client.done && Deliverable(l'.client.screen) <= Deliverable(l.client.screen)
  {
    if l.status.Live? && a.ClientDoes? && ClientStep(l.client, a.cm).Moves? {
      ClientAfterDone(l.client, a.cm);
    }
  }

  lemma {:induction false} RunAfterDone(l: Stream, more: seq<Action>)
    requires Inv(l) && l.client.done
    ensures Run(l, more).client.screen.returned <= Deliverable(l.client.screen)
    decreases |more|
  {
    if more != [] {
      StepAfterDone(l, more[0]);
      DoKeeps(l, more[0]);
      RunAfterDone(Do(l, more[0]), more[1..]);
    }
  }

  /** Once the close has arrived, no later call finds the stream: only the read in progress can return
      anything, and at most its own part of the front chunk. After a drained exit that is all the output
      if and only if nothing else was buffered. */
  lemma OnlyTheReadInProgressSurvives(schedule: seq<Action>, more: seq<Action>)
    ensures var l := Run(Init(), schedule);
      l.client.done ==>
        && Run(l, more).client.screen.returned <= Deliverable(l.client.screen)
        && (l.server.closed == Some(Exited) ==>
              var v := l.client.screen;
              Deliverable(v) == l.server.source.produced <==>
                v.buffer.queue == [] ||
                (InCall(v.reader) && |v.buffer.queue| == 1 && |v.buffer.queue[0]| <= v.reader.max))
  {
    Reachable(schedule);
    var l := Run(Init(), schedule);
    if l.client.done {
      RunAfterDone(l, more);
      if l.server.closed == Some(Exited) {
        NoDataIsEmpty(l.down);
        AllDeliverable(l.client.screen, l.client.monitor, l.client.done);
      }
    }
  }

  lemma AllDeliverable(v: Screen, m: Monitor, done: bool)
    requires ScreenOk(v, m, done)
    ensures Deliverable(v) == Arrived(v) <==>
      v.buffer.queue == [] || (InCall(v.reader) && |v.buffer.queue| == 1 && |v.buffer.queue[0]| <= v.reader.max)
  {
    var q := v.buffer.queue;
    if q == [] {
      assert Flatten(q) == [];
    } else {
      assert |Flatten(q)| == |q[0]| + |Flatten(q[1..])|;
      if |q| > 1 {
        assert |Flatten(q[1..])| >= |q[1]| > 0;
      } else {
        assert q[1..] == [] && Flatten(q) == q[0];
      }
    }
  }
}
