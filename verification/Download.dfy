/** A file-download stream end to end: the client's Read loop and frame handlers, the server's
    forwarding goroutine and frame handlers, and the frames in flight between them. Every
    critical section and every frame write is one step, and a run is any interleaving of steps.
    Cancellation and parent teardown are not steps of this machine. */
module Download {
  import Buffer
  import Machine
  import opened Protocol

  // ----- client: managedMuxChild, managedFileState and one caller of Read -----

  /** `Looking`: about to look at the queue. `Sleeping`: waiting on outputNotify. `Took`: bytes dequeued,
      credit not yet raised. `Credited`: credit raised under wireMu, window update not yet written. */
  datatype Reader =
    | ReadIdle
    | Looking(max: nat)
    | Sleeping(max: nat)
    | Took(data: seq<Byte>, closed: bool)
    | Credited(data: seq<Byte>, closed: bool)

  /** The monitor goroutine: free, about to post to outputNotify after enqueuing, or in handleFileClose
      with peer_close written and wireMu held. */
  datatype Monitor = Listening | Notifying | Acking

  datatype Client = Client(
    accepted: bool,
    buffer: Buffer.Buffer,
    monitor: Monitor,
    done: bool,
    failed: bool,          // terminalErr is set
    reader: Reader,
    returned: seq<Byte>,   // everything Read has returned so far
    finished: bool)        // some Read returned (_, true, nil)

  datatype ClientMove =
    | StartRead(max: nat) | Look | WakeRead | WakeDone | GiveUpRead | CreditBack | Announce | Notify | FinishClose

  function NewClient(): Client
  {
    Client(false, Buffer.Empty(), Listening, false, false, ReadIdle, [], false)
  }

  /** Read returns `data`; a nil error with done is remembered in `finished`. */
  function Return(c: Client, data: seq<Byte>, isDone: bool): Client
  {
    c.(reader := ReadIdle, returned := c.returned + data, finished := c.finished || (isDone && !c.failed))
  }

  /** The locked section in which Read looks at the queue. */
  function LookStep(c: Client, max: nat): Client
  {
    if c.buffer.queue != [] then
      var rest := Buffer.Rest(c.buffer, max);
      c.(buffer := rest, reader := Took(Buffer.Front(c.buffer, max), c.done && rest.outputBytes == 0))
    else if c.done then Return(c, [], true)
    else c.(reader := Sleeping(max))
  }

  function ClientStep(c: Client, m: ClientMove): Outcome<Client>
  {
    match m
    case StartRead(max) =>
      if !c.reader.ReadIdle? || !(1 <= max <= MAX_CHUNK) then Blocked else Moves(c.(reader := Looking(max)), [])
    case Look => if c.reader.Looking? then Moves(LookStep(c, c.reader.max), []) else Blocked
    case WakeRead =>
      if !c.reader.Sleeping? || !c.buffer.token then Blocked
      else Moves(c.(buffer := c.buffer.(token := false), reader := Looking(c.reader.max)), [])
    case WakeDone =>
      if !c.reader.Sleeping? || !c.done then Blocked else Moves(c.(reader := Looking(c.reader.max)), [])
    case GiveUpRead => if c.reader.Sleeping? then Moves(c.(reader := ReadIdle), []) else Blocked
    case CreditBack =>
      if !c.reader.Took? || c.monitor.Acking? then Blocked
      else if c.done then Moves(Return(c, c.reader.data, c.reader.closed), [])
      else
        Moves(c.(buffer := c.buffer.(recvCredit := c.buffer.recvCredit + |c.reader.data|),
                 reader := Credited(c.reader.data, c.reader.closed)), [])
    case Announce =>
      if !c.reader.Credited? then Blocked
      else Moves(Return(c, c.reader.data, c.reader.closed), [WindowUpdate(|c.reader.data|)])
    case Notify =>
      if !c.monitor.Notifying? then Blocked
      else Moves(c.(monitor := Listening, buffer := c.buffer.(token := true)), [])
    case FinishClose =>
      if !c.monitor.Acking? then Blocked
      else Moves(c.(monitor := Listening, done := true, buffer := c.buffer.(token := true)), [])
  }

  function ClientReceive(c: Client, f: Frame): Outcome<Client>
  {
    if !c.monitor.Listening? then Blocked          // the monitor goroutine is still at the previous frame
    else if c.done then Refused                    // the child is gone from both maps
    else
      match f
      case Accepted(w) =>
        if c.accepted || !(0 < w <= MAX_WINDOW) then Refused else Moves(c.(accepted := true), [])
      case Data(p) =>
        if !ValidData(p) || !c.accepted || !Buffer.CreditTest(c.buffer, p) ||
           !Buffer.QueueTest(c.buffer, p) then Refused
        else Moves(c.(buffer := Buffer.Enqueue(c.buffer, p), monitor := Notifying), [])
      case Close(r) =>
        if c.reader.Credited? then Blocked         // Read holds wireMu
        else if !c.accepted || r != DownloadComplete then Refused
        else Moves(c.(monitor := Acking), [Close(PeerClose)])
      case StreamError => Moves(c.(failed := true, done := true, buffer := c.buffer.(token := true)), [])
      case _ => Refused
  }

  // ----- server: typedFileChild, FileDownload and the forwardDownload goroutine -----

  datatype Forwarder =
    | Head | Waiting | Ready(limit: nat) | Writing(payload: seq<Byte>, fails: bool)
    | Completing | Failing | Reporting | Exited

  datatype Server = Server(
    sendCredit: nat,
    remaining: nat,          // typedFileChild.remaining
    unread: seq<Byte>,       // the bytes FileDownload still has to hand out
    closed: bool,            // closeChild ran: the registry records the ID as closed
    token: bool,             // creditCh holds a value
    posting: bool,           // windowUpdate raised the credit and is about to post to creditCh
    forwarder: Forwarder,
    broken: bool)            // a file read failed

  datatype ServerMove =
    | Check | Wake | ReadFile(n: nat, fails: bool) | WriteData | SendComplete
    | CloseFailed | ReportFailed | PostToken

  function NewServer(content: seq<Byte>): Server
  {
    Server(RECEIVE_WINDOW, |content|, content, false, false, false, Head, false)
  }

  function ServerStep(s: Server, m: ServerMove): Outcome<Server>
  {
    match m
    case Check =>
      if !s.forwarder.Head? then Blocked
      else if s.remaining == 0 then Moves(s.(forwarder := Completing), [])
      else if s.sendCredit == 0 then Moves(s.(forwarder := Waiting), [])
      else Moves(s.(forwarder := Ready(Min(Min(s.sendCredit, s.remaining), MAX_CHUNK))), [])
    case Wake =>
      if !s.forwarder.Waiting? then Blocked
      else if s.token then Moves(s.(token := false, forwarder := Head), [])
      else if s.closed then Moves(s.(forwarder := Exited), [])
      else Blocked
    case ReadFile(n, fails) =>
      if !s.forwarder.Ready? || n > s.forwarder.limit || n > |s.unread| then Blocked
      else if s.closed then Moves(s.(forwarder := Exited), [])
      else if s.unread == [] then Moves(s.(forwarder := Completing), [])       // io.EOF
      else if n == 0 then Moves(s.(forwarder := if fails then Failing else Head), [])
      else if n > s.sendCredit then Moves(s.(closed := true, forwarder := Exited), [])
      else
        Moves(s.(sendCredit := s.sendCredit - n,
                 remaining := if n <= s.remaining then s.remaining - n else s.remaining,
                 unread := s.unread[n..],
                 forwarder := Writing(s.unread[..n], fails)), [])
    case WriteData =>
      if !s.forwarder.Writing? then Blocked
      else
        var next :=
          if s.closed then Exited
          else if s.forwarder.fails then Failing
          else if s.remaining == 0 then Completing
          else Head;
        Moves(s.(forwarder := next), [Data(s.forwarder.payload)])
    case SendComplete =>
      if !s.forwarder.Completing? then Blocked
      else Moves(s.(forwarder := Exited), [Close(DownloadComplete)])
    case CloseFailed =>
      if !s.forwarder.Failing? then Blocked
      else Moves(s.(closed := true, broken := true, forwarder := Reporting), [])
    case ReportFailed =>
      if !s.forwarder.Reporting? then Blocked
      else Moves(s.(forwarder := Exited), [StreamError])
    case PostToken =>
      if !s.posting then Blocked
      else Moves(s.(posting := false, token := true), [])
  }

  function ServerReceive(s: Server, f: Frame): Outcome<Server>
  {
    if s.posting then Blocked                      // the frame loop is still in windowUpdate
    else if s.closed then Refused                  // dispatch finds no live record for the ID
    else
      match f
      case WindowUpdate(n) =>
        if !ValidUpdate(n) || s.sendCredit + n > MAX_WINDOW then Refused
        else Moves(s.(sendCredit := s.sendCredit + n, posting := true), [])
      case Close(_) =>
        Moves(s.(closed := true), if s.remaining == 0 then [] else [Close(PeerClose)])
      case StreamError => Moves(s.(closed := true), [Close(PeerClose)])
      case _ => Refused
  }

  // ----- the stream -----

  type Stream = Link<Client, Server>

  datatype Action = ClientDoes(cm: ClientMove) | ServerDoes(sm: ServerMove) | ClientReceives | ServerReceives

  function Init(content: seq<Byte>): Stream
  {
    Link(NewClient(), NewServer(content), [], [Accepted(1)], Live)
  }

  function Do(l: Stream, a: Action): Stream
  {
    if !l.status.Live? then l
    else
      match a
      case ClientDoes(m) => AfterClient(l, ClientStep(l.client, m))
      case ServerDoes(m) => AfterServer(l, ServerStep(l.server, m))
      case ClientReceives => if l.down == [] then l else ClientTakes(l, ClientReceive(l.client, l.down[0]))
      case ServerReceives => if l.up == [] then l else ServerTakes(l, ServerReceive(l.server, l.up[0]))
  }

  function Run(l: Stream, schedule: seq<Action>): Stream { Machine.Run(Do, l, schedule) }

  // ----- what one end's state stands for -----

  function InReader(r: Reader): seq<Byte> { if r.Took? || r.Credited? then r.data else [] }

  function Uncredited(r: Reader): nat { if r.Took? then |r.data| else 0 }

  function Unannounced(r: Reader): nat { if r.Credited? then |r.data| else 0 }

  function Unwritten(f: Forwarder): seq<Byte> { if f.Writing? then f.payload else [] }

  /** The bytes that have reached the client, in order. */
  function Arrived(c: Client): seq<Byte>
  {
    c.returned + (InReader(c.reader) + Flatten(c.buffer.queue))
  }

  /** The bytes the server still has to write, in order. */
  function Unsent(s: Server): seq<Byte> { Unwritten(s.forwarder) + s.unread }

  /** Receive credit the client has granted in frames it has written. */
  function Owed(c: Client): int { c.buffer.recvCredit - Unannounced(c.reader) }

  /** Send credit the server holds or has spent on a frame it has not written. */
  function Held(s: Server): nat { s.sendCredit + |Unwritten(s.forwarder)| }

  // ----- the ledger of each end: no step creates, loses or reorders a byte or a credit -----

  predicate WindowOk(c: Client)
  {
    var held := c.buffer.recvCredit + c.buffer.outputBytes + Uncredited(c.reader);
    held <= RECEIVE_WINDOW && (!c.done ==> held == RECEIVE_WINDOW)
  }

  predicate ReaderOk(c: Client)
  {
    && (c.reader.Looking? || c.reader.Sleeping? ==> 1 <= c.reader.max <= MAX_CHUNK)
    && (c.reader.Took? || c.reader.Credited? ==> c.reader.data != [])
    && (c.reader.Took? && c.reader.closed ==> c.done && c.buffer.queue == [])
    && (c.reader.Credited? ==> !c.reader.closed && !c.monitor.Acking? && (c.done ==> c.failed))
    // Read never sleeps on bytes it could return
    && (c.reader.Sleeping? && c.buffer.queue != [] ==> c.buffer.token || c.monitor.Notifying? || c.done)
  }

  predicate EndOk(c: Client)
  {
    && (c.monitor.Acking? ==> c.accepted && !c.done)
    && (c.monitor.Notifying? ==> !c.done)
    && (c.failed ==> c.done)
    && (c.finished ==> c.done && !c.failed && c.buffer.queue == [] && InReader(c.reader) == [])
  }

  predicate ClientOk(c: Client) { Buffer.Ok(c.buffer) && WindowOk(c) && ReaderOk(c) && EndOk(c) }

  lemma LookLedger(c: Client, max: nat)
    requires ClientOk(c) && c.reader == Looking(max)
    ensures var c' := LookStep(c, max); ClientOk(c') && Arrived(c') == Arrived(c) && Owed(c') == Owed(c)
  {
    if c.buffer.queue != [] {
      Buffer.RestOk(c.buffer, max);
    }
  }

  lemma ClientStepLedger(c: Client, m: ClientMove)
    requires ClientOk(c) && ClientStep(c, m).Moves?
    ensures var o := ClientStep(c, m);
      ClientOk(o.next) && Arrived(o.next) == Arrived(c) && Owed(o.next) == Owed(c) + CreditOf(o.emits)
  {
    match m
    case Look => LookLedger(c, c.reader.max);
    case Announce => assert CreditOf([WindowUpdate(|c.reader.data|)]) == |c.reader.data|;
    case _ =>
  }

  lemma ClientReceiveLedger(c: Client, f: Frame)
    requires ClientOk(c) && ClientReceive(c, f).Moves?
    ensures var o := ClientReceive(c, f);
      ClientOk(o.next) && Arrived(o.next) == Arrived(c) + Payload(f) &&
      Owed(o.next) == Owed(c) - |Payload(f)| + CreditOf(o.emits)
  {
    if f.Data? {
      Buffer.EnqueueOk(c.buffer, f.payload);
      assert Flatten(Buffer.Enqueue(c.buffer, f.payload).queue) == Flatten(c.buffer.queue) + f.payload;
    }
  }

  predicate ServerOk(s: Server)
  {
    && s.remaining == |s.unread|
    && (s.forwarder.Ready? ==>
          && 1 <= s.forwarder.limit <= s.sendCredit
          && s.forwarder.limit <= s.remaining
          && s.forwarder.limit <= MAX_CHUNK)
    && (s.forwarder.Completing? ==> s.remaining == 0)
    && (s.forwarder.Writing? ==> ValidData(s.forwarder.payload))
    && (s.forwarder.Reporting? ==> s.broken)
    && (s.broken ==> s.closed)
    && (s.closed ==> s.forwarder.Reporting? || s.forwarder.Exited?)
    // the forwarding goroutine never sleeps on credit it could use
    && (s.forwarder.Waiting? && s.sendCredit > 0 ==> s.token || s.posting)
  }

  lemma ReadFileLedger(s: Server, n: nat, fails: bool)
    requires ServerOk(s) && ServerStep(s, ReadFile(n, fails)).Moves?
    ensures var s' := ServerStep(s, ReadFile(n, fails)).next;
      ServerOk(s') && Unsent(s') == Unsent(s) && Held(s') == Held(s)
  {
    assert s.unread == s.unread[..n] + s.unread[n..];
  }

  /** A move that neither reads nor writes data. */
  lemma QuietMoveLedger(s: Server, m: ServerMove)
    requires ServerOk(s) && ServerStep(s, m).Moves? && !m.ReadFile? && !m.WriteData?
    ensures var o := ServerStep(s, m);
      && ServerOk(o.next) && DataOf(o.emits) == [] && o.next.unread == s.unread && o.next.sendCredit == s.sendCredit
      && Unwritten(o.next.forwarder) == Unwritten(s.forwarder)
  {
  }

  lemma WriteDataLedger(s: Server)
    requires ServerOk(s) && s.forwarder.Writing?
    ensures var o := ServerStep(s, WriteData);
      ServerOk(o.next) && DataOf(o.emits) == s.forwarder.payload && Unwritten(o.next.forwarder) == [] &&
      o.next.unread == s.unread && o.next.sendCredit == s.sendCredit
  {
    assert DataOf([Data(s.forwarder.payload)]) == s.forwarder.payload;
  }

  lemma ServerStepLedger(s: Server, m: ServerMove)
    requires ServerOk(s) && ServerStep(s, m).Moves?
    ensures var o := ServerStep(s, m);
      ServerOk(o.next) && DataOf(o.emits) + Unsent(o.next) == Unsent(s) &&
      Held(o.next) + |DataOf(o.emits)| == Held(s)
  {
    match m
    case ReadFile(n, fails) => ReadFileLedger(s, n, fails);
    case WriteData => WriteDataLedger(s);
    case _ => QuietMoveLedger(s, m);
  }

  lemma ServerReceiveLedger(s: Server, f: Frame)
    requires ServerOk(s) && ServerReceive(s, f).Moves? && (f.Close? ==> s.forwarder.Exited?)
    requires f.WindowUpdate? || f.Close?
    ensures var o := ServerReceive(s, f);
      ServerOk(o.next) && Unsent(o.next) == Unsent(s) && Held(o.next) == Held(s) + Granted(f) &&
      (f.Close? && s.remaining == 0 ==> o.emits == [])
  {
  }

  // ----- the invariant of the whole stream -----

  /** What the server may have written: the acceptance, then data, then at most one last frame. */
  predicate DownFrame(f: Frame, first: bool, last: bool)
  {
    if first then f == Accepted(1)
    else (f.Data? && ValidData(f.payload)) || (last && (f == Close(DownloadComplete) || f == StreamError))
  }

  /** What the client may have written: window updates, then at most one acknowledgement. */
  predicate UpFrame(f: Frame, last: bool)
  {
    (f.WindowUpdate? && f.bytes > 0) || (last && f == Close(PeerClose))
  }

  predicate DownShape(l: Stream)
  {
    && (forall i :: 0 <= i < |l.down| ==> DownFrame(l.down[i], i == 0 && !l.client.accepted, i == |l.down| - 1))
    && (l.client.accepted || l.down != [])
  }

  predicate UpShape(l: Stream)
  {
    forall i :: 0 <= i < |l.up| ==> UpFrame(l.up[i], i == |l.up| - 1)
  }

  /** How far each end must be for the last frames that are in flight or handled. */
  predicate Endgame(l: Stream)
  {
    var c, s, acking := l.client, l.server, l.client.monitor.Acking?;
    var complete := acking || (c.done && !c.failed);
    && (l.down != [] && l.down[|l.down| - 1].Last() ==> s.forwarder.Exited?)
    && (l.down != [] && l.down[|l.down| - 1].Close? ==> s.remaining == 0)
    && (l.down != [] && l.down[|l.down| - 1].StreamError? ==> s.broken)
    && (acking || c.done ==> l.down == [] && s.forwarder.Exited?)
    && (s.forwarder.Exited? && !s.broken ==> acking || c.done || (l.down != [] && l.down[|l.down| - 1].Close?))
    && (s.forwarder.Exited? && s.broken ==> c.failed || (l.down != [] && l.down[|l.down| - 1].StreamError?))
    && (complete ==> s.remaining == 0)
    && (c.failed ==> s.broken)
    && (l.up != [] && l.up[|l.up| - 1].Close? ==> complete)
    && (s.closed && !s.broken ==> l.up == [] && complete)
  }

  /** Every byte of the file is in exactly one place, in order. */
  predicate Integrity(l: Stream, content: seq<Byte>)
  {
    content == Arrived(l.client) + (DataOf(l.down) + Unsent(l.server))
  }

  /** Every byte of credit the client has granted is at the server or in flight. */
  predicate Conservation(l: Stream)
  {
    Owed(l.client) == Held(l.server) + |DataOf(l.down)| + CreditOf(l.up)
  }

  predicate Accounts(l: Stream, content: seq<Byte>)
  {
    ClientOk(l.client) && ServerOk(l.server) && Integrity(l, content) && Conservation(l)
  }

  predicate Shape(l: Stream)
  {
    DownShape(l) && UpShape(l) && Endgame(l)
  }

  predicate Inv(l: Stream, content: seq<Byte>)
  {
    && Accounts(l, content) && Shape(l)
    && !l.status.ClientRefused?
    && (l.status.ServerRefused? ==> l.server.broken)
  }

  lemma Assoc(a: seq<Byte>, b: seq<Byte>, c: seq<Byte>)
    ensures a + (b + c) == (a + b) + c
  {
  }

  lemma Regroup(content: seq<Byte>, a: seq<Byte>, b: seq<Byte>, a': seq<Byte>, b': seq<Byte>, rest: seq<Byte>)
    requires content == a + (b + rest) && a' + b' == a + b
    ensures content == a' + (b' + rest)
  {
    assert a + (b + rest) == (a + b) + rest && a' + (b' + rest) == (a' + b') + rest;
  }

  /** A balanced client move keeps the accounts of the stream. */
  lemma ClientBalances(l: Stream, c: Client, emits: seq<Frame>, down: seq<Frame>, content: seq<Byte>)
    requires Integrity(l, content) && Conservation(l)
    requires Arrived(c) + DataOf(down) == Arrived(l.client) + DataOf(l.down)
    requires Owed(c) == Owed(l.client) + CreditOf(emits) + |DataOf(down)| - |DataOf(l.down)|
    ensures var l' := l.(client := c, up := l.up + emits, down := down); Integrity(l', content) && Conservation(l')
  {
    CreditOfConcat(l.up, emits);
    Regroup(content, Arrived(l.client), DataOf(l.down), Arrived(c), DataOf(down), Unsent(l.server));
  }

  /** A balanced server move keeps the accounts of the stream. */
  lemma ServerBalances(l: Stream, s: Server, emits: seq<Frame>, up: seq<Frame>, content: seq<Byte>)
    requires Integrity(l, content) && Conservation(l)
    requires DataOf(emits) + Unsent(s) == Unsent(l.server)
    requires Held(s) + |DataOf(emits)| + CreditOf(up) == Held(l.server) + CreditOf(l.up)
    ensures var l' := l.(server := s, down := l.down + emits, up := up); Integrity(l', content) && Conservation(l')
  {
    DataOfConcat(l.down, emits);
    Assoc(DataOf(l.down), DataOf(emits), Unsent(s));
  }

  lemma ClientStepAccounts(l: Stream, m: ClientMove, content: seq<Byte>)
    requires Accounts(l, content) && ClientStep(l.client, m).Moves?
    ensures Accounts(AfterClient(l, ClientStep(l.client, m)), content)
  {
    var o := ClientStep(l.client, m);
    ClientStepLedger(l.client, m);
    ClientBalances(l, o.next, o.emits, l.down, content);
  }

  lemma ClientStepShape(l: Stream, m: ClientMove)
    requires ClientOk(l.client) && Shape(l) && ClientStep(l.client, m).Moves?
    ensures Shape(AfterClient(l, ClientStep(l.client, m)))
  {
    var o := ClientStep(l.client, m);
    if o.emits == [] {
      assert l.up + o.emits == l.up;
    }
  }

  lemma ServerStepAccounts(l: Stream, m: ServerMove, content: seq<Byte>)
    requires Accounts(l, content) && ServerStep(l.server, m).Moves?
    ensures Accounts(AfterServer(l, ServerStep(l.server, m)), content)
  {
    var o := ServerStep(l.server, m);
    ServerStepLedger(l.server, m);
    ServerBalances(l, o.next, o.emits, l.up, content);
  }

  lemma ServerStepShape(l: Stream, m: ServerMove)
    requires ServerOk(l.server) && ClientOk(l.client) && Shape(l) && ServerStep(l.server, m).Moves?
    ensures Shape(AfterServer(l, ServerStep(l.server, m)))
  {
    var o := ServerStep(l.server, m);
    if o.emits == [] {
      assert l.down + o.emits == l.down;
    }
  }

  lemma HeadBytes(ch: seq<Frame>)
    requires ch != []
    ensures DataOf(ch) == Payload(ch[0]) + DataOf(ch[1..])
  {
  }

  lemma ClientReceiveAccounts(l: Stream, content: seq<Byte>)
    requires Accounts(l, content) && l.down != [] && ClientReceive(l.client, l.down[0]).Moves?
    ensures Accounts(ClientTakes(l, ClientReceive(l.client, l.down[0])), content)
  {
    var o := ClientReceive(l.client, l.down[0]);
    ClientReceiveLedger(l.client, l.down[0]);
    HeadBytes(l.down);
    Assoc(Arrived(l.client), Payload(l.down[0]), DataOf(l.down[1..]));
    ClientBalances(l, o.next, o.emits, l.down[1..], content);
  }

  lemma ClientReceiveShape(l: Stream)
    requires ClientOk(l.client) && Shape(l) && l.down != [] && ClientReceive(l.client, l.down[0]).Moves?
    ensures Shape(ClientTakes(l, ClientReceive(l.client, l.down[0])))
  {
  }

  /** The client's handlers refuse nothing this server writes. */
  lemma ClientNeverRefuses(l: Stream, content: seq<Byte>)
    requires Accounts(l, content) && Shape(l) && l.down != []
    ensures !ClientReceive(l.client, l.down[0]).Refused?
  {
    assert DownFrame(l.down[0], !l.client.accepted, |l.down| == 1);
  }

  lemma ServerReceiveAccounts(l: Stream, content: seq<Byte>)
    requires Accounts(l, content) && Shape(l) && l.up != [] && ServerReceive(l.server, l.up[0]).Moves?
    ensures Accounts(ServerTakes(l, ServerReceive(l.server, l.up[0])), content)
  {
    var o := ServerReceive(l.server, l.up[0]);
    assert UpFrame(l.up[0], |l.up| == 1);
    ServerReceiveLedger(l.server, l.up[0]);
    ServerBalances(l, o.next, o.emits, l.up[1..], content);
  }

  lemma ServerReceiveShape(l: Stream)
    requires ServerOk(l.server) && Shape(l) && l.up != [] && ServerReceive(l.server, l.up[0]).Moves?
    ensures Shape(ServerTakes(l, ServerReceive(l.server, l.up[0])))
  {
    var o := ServerReceive(l.server, l.up[0]);
    assert UpFrame(l.up[0], |l.up| == 1);
    assert l.down + o.emits == l.down;
  }

  /** The server's handlers refuse a frame of this client only once a file read has failed. */
  lemma ServerRefusesOnlyWhenBroken(l: Stream, content: seq<Byte>)
    requires Accounts(l, content) && Shape(l) && l.up != []
    ensures ServerReceive(l.server, l.up[0]).Refused? <==> !l.server.posting && l.server.broken
  {
    assert UpFrame(l.up[0], |l.up| == 1);
  }

  lemma ClientStepKeeps(l: Stream, m: ClientMove, content: seq<Byte>)
    requires Inv(l, content) && l.status.Live?
    ensures Inv(AfterClient(l, ClientStep(l.client, m)), content)
  {
    var o := ClientStep(l.client, m);
    if o.Moves? {
      ClientStepAccounts(l, m, content);
      ClientStepShape(l, m);
    } else {
      assert o.Blocked?;
    }
  }

  lemma ServerStepKeeps(l: Stream, m: ServerMove, content: seq<Byte>)
    requires Inv(l, content) && l.status.Live?
    ensures Inv(AfterServer(l, ServerStep(l.server, m)), content)
  {
    var o := ServerStep(l.server, m);
    if o.Moves? {
      ServerStepAccounts(l, m, content);
      ServerStepShape(l, m);
    } else {
      assert o.Blocked?;
    }
  }

  lemma ReceiveKeeps(l: Stream, a: Action, content: seq<Byte>)
    requires Inv(l, content) && l.status.Live? && (a.ClientReceives? || a.ServerReceives?)
    ensures Inv(Do(l, a), content)
  {
    if a.ClientReceives? && l.down != [] {
      ClientNeverRefuses(l, content);
      if ClientReceive(l.client, l.down[0]).Moves? {
        ClientReceiveAccounts(l, content);
        ClientReceiveShape(l);
      }
    } else if a.ServerReceives? && l.up != [] {
      ServerRefusesOnlyWhenBroken(l, content);
      if ServerReceive(l.server, l.up[0]).Moves? {
        ServerReceiveAccounts(l, content);
        ServerReceiveShape(l);
      }
    }
  }

  lemma DoKeeps(l: Stream, a: Action, content: seq<Byte>)
    requires Inv(l, content)
    ensures Inv(Do(l, a), content)
  {
    if l.status.Live? {
      match a
      case ClientDoes(m) => ClientStepKeeps(l, m, content);
      case ServerDoes(m) => ServerStepKeeps(l, m, content);
      case _ => ReceiveKeeps(l, a, content);
    }
  }

  lemma InitHolds(content: seq<Byte>)
    ensures Inv(Init(content), content)
  {
    var l := Init(content);
    assert DataOf(l.down) == [] by {
      assert l.down[1..] == [];
    }
    assert Arrived(l.client) == [] && Unsent(l.server) == content && Flatten(l.client.buffer.queue) == [];
    assert CreditOf(l.up) == 0;
    assert Accounts(l, content);
    assert DownFrame(l.down[0], true, true);
  }

  lemma Reachable(content: seq<Byte>, schedule: seq<Action>)
    ensures Inv(Run(Init(content), schedule), content)
  {
    InitHolds(content);
    forall l, a | Inv(l, content) ensures Inv(Do(l, a), content) {
      DoKeeps(l, a, content);
    }
    Machine.RunKeeps(Do, l => Inv(l, content), Init(content), schedule);
  }

  // ----- the promises, over every interleaving -----

  /** Credit is conserved across both ends and the frames in flight, the client never holds more
      than its window, and the client refuses none of this server's frames. */
  lemma CreditIsConserved(content: seq<Byte>, schedule: seq<Action>)
    ensures var l := Run(Init(content), schedule);
      && l.client.buffer.recvCredit ==
           l.server.sendCredit + |Unwritten(l.server.forwarder)| + |DataOf(l.down)| + CreditOf(l.up) +
           Unannounced(l.client.reader)
      && l.client.buffer.recvCredit + |Flatten(l.client.buffer.queue)| <= RECEIVE_WINDOW
      && !l.status.ClientRefused?
  {
    Reachable(content, schedule);
  }

  /** The server refuses a client frame only after a file read failed, so a download whose reads
      succeed never ends the parent session and never overflows the server's send credit. */
  lemma ServerAcceptsUnlessReadFailed(content: seq<Byte>, schedule: seq<Action>)
    ensures var l := Run(Init(content), schedule);
      && (l.status.ServerRefused? ==> l.server.broken)
      && (l.up != [] && !l.server.posting ==> (ServerReceive(l.server, l.up[0]).Refused? <==> l.server.broken))
  {
    Reachable(content, schedule);
    var l := Run(Init(content), schedule);
    if l.up != [] {
      ServerRefusesOnlyWhenBroken(l, content);
    }
  }

  /** At every moment the bytes returned by Read, buffered, in flight and unsent spell the file. */
  lemma BytesStayInOrder(content: seq<Byte>, schedule: seq<Action>)
    ensures var l := Run(Init(content), schedule);
      content ==
        l.client.returned + (InReader(l.client.reader) + Flatten(l.client.buffer.queue)) +
        (DataOf(l.down) + (Unwritten(l.server.forwarder) + l.server.unread))
  {
    Reachable(content, schedule);
  }

  /** download_complete is on the wire only when nothing is left to send. */
  lemma CompleteMeansAllSent(content: seq<Byte>, schedule: seq<Action>)
    ensures var l := Run(Init(content), schedule);
      forall i :: 0 <= i < |l.down| && l.down[i].Close? ==>
        l.down[i] == Close(DownloadComplete) && Unsent(l.server) == [] && i == |l.down| - 1
  {
    Reachable(content, schedule);
    CompleteIsLast(Run(Init(content), schedule), content);
  }

  lemma CompleteIsLast(l: Stream, content: seq<Byte>)
    requires Inv(l, content)
    ensures forall i :: 0 <= i < |l.down| && l.down[i].Close? ==>
      l.down[i] == Close(DownloadComplete) && Unsent(l.server) == [] && i == |l.down| - 1
  {
    forall i | 0 <= i < |l.down| && l.down[i].Close?
      ensures l.down[i] == Close(DownloadComplete) && Unsent(l.server) == [] && i == |l.down| - 1
    {
      assert DownFrame(l.down[i], i == 0 && !l.client.accepted, i == |l.down| - 1);
    }
  }

  lemma FinishedCopy(l: Stream, content: seq<Byte>)
    requires Inv(l, content) && l.client.finished
    ensures l.client.returned == content
  {
    assert Flatten(l.client.buffer.queue) == [] && DataOf(l.down) == [] && Unsent(l.server) == [];
  }

  /** A Read that returns done with a nil error has completed an exact copy of the file. */
  lemma FinishedMeansWholeFile(content: seq<Byte>, schedule: seq<Action>)
    ensures var l := Run(Init(content), schedule);
      l.client.finished ==> l.client.returned == content
  {
    Reachable(content, schedule);
    var l := Run(Init(content), schedule);
    if l.client.finished {
      FinishedCopy(l, content);
    }
  }

  /** Whenever one side sleeps on something it could use, its wakeup is pending: the forwarding goroutine
      on credit, Read on buffered bytes. */
  lemma NoLostWakeup(content: seq<Byte>, schedule: seq<Action>)
    ensures var l := Run(Init(content), schedule);
      && (l.server.forwarder.Waiting? && l.server.sendCredit > 0 ==> l.server.token || l.server.posting)
      && (l.client.reader.Sleeping? && l.client.buffer.queue != [] ==>
            l.client.buffer.token || l.client.monitor.Notifying? || l.client.done)
  {
    Reachable(content, schedule);
  }

  // ----- the exception does happen -----

  /** One byte is on its way and the read behind it has failed. */
  function HalfSent(): Stream
  {
    Link(NewClient().(accepted := true), Server(RECEIVE_WINDOW - 1, 1, [0], false, false, false, Failing, false),
         [], [Data([0])], Live)
  }

  lemma ReachHalfSent(tail: seq<Action>) returns (schedule: seq<Action>)
    ensures Run(Init([0, 0]), schedule) == Run(HalfSent(), tail)
  {
    var l1 := Do(Init([0, 0]), ClientReceives);
    assert l1.up == [] && l1.down == [];
    var l2 := Do(l1, ServerDoes(Check));
    assert l2.down == [];
    var l3 := Do(l2, ServerDoes(ReadFile(1, true)));
    assert l3.server.forwarder == Writing([0], true) && l3.server.unread == [0] && l3.down == [];
    assert Do(l3, ServerDoes(WriteData)).down == [Data([0])];
    assert Do(l3, ServerDoes(WriteData)) == HalfSent();
    schedule := Before(l3, ServerDoes(WriteData), tail);
    schedule := Before(l2, ServerDoes(ReadFile(1, true)), schedule);
    schedule := Before(l1, ServerDoes(Check), schedule);
    schedule := Before(Init([0, 0]), ClientReceives, schedule);
  }

  lemma Before(l: Stream, a: Action, tail: seq<Action>) returns (schedule: seq<Action>)
    ensures Run(l, schedule) == Run(Do(l, a), tail)
  {
    schedule := [a] + tail;
    Machine.Before(Do, l, a, tail);
  }

  /** The byte has been taken from the buffer by a Read. */
  function Dequeued(): Stream
  {
    HalfSent().(client := HalfSent().client.(buffer := Buffer.Buffer(RECEIVE_WINDOW - 1, [], 0, true),
                                             reader := Took([0], false)), down := [])
  }

  lemma ReachDequeued(tail: seq<Action>) returns (schedule: seq<Action>)
    ensures Run(HalfSent(), schedule) == Run(Dequeued(), tail)
  {
    var l1 := Do(HalfSent(), ClientReceives);
    assert l1.client.buffer.queue == [[0]] && l1.up == [] && l1.down == [];
    var l2 := Do(l1, ClientDoes(Notify));
    assert l2.up == [];
    var l3 := Do(l2, ClientDoes(StartRead(1)));
    assert l3.up == [];
    var l4 := Do(l3, ClientDoes(Look));
    assert l4.client.buffer.queue == [] && l4.client.reader == Took([0], false) && l4.up == [];
    assert l4 == Dequeued();
    schedule := Before(l3, ClientDoes(Look), tail);
    schedule := Before(l2, ClientDoes(StartRead(1)), schedule);
    schedule := Before(l1, ClientDoes(Notify), schedule);
    schedule := Before(HalfSent(), ClientReceives, schedule);
  }

  /** That exception is real: a window update already on its way when a read fails ends the parent
      session, although the client did nothing wrong. */
  lemma FailedReadCanEndParent() returns (schedule: seq<Action>)
    ensures Run(Init([0, 0]), schedule).status == ServerRefused
  {
    var l1 := Do(Dequeued(), ClientDoes(CreditBack));
    assert l1.up == [];
    var l2 := Do(l1, ClientDoes(Announce));
    assert l2.up == [WindowUpdate(1)];
    var l3 := Do(l2, ServerDoes(CloseFailed));
    schedule := Before(l3, ServerReceives, []);
    schedule := Before(l2, ServerDoes(CloseFailed), schedule);
    schedule := Before(l1, ClientDoes(Announce), schedule);
    schedule := Before(Dequeued(), ClientDoes(CreditBack), schedule);
    schedule := ReachDequeued(schedule);
    schedule := ReachHalfSent(schedule);
  }
}
