/** A file-upload stream end to end: one caller of Write and Commit, the client's frame handlers,
    the server's frame loop and the staged upload it feeds. Every critical section and every frame
    write is one step. Cancellation and parent teardown are not steps of this machine. */
module Upload {
  import FileStore
  import Machine
  import opened Protocol

  // ----- client: managedMuxChild, managedFileState and the one caller -----

  datatype Caller =
    | Idle
    | Loop(rest: seq<Byte>)                       // about to look for credit
    | Asleep(rest: seq<Byte>)                     // waiting on creditNotify
    | Sending(chunk: seq<Byte>, rest: seq<Byte>)  // credit spent, data frame not yet written
    | Closing                                     // Commit set closing, close frame not yet written
    | Awaiting                                    // Commit waits for child.done

  datatype Client = Client(
    accepted: bool,
    sendCredit: nat,
    closing: bool,
    done: bool,
    failed: bool,             // terminalErr is set
    token: bool,              // creditNotify holds a value
    posting: bool,            // handleWindowUpdate raised the credit and is about to notify
    caller: Caller,
    pending: seq<Byte>,       // argument of the Write in progress
    acked: seq<Byte>,         // arguments of the Writes that returned nil, in order
    allNil: bool,             // no Write has returned an error
    committed: bool)          // a Commit returned nil

  datatype ClientMove =
    | StartWrite(data: seq<Byte>) | SpendCredit | Wake | AbandonWrite | WriteData
    | StartCommit | WriteClose | EndCommit | Notify

  function NewClient(): Client
  {
    Client(false, 0, false, false, false, false, false, Idle, [], [], true, false)
  }

  function FailWrite(c: Client): Client { c.(caller := Idle, pending := [], allNil := false) }

  function ClientStep(c: Client, m: ClientMove): Outcome<Client>
  {
    match m
    case StartWrite(data) =>
      if !c.caller.Idle? || !c.accepted || data == [] then Blocked
      else Moves(c.(caller := Loop(data), pending := data), [])
    case SpendCredit =>
      if !c.caller.Loop? then Blocked
      else if c.done then Moves(FailWrite(c), [])
      else if c.sendCredit == 0 then Moves(c.(caller := Asleep(c.caller.rest)), [])
      else
        var n := Min(Min(|c.caller.rest|, MAX_CHUNK), c.sendCredit);
        Moves(c.(sendCredit := c.sendCredit - n, caller := Sending(c.caller.rest[..n], c.caller.rest[n..])), [])
    case Wake =>
      if !c.caller.Asleep? then Blocked
      else if c.token then Moves(c.(token := false, caller := Loop(c.caller.rest)), [])
      else if c.done then Moves(FailWrite(c), [])
      else Blocked
    case AbandonWrite =>                          // the caller's context ends while it waits
      if !c.caller.Asleep? then Blocked else Moves(FailWrite(c), [])
    case WriteData =>
      if !c.caller.Sending? then Blocked
      else if c.caller.rest == [] then
        Moves(c.(caller := Idle, acked := c.acked + c.pending, pending := []), [Data(c.caller.chunk)])
      else Moves(c.(caller := Loop(c.caller.rest)), [Data(c.caller.chunk)])
    case StartCommit =>
      if !c.caller.Idle? || !c.accepted || c.done then Blocked
      else Moves(c.(closing := true, caller := if c.closing then Awaiting else Closing), [])
    case WriteClose =>
      if !c.caller.Closing? then Blocked
      else Moves(c.(caller := Awaiting), [Close(UploadComplete)])
    case EndCommit =>
      if !c.caller.Awaiting? || !c.done then Blocked
      else Moves(c.(caller := Idle, committed := c.committed || !c.failed), [])
    case Notify =>
      if !c.posting then Blocked else Moves(c.(posting := false, token := true), [])
  }

  function ClientReceive(c: Client, f: Frame): Outcome<Client>
  {
    if c.posting then Blocked
    else if c.done then Refused
    else
      match f
      case Accepted(w) =>
        if c.accepted || c.closing || !(0 < w <= MAX_WINDOW) then Refused
        else Moves(c.(accepted := true, sendCredit := w), [])
      case WindowUpdate(n) =>
        if !ValidUpdate(n) || !c.accepted || n + c.sendCredit > MAX_WINDOW then Refused
        else Moves(c.(sendCredit := c.sendCredit + n, posting := true), [])
      case Close(r) =>
        if !c.accepted || !c.closing || r != PeerClose then Refused
        else Moves(c.(done := true, token := true), [])
      case StreamError => Moves(c.(failed := true, done := true, token := true), [])
      case _ => Refused
  }

  // ----- server: typedFileChild and the frame loop -----

  datatype Handler =
    | Free
    | Announcing(n: nat)      // bytes staged, window update not yet written
    | Refunding(n: nat)       // window update written, receive credit not yet restored
    | Finishing(ok: bool)     // Write failed or Commit returned; the child is still open
    | Answering(ok: bool)     // the child is closed, the answer not yet written

  datatype Server = Server(recvCredit: nat, upload: FileStore.Upload, closed: bool, handler: Handler, broken: bool)

  /** The disk faults met while one frame is handled. */
  datatype Faults = Faults(wf: FileStore.WriteFault, cf: FileStore.CommitFault, removeOk: bool)

  datatype ServerMove = Announce | Refund | CloseChild(removeOk: bool) | Answer | Elsewhere(after: FileStore.Directory)

  function NewServer(t: FileStore.Terms, dir: FileStore.Directory): Server
  {
    Server(RECEIVE_WINDOW, FileStore.Begin(t, dir), false, Free, false)
  }

  function ServerStep(t: FileStore.Terms, sha: FileStore.Hash, s: Server, m: ServerMove): Outcome<Server>
  {
    match m
    case Announce =>
      if !s.handler.Announcing? then Blocked
      else Moves(s.(handler := Refunding(s.handler.n)), [WindowUpdate(s.handler.n)])
    case Refund =>
      if !s.handler.Refunding? then Blocked
      else if s.recvCredit + s.handler.n > MAX_WINDOW then Refused
      else Moves(s.(recvCredit := s.recvCredit + s.handler.n, handler := Free), [])
    case CloseChild(removeOk) =>
      if !s.handler.Finishing? then Blocked
      else
        Moves(s.(closed := true, broken := !s.handler.ok, handler := Answering(s.handler.ok),
                 upload := FileStore.AfterCancel(t, s.upload, removeOk)), [])
    case Answer =>
      if !s.handler.Answering? then Blocked
      else Moves(s.(handler := Free), [if s.handler.ok then Close(PeerClose) else StreamError])
    case Elsewhere(after) =>
      if !FileStore.Tolerates(t, s.upload, after) then Blocked else Moves(s.(upload := s.upload.(dir := after)), [])
  }

  function ServerReceive(t: FileStore.Terms, sha: FileStore.Hash, s: Server, f: Frame, x: Faults): Outcome<Server>
  {
    if !s.handler.Free? then Blocked
    else if s.closed then Refused
    else
      match f
      case Data(p) =>
        if !ValidData(p) || |p| > s.recvCredit then Refused
        else
          var (u, ok) := FileStore.AfterWrite(t, s.upload, p, x.wf, x.removeOk);
          Moves(s.(recvCredit := s.recvCredit - |p|, upload := u,
                   handler := if ok then Announcing(|p|) else Finishing(false)), [])
      case Close(_) =>
        var (u, ok) := FileStore.AfterCommit(t, sha, s.upload, x.cf, x.removeOk);
        Moves(s.(upload := u, handler := Finishing(ok)), [])
      case StreamError =>
        Moves(s.(closed := true, upload := FileStore.AfterCancel(t, s.upload, x.removeOk)), [Close(PeerClose)])
      case _ => Refused
  }

  // ----- the stream -----

  type Stream = Link<Client, Server>

  datatype Action = ClientDoes(cm: ClientMove) | ServerDoes(sm: ServerMove) | ClientReceives | ServerReceives(x: Faults)

  function Init(t: FileStore.Terms, dir: FileStore.Directory): Stream
  {
    Link(NewClient(), NewServer(t, dir), [], [Accepted(RECEIVE_WINDOW)], Live)
  }

  function Do(t: FileStore.Terms, sha: FileStore.Hash, l: Stream, a: Action): Stream
  {
    if !l.status.Live? then l
    else
      match a
      case ClientDoes(m) => AfterClient(l, ClientStep(l.client, m))
      case ServerDoes(m) => AfterServer(l, ServerStep(t, sha, l.server, m))
      case ClientReceives => if l.down == [] then l else ClientTakes(l, ClientReceive(l.client, l.down[0]))
      case ServerReceives(x) =>
        if l.up == [] then l else ServerTakes(l, ServerReceive(t, sha, l.server, l.up[0], x))
  }

  function Step(t: FileStore.Terms, sha: FileStore.Hash): (Stream, Action) -> Stream { (l, a) => Do(t, sha, l, a) }

  function Run(t: FileStore.Terms, sha: FileStore.Hash, l: Stream, schedule: seq<Action>): Stream
  {
    Machine.Run(Step(t, sha), l, schedule)
  }

  // ----- what one end's state stands for -----

  function InCaller(k: Caller): seq<Byte>
  {
    match k
    case Loop(rest) => rest
    case Asleep(rest) => rest
    case Sending(chunk, rest) => chunk + rest
    case _ => []
  }

  function Unwritten(k: Caller): seq<Byte> { if k.Sending? then k.chunk else [] }

  /** Send credit the client holds or has spent on a frame it has not written. */
  function Held(c: Client): nat { c.sendCredit + |Unwritten(c.caller)| }

  /** Receive credit the server has granted in frames it has written. */
  function Owed(s: Server): nat { s.recvCredit + if s.handler.Refunding? then s.handler.n else 0 }

  /** Bytes taken from the window that the next window update will give back. */
  function InHandler(s: Server): nat
  {
    match s.handler
    case Announcing(n) => n
    case Refunding(n) => n
    case _ => 0
  }

  /** The bytes of Writes that returned nil and of the one in progress that are not yet on the wire. */
  function Submitted(c: Client): seq<Byte> { c.acked + c.pending }

  predicate Healthy(s: Server)
  {
    !s.broken && s.handler != Finishing(false)
  }

  // ----- the ledger of each end -----

  predicate ClientOk(c: Client)
  {
    && (c.caller.Loop? || c.caller.Asleep? ==> c.caller.rest != [])
    && (c.caller.Sending? ==> ValidData(c.caller.chunk))
    && (c.caller.Idle? || c.caller.Closing? || c.caller.Awaiting? ==> c.pending == [])
    && (c.caller.Closing? || c.caller.Awaiting? ==> c.closing)
    && (c.caller.Closing? ==> !c.done || c.failed)
    && (c.closing && !c.done ==> c.caller.Closing? || c.caller.Awaiting?)
    && (c.closing ==> !c.caller.Sending? && !c.caller.Asleep?)
    && (c.done && !c.failed ==> c.closing && (c.caller.Idle? || c.caller.Awaiting? || c.caller == Loop(c.pending)))
    && (c.failed ==> c.done)
    && (c.committed ==> c.done && !c.failed && !c.caller.Awaiting?)
    && (!c.accepted ==> c.caller.Idle? && !c.closing && c.sendCredit == 0 && (c.done ==> c.failed))
    // the caller never sleeps on credit it could use
    && (c.caller.Asleep? && c.sendCredit > 0 ==> c.token || c.posting || c.done)
  }

  lemma ClientStepLedger(c: Client, m: ClientMove)
    requires ClientOk(c) && ClientStep(c, m).Moves?
    ensures var o := ClientStep(c, m);
      && ClientOk(o.next)
      && Held(o.next) + |DataOf(o.emits)| == Held(c)
  {
    var o := ClientStep(c, m);
    if o.emits != [] {
      assert DataOf(o.emits) == Payload(o.emits[0]);
    }
  }

  lemma WriteDataBytes(c: Client, before: seq<Byte>)
    requires ClientOk(c) && c.caller.Sending? && Submitted(c) == before + InCaller(c.caller)
    ensures var o := ClientStep(c, WriteData);
      Submitted(o.next) == before + DataOf(o.emits) + InCaller(o.next.caller)
  {
    var o := ClientStep(c, WriteData);
    assert DataOf(o.emits) == c.caller.chunk;
    assert Submitted(o.next) == Submitted(c);
    assert InCaller(o.next.caller) == c.caller.rest;
  }

  lemma SpendCreditBytes(c: Client)
    requires ClientOk(c) && c.caller.Loop?
    ensures var o := ClientStep(c, SpendCredit);
      o.next.allNil ==> InCaller(o.next.caller) == InCaller(c.caller) && Submitted(o.next) == Submitted(c)
  {
    var k := ClientStep(c, SpendCredit).next.caller;
    if k.Sending? {
      assert c.caller.rest == k.chunk + k.rest;
    }
  }

  /** As long as every Write succeeds, what left the caller is exactly what was written out. */
  lemma ClientStepBytes(c: Client, m: ClientMove, before: seq<Byte>)
    requires ClientOk(c) && ClientStep(c, m).Moves?
    requires c.allNil ==> Submitted(c) == before + InCaller(c.caller)
    ensures var o := ClientStep(c, m);
      o.next.allNil ==> c.allNil && Submitted(o.next) == before + DataOf(o.emits) + InCaller(o.next.caller)
  {
    var o := ClientStep(c, m);
    if o.next.allNil {
      match m
      case WriteData => WriteDataBytes(c, before);
      case SpendCredit => SpendCreditBytes(c);
      case StartWrite(data) => assert c.pending == [] && InCaller(c.caller) == [];
      case WriteClose => assert DataOf(o.emits) == [];
      case _ =>
    }
  }

  lemma ClientReceiveLedger(c: Client, f: Frame)
    requires ClientOk(c) && ClientReceive(c, f).Moves?
    requires f.Close? ==> c.caller.Awaiting?
    ensures var o := ClientReceive(c, f);
      && ClientOk(o.next) && o.emits == []
      && Held(o.next) == Held(c) + Granted(f)
      && o.next.caller == c.caller && Submitted(o.next) == Submitted(c) && o.next.allNil == c.allNil
  {
  }

  predicate ServerOk(t: FileStore.Terms, sha: FileStore.Hash, s: Server)
  {
    && FileStore.UploadOk(t, sha, s.upload)
    && s.recvCredit + InHandler(s) <= RECEIVE_WINDOW
    && (!s.closed && !s.handler.Finishing? ==> s.recvCredit + InHandler(s) == RECEIVE_WINDOW)
    && (s.handler.Announcing? || s.handler.Refunding? ==> s.handler.n > 0)
    && (s.closed <==> s.broken || (s.upload.committed && !s.handler.Finishing?))
    && (s.handler.Answering? ==> s.closed && (s.broken <==> !s.handler.ok))
    && (s.handler.Finishing? ==> !s.closed)
    && (s.handler == Finishing(true) ==> s.upload.committed)
    && (s.handler.Announcing? || s.handler.Refunding? ==> !s.closed)
    && (!s.closed && !s.handler.Finishing? ==> !s.upload.closed)
  }

  lemma ServerStepLedger(t: FileStore.Terms, sha: FileStore.Hash, s: Server, m: ServerMove)
    requires ServerOk(t, sha, s)
    ensures var o := ServerStep(t, sha, s, m);
      && !o.Refused?
      && (o.Moves? ==>
            && ServerOk(t, sha, o.next)
            && Owed(o.next) == Owed(s) + CreditOf(o.emits)
            && o.next.upload.hashed == s.upload.hashed
            && (Healthy(o.next) ==> Healthy(s)))
  {
    var o := ServerStep(t, sha, s, m);
    if o.Moves? {
      if o.emits != [] {
        assert CreditOf(o.emits) == Granted(o.emits[0]);
      }
      if m.CloseChild? {
        FileStore.ApplyKeeps(t, sha, s.upload, FileStore.DoCancel(m.removeOk));
      }
      if m.Elsewhere? {
        FileStore.OthersKeep(t, sha, s.upload, m.after);
      }
    }
  }

  lemma ServerReceiveLedger(t: FileStore.Terms, sha: FileStore.Hash, s: Server, f: Frame, x: Faults)
    requires ServerOk(t, sha, s) && ServerReceive(t, sha, s, f, x).Moves? && (f.Data? || f.Close?)
    ensures var o := ServerReceive(t, sha, s, f, x);
      && ServerOk(t, sha, o.next) && o.emits == []
      && Owed(o.next) + |Payload(f)| == Owed(s)
      && (Healthy(o.next) ==> Healthy(s) && o.next.upload.hashed == s.upload.hashed + Payload(f))
  {
    FileStore.LimitsDoNotWrap(t, sha, s.upload);
    if f.Data? {
      FileStore.ApplyKeeps(t, sha, s.upload, FileStore.DoWrite(f.payload, x.wf, x.removeOk));
    } else {
      FileStore.ApplyKeeps(t, sha, s.upload, FileStore.DoCommit(x.cf, x.removeOk));
    }
  }

  // ----- the invariant of the whole stream -----

  predicate DownFrame(f: Frame, first: bool, last: bool)
  {
    if first then f == Accepted(RECEIVE_WINDOW)
    else (f.WindowUpdate? && f.bytes > 0) || (last && (f == Close(PeerClose) || f == StreamError))
  }

  predicate UpFrame(f: Frame, last: bool)
  {
    (f.Data? && ValidData(f.payload)) || (last && f == Close(UploadComplete))
  }

  predicate DownShape(l: Stream)
  {
    && (forall i :: 0 <= i < |l.down| ==> DownFrame(l.down[i], i == 0 && !l.client.accepted, i == |l.down| - 1))
    && (l.client.accepted || l.down != [])
  }

  predicate UpShape(l: Stream)
  {
    forall i :: 0 <= i < |l.up| ==> UpFrame(l.up[i], i == |l.up| - 1)
  }

  predicate Endgame(l: Stream)
  {
    var c, s := l.client, l.server;
    && (l.down != [] && l.down[|l.down| - 1].Last() ==> s.closed && s.handler.Free?)
    && (l.down != [] && l.down[|l.down| - 1].Close? ==> !s.broken)
    && (l.down != [] && l.down[|l.down| - 1].StreamError? ==> s.broken)
    && (c.done ==> l.down == [] && s.closed && s.handler.Free?)
    && (c.done ==> (c.failed <==> s.broken))
    && (l.up != [] && l.up[|l.up| - 1].Close? ==> c.closing && !c.caller.Closing?)
    && (!c.accepted ==> l.up == [] && s.handler.Free? && !s.closed)
    && (s.upload.committed && !s.broken ==> l.up == [] && (c.caller.Awaiting? || c.done))
    // a closed child has been answered, and a commit request is not forgotten
    && (s.closed && s.handler.Free? ==> c.done || (l.down != [] && l.down[|l.down| - 1].Last()))
    && (c.caller.Awaiting? && !c.done ==> (l.up != [] && l.up[|l.up| - 1].Close?) || s.handler.Finishing? || s.closed)
  }

  /** While every Write returns nil and the server is healthy, no byte is lost or reordered. */
  predicate Integrity(l: Stream)
  {
    l.client.allNil && Healthy(l.server) ==>
      Submitted(l.client) == l.server.upload.hashed + DataOf(l.up) + InCaller(l.client.caller)
  }

  /** Every byte of credit the server has granted is at the client or in flight. */
  predicate Conservation(l: Stream)
  {
    Owed(l.server) == Held(l.client) + |DataOf(l.up)| + CreditOf(l.down)
  }

  predicate Accounts(t: FileStore.Terms, sha: FileStore.Hash, l: Stream)
  {
    ClientOk(l.client) && ServerOk(t, sha, l.server) && Integrity(l) && Conservation(l)
  }

  predicate Shape(l: Stream) { DownShape(l) && UpShape(l) && Endgame(l) }

  predicate Inv(t: FileStore.Terms, sha: FileStore.Hash, l: Stream)
  {
    && Accounts(t, sha, l) && Shape(l)
    && !l.status.ClientRefused?
    && (l.status.ServerRefused? ==> l.server.broken)
  }

  lemma ClientStepAccounts(t: FileStore.Terms, sha: FileStore.Hash, l: Stream, m: ClientMove)
    requires Accounts(t, sha, l) && ClientStep(l.client, m).Moves?
    ensures Accounts(t, sha, AfterClient(l, ClientStep(l.client, m)))
  {
    var o := ClientStep(l.client, m);
    ClientStepLedger(l.client, m);
    DataOfConcat(l.up, o.emits);
    if Healthy(l.server) {
      var before := l.server.upload.hashed + DataOf(l.up);
      ClientStepBytes(l.client, m, before);
      assert before + DataOf(o.emits) == l.server.upload.hashed + DataOf(l.up + o.emits);
    }
  }

  lemma ClientStepShape(l: Stream, m: ClientMove)
    requires ClientOk(l.client) && Shape(l) && ClientStep(l.client, m).Moves?
    ensures Shape(AfterClient(l, ClientStep(l.client, m)))
  {
    var o := ClientStep(l.client, m);
    if o.emits == [] {
      assert l.up + o.emits == l.up;
    }
  }

  lemma ServerStepAccounts(t: FileStore.Terms, sha: FileStore.Hash, l: Stream, m: ServerMove)
    requires Accounts(t, sha, l) && ServerStep(t, sha, l.server, m).Moves?
    ensures Accounts(t, sha, AfterServer(l, ServerStep(t, sha, l.server, m)))
  {
    ServerStepLedger(t, sha, l.server, m);
    CreditOfConcat(l.down, ServerStep(t, sha, l.server, m).emits);
  }

  lemma ServerStepShape(t: FileStore.Terms, sha: FileStore.Hash, l: Stream, m: ServerMove)
    requires ServerOk(t, sha, l.server) && Shape(l) && ServerStep(t, sha, l.server, m).Moves?
    ensures Shape(AfterServer(l, ServerStep(t, sha, l.server, m)))
  {
    var o := ServerStep(t, sha, l.server, m);
    if o.emits == [] {
      assert l.down + o.emits == l.down;
    }
  }

  lemma ClientReceiveAccounts(t: FileStore.Terms, sha: FileStore.Hash, l: Stream)
    requires Accounts(t, sha, l) && Shape(l) && l.down != [] && ClientReceive(l.client, l.down[0]).Moves?
    ensures Accounts(t, sha, ClientTakes(l, ClientReceive(l.client, l.down[0])))
  {
    assert DownFrame(l.down[0], !l.client.accepted, |l.down| == 1);
    ClientReceiveLedger(l.client, l.down[0]);
    assert l.up + ClientReceive(l.client, l.down[0]).emits == l.up;
  }

  lemma ClientReceiveShape(t: FileStore.Terms, sha: FileStore.Hash, l: Stream)
    requires ClientOk(l.client) && ServerOk(t, sha, l.server) && Shape(l)
    requires l.down != [] && ClientReceive(l.client, l.down[0]).Moves?
    ensures Shape(ClientTakes(l, ClientReceive(l.client, l.down[0])))
  {
    assert DownFrame(l.down[0], !l.client.accepted, |l.down| == 1);
    assert l.up + ClientReceive(l.client, l.down[0]).emits == l.up;
  }

  lemma ClientNeverRefuses(t: FileStore.Terms, sha: FileStore.Hash, l: Stream)
    requires Accounts(t, sha, l) && Shape(l) && l.down != []
    ensures !ClientReceive(l.client, l.down[0]).Refused?
  {
    assert DownFrame(l.down[0], !l.client.accepted, |l.down| == 1);
  }

  /** Handling a frame moves its bytes into the digest and its credit into the handler. */
  lemma ServerBalances(t: FileStore.Terms, sha: FileStore.Hash, l: Stream, s: Server)
    requires Accounts(t, sha, l) && ServerOk(t, sha, s) && l.up != []
    requires Owed(s) + |Payload(l.up[0])| == Owed(l.server)
    requires Healthy(s) ==> Healthy(l.server) && s.upload.hashed == l.server.upload.hashed + Payload(l.up[0])
    ensures Accounts(t, sha, l.(server := s, up := l.up[1..]))
  {
    assert DataOf(l.up) == Payload(l.up[0]) + DataOf(l.up[1..]);
  }

  lemma ServerReceiveAccounts(t: FileStore.Terms, sha: FileStore.Hash, l: Stream, x: Faults)
    requires Accounts(t, sha, l) && Shape(l) && l.up != []
    requires ServerReceive(t, sha, l.server, l.up[0], x).Moves?
    ensures Accounts(t, sha, ServerTakes(l, ServerReceive(t, sha, l.server, l.up[0], x)))
  {
    var o := ServerReceive(t, sha, l.server, l.up[0], x);
    assert UpFrame(l.up[0], |l.up| == 1);
    ServerReceiveLedger(t, sha, l.server, l.up[0], x);
    ServerBalances(t, sha, l, o.next);
    assert l.down + o.emits == l.down;
  }

  lemma ServerReceiveShape(t: FileStore.Terms, sha: FileStore.Hash, l: Stream, x: Faults)
    requires ClientOk(l.client) && ServerOk(t, sha, l.server) && Shape(l) && l.up != []
    requires ServerReceive(t, sha, l.server, l.up[0], x).Moves?
    ensures Shape(ServerTakes(l, ServerReceive(t, sha, l.server, l.up[0], x)))
  {
    var o := ServerReceive(t, sha, l.server, l.up[0], x);
    assert UpFrame(l.up[0], |l.up| == 1);
    ServerReceiveLedger(t, sha, l.server, l.up[0], x);
    assert l.down + o.emits == l.down;
  }

  /** The frame loop refuses a frame of this client only once a write or the commit has failed. */
  lemma ServerRefusesOnlyWhenBroken(t: FileStore.Terms, sha: FileStore.Hash, l: Stream, x: Faults)
    requires Accounts(t, sha, l) && Shape(l) && l.up != []
    ensures ServerReceive(t, sha, l.server, l.up[0], x).Refused? <==> l.server.handler.Free? && l.server.broken
  {
    assert UpFrame(l.up[0], |l.up| == 1);
    assert DataOf(l.up) == Payload(l.up[0]) + DataOf(l.up[1..]);
  }

  lemma StepKeeps(t: FileStore.Terms, sha: FileStore.Hash, l: Stream, a: Action)
    requires Inv(t, sha, l) && l.status.Live? && (a.ClientDoes? || a.ServerDoes?)
    ensures Inv(t, sha, Do(t, sha, l, a))
  {
    if a.ClientDoes? {
      if ClientStep(l.client, a.cm).Moves? {
        ClientStepAccounts(t, sha, l, a.cm);
        ClientStepShape(l, a.cm);
      } else {
        assert ClientStep(l.client, a.cm).Blocked?;
      }
    } else {
      ServerStepLedger(t, sha, l.server, a.sm);
      if ServerStep(t, sha, l.server, a.sm).Moves? {
        ServerStepAccounts(t, sha, l, a.sm);
        ServerStepShape(t, sha, l, a.sm);
      }
    }
  }

  lemma ReceiveKeeps(t: FileStore.Terms, sha: FileStore.Hash, l: Stream, a: Action)
    requires Inv(t, sha, l) && l.status.Live? && (a.ClientReceives? || a.ServerReceives?)
    ensures Inv(t, sha, Do(t, sha, l, a))
  {
    if a.ClientReceives? && l.down != [] {
      ClientNeverRefuses(t, sha, l);
      if ClientReceive(l.client, l.down[0]).Moves? {
        ClientReceiveAccounts(t, sha, l);
        ClientReceiveShape(t, sha, l);
      }
    } else if a.ServerReceives? && l.up != [] {
      ServerRefusesOnlyWhenBroken(t, sha, l, a.x);
      if ServerReceive(t, sha, l.server, l.up[0], a.x).Moves? {
        ServerReceiveAccounts(t, sha, l, a.x);
        ServerReceiveShape(t, sha, l, a.x);
      }
    }
  }

  lemma DoKeeps(t: FileStore.Terms, sha: FileStore.Hash, l: Stream, a: Action)
    requires Inv(t, sha, l)
    ensures Inv(t, sha, Do(t, sha, l, a))
  {
    if l.status.Live? {
      if a.ClientDoes? || a.ServerDoes? {
        StepKeeps(t, sha, l, a);
      } else {
        ReceiveKeeps(t, sha, l, a);
      }
    }
  }

  lemma InitHolds(t: FileStore.Terms, sha: FileStore.Hash, dir: FileStore.Directory)
    requires t.Valid()
    ensures Inv(t, sha, Init(t, dir))
  {
    assert CreditOf([Accepted(RECEIVE_WINDOW)]) == RECEIVE_WINDOW;
  }

  lemma Reachable(t: FileStore.Terms, sha: FileStore.Hash, dir: FileStore.Directory, schedule: seq<Action>)
    requires t.Valid()
    ensures Inv(t, sha, Run(t, sha, Init(t, dir), schedule))
  {
    InitHolds(t, sha, dir);
    forall l, a | Inv(t, sha, l) ensures Inv(t, sha, Do(t, sha, l, a)) {
      DoKeeps(t, sha, l, a);
    }
    Machine.RunKeeps(Step(t, sha), l => Inv(t, sha, l), Init(t, dir), schedule);
  }

  lemma CancelSuffix(a: seq<Byte>, b: seq<Byte>, x: seq<Byte>)
    requires a + x == b + x
    ensures a == b
  {
    assert a == (a + x)[..|a|] && b == (b + x)[..|b|];
  }

  lemma CommittedCopy(t: FileStore.Terms, sha: FileStore.Hash, l: Stream)
    requires Inv(t, sha, l) && l.client.committed && l.client.allNil
    ensures FileStore.Published(t, sha, l.server.upload) && l.server.upload.hashed == l.client.acked
  {
    assert l.server.upload.committed && !l.server.broken;
    assert InCaller(l.client.caller) == l.client.pending;
    CancelSuffix(l.client.acked, l.server.upload.hashed, l.client.pending);
  }

  // ----- the promises, over every interleaving and every disk fault -----

  /** If every Write and then Commit return nil, the destination holds exactly the written bytes and
      satisfies the announced size and digest. */
  lemma CommittedMeansExactCopy(t: FileStore.Terms, sha: FileStore.Hash, dir: FileStore.Directory,
                                schedule: seq<Action>)
    requires t.Valid()
    ensures var l := Run(t, sha, Init(t, dir), schedule);
      l.client.committed && l.client.allNil ==>
        && t.destination in l.server.upload.dir
        && l.server.upload.dir[t.destination] == l.client.acked
        && FileStore.Published(t, sha, l.server.upload)
  {
    Reachable(t, sha, dir, schedule);
    var l := Run(t, sha, Init(t, dir), schedule);
    if l.client.committed && l.client.allNil {
      CommittedCopy(t, sha, l);
    }
  }

  /** Even an abandoned Write cannot corrupt what Commit publishes: a nil Commit always publishes the
      bytes the server hashed, whatever happened before. */
  lemma CommittedMeansPublished(t: FileStore.Terms, sha: FileStore.Hash, dir: FileStore.Directory,
                                schedule: seq<Action>)
    requires t.Valid()
    ensures var l := Run(t, sha, Init(t, dir), schedule);
      l.client.committed ==> FileStore.Published(t, sha, l.server.upload)
  {
    Reachable(t, sha, dir, schedule);
  }

  /** Credit is conserved across both ends and the frames in flight; neither end's credit can
      overflow; the client refuses nothing; the server refuses only after a failed write or commit. */
  lemma CreditIsConserved(t: FileStore.Terms, sha: FileStore.Hash, dir: FileStore.Directory, schedule: seq<Action>)
    requires t.Valid()
    ensures var l := Run(t, sha, Init(t, dir), schedule);
      && Owed(l.server) == l.client.sendCredit + |Unwritten(l.client.caller)| + |DataOf(l.up)| + CreditOf(l.down)
      && l.server.recvCredit + InHandler(l.server) <= RECEIVE_WINDOW
      && !l.status.ClientRefused?
      && (l.status.ServerRefused? ==> l.server.broken)
  {
    Reachable(t, sha, dir, schedule);
  }

  /** Whenever the caller sleeps although credit is available, a wakeup is pending. */
  lemma NoLostWakeup(t: FileStore.Terms, sha: FileStore.Hash, dir: FileStore.Directory, schedule: seq<Action>)
    requires t.Valid()
    ensures var c := Run(t, sha, Init(t, dir), schedule).client;
      c.caller.Asleep? && c.sendCredit > 0 ==> c.token || c.posting || c.done
  {
    Reachable(t, sha, dir, schedule);
  }

  /** Over every run: once a staged write or the commit has failed and the ID is closed, the next frame of
      this client is refused and ends the parent session; before that, none is. */
  lemma ServerRefusesExactlyAfterFailure(t: FileStore.Terms, sha: FileStore.Hash, dir: FileStore.Directory,
                                         schedule: seq<Action>, x: Faults)
    requires t.Valid()
    ensures var l := Run(t, sha, Init(t, dir), schedule);
      l.up != [] ==>
        (ServerReceive(t, sha, l.server, l.up[0], x).Refused? <==> l.server.handler.Free? && l.server.broken)
  {
    Reachable(t, sha, dir, schedule);
    var l := Run(t, sha, Init(t, dir), schedule);
    if l.up != [] {
      ServerRefusesOnlyWhenBroken(t, sha, l, x);
    }
  }

  // ----- and it does happen -----

  lemma Before(t: FileStore.Terms, sha: FileStore.Hash, l: Stream, a: Action, tail: seq<Action>)
    returns (schedule: seq<Action>)
    ensures Run(t, sha, l, schedule) == Run(t, sha, Do(t, sha, l, a), tail)
  {
    schedule := [a] + tail;
    Machine.Before(Step(t, sha), l, a, tail);
  }

  const DISK_FULL := Faults(FileStore.WriteFault(0, true), FileStore.CommitFault(true, true, true), true)

  /** Two one-byte Writes have returned nil and both frames are on their way. */
  function TwoSent(t: FileStore.Terms, dir: FileStore.Directory): Stream
  {
    Link(NewClient().(accepted := true, sendCredit := RECEIVE_WINDOW - 2, acked := [0, 0]), NewServer(t, dir),
         [Data([0]), Data([0])], [], Live)
  }

  lemma SendOne(t: FileStore.Terms, sha: FileStore.Hash, l: Stream, tail: seq<Action>) returns (schedule: seq<Action>)
    requires l.status.Live? && l.client.caller.Idle? && l.client.accepted && !l.client.done
    requires l.client.pending == [] && l.client.sendCredit > 0
    ensures Run(t, sha, l, schedule) ==
      Run(t, sha, l.(client := l.client.(sendCredit := l.client.sendCredit - 1, acked := l.client.acked + [0]),
                     up := l.up + [Data([0])]), tail)
  {
    var l1 := Do(t, sha, l, ClientDoes(StartWrite([0])));
    assert l1.up == l.up;
    var l2 := Do(t, sha, l1, ClientDoes(SpendCredit));
    assert l2.client.caller == Sending([0], []) && l2.up == l.up;
    var l3 := Do(t, sha, l2, ClientDoes(WriteData));
    assert l3 == l.(client := l.client.(sendCredit := l.client.sendCredit - 1, acked := l.client.acked + [0]),
                    up := l.up + [Data([0])]);
    schedule := Before(t, sha, l2, ClientDoes(WriteData), tail);
    schedule := Before(t, sha, l1, ClientDoes(SpendCredit), schedule);
    schedule := Before(t, sha, l, ClientDoes(StartWrite([0])), schedule);
  }

  lemma ReachTwoSent(t: FileStore.Terms, sha: FileStore.Hash, dir: FileStore.Directory, tail: seq<Action>)
    returns (schedule: seq<Action>)
    ensures Run(t, sha, Init(t, dir), schedule) == Run(t, sha, TwoSent(t, dir), tail)
  {
    var l1 := Do(t, sha, Init(t, dir), ClientReceives);
    assert l1.up == [] && l1.down == [];
    var one := l1.(client := l1.client.(sendCredit := l1.client.sendCredit - 1, acked := [0]), up := [Data([0])]);
    assert [] + [Data([0])] == [Data([0])] && l1.client.acked + [0] == [0];
    assert [Data([0])] + [Data([0])] == [Data([0]), Data([0])] && [0] + [0] == [0, 0];
    schedule := SendOne(t, sha, one, tail);
    schedule := SendOne(t, sha, l1, schedule);
    schedule := Before(t, sha, Init(t, dir), ClientReceives, schedule);
  }

  /** The disk fails under the first of two frames: the second one, sent in good faith, ends the parent. */
  lemma FailedWriteCanEndParent(t: FileStore.Terms, sha: FileStore.Hash, dir: FileStore.Directory)
    returns (schedule: seq<Action>)
    ensures Run(t, sha, Init(t, dir), schedule).status == ServerRefused
  {
    var l0 := TwoSent(t, dir);
    var l1 := Do(t, sha, l0, ServerReceives(DISK_FULL));
    assert l1.server.handler == Finishing(false) && l1.up == [Data([0])];
    var l2 := Do(t, sha, l1, ServerDoes(CloseChild(true)));
    assert l2.server.closed && l2.server.handler == Answering(false);
    var l3 := Do(t, sha, l2, ServerDoes(Answer));
    assert l3.server.handler.Free? && l3.up == [Data([0])];
    schedule := Before(t, sha, l3, ServerReceives(DISK_FULL), []);
    schedule := Before(t, sha, l2, ServerDoes(Answer), schedule);
    schedule := Before(t, sha, l1, ServerDoes(CloseChild(true)), schedule);
    schedule := Before(t, sha, l0, ServerReceives(DISK_FULL), schedule);
    schedule := ReachTwoSent(t, sha, dir, schedule);
  }
}
