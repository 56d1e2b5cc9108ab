/** A download cannot get stuck: from every reachable state in which no file read has failed, some
    continuation delivers the whole file, every run is short, and a stream that stands still is waiting
    for its caller. This rules out deadlock and livelock between the two ends, whatever credit, frames
    and wakeups are in flight. */
module DownloadProgress {
  import Buffer
  import opened Download
  import Machine
  import opened Protocol

  /** No file read has failed or is about to. */
  predicate ServerSound(s: Server)
  {
    && !s.broken && !s.forwarder.Failing? && !s.forwarder.Reporting?
    && (s.forwarder.Writing? ==> !s.forwarder.fails)
  }

  predicate Sound(l: Stream) { l.status.Live? && ServerSound(l.server) }

  // ----- a measure: bytes weigh less the further they have come -----

  function ReaderRank(r: Reader, done: bool): nat
  {
    match r
    case ReadIdle => 0
    case Looking(_) => 2
    case Sleeping(_) => if done then 3 else 1
    case Took(data, _) => 19 * |data|
    case Credited(data, _) => 18 * |data|
  }

  function MonitorRank(m: Monitor): nat
  {
    match m
    case Listening => 0
    case Notifying => 3
    case Acking => 5
  }

  function ClientRank(c: Client): nat
  {
    20 * |Flatten(c.buffer.queue)| + ReaderRank(c.reader, c.done) + MonitorRank(c.monitor) +
    (if c.buffer.token then 2 else 0) + (if c.finished then 0 else 5)
  }

  function ForwarderRank(f: Forwarder): nat
  {
    match f
    case Head => 11
    case Ready(_) => 10
    case Failing => 9
    case Reporting => 8
    case Completing => 8
    case Writing(payload, _) => 39 * |payload|
    case _ => 0
  }

  function ServerRank(s: Server): nat
  {
    39 * |s.unread| + ForwarderRank(s.forwarder) + (if s.token then 12 else 0) + (if s.posting then 13 else 0)
  }

  function UpRank(up: seq<Frame>): nat { 13 * CreditOf(up) + |up| }

  function DownRank(down: seq<Frame>): nat { 20 * |DataOf(down)| + 7 * |down| }

  function Rank(l: Stream): nat
  {
    if l.status.Live? then 1 + ClientRank(l.client) + ServerRank(l.server) + UpRank(l.up) + DownRank(l.down) else 0
  }

  lemma RankOfUp(a: seq<Frame>, b: seq<Frame>)
    ensures UpRank(a + b) == UpRank(a) + UpRank(b)
  {
    CreditOfConcat(a, b);
  }

  lemma RankOfDown(a: seq<Frame>, b: seq<Frame>)
    ensures DownRank(a + b) == DownRank(a) + DownRank(b)
  {
    DataOfConcat(a, b);
  }

  // ----- every effective step lowers it, apart from what comes from outside -----

  /** A call of Read, and a file read that returns neither bytes nor an error. */
  function Cost(a: Action): nat
  {
    if a.ClientDoes? && a.cm.StartRead? then 3
    else if a.ServerDoes? && a.sm.ReadFile? && a.sm.n == 0 && !a.sm.fails then 2
    else 0
  }

  lemma ReadFileCounts(s: Server, n: nat, fails: bool)
    requires ServerOk(s) && ServerStep(s, ReadFile(n, fails)).Moves?
    ensures var o := ServerStep(s, ReadFile(n, fails));
      o.emits == [] && ServerRank(o.next) < ServerRank(s) + Cost(ServerDoes(ReadFile(n, fails)))
  {
    var o := ServerStep(s, ReadFile(n, fails));
    if o.next.forwarder.Writing? {
      assert |s.unread[..n]| == n && |s.unread[n..]| == |s.unread| - n;
    }
  }

  lemma ServerStepCounts(s: Server, m: ServerMove)
    requires ServerOk(s) && ServerStep(s, m).Moves?
    ensures var o := ServerStep(s, m); ServerRank(o.next) + DownRank(o.emits) < ServerRank(s) + Cost(ServerDoes(m))
  {
    match m
    case ReadFile(n, fails) => ReadFileCounts(s, n, fails);
    case WriteData => assert DataOf([Data(s.forwarder.payload)]) == s.forwarder.payload;
    case _ =>
  }

  lemma ClientStepCounts(c: Client, m: ClientMove)
    requires ClientOk(c) && ClientStep(c, m).Moves?
    ensures var o := ClientStep(c, m); ClientRank(o.next) + UpRank(o.emits) < ClientRank(c) + Cost(ClientDoes(m))
  {
    match m
    case Look => if c.buffer.queue != [] { Buffer.RestOk(c.buffer, c.reader.max); }
    case Announce => assert CreditOf([WindowUpdate(|c.reader.data|)]) == |c.reader.data|;
    case _ =>
  }

  lemma ClientFrameCounts(c: Client, f: Frame)
    requires ClientReceive(c, f).Moves?
    ensures var o := ClientReceive(c, f); ClientRank(o.next) + UpRank(o.emits) < ClientRank(c) + 20 * |Payload(f)| + 7
  {
    if f.Data? {
      FlattenAppend(c.buffer.queue, f.payload);
    }
  }

  lemma ClientReceiveCounts(l: Stream)
    requires l.status.Live? && l.down != [] && ClientReceive(l.client, l.down[0]).Moves?
    ensures Rank(Do(l, ClientReceives)) < Rank(l)
  {
    ClientFrameCounts(l.client, l.down[0]);
    HeadBytes(l.down);
    RankOfUp(l.up, ClientReceive(l.client, l.down[0]).emits);
  }

  lemma ServerFrameCounts(s: Server, f: Frame)
    requires ServerReceive(s, f).Moves? && (f.Close? ==> s.remaining == 0) && !f.StreamError?
    ensures var o := ServerReceive(s, f); o.emits == [] && ServerRank(o.next) < ServerRank(s) + 13 * Granted(f) + 1
  {
  }

  lemma ServerReceiveCounts(l: Stream, content: seq<Byte>)
    requires Inv(l, content) && l.status.Live? && l.up != [] && ServerReceive(l.server, l.up[0]).Moves?
    ensures Rank(Do(l, ServerReceives)) < Rank(l)
  {
    assert UpFrame(l.up[0], |l.up| == 1);
    ServerFrameCounts(l.server, l.up[0]);
    assert l.down + [] == l.down;
  }

  /** Every step that has an effect brings the stream closer to its end, calls of Read and empty file
      reads excepted. */
  lemma EveryStepCounts(l: Stream, a: Action, content: seq<Byte>)
    requires Inv(l, content)
    ensures Do(l, a) == l || Rank(Do(l, a)) < Rank(l) + Cost(a)
  {
    if l.status.Live? {
      match a
      case ClientDoes(m) =>
        if ClientStep(l.client, m).Moves? {
          ClientStepCounts(l.client, m);
          RankOfUp(l.up, ClientStep(l.client, m).emits);
        }
      case ServerDoes(m) =>
        if ServerStep(l.server, m).Moves? {
          ServerStepCounts(l.server, m);
          RankOfDown(l.down, ServerStep(l.server, m).emits);
        }
      case ClientReceives =>
        if l.down != [] && ClientReceive(l.client, l.down[0]).Moves? { ClientReceiveCounts(l); }
      case ServerReceives =>
        if l.up != [] && ServerReceive(l.server, l.up[0]).Moves? { ServerReceiveCounts(l, content); }
    }
  }

  lemma InitRank(content: seq<Byte>)
    ensures Rank(Init(content)) == 39 * |content| + 24
  {
    assert Init(content).down[1..] == [];
  }

  /** However the two ends are scheduled, the number of effective steps of an n-byte download is linear
      in n, in the calls of Read and in the empty file reads: credit, wakeups and frames cannot chase
      each other forever. */
  lemma TerminatesWithin(content: seq<Byte>, schedule: seq<Action>)
    ensures Machine.Effective(Do, Init(content), schedule) <= 39 * |content| + 24 + Machine.Work(Cost, schedule)
  {
    InitHolds(content);
    InitRank(content);
    forall l, a | Inv(l, content) ensures Inv(Do(l, a), content) &&
      (Do(l, a) == l || Rank(Do(l, a)) < Rank(l) + Cost(a)) {
      DoKeeps(l, a, content);
      EveryStepCounts(l, a, content);
    }
    Machine.RankBounds(Do, l => Inv(l, content), Rank, Cost, Init(content), schedule);
  }

  // ----- a schedule that always moves -----

  /** The server's next move when it has one, its frames already handled. */
  function ServerNext(s: Server): ServerMove
  {
    match s.forwarder
    case Head => Check
    case Ready(limit) => ReadFile(limit, false)
    case Writing(_, _) => WriteData
    case Completing => SendComplete
    case _ => Wake
  }

  predicate ServerBusy(s: Server)
  {
    s.forwarder.Head? || s.forwarder.Ready? || s.forwarder.Writing? || s.forwarder.Completing? ||
    (s.forwarder.Waiting? && s.token)
  }

  function ClientNext(c: Client): ClientMove
  {
    if c.monitor.Acking? then FinishClose
    else if c.monitor.Notifying? then Notify
    else
      match c.reader
      case ReadIdle => StartRead(MAX_CHUNK)
      case Looking(_) => Look
      case Sleeping(_) => if c.done then WakeDone else WakeRead
      case Took(_, _) => CreditBack
      case Credited(_, _) => Announce
  }

  /** The client has a move that does not need its caller to read. */
  predicate Stirs(c: Client)
  {
    || !c.monitor.Listening? || c.reader.Looking? || c.reader.Took? || c.reader.Credited?
    || (c.reader.Sleeping? && (c.buffer.token || c.done))
  }

  predicate ClientBusy(c: Client) { Stirs(c) || (c.reader.ReadIdle? && (c.buffer.queue != [] || c.done)) }

  function Next(l: Stream): Action
  {
    if l.server.posting then ServerDoes(PostToken)
    else if l.up != [] then ServerReceives
    else if ServerBusy(l.server) then ServerDoes(ServerNext(l.server))
    else if ClientBusy(l.client) then ClientDoes(ClientNext(l.client))
    else ClientReceives
  }

  lemma ServerMoves(s: Server)
    requires ServerOk(s) && ServerBusy(s) && ServerSound(s)
    ensures var o := ServerStep(s, ServerNext(s));
      o.Moves? && ServerSound(o.next) && Cost(ServerDoes(ServerNext(s))) == 0
  {
  }

  lemma ClientMoves(c: Client)
    requires ClientOk(c) && ClientBusy(c)
    ensures ClientStep(c, ClientNext(c)).Moves?
  {
  }

  lemma ServerHandles(l: Stream, content: seq<Byte>)
    requires Inv(l, content) && Sound(l) && !l.server.posting && l.up != []
    ensures var o := ServerReceive(l.server, l.up[0]); o.Moves? && ServerSound(o.next)
  {
    ServerRefusesOnlyWhenBroken(l, content);
    assert UpFrame(l.up[0], |l.up| == 1);
  }

  lemma ClientHandles(l: Stream, content: seq<Byte>)
    requires Inv(l, content) && !ClientBusy(l.client) && l.down != []
    ensures ClientReceive(l.client, l.down[0]).Moves?
  {
    ClientNeverRefuses(l, content);
  }

  /** When neither end has a move of its own and nothing is on its way up, a frame is on its way down. */
  lemma NotStarved(l: Stream, content: seq<Byte>)
    requires Inv(l, content) && Sound(l) && !l.server.posting && l.up == []
    requires !ServerBusy(l.server) && !ClientBusy(l.client)
    ensures l.down != []
  {
    assert l.down == [] ==> DataOf(l.down) == [] && CreditOf(l.up) == 0;
  }

  lemma NextIsSound(l: Stream, content: seq<Byte>)
    requires Inv(l, content) && Sound(l)
    ensures var l' := Do(l, Next(l)); Sound(l') && l' != l
  {
    EveryStepCounts(l, Next(l), content);
    if l.server.posting {
    } else if l.up != [] {
      ServerHandles(l, content);
      ServerReceiveCounts(l, content);
    } else if ServerBusy(l.server) {
      ServerMoves(l.server);
      ServerStepCounts(l.server, ServerNext(l.server));
    } else if ClientBusy(l.client) {
      ClientMoves(l.client);
    } else {
      NotStarved(l, content);
      ClientHandles(l, content);
      ClientReceiveCounts(l);
    }
  }

  // ----- the caller reads until the end -----

  function Idle(c: Client): nat { if c.reader.ReadIdle? then 3 else 0 }

  lemma ClientDrains(c: Client)
    requires ClientOk(c) && ClientBusy(c) && !c.finished && !c.failed
    ensures var o := ClientStep(c, ClientNext(c));
      o.Moves? && ClientRank(o.next) + UpRank(o.emits) + Idle(o.next) < ClientRank(c) + Idle(c)
  {
    ClientMoves(c);
    ClientStepCounts(c, ClientNext(c));
    if c.monitor.Listening? && c.reader.Credited? {
      assert CreditOf([WindowUpdate(|c.reader.data|)]) == |c.reader.data|;
    }
  }

  lemma ReceiveKeepsReader(c: Client, f: Frame)
    requires ClientReceive(c, f).Moves?
    ensures Idle(ClientReceive(c, f).next) == Idle(c)
  {
  }

  lemma Advances(l: Stream, content: seq<Byte>)
    requires Inv(l, content) && Sound(l) && !l.client.finished
    ensures var l' := Do(l, Next(l)); Sound(l') && Rank(l') + Idle(l'.client) < Rank(l) + Idle(l.client)
  {
    NextIsSound(l, content);
    EveryStepCounts(l, Next(l), content);
    match Next(l)
    case ClientDoes(m) =>
      ClientDrains(l.client);
      RankOfUp(l.up, ClientStep(l.client, m).emits);
    case ServerDoes(m) => if !l.server.posting { ServerMoves(l.server); }
    case ClientReceives =>
      NotStarved(l, content);
      ClientHandles(l, content);
      ReceiveKeepsReader(l.client, l.down[0]);
    case ServerReceives =>
  }

  lemma {:induction false} Drain(l: Stream, content: seq<Byte>) returns (rest: seq<Action>)
    requires Inv(l, content) && Sound(l)
    ensures Run(l, rest).client.finished
    decreases Rank(l) + Idle(l.client)
  {
    if l.client.finished {
      rest := [];
    } else {
      Advances(l, content);
      DoKeeps(l, Next(l), content);
      var tail := Drain(Do(l, Next(l)), content);
      rest := Before(l, Next(l), tail);
    }
  }

  /** Every run in which no file read has failed can be continued until Read has returned the whole
      file with done. */
  lemma NeverStuck(content: seq<Byte>, schedule: seq<Action>) returns (rest: seq<Action>)
    requires Sound(Run(Init(content), schedule))
    ensures var l := Run(Init(content), schedule + rest); l.client.finished && l.client.returned == content
  {
    Reachable(content, schedule);
    rest := Drain(Run(Init(content), schedule), content);
    Machine.RunConcat(Do, Init(content), schedule, rest);
    FinishedMeansWholeFile(content, schedule + rest);
  }

  // ----- a stream that stands still -----

  /** The server has a move of its own. */
  predicate ServerStirs(s: Server)
  {
    s.posting || ServerBusy(s) || s.forwarder.Failing? || s.forwarder.Reporting?
  }

  function StirMove(s: Server): ServerMove
  {
    if s.posting then PostToken
    else if s.forwarder.Failing? then CloseFailed
    else if s.forwarder.Reporting? then ReportFailed
    else ServerNext(s)
  }

  lemma ServerStirMoves(s: Server)
    requires ServerOk(s) && ServerStirs(s)
    ensures var o := ServerStep(s, StirMove(s)); o.Moves? && o.next != s
  {
  }

  lemma ClientStirMoves(c: Client)
    requires ClientOk(c) && Stirs(c)
    ensures var o := ClientStep(c, ClientNext(c)); o.Moves? && o.next != c && !Callers(ClientDoes(ClientNext(c)))
  {
  }

  /** The caller's own decisions: to read, and to stop waiting. */
  predicate Callers(a: Action) { a.ClientDoes? && (a.cm.StartRead? || a.cm.GiveUpRead?) }

  /** An end that does not stir takes the frame in front of it. */
  lemma NotBlocked(l: Stream, content: seq<Byte>)
    requires Inv(l, content)
    ensures l.up != [] && !ServerStirs(l.server) ==> !ServerReceive(l.server, l.up[0]).Blocked?
    ensures l.down != [] && !Stirs(l.client) ==> ClientReceive(l.client, l.down[0]).Moves?
  {
    if l.up != [] {
      assert UpFrame(l.up[0], |l.up| == 1);
    }
    if l.down != [] && !Stirs(l.client) {
      ClientNeverRefuses(l, content);
    }
  }

  /** Nothing is on its way and nothing stirs: then the caller has to read, because bytes are waiting for
      it or because the stream has ended, whole or with an error. */
  predicate WaitsForCaller(c: Client, content: seq<Byte>)
  {
    c.reader.ReadIdle? && (c.buffer.queue != [] || c.done) && (c.done ==> c.failed || Arrived(c) == content)
  }

  lemma AtRest(l: Stream, content: seq<Byte>)
    requires Inv(l, content) && l.up == [] && l.down == [] && !ServerStirs(l.server) && !Stirs(l.client)
    ensures WaitsForCaller(l.client, content)
  {
    assert DataOf(l.down) == [] && CreditOf(l.up) == 0;
    if l.client.done && !l.client.failed {
      assert Unsent(l.server) == [];
    }
  }

  ghost predicate Quiet(l: Stream) { forall a :: !Callers(a) ==> Do(l, a) == l }

  lemma QuietIsAtRest(l: Stream, content: seq<Byte>)
    requires Inv(l, content) && l.status.Live? && Quiet(l)
    ensures l.up == [] && l.down == [] && !ServerStirs(l.server) && !Stirs(l.client)
  {
    NotBlocked(l, content);
    assert Do(l, ServerDoes(StirMove(l.server))).server == l.server;
    if ServerStirs(l.server) {
      ServerStirMoves(l.server);
    }
    assert Callers(ClientDoes(ClientNext(l.client))) || Do(l, ClientDoes(ClientNext(l.client))).client == l.client;
    if Stirs(l.client) {
      ClientStirMoves(l.client);
    }
    assert |Do(l, ServerReceives).up| == |l.up| && Do(l, ServerReceives).status == l.status;
    assert |Do(l, ClientReceives).down| == |l.down|;
  }

  /** In every reachable state in which no step but the caller's has an effect, the stream is waiting for
      its caller to read: there is no deadlock between the two ends. */
  lemma OnlyTheCallerIsAwaited(content: seq<Byte>, schedule: seq<Action>)
    ensures var l := Run(Init(content), schedule); l.status.Live? && Quiet(l) ==> WaitsForCaller(l.client, content)
  {
    Reachable(content, schedule);
    var l := Run(Init(content), schedule);
    if l.status.Live? && Quiet(l) {
      QuietIsAtRest(l, content);
      AtRest(l, content);
    }
  }
}
