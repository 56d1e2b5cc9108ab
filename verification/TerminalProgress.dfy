/** A terminal stream always comes to rest, and at rest only people and processes are awaited. */
module TerminalProgress {
  import Buffer
  import opened Common
  import Machine
  import opened Protocol
  import opened Terminal

  // ----- a measure -----

  function SenderRank(k: Sender, weight: nat): nat
  {
    weight * |Pending(k)| +
    match k
    case Idle => 1
    case Loop(_) => 2
    case _ => 0
  }

  function ReaderRank(r: Reader, done: bool): nat
  {
    match r
    case ReadIdle => 0
    case Looking(_) => 2
    case Sleeping(_) => if done then 3 else 1
    case Took(data, _) => 13 * |data|
    case Announced(data, _) => |data|
  }

  function MonitorRank(m: Monitor): nat { if m.NotifyingOutput? then 3 else if m.NotifyingCredit? then 4 else 0 }

  function CloserRank(k: Closer): nat { if k.SendsClose? then 14 else if k.AwaitsClose? then 1 else 0 }

  function ClientRank(c: Client): nat
  {
    13 * |Flatten(c.screen.buffer.queue)| + (if c.screen.buffer.token then 2 else 0) +
    ReaderRank(c.screen.reader, c.done) +
    SenderRank(c.keyboard.writer, 14) + (if c.keyboard.token then 3 else 0) +
    MonitorRank(c.monitor) + CloserRank(c.control.closer) + (if c.control.resizing then 12 else 0)
  }

  function LoopRank(k: FrameLoop): nat
  {
    match k
    case Free => 0
    case Posting => 4
    case Announcing(_) => 10
    case Refunding(_) => 1
    case Failing(_) => 10
    case Answering => 9
    case Acking => 9
  }

  function WaiterRank(w: Waiter): nat
  {
    match w
    case Watching => 11
    case Draining => 10
    case Closing(_) => 9
    case Gone => 0
  }

  function ServerRank(s: Server): nat
  {
    SenderRank(s.source.sender, 24) + (if s.source.token then 3 else 0) + LoopRank(s.loop) + WaiterRank(s.waiter)
  }

  function DownRank(down: seq<Frame>): nat { 13 * |DataOf(down)| + 8 * |down| }

  function Rank(l: Stream): nat
  {
    if l.status.Live? then 1 + ClientRank(l.client) + ServerRank(l.server) + 11 * |l.up| + DownRank(l.down) else 0
  }

  /** What comes from outside: output of the process, and calls. */
  function Cost(a: Action): nat
  {
    match a
    case ServerDoes(Sends(Produce(data))) => 24 * |data| + 2
    case ClientDoes(Reads(StartRead(_))) => 3
    case ClientDoes(Writes(StartWrite(data))) => 14 * |data| + 2
    case ClientDoes(Controls(StartResize)) => 13
    case ClientDoes(Controls(StartClose)) => 15
    case _ => 0
  }

  // ----- every effective step lowers it -----

  lemma SpendRank(rest: seq<Byte>, credit: nat, weight: nat)
    requires rest != []
    ensures SenderRank(Spend(rest, credit), weight) < SenderRank(Loop(rest), weight)
  {
    SpendOk(rest, credit);
  }

  lemma ChunkRank(chunk: seq<Byte>, rest: seq<Byte>, weight: nat)
    requires chunk != [] && weight >= 3
    ensures SenderRank(AfterChunk(rest), weight) + weight * |chunk| <= SenderRank(Sending(chunk, rest), weight) + 2
  {
    assert |chunk + rest| == |chunk| + |rest|;
    Distribute(weight, |chunk|, |rest|);
  }

  lemma Distribute(w: nat, a: nat, b: nat)
    ensures w * (a + b) == w * a + w * b
  {
  }

  lemma ReaderCounts(c: Client, m: ReaderMove)
    requires ClientOk(c) && ReaderStep(c, m).Moves?
    ensures var o := ReaderStep(c, m); ClientRank(o.next) + 11 * |o.emits| < ClientRank(c) + Cost(ClientDoes(Reads(m)))
  {
    if m.Look? && c.screen.buffer.queue != [] {
      Buffer.RestOk(c.screen.buffer, c.screen.reader.max);
    }
  }

  lemma WriterCounts(c: Client, m: WriterMove)
    requires ClientOk(c) && WriterStep(c, m).Moves?
    ensures var o := WriterStep(c, m); ClientRank(o.next) + 11 * |o.emits| < ClientRank(c) + Cost(ClientDoes(Writes(m)))
  {
    match m
    case SpendCredit => SpendRank(c.keyboard.writer.rest, c.keyboard.sendCredit, 14);
    case WriteData => ChunkRank(c.keyboard.writer.chunk, c.keyboard.writer.rest, 14);
    case _ =>
  }

  lemma ControlCounts(c: Client, m: ControlMove)
    requires ClientOk(c) && ControlStep(c, m).Moves?
    ensures var o := ControlStep(c, m);
      ClientRank(o.next) + 11 * |o.emits| < ClientRank(c) + Cost(ClientDoes(Controls(m)))
  {
  }

  lemma ClientStepCounts(c: Client, m: ClientMove)
    requires ClientOk(c) && ClientStep(c, m).Moves?
    ensures var o := ClientStep(c, m); ClientRank(o.next) + 11 * |o.emits| < ClientRank(c) + Cost(ClientDoes(m))
  {
    match m
    case Reads(r) => ReaderCounts(c, r);
    case Writes(w) => WriterCounts(c, w);
    case Controls(k) => ControlCounts(c, k);
  }

  lemma SenderCounts(s: Server, m: SenderMove)
    requires ServerOk(s) && SenderStep(s, m).Moves?
    ensures var o := SenderStep(s, m);
      ServerRank(o.next) + DownRank(o.emits) < ServerRank(s) + Cost(ServerDoes(Sends(m)))
  {
    match m
    case SpendOut => SpendRank(s.source.sender.rest, s.source.sendCredit, 24);
    case WriteOutput =>
      ChunkRank(s.source.sender.chunk, s.source.sender.rest, 24);
      assert DataOf([Data(s.source.sender.chunk)]) == s.source.sender.chunk;
    case _ =>
  }

  lemma ServerStepCounts(s: Server, m: ServerMove)
    requires ServerOk(s) && ServerStep(s, m).Moves?
    ensures var o := ServerStep(s, m); ServerRank(o.next) + DownRank(o.emits) < ServerRank(s) + Cost(ServerDoes(m))
  {
    match m
    case Sends(x) => SenderCounts(s, x);
    case Loops(x) => LoopCounts(s, x);
    case Waits(x) => assert DataOf(WaiterStep(s, x).emits) == [];
  }

  lemma LoopCounts(s: Server, m: LoopMove)
    requires LoopStep(s, m).Moves?
    ensures var o := LoopStep(s, m); ServerRank(o.next) + DownRank(o.emits) < ServerRank(s)
  {
    assert DataOf(LoopStep(s, m).emits) == [];
  }

  lemma ClientFrameCounts(c: Client, f: Frame)
    requires ClientReceive(c, f).Moves?
    ensures var o := ClientReceive(c, f); o.emits == [] && ClientRank(o.next) < ClientRank(c) + 13 * |Payload(f)| + 8
  {
    if f.Data? {
      FlattenAppend(c.screen.buffer.queue, f.payload);
    }
  }

  lemma ServerFrameCounts(s: Server, f: Frame, x: PtyFault)
    requires ServerReceive(s, f, x).Moves?
    ensures var o := ServerReceive(s, f, x); o.emits == [] && ServerRank(o.next) < ServerRank(s) + 11
  {
  }

  lemma EveryStepCounts(l: Stream, a: Action)
    requires Inv(l)
    ensures Do(l, a) == l || Rank(Do(l, a)) < Rank(l) + Cost(a)
  {
    if l.status.Live? {
      match a
      case ClientDoes(m) => if ClientStep(l.client, m).Moves? { ClientStepCounts(l.client, m); }
      case ServerDoes(m) =>
        if ServerStep(l.server, m).Moves? {
          ServerStepCounts(l.server, m);
          DataOfConcat(l.down, ServerStep(l.server, m).emits);
        }
      case ClientReceives =>
        if l.down != [] && ClientReceive(l.client, l.down[0]).Moves? {
          ClientFrameCounts(l.client, l.down[0]);
          HeadOf(l.down);
        }
      case ServerReceives(x) =>
        if l.up != [] && ServerReceive(l.server, l.up[0], x).Moves? {
          ServerFrameCounts(l.server, l.up[0], x);
          assert l.down + [] == l.down;
        }
    }
  }

  /** However the goroutines are scheduled, the number of effective steps is linear in what the process
      puts out and what the callers ask for. */
  lemma TerminatesWithin(schedule: seq<Action>)
    ensures Machine.Effective(Do, Init(), schedule) <= 22 + Machine.Work(Cost, schedule)
  {
    InitHolds();
    assert Init().down[1..] == [];
    assert Rank(Init()) == 22;
    forall l, a | Inv(l) ensures Inv(Do(l, a)) && (Do(l, a) == l || Rank(Do(l, a)) < Rank(l) + Cost(a)) {
      DoKeeps(l, a);
      EveryStepCounts(l, a);
    }
    Machine.RankBounds(Do, l => Inv(l), Rank, Cost, Init(), schedule);
  }

  // ----- a stream that stands still -----

  /** What callers, their contexts, the process and the drain timer decide. */
  predicate Outside(a: Action)
  {
    match a
    case ClientDoes(Reads(m)) => m.StartRead? || m.GiveUpRead?
    case ClientDoes(Writes(m)) => m.StartWrite? || m.GiveUpWrite? || m.DropChunk?
    case ClientDoes(Controls(m)) => m.StartResize? || m.DropResize? || m.StartClose? || m.GiveUpClose?
    case ServerDoes(Sends(m)) => m.Produce? || m.EndOutput?
    case ServerDoes(Waits(m)) => m.Exit? || m.TimeOut?
    case _ => false
  }

  predicate ReaderStirs(c: Client)
  {
    var r := c.screen.reader;
    r.Looking? || r.Took? || r.Announced? || (r.Sleeping? && (c.screen.buffer.token || c.done))
  }

  predicate WriterStirs(c: Client)
  {
    var k := c.keyboard.writer;
    k.Loop? || k.Sending? || (k.Asleep? && (c.keyboard.token || c.done))
  }

  predicate ControlStirs(c: Client)
  {
    !c.monitor.Listening? || c.control.resizing || c.control.closer.SendsClose? ||
    (c.control.closer.AwaitsClose? && c.done)
  }

  predicate ClientStirs(c: Client) { ReaderStirs(c) || WriterStirs(c) || ControlStirs(c) }

  function ReaderNext(c: Client): ReaderMove
  {
    match c.screen.reader
    case Looking(_) => Look
    case Took(_, _) => Announce
    case Announced(_, _) => CreditBack
    case _ => if c.done then WakeDone else WakeRead
  }

  function WriterNext(c: Client): WriterMove
  {
    match c.keyboard.writer
    case Loop(_) => SpendCredit
    case Sending(_, _) => WriteData
    case _ => if c.done then WriteEnds else WakeWrite
  }

  function ControlNext(c: Client): ControlMove
  {
    if !c.monitor.Listening? then Notify
    else if c.control.resizing then SendResize
    else if c.control.closer.SendsClose? then SendClose
    else EndClose
  }

  function ClientNext(c: Client): ClientMove
  {
    if ReaderStirs(c) then Reads(ReaderNext(c))
    else if WriterStirs(c) then Writes(WriterNext(c))
    else Controls(ControlNext(c))
  }

  predicate SenderStirs(s: Server)
  {
    var k := s.source.sender;
    k.Loop? || k.Sending? || (k.Asleep? && (s.source.token || s.closed.Some?))
  }

  predicate WaiterStirs(s: Server)
  {
    match s.waiter
    case Watching => s.closed.Some?
    case Draining => s.closed.Some? || s.source.sender.Stopped?
    case Closing(_) => true
    case Gone => false
  }

  predicate ServerStirs(s: Server) { SenderStirs(s) || !s.loop.Free? || WaiterStirs(s) }

  function WaiterNext(s: Server): WaiterMove
  {
    if s.waiter.Closing? then WriteExit else if s.closed.Some? then Dismiss else Drained
  }

  function ServerNext(s: Server): ServerMove
  {
    if SenderStirs(s) then
      Sends(match s.source.sender
            case Loop(_) => SpendOut
            case Sending(_, _) => WriteOutput
            case _ => if s.source.token then WakeSend else WakeClosed)
    else
      match s.loop
      case Free => Waits(WaiterNext(s))
      case Posting => Loops(PostToken)
      case Announcing(_) => Loops(AnnounceInput)
      case Refunding(_) => Loops(Refund)
      case Failing(_) => Loops(FailStream)
      case Answering => Loops(Answer)
      case Acking => Loops(Ack)
  }

  lemma ClientStirMoves(c: Client)
    requires ClientOk(c) && ClientStirs(c)
    ensures var o := ClientStep(c, ClientNext(c)); o.Moves? && o.next != c && !Outside(ClientDoes(ClientNext(c)))
  {
    ReaderStirMoves(c);
  }

  lemma ReaderStirMoves(c: Client)
    requires ClientOk(c)
    ensures ReaderStirs(c) ==>
      var o := ReaderStep(c, ReaderNext(c)); o.Moves? && o.next.screen.reader != c.screen.reader
    ensures WriterStirs(c) ==>
      var o := WriterStep(c, WriterNext(c)); o.Moves? && o.next.keyboard.writer != c.keyboard.writer
  {
  }

  lemma ServerStirMoves(s: Server)
    requires ServerOk(s) && ServerStirs(s)
    ensures var o := ServerStep(s, ServerNext(s)); o.Moves? && o.next != s && !Outside(ServerDoes(ServerNext(s)))
  {
  }

  lemma OnlyABusyEndBlocks(l: Stream, x: PtyFault)
    ensures l.up != [] && l.server.loop.Free? ==> !ServerReceive(l.server, l.up[0], x).Blocked?
    ensures l.down != [] && l.client.monitor.Listening? ==> !ClientReceive(l.client, l.down[0]).Blocked?
  {
  }

  /** An end that does not stir takes or refuses the frame in front of it. */
  lemma NotBlocked(l: Stream, x: PtyFault)
    ensures l.up != [] && !ServerStirs(l.server) ==> !ServerReceive(l.server, l.up[0], x).Blocked?
    ensures l.down != [] && !ClientStirs(l.client) ==> !ClientReceive(l.client, l.down[0]).Blocked?
  {
    OnlyABusyEndBlocks(l, x);
  }

  /** No close or resize is waiting, and no write is, unless the whole window has been lost; on an open
      stream the client holds all the credit that was not lost; output that is not in the caller's hands
      waits for the caller to read; a read that waits has nothing to wait for but the process; and once
      the process has exited, only output that cannot be delivered keeps the stream open. */
  predicate AtEase(l: Stream)
  {
    && l.client.control.closer.NotClosing? && !l.client.control.resizing
    && (l.client.keyboard.writer.Idle? || (l.client.keyboard.writer.Asleep? && Starved(l.client.keyboard)))
    && (l.server.closed.None? ==> l.client.keyboard.sendCredit + l.client.keyboard.lost == RECEIVE_WINDOW)
    && (l.server.closed.Some? ==> l.client.done && l.client.keyboard.writer.Idle?)
    && (l.server.closed.None? && l.server.waiter.Draining? ==> !l.server.source.sender.Stopped?)
    && (Pending(l.server.source.sender) != [] ==>
          l.client.screen.reader.ReadIdle? && l.client.screen.buffer.queue != [])
    && (l.client.screen.reader.Sleeping? ==> l.client.screen.buffer.queue == [] && !l.client.done)
  }

  predicate Resting(l: Stream) { l.up == [] && l.down == [] && !ServerStirs(l.server) && !ClientStirs(l.client) }

  /** No credit is left and none is on its way. */
  predicate Starved(v: Keyboard) { v.lost == RECEIVE_WINDOW }

  lemma AtRest(l: Stream)
    requires Inv(l) && Resting(l)
    ensures AtEase(l)
  {
    assert DataOf(l.down) == [] && CreditOf(l.down) == 0 && DataOf(l.up) == [] && CreditOf(l.up) == 0;
    assert l.client.screen.buffer.queue == [] ==> Flatten(l.client.screen.buffer.queue) == [];
    assert !HasLast(l.down) && !HasClose(l.up);
  }

  ghost predicate Quiet(l: Stream) { forall a :: !Outside(a) ==> Do(l, a) == l }

  lemma IdleClient(c: Client, m: ClientMove)
    requires !ClientStirs(c) && !Outside(ClientDoes(m))
    ensures ClientStep(c, m).Blocked?
  {
  }

  lemma IdleServer(s: Server, m: ServerMove)
    requires !ServerStirs(s) && !Outside(ServerDoes(m))
    ensures ServerStep(s, m).Blocked?
  {
  }

  lemma RestIsQuiet(l: Stream)
    requires Resting(l)
    ensures Quiet(l)
  {
    forall a | !Outside(a) ensures Do(l, a) == l {
      match a
      case ClientDoes(m) => IdleClient(l.client, m);
      case ServerDoes(m) => IdleServer(l.server, m);
      case _ =>
    }
  }

  lemma StirringShows(l: Stream)
    requires Inv(l) && l.status.Live?
    ensures ClientStirs(l.client) ==>
      !Outside(ClientDoes(ClientNext(l.client))) && Do(l, ClientDoes(ClientNext(l.client))) != l
    ensures ServerStirs(l.server) ==>
      !Outside(ServerDoes(ServerNext(l.server))) && Do(l, ServerDoes(ServerNext(l.server))) != l
  {
    if ClientStirs(l.client) {
      ClientStirMoves(l.client);
    }
    if ServerStirs(l.server) {
      ServerStirMoves(l.server);
    }
  }

  lemma TakingShows(l: Stream, x: PtyFault)
    requires l.status.Live?
    ensures l.up != [] && !ServerReceive(l.server, l.up[0], x).Blocked? ==> Do(l, ServerReceives(x)) != l
    ensures l.down != [] && !ClientReceive(l.client, l.down[0]).Blocked? ==> Do(l, ClientReceives) != l
  {
    var back, forth := Do(l, ServerReceives(x)), Do(l, ClientReceives);
    assert l.up != [] && ServerReceive(l.server, l.up[0], x).Moves? ==> |back.up| < |l.up|;
    assert l.down != [] && ClientReceive(l.client, l.down[0]).Moves? ==> |forth.down| < |l.down|;
  }

  lemma QuietIsAtRest(l: Stream)
    requires Inv(l) && l.status.Live? && Quiet(l)
    ensures Resting(l)
  {
    var x := PtyFault(0, false);
    StirringShows(l);
    NotBlocked(l, x);
    TakingShows(l, x);
    assert !Outside(ServerReceives(x)) && !Outside(ClientReceives);
  }

  /** In every reachable state, open or closed, in which no step but a caller's or the process's has an
      effect, the stream is at ease: no goroutine of either end waits for another one. */
  lemma OnlyPeopleAreAwaited(schedule: seq<Action>)
    ensures var l := Run(Init(), schedule); l.status.Live? && Quiet(l) ==> AtEase(l)
  {
    Reachable(schedule);
    var l := Run(Init(), schedule);
    if l.status.Live? && Quiet(l) {
      QuietIsAtRest(l);
      AtRest(l);
    }
  }
}
