/** Concrete runs of a terminal: two that come to rest on an open stream, and those in which honest ends
    lose the parent session, the last output or the whole input window. */
module TerminalRuns {
  import Buffer
  import opened Common
  import Machine
  import opened Protocol
  import opened Terminal
  import TerminalProgress

  const NO_FAULT := PtyFault(MAX_CHUNK, false)

  lemma Before(l: Stream, a: Action, tail: seq<Action>) returns (schedule: seq<Action>)
    ensures Run(l, schedule) == Run(Do(l, a), tail)
  {
    schedule := [a] + tail;
    Machine.Before(Do, l, a, tail);
  }

  /** Both ends are open and nothing has happened yet. */
  function Opened(): Stream
  {
    var c := NewClient();
    Link(c.(accepted := true, keyboard := c.keyboard.(sendCredit := RECEIVE_WINDOW)), NewServer(), [], [], Live)
  }

  lemma ReachOpened(tail: seq<Action>) returns (schedule: seq<Action>)
    ensures Run(Init(), schedule) == Run(Opened(), tail)
  {
    var l := Do(Init(), ClientReceives);
    assert l.up == [] && l.down == [];
    assert l == Opened();
    schedule := Before(Init(), ClientReceives, tail);
  }

  /** The PTY puts out `p`, which fits the credit, and forwardOutput writes it as one frame. */
  function Sent(l: Stream, p: seq<Byte>): Stream
    requires |p| <= l.server.source.sendCredit
  {
    var v := l.server.source;
    l.(server := l.server.(source := v.(sendCredit := v.sendCredit - |p|, produced := v.produced + p)),
       down := [Data(p)])
  }

  lemma PutOut(l: Stream, p: seq<Byte>, tail: seq<Action>) returns (schedule: seq<Action>)
    requires l.status.Live? && l.down == [] && l.server.source.sender.Idle?
    requires 0 < |p| <= PTY_CHUNK && |p| <= l.server.source.sendCredit
    ensures Run(l, schedule) == Run(Sent(l, p), tail)
  {
    var l1 := Do(l, ServerDoes(Sends(Produce(p))));
    assert l1.down == [];
    var l2 := Do(l1, ServerDoes(Sends(SpendOut)));
    assert l2.server.source.sender == Sending(p, []) && l2.down == [];
    var l3 := Do(l2, ServerDoes(Sends(WriteOutput)));
    assert l3.down == [Data(p)];
    assert l3 == Sent(l, p);
    schedule := Before(l2, ServerDoes(Sends(WriteOutput)), tail);
    schedule := Before(l1, ServerDoes(Sends(SpendOut)), schedule);
    schedule := Before(l, ServerDoes(Sends(Produce(p))), schedule);
  }

  /** The client buffers that frame. */
  function Got(l: Stream, p: seq<Byte>): Stream
    requires Buffer.CreditTest(l.client.screen.buffer, p)
  {
    var v := l.client.screen;
    l.(client := l.client.(screen := v.(buffer := Buffer.Enqueue(v.buffer, p).(token := true))), down := [])
  }

  lemma TakeIn(l: Stream, p: seq<Byte>, tail: seq<Action>) returns (schedule: seq<Action>)
    requires l.status.Live? && l.down == [Data(p)] && ValidData(p) && Found(l.client) && l.client.monitor.Listening?
    requires Buffer.CreditTest(l.client.screen.buffer, p) && Buffer.QueueTest(l.client.screen.buffer, p)
    ensures Run(l, schedule) == Run(Got(l, p), tail)
  {
    var l1 := Do(l, ClientReceives);
    assert l1.up == l.up && l1.down == [];
    var l2 := Do(l1, ClientDoes(Controls(Notify)));
    assert l2.up == l.up;
    assert l2 == Got(l, p);
    schedule := Before(l1, ClientDoes(Controls(Notify)), tail);
    schedule := Before(l, ClientReceives, schedule);
  }

  // ----- the early announcement -----

  function Block(): seq<Byte> { seq(PTY_CHUNK, i => 0) }

  function Blocks(k: nat): seq<seq<Byte>> { seq(k, i => Block()) }

  /** `k` full PTY reads have been delivered and nothing has been read by the caller. */
  function Filled(k: nat): Stream
    requires k <= 8
  {
    var l := Opened();
    l.(client := l.client.(screen := Screen(Buffer.Buffer(RECEIVE_WINDOW - k * PTY_CHUNK, Blocks(k), k * PTY_CHUNK,
                                                           k > 0),
                                            ReadIdle, [], false)),
       server := l.server.(source := Source(RECEIVE_WINDOW - k * PTY_CHUNK, false, Idle,
                                             seq(k * PTY_CHUNK, i => 0), [])))
  }

  lemma FillOne(k: nat, tail: seq<Action>) returns (schedule: seq<Action>)
    requires k < 8
    ensures Run(Filled(k), schedule) == Run(Filled(k + 1), tail)
  {
    var l := Sent(Filled(k), Block());
    assert Blocks(k) + [Block()] == Blocks(k + 1);
    assert l.server.source.produced == Filled(k + 1).server.source.produced;
    assert Got(l, Block()) == Filled(k + 1);
    schedule := TakeIn(l, Block(), tail);
    schedule := PutOut(Filled(k), Block(), schedule);
  }

  lemma {:induction false} FillUp(k: nat, tail: seq<Action>) returns (schedule: seq<Action>)
    requires k <= 8
    ensures Run(Filled(0), schedule) == Run(Filled(k), tail)
  {
    schedule := tail;
    if k > 0 {
      schedule := FillOne(k - 1, tail);
      schedule := FillUp(k - 1, schedule);
    }
  }

  /** With the buffer full, the caller has taken and announced one block but not added its credit. */
  function Overdrawn(): Stream
  {
    var l := Filled(8);
    l.(client := l.client.(screen := Screen(Buffer.Buffer(0, Blocks(7), 7 * PTY_CHUNK, true),
                                             Announced(Block(), false), [], false)),
       up := [WindowUpdate(PTY_CHUNK)])
  }

  lemma ReachOverdrawn(tail: seq<Action>) returns (schedule: seq<Action>)
    ensures Run(Filled(8), schedule) == Run(Overdrawn(), tail)
  {
    var l0 := Filled(8);
    var l1 := Do(l0, ClientDoes(Reads(StartRead(PTY_CHUNK))));
    assert l1.up == [];
    var l2 := Do(l1, ClientDoes(Reads(Look)));
    assert l2.client.screen.reader == Took(Block(), false) && l2.up == [];
    assert l2.client.screen.buffer.queue == Blocks(7);
    var l3 := Do(l2, ClientDoes(Reads(Announce)));
    assert l3.up == [WindowUpdate(PTY_CHUNK)];
    assert l3 == Overdrawn();
    schedule := Before(l2, ClientDoes(Reads(Announce)), tail);
    schedule := Before(l1, ClientDoes(Reads(Look)), schedule);
    schedule := Before(l0, ClientDoes(Reads(StartRead(PTY_CHUNK))), schedule);
  }

  /** "The client never refuses an honest server" is false for terminals: the server spends the announced
      credit before the client has added it. */
  lemma HonestServerCanBeRefused() returns (schedule: seq<Action>)
    ensures Run(Init(), schedule).status == ClientRefused && !Run(Init(), schedule).client.done
  {
    var l0 := Overdrawn();
    var l1 := Do(l0, ServerReceives(NO_FAULT));
    assert l1.server.source.sendCredit == PTY_CHUNK && l1.down == [] && l1.client == l0.client;
    var l2 := Sent(l1, Block());
    assert !Buffer.CreditTest(l2.client.screen.buffer, Block());
    schedule := Before(l2, ClientReceives, []);
    schedule := PutOut(l1, Block(), schedule);
    schedule := Before(l0, ServerReceives(NO_FAULT), schedule);
    schedule := ReachOverdrawn(schedule);
    schedule := FillUp(8, schedule);
    assert Filled(0) == Opened() by {
      assert Blocks(0) == [] && seq(0, i => 0) == [];
    }
    schedule := ReachOpened(schedule);
  }

  // ----- the ways an ordinary end takes the parent along -----

  /** One byte has been put out and is in the client's buffer. */
  function OneByte(): Stream
  {
    var l := Opened();
    l.(client := l.client.(screen := Screen(Buffer.Buffer(RECEIVE_WINDOW - 1, [[0]], 1, true), ReadIdle, [], false)),
       server := l.server.(source := Source(RECEIVE_WINDOW - 1, false, Idle, [0], [])))
  }

  lemma ReachOneByte(tail: seq<Action>) returns (schedule: seq<Action>)
    ensures Run(Opened(), schedule) == Run(OneByte(), tail)
  {
    var l := Sent(Opened(), [0]);
    assert [] + [[0]] == [[0]] && l.server.source.produced == [0];
    assert Got(l, [0]) == OneByte();
    schedule := TakeIn(l, [0], tail);
    schedule := PutOut(Opened(), [0], schedule);
  }

  /** The process ends, forwardOutput returns, and waitProcess closes the ID. */
  function Ended(l: Stream): Stream
  {
    l.(server := l.server.(source := l.server.source.(sender := Stopped), waiter := Closing(ProcessExit),
                           closed := Some(Exited)))
  }

  lemma EndProcess(l: Stream, tail: seq<Action>) returns (schedule: seq<Action>)
    requires l.status.Live? && l.server.source.sender.Idle? && l.server.waiter.Watching? && l.server.closed.None?
    ensures Run(l, schedule) == Run(Ended(l), tail)
  {
    var l1 := Do(l, ServerDoes(Sends(EndOutput)));
    assert l1.down == l.down;
    var l2 := Do(l1, ServerDoes(Waits(Exit)));
    assert l2.down == l.down && l2.server.waiter.Draining?;
    var l3 := Do(l2, ServerDoes(Waits(Drained)));
    assert l3.down == l.down;
    assert l3 == Ended(l);
    schedule := Before(l2, ServerDoes(Waits(Drained)), tail);
    schedule := Before(l1, ServerDoes(Waits(Exit)), schedule);
    schedule := Before(l, ServerDoes(Sends(EndOutput)), schedule);
  }

  /** The process exits, its output drained, while a read is between taking and announcing: the read's
      window update meets a closed ID and ends the parent session. */
  lemma ExitCanEndParent() returns (schedule: seq<Action>)
    ensures var l := Run(Init(), schedule); l.status == ServerRefused && l.server.closed == Some(Exited)
  {
    var l0 := OneByte();
    var l1 := Do(l0, ClientDoes(Reads(StartRead(1))));
    assert l1.up == [];
    var l2 := Do(l1, ClientDoes(Reads(Look)));
    assert l2.client.screen.reader == Took([0], false) && l2.up == [];
    var l4 := Ended(l2);
    var l5 := Do(l4, ClientDoes(Reads(Announce)));
    assert l5.up == [WindowUpdate(1)] && l5.server == l4.server;
    schedule := Before(l5, ServerReceives(NO_FAULT), []);
    schedule := Before(l4, ClientDoes(Reads(Announce)), schedule);
    schedule := EndProcess(l2, schedule);
    schedule := Before(l1, ClientDoes(Reads(Look)), schedule);
    schedule := Before(l0, ClientDoes(Reads(StartRead(1))), schedule);
    schedule := ReachOneByte(schedule);
    schedule := ReachOpened(schedule);
  }

  /** The client has asked to close while the server has spent credit on a chunk it has not written. */
  function CloseAsked(): Stream
  {
    var l := Opened();
    l.(client := l.client.(control := Control(true, AwaitsClose, false)),
       server := l.server.(source := Source(RECEIVE_WINDOW - 1, false, Sending([0], []), [0], [])),
       up := [Close(ClientClose)])
  }

  lemma ReachCloseAsked(tail: seq<Action>) returns (schedule: seq<Action>)
    ensures Run(Opened(), schedule) == Run(CloseAsked(), tail)
  {
    var l1 := Do(Opened(), ServerDoes(Sends(Produce([0]))));
    assert l1.down == [] && l1.server.source.produced == [0];
    var l2 := Do(l1, ServerDoes(Sends(SpendOut)));
    assert l2.server.source.sender == Sending([0], []) && l2.down == [];
    var l3 := Do(l2, ClientDoes(Controls(StartClose)));
    assert l3.up == [];
    var l4 := Do(l3, ClientDoes(Controls(SendClose)));
    assert l4.up == [Close(ClientClose)];
    assert l4 == CloseAsked();
    schedule := Before(l3, ClientDoes(Controls(SendClose)), tail);
    schedule := Before(l2, ClientDoes(Controls(StartClose)), schedule);
    schedule := Before(l1, ServerDoes(Sends(SpendOut)), schedule);
    schedule := Before(Opened(), ServerDoes(Sends(Produce([0]))), schedule);
  }

  /** A polite close of a busy terminal: the acknowledgement overtakes the chunk, the client forgets the
      stream and refuses the chunk. */
  lemma CloseCanEndParent() returns (schedule: seq<Action>)
    ensures var l := Run(Init(), schedule);
      l.status == ClientRefused && l.client.done && l.server.closed == Some(ClientClosed)
  {
    var l0 := CloseAsked();
    var l1 := Do(l0, ServerReceives(NO_FAULT));
    assert l1.server.loop.Acking? && l1.down == [];
    var l2 := Do(l1, ServerDoes(Loops(Ack)));
    assert l2.down == [Close(PeerClose)];
    var l3 := Do(l2, ServerDoes(Sends(WriteOutput)));
    assert l3.down == [Close(PeerClose), Data([0])];
    var l4 := Do(l3, ClientReceives);
    assert l4.client.done && l4.down == [Data([0])] && l4.server.closed == Some(ClientClosed);
    schedule := Before(l4, ClientReceives, []);
    schedule := Before(l3, ClientReceives, schedule);
    schedule := Before(l2, ServerDoes(Sends(WriteOutput)), schedule);
    schedule := Before(l1, ServerDoes(Loops(Ack)), schedule);
    schedule := Before(l0, ServerReceives(NO_FAULT), schedule);
    schedule := ReachCloseAsked(schedule);
    schedule := ReachOpened(schedule);
  }

  /** The process prints one byte and exits, drained; the close arrives before the caller reads. No
      continuation returns that byte. */
  lemma LastOutputCanBeLost() returns (schedule: seq<Action>)
    ensures var l := Run(Init(), schedule);
      && l.status.Live? && l.client.done && l.server.closed == Some(Exited) && l.server.source.produced == [0]
      && forall more :: Run(l, more).client.screen.returned == []
  {
    var l0 := OneByte();
    var l2 := Ended(l0);
    var l3 := Do(l2, ServerDoes(Waits(WriteExit)));
    assert l3.down == [Close(ProcessExit)];
    var l4 := Do(l3, ClientReceives);
    schedule := Before(l3, ClientReceives, []);
    schedule := Before(l2, ServerDoes(Waits(WriteExit)), schedule);
    schedule := EndProcess(l0, schedule);
    schedule := ReachOneByte(schedule);
    schedule := ReachOpened(schedule);
    assert Run(Init(), schedule) == l4;
    assert Deliverable(l4.client.screen) == [];
    forall more ensures Run(l4, more).client.screen.returned == [] {
      OnlyTheReadInProgressSurvives(schedule, more);
    }
  }

  // ----- streams that come to rest while they are open -----

  /** An open terminal with nothing to do is at rest. */
  lemma OpenTerminalCanRest() returns (schedule: seq<Action>)
    ensures var l := Run(Init(), schedule);
      l.status.Live? && l.client.accepted && !l.client.done && l.server.closed.None? && TerminalProgress.Quiet(l)
  {
    TerminalProgress.RestIsQuiet(Opened());
    schedule := ReachOpened([]);
  }

  /** The contexts of `k` full writes have ended between the spending and the writing. */
  function Spoiled(k: nat): Stream
    requires k <= 8
  {
    var l := Opened();
    l.(client := l.client.(keyboard := Keyboard(RECEIVE_WINDOW - k * PTY_CHUNK, false, Idle, [], k * PTY_CHUNK)))
  }

  lemma SpoilOne(k: nat, tail: seq<Action>) returns (schedule: seq<Action>)
    requires k < 8
    ensures Run(Spoiled(k), schedule) == Run(Spoiled(k + 1), tail)
  {
    var l1 := Do(Spoiled(k), ClientDoes(Writes(StartWrite(Block()))));
    assert l1.up == [];
    var l2 := Do(l1, ClientDoes(Writes(SpendCredit)));
    assert l2.client.keyboard.writer == Sending(Block(), []) && l2.up == [];
    var l3 := Do(l2, ClientDoes(Writes(DropChunk)));
    assert l3.up == [];
    assert l3 == Spoiled(k + 1);
    schedule := Before(l2, ClientDoes(Writes(DropChunk)), tail);
    schedule := Before(l1, ClientDoes(Writes(SpendCredit)), schedule);
    schedule := Before(Spoiled(k), ClientDoes(Writes(StartWrite(Block()))), schedule);
  }

  lemma {:induction false} SpoilAll(k: nat, tail: seq<Action>) returns (schedule: seq<Action>)
    requires k <= 8
    ensures Run(Spoiled(0), schedule) == Run(Spoiled(k), tail)
  {
    schedule := tail;
    if k > 0 {
      schedule := SpoilOne(k - 1, tail);
      schedule := SpoilAll(k - 1, schedule);
    }
  }

  /** After eight cancelled writes the ninth, whose context lives, sleeps on an open stream with nothing in
      flight, and nobody but its own caller can end that. */
  lemma WriteCanSleepForEver() returns (schedule: seq<Action>)
    ensures var l := Run(Init(), schedule);
      && l.status.Live? && !l.client.done && l.server.closed.None? && l.up == [] && l.down == []
      && l.client.keyboard.writer == Asleep([0]) && TerminalProgress.Quiet(l)
  {
    var l1 := Do(Spoiled(8), ClientDoes(Writes(StartWrite([0]))));
    assert l1.up == [];
    var l2 := Do(l1, ClientDoes(Writes(SpendCredit)));
    assert l2.up == [] && l2.client.keyboard.writer == Asleep([0]);
    TerminalProgress.RestIsQuiet(l2);
    schedule := Before(l1, ClientDoes(Writes(SpendCredit)), []);
    schedule := Before(Spoiled(8), ClientDoes(Writes(StartWrite([0]))), schedule);
    schedule := SpoilAll(8, schedule);
    assert Spoiled(0) == Opened();
    schedule := ReachOpened(schedule);
  }
}
