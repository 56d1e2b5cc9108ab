/** The mutable objects behind a terminal stream, one method per critical section or frame write, and a
    session that runs any schedule of them: executing the objects is running the machine. */
module TerminalEndpoints {
  import Buffer
  import opened Common
  import opened Credit
  import Machine
  import opened Protocol
  import T = Terminal
  import P = TerminalProgress

  // ----- client -----

  /** managedMuxChild of a terminal, with the Read, the Write, the Resize and the Close in progress. */
  class ClientTerminal {
    var accepted: bool
    var done: bool
    var monitor: T.Monitor
    const buffer: Buffer.ReceiveBuffer
    var reader: T.Reader
    var returned: seq<Byte>
    var ended: bool
    var sendCredit: nat
    var creditNotify: bool
    var writer: T.Sender
    var written: seq<Byte>
    var lost: nat
    var closing: bool
    var closer: T.Closer
    var resizing: bool

    ghost function View(): T.Client
      reads this, buffer
    {
      T.Client(accepted, done, monitor,
               T.Screen(buffer.View(), reader, returned, ended),
               T.Keyboard(sendCredit, creditNotify, writer, written, lost),
               T.Control(closing, closer, resizing))
    }

    constructor ()
      ensures View() == T.NewClient() && fresh(buffer)
    {
      accepted, done, monitor := false, false, T.Listening;
      buffer := new Buffer.ReceiveBuffer();
      reader, returned, ended := T.ReadIdle, [], false;
      sendCredit, creditNotify, writer, written, lost := 0, false, T.Idle, [], 0;
      closing, closer, resizing := false, T.NotClosing, false;
    }

    /** The locked section in which ReadTerminalStream looks at the queue. */
    method Look()
      requires Buffer.Ok(buffer.View()) && reader.Looking? && reader.max > 0
      modifies this`reader, this`ended, buffer
      ensures T.ReaderStep(old(View()), T.Look) == Moves(View(), [])
    {
      var max := reader.max;
      if |buffer.outputQueue| != 0 {
        var data := buffer.Take(max);
        reader := T.Took(data, done && buffer.outputBytes == 0);
      } else if done {
        reader, ended := T.ReadIdle, true;
      } else {
        reader := T.Sleeping(max);
      }
    }

    method ReaderStep(m: T.ReaderMove) returns (v: Verdict)
      requires Buffer.Ok(buffer.View()) && (reader.Looking? ==> reader.max > 0)
      modifies this, buffer
      ensures Did(T.ReaderStep(old(View()), m), v, old(View()), View())
    {
      v := Waits;
      match m {
        case StartRead(max) =>
          if reader.ReadIdle? && accepted && !done && 1 <= max <= PTY_CHUNK {
            reader, v := T.Looking(max), Wrote([]);
          }
        case Look =>
          if reader.Looking? {
            Look();
            v := Wrote([]);
          }
        case WakeRead =>
          if reader.Sleeping? && buffer.outputNotify {
            buffer.outputNotify, reader, v := false, T.Looking(reader.max), Wrote([]);
          }
        case WakeDone =>
          if reader.Sleeping? && done {
            reader, v := T.Looking(reader.max), Wrote([]);
          }
        case GiveUpRead =>
          if reader.Sleeping? {
            reader, v := T.ReadIdle, Wrote([]);
          }
        case Announce =>
          if reader.Took? {
            reader, v := T.Announced(reader.data, reader.last), Wrote([WindowUpdate(|reader.data|)]);
          }
        case CreditBack =>
          if reader.Announced? {
            buffer.recvCredit, returned := buffer.recvCredit + |reader.data|, returned + reader.data;
            ended := ended || reader.last;
            reader, v := T.ReadIdle, Wrote([]);
          }
      }
    }

    /** The locked section in which WriteTerminalStream looks for credit. */
    method SpendCredit()
      requires writer.Loop?
      modifies this`sendCredit, this`writer
      ensures T.WriterStep(old(View()), T.SpendCredit) == Moves(View(), [])
    {
      var rest := writer.rest;
      if done {
        writer := T.Idle;
      } else if sendCredit == 0 {
        writer := T.Asleep(rest);
      } else {
        var n := |rest|;
        if n > MAX_CHUNK {
          n := MAX_CHUNK;
        }
        if n > sendCredit {
          n := sendCredit;
        }
        sendCredit := sendCredit - n;
        writer := T.Sending(rest[..n], rest[n..]);
      }
    }

    method WriterStep(m: T.WriterMove) returns (v: Verdict)
      modifies this, buffer
      ensures Did(T.WriterStep(old(View()), m), v, old(View()), View())
    {
      v := Waits;
      match m {
        case StartWrite(data) =>
          if writer.Idle? && accepted && !done && 1 <= |data| <= PTY_CHUNK {
            writer, v := T.Loop(data), Wrote([]);
          }
        case SpendCredit =>
          if writer.Loop? {
            SpendCredit();
            v := Wrote([]);
          }
        case WakeWrite =>
          if writer.Asleep? && creditNotify {
            creditNotify, writer, v := false, T.Loop(writer.rest), Wrote([]);
          }
        case WriteEnds =>
          if writer.Asleep? && done {
            writer, v := T.Idle, Wrote([]);
          }
        case GiveUpWrite =>
          if writer.Asleep? {
            writer, v := T.Idle, Wrote([]);
          }
        case WriteData =>
          if writer.Sending? {
            v := Wrote([Data(writer.chunk)]);
            written := written + writer.chunk;
            writer := if writer.rest == [] then T.Idle else T.Loop(writer.rest);
          }
        case DropChunk =>
          if writer.Sending? {
            lost, writer, v := lost + |writer.chunk|, T.Idle, Wrote([]);
          }
      }
    }

    method ControlStep(m: T.ControlMove) returns (v: Verdict)
      modifies this, buffer
      ensures Did(T.ControlStep(old(View()), m), v, old(View()), View())
    {
      v := Waits;
      match m {
        case Notify =>
          match monitor {
            case Listening =>
            case NotifyingOutput => monitor, buffer.outputNotify, v := T.Listening, true, Wrote([]);
            case NotifyingCredit => monitor, creditNotify, v := T.Listening, true, Wrote([]);
          }
        case StartResize =>
          if accepted && !done && !resizing {
            resizing, v := true, Wrote([]);
          }
        case SendResize =>
          if resizing {
            resizing, v := false, Wrote([Resize]);
          }
        case DropResize =>
          if resizing {
            resizing, v := false, Wrote([]);
          }
        case StartClose =>
          if accepted && !done && closer.NotClosing? {
            closer := if closing then T.AwaitsClose else T.SendsClose;
            closing, v := true, Wrote([]);
          }
        case SendClose =>
          if closer.SendsClose? {
            closer, v := T.AwaitsClose, Wrote([Close(ClientClose)]);
          }
        case EndClose =>
          if closer.AwaitsClose? && done {
            closer, v := T.NotClosing, Wrote([]);
          }
        case GiveUpClose =>
          if closer.AwaitsClose? {
            closer, v := T.NotClosing, Wrote([]);
          }
      }
    }

    method Step(m: T.ClientMove) returns (v: Verdict)
      requires Buffer.Ok(buffer.View()) && (reader.Looking? ==> reader.max > 0)
      modifies this, buffer
      ensures Did(T.ClientStep(old(View()), m), v, old(View()), View())
    {
      match m {
        case Reads(r) => v := ReaderStep(r);
        case Writes(w) => v := WriterStep(w);
        case Controls(k) => v := ControlStep(k);
      }
    }

    /** handleTypedData. */
    method HandleData(payload: seq<Byte>) returns (v: Verdict)
      requires monitor.Listening? && !done
      modifies this, buffer
      ensures Did(T.ClientReceive(old(View()), Data(payload)), v, old(View()), View())
    {
      if !(0 < |payload| <= MAX_CHUNK) || !accepted {
        return Refuses;
      }
      var ok := buffer.Put(payload);
      if !ok {
        return Refuses;
      }
      monitor := T.NotifyingOutput;
      v := Wrote([]);
    }

    /** closeChild: the child leaves the map and both kinds of waiters are woken. */
    method Finish()
      modifies this`done, this`creditNotify, buffer
      ensures View() == T.Finish(old(View()))
    {
      done, buffer.outputNotify, creditNotify := true, true, true;
    }

    /** The monitor goroutine's dispatch of one frame of this stream. */
    method Receive(f: Frame) returns (v: Verdict)
      modifies this, buffer
      ensures Did(T.ClientReceive(old(View()), f), v, old(View()), View())
    {
      if !monitor.Listening? {
        return Waits;
      }
      if done {
        return Refuses;
      }
      v := Refuses;
      match f {
        case Accepted(w) =>
          if !accepted && !closing && 0 < w <= MAX_WINDOW {
            accepted, sendCredit, v := true, w, Wrote([]);
          }
        case Data(p) => v := HandleData(p);
        case WindowUpdate(n) =>
          if 0 < n <= MAX_WINDOW && accepted && n + sendCredit <= MAX_WINDOW {
            sendCredit, monitor, v := sendCredit + n, T.NotifyingCredit, Wrote([]);
          }
        case Close(_) =>
          if accepted {
            Finish();
            v := Wrote([]);
          }
        case StreamError =>
          Finish();
          v := Wrote([]);
        case Resize =>
      }
    }
  }

  // ----- server -----

  /** The stream's entry in typedStreamServer: both credits, the forwardOutput goroutine, the frame loop
      and the waitProcess goroutine. */
  class ServedTerminal {
    const sendCredit: Credit
    const recvCredit: Credit
    var creditCh: bool
    var sender: T.Sender
    var produced: seq<Byte>
    var lost: seq<Byte>
    var typed: seq<Byte>
    var short: bool
    var loop: T.FrameLoop
    var waiter: T.Waiter
    var closed: Option<T.Cause>

    ghost function View(): T.Server
      reads this, sendCredit, recvCredit
    {
      T.Server(T.Source(sendCredit.remaining, creditCh, sender, produced, lost),
               T.Sink(recvCredit.remaining, typed, short), loop, waiter, closed)
    }

    ghost predicate Valid()
      reads this, sendCredit, recvCredit
    {
      && sendCredit != recvCredit && sendCredit.Valid() && recvCredit.Valid()
      && (loop.Announcing? ==> 0 < loop.n <= MAX_WINDOW)
      && (loop.Refunding? ==> 0 < loop.n <= MAX_WINDOW)
      && T.SenderOk(sender)
    }

    constructor ()
      ensures Valid() && fresh(sendCredit) && fresh(recvCredit) && View() == T.NewServer()
    {
      sendCredit := new Credit(RECEIVE_WINDOW);
      recvCredit := new Credit(RECEIVE_WINDOW);
      creditCh, sender, produced, lost := false, T.Idle, [], [];
      typed, short, loop, waiter, closed := [], false, T.Free, T.Watching, None;
    }

    /** sendData looks for credit. */
    method SpendOut()
      requires Valid() && sender.Loop?
      modifies this`sender, sendCredit
      ensures Valid() && T.SenderStep(old(View()), T.SpendOut) == Moves(View(), [])
    {
      var rest := sender.rest;
      var n := |rest|;
      if n > MAX_CHUNK {
        n := MAX_CHUNK;
      }
      if n > sendCredit.remaining {
        n := sendCredit.remaining;
      }
      var spent := sendCredit.Consume(n);
      sender := if spent then T.Sending(rest[..n], rest[n..]) else T.Asleep(rest);
    }

    method SenderStep(m: T.SenderMove) returns (v: Verdict)
      requires Valid()
      modifies this, sendCredit
      ensures Valid() && Did(T.SenderStep(old(View()), m), v, old(View()), View())
    {
      v := Waits;
      match m {
        case Produce(data) =>
          if sender.Idle? && 0 < |data| <= PTY_CHUNK {
            sender, produced, v := T.Loop(data), produced + data, Wrote([]);
          }
        case EndOutput =>
          if sender.Idle? {
            sender, v := T.Stopped, Wrote([]);
          }
        case SpendOut =>
          if sender.Loop? {
            SpendOut();
            v := Wrote([]);
          }
        case WakeSend =>
          if sender.Asleep? && creditCh {
            creditCh, sender, v := false, T.Loop(sender.rest), Wrote([]);
          }
        case WakeClosed =>
          if sender.Asleep? && closed.Some? {
            lost, sender, v := sender.rest, T.Stopped, Wrote([]);
          }
        case WriteOutput =>
          if sender.Sending? {
            v := Wrote([Data(sender.chunk)]);
            sender := if sender.rest == [] then T.Idle else T.Loop(sender.rest);
          }
      }
    }

    /** closeStream: only the first close counts. */
    method CloseId(cause: T.Cause)
      modifies this`closed
      ensures View() == T.CloseId(old(View()), cause)
    {
      if closed.None? {
        closed := Some(cause);
      }
    }

    method LoopStep(m: T.LoopMove) returns (v: Verdict)
      requires Valid()
      modifies this, recvCredit
      ensures Valid() && Did(T.LoopStep(old(View()), m), v, old(View()), View())
    {
      v := Waits;
      match m {
        case PostToken =>
          if loop.Posting? {
            loop, creditCh, v := T.Free, true, Wrote([]);
          }
        case AnnounceInput =>
          if loop.Announcing? {
            loop, v := T.Refunding(loop.n), Wrote([WindowUpdate(loop.n)]);
          }
        case Refund =>
          if loop.Refunding? {
            var ok := recvCredit.Add(loop.n);
            if ok {
              loop, v := T.Free, Wrote([]);
            } else {
              v := Refuses;
            }
          }
        case FailStream =>
          if loop.Failing? {
            CloseId(loop.cause);
            loop, v := T.Answering, Wrote([]);
          }
        case Answer =>
          if loop.Answering? {
            loop, v := T.Free, Wrote([StreamError]);
          }
        case Ack =>
          if loop.Acking? {
            loop, v := T.Free, Wrote([Close(PeerClose)]);
          }
      }
    }

    method CloseAfterExit(cause: T.Cause, reason: Reason)
      requires Valid()
      modifies this`closed, this`waiter
      ensures Valid() && View() == T.CloseAfterExit(old(View()), cause, reason)
    {
      if closed.Some? {
        waiter := T.Gone;
      } else {
        closed, waiter := Some(cause), T.Closing(reason);
      }
    }

    /** waitProcess. */
    method WaiterStep(m: T.WaiterMove) returns (v: Verdict)
      requires Valid()
      modifies this`closed, this`waiter
      ensures Valid() && Did(T.WaiterStep(old(View()), m), v, old(View()), View())
    {
      v := Waits;
      match m {
        case Exit =>
          if waiter.Watching? {
            waiter, v := T.Draining, Wrote([]);
          }
        case Drained =>
          if waiter.Draining? && sender.Stopped? {
            CloseAfterExit(T.Exited, ProcessExit);
            v := Wrote([]);
          }
        case TimeOut =>
          if waiter.Draining? {
            CloseAfterExit(T.TimedOut, DrainTimeout);
            v := Wrote([]);
          }
        case Dismiss =>
          if (waiter.Watching? || waiter.Draining?) && closed.Some? {
            waiter, v := T.Gone, Wrote([]);
          }
        case WriteExit =>
          if waiter.Closing? {
            v := Wrote([Close(waiter.reason)]);
            waiter := T.Gone;
          }
      }
    }

    method Step(m: T.ServerMove) returns (v: Verdict)
      requires Valid()
      modifies this, sendCredit, recvCredit
      ensures Valid() && Did(T.ServerStep(old(View()), m), v, old(View()), View())
    {
      match m {
        case Sends(x) => v := SenderStep(x);
        case Loops(x) => v := LoopStep(x);
        case Waits(x) => v := WaiterStep(x);
      }
    }

    /** The data handler up to the write to the PTY, which takes `x.n` bytes at most. */
    method HandleData(payload: seq<Byte>, x: T.PtyFault) returns (v: Verdict)
      requires Valid() && loop.Free? && closed.None?
      modifies this, recvCredit
      ensures Valid() && Did(T.ServerReceive(old(View()), Data(payload), x), v, old(View()), View())
    {
      if !(0 < |payload| <= MAX_CHUNK) {
        return Refuses;
      }
      var spent := recvCredit.Consume(|payload|);
      if !spent {
        return Refuses;
      }
      var n := if x.n < |payload| then x.n else |payload|;
      typed := typed + payload[..n];
      if x.fails || n != |payload| {
        short, loop := true, T.Failing(T.InputFailed);
      } else {
        loop := T.Announcing(|payload|);
      }
      v := Wrote([]);
    }

    /** The frame loop's dispatch of one frame of this stream. */
    method Receive(f: Frame, x: T.PtyFault) returns (v: Verdict)
      requires Valid()
      modifies this, sendCredit, recvCredit
      ensures Valid() && Did(T.ServerReceive(old(View()), f, x), v, old(View()), View())
    {
      if !loop.Free? {
        return Waits;
      }
      if closed.Some? {
        return Refuses;
      }
      v := Refuses;
      match f {
        case Data(p) => v := HandleData(p, x);
        case WindowUpdate(n) =>
          var ok := sendCredit.Add(n);
          if ok {
            loop, v := T.Posting, Wrote([]);
          }
        case Resize =>
          if x.fails {
            loop := T.Failing(T.ResizeFailed);
          }
          v := Wrote([]);
        case Close(_) => closed, loop, v := Some(T.ClientClosed), T.Acking, Wrote([]);
        case StreamError => closed, v := Some(T.ClientClosed), Wrote([]);
        case Accepted(_) =>
      }
    }
  }

  // ----- both ends and the frames between them -----

  class TerminalSession {
    const client: ClientTerminal
    const server: ServedTerminal
    var up: seq<Frame>
    var down: seq<Frame>
    var status: Status

    ghost function View(): T.Stream
      reads this, client, client.buffer, server, server.sendCredit, server.recvCredit
    {
      Link(client.View(), server.View(), up, down, status)
    }

    ghost predicate Ready()
      reads this, client, client.buffer, server, server.sendCredit, server.recvCredit
    {
      server.Valid() && T.ClientOk(client.View())
    }

    ghost predicate Valid()
      reads this, client, client.buffer, server, server.sendCredit, server.recvCredit
    {
      server.Valid() && T.Inv(View())
    }

    constructor ()
      ensures Valid() && View() == T.Init()
      ensures fresh(client) && fresh(client.buffer) && fresh(server) &&
        fresh(server.sendCredit) && fresh(server.recvCredit)
    {
      client := new ClientTerminal();
      server := new ServedTerminal();
      up, down, status := [], [Accepted(RECEIVE_WINDOW)], Live;
      new;
      assert View() == T.Init();
      T.InitHolds();
    }

    method ClientMoves(m: T.ClientMove)
      requires Ready() && status.Live?
      modifies this`up, this`status, client, client.buffer
      ensures server.Valid() && View() == T.Do(old(View()), T.ClientDoes(m))
    {
      var v := client.Step(m);
      up, status := Sent(up, v), Ends(status, v, ClientRefused);
    }

    method ServerMoves(m: T.ServerMove)
      requires Ready() && status.Live?
      modifies this`down, this`status, server, server.sendCredit, server.recvCredit
      ensures server.Valid() && View() == T.Do(old(View()), T.ServerDoes(m))
    {
      var v := server.Step(m);
      down, status := Sent(down, v), Ends(status, v, ServerRefused);
    }

    method ClientTakes()
      requires Ready() && status.Live?
      modifies this`up, this`down, this`status, client, client.buffer
      ensures server.Valid() && View() == T.Do(old(View()), T.ClientReceives)
    {
      if down != [] {
        var v := client.Receive(down[0]);
        if v.Wrote? {
          down := down[1..];
        }
        up, status := Sent(up, v), Ends(status, v, ClientRefused);
      }
    }

    method ServerTakes(x: T.PtyFault)
      requires Ready() && status.Live?
      modifies this`up, this`down, this`status, server, server.sendCredit, server.recvCredit
      ensures server.Valid() && View() == T.Do(old(View()), T.ServerReceives(x))
    {
      if up != [] {
        var v := server.Receive(up[0], x);
        if v.Wrote? {
          up := up[1..];
        }
        down, status := Sent(down, v), Ends(status, v, ServerRefused);
      }
    }

    /** One step of one goroutine, performed on the objects. */
    method Perform(a: T.Action)
      requires Ready()
      modifies this, client, client.buffer, server, server.sendCredit, server.recvCredit
      ensures server.Valid() && View() == T.Do(old(View()), a)
    {
      if status.Live? {
        match a {
          case ClientDoes(m) => ClientMoves(m);
          case ServerDoes(m) => ServerMoves(m);
          case ClientReceives => ClientTakes();
          case ServerReceives(x) => ServerTakes(x);
        }
      }
    }

    /** Any interleaving of the methods of both ends is a run of the machine, so everything proved about
        runs is true of the objects: here, that the PTY gets a prefix of what was written. */
    method Execute(schedule: seq<T.Action>)
      requires Valid()
      modifies this, client, client.buffer, server, server.sendCredit, server.recvCredit
      ensures Valid() && View() == T.Run(old(View()), schedule)
      ensures server.typed <= client.written
    {
      ghost var start := View();
      for i := 0 to |schedule|
        invariant Valid() && View() == T.Run(start, schedule[..i])
      {
        T.DoKeeps(View(), schedule[i]);
        Machine.Next(T.Do, start, schedule, i);
        Perform(schedule[i]);
      }
      assert schedule[..|schedule|] == schedule;
    }

    /** One step of one goroutine that lowers the measure of TerminalProgress. */
    method Advance(a: T.Action)
      requires Valid() && P.Cost(a) == 0 && T.Do(View(), a) != View() && T.Do(View(), a).status.Live?
      modifies this, client, client.buffer, server, server.sendCredit, server.recvCredit
      ensures Valid() && status.Live? && View() == T.Do(old(View()), a) && P.Rank(View()) < old(P.Rank(View()))
    {
      T.DoKeeps(View(), a);
      P.EveryStepCounts(View(), a);
      Perform(a);
    }

    /** ReadTerminalStream on its own: it goes on until it returns or has nothing to wait for but others, and
        whatever it does is a run of the machine. If there is output it returns the front of it. */
    method Read(max: nat) returns (ghost schedule: seq<T.Action>)
      requires Valid() && status.Live? && client.accepted && !client.done && client.reader.ReadIdle?
      requires 1 <= max <= PTY_CHUNK
      modifies this, client, client.buffer, server, server.sendCredit, server.recvCredit
      ensures Valid() && View() == T.Run(old(View()), schedule)
      ensures !P.ReaderStirs(client.View()) && Reading(old(View()), View(), max)
    {
      ghost var start := View();
      BeginRead(start, max);
      ClientMoves(T.Reads(T.StartRead(max)));
      schedule := [T.ClientDoes(T.Reads(T.StartRead(max)))];
      while client.reader.Looking? || client.reader.Took? || client.reader.Announced? ||
            (client.reader.Sleeping? && client.buffer.outputNotify)
        invariant Valid() && status.Live? && View() == T.Run(start, schedule) && Reading(start, View(), max)
        decreases P.Rank(View())
      {
        var a := T.ClientDoes(T.Reads(NextRead(client.reader)));
        ReadAdvances(start, View(), max);
        Machine.Then(T.Do, start, schedule, a);
        Advance(a);
        schedule := schedule + [a];
      }
    }

    /** WriteTerminalStream on its own, with a context that lives: it goes on until it returns or waits for
        credit, and if it returns its whole argument is on the wire. */
    method Write(data: seq<Byte>) returns (ghost schedule: seq<T.Action>)
      requires Valid() && status.Live? && client.accepted && !client.done && client.writer.Idle?
      requires 1 <= |data| <= PTY_CHUNK
      modifies this, client, client.buffer, server, server.sendCredit, server.recvCredit
      ensures Valid() && View() == T.Run(old(View()), schedule)
      ensures !P.WriterStirs(client.View()) && Writing(old(View()), View(), data)
    {
      ghost var start := View();
      BeginWrite(start, data);
      ClientMoves(T.Writes(T.StartWrite(data)));
      schedule := [T.ClientDoes(T.Writes(T.StartWrite(data)))];
      while client.writer.Loop? || client.writer.Sending? || (client.writer.Asleep? && client.creditNotify)
        invariant Valid() && status.Live? && View() == T.Run(start, schedule) && Writing(start, View(), data)
        decreases P.Rank(View())
      {
        var a := T.ClientDoes(T.Writes(NextWrite(client.writer)));
        WriteAdvances(start, View(), data);
        Machine.Then(T.Do, start, schedule, a);
        Advance(a);
        schedule := schedule + [a];
      }
    }

    /** sendData on its own: it goes on until it returns or waits for credit, and if it returns on an open
        stream all the output is on the wire. */
    method SendData(data: seq<Byte>) returns (ghost schedule: seq<T.Action>)
      requires Valid() && status.Live? && server.sender.Idle? && server.closed.None? && 0 < |data| <= PTY_CHUNK
      modifies this, client, client.buffer, server, server.sendCredit, server.recvCredit
      ensures Valid() && View() == T.Run(old(View()), schedule)
      ensures !P.SenderStirs(server.View()) && Outgoing(old(View()), View(), data)
    {
      ghost var start := View();
      BeginSend(start, data);
      ServerMoves(T.Sends(T.Produce(data)));
      schedule := [T.ServerDoes(T.Sends(T.Produce(data)))];
      while server.sender.Loop? || server.sender.Sending? || (server.sender.Asleep? && server.creditCh)
        invariant Valid() && status.Live? && View() == T.Run(start, schedule) && Outgoing(start, View(), data)
        decreases P.Rank(View())
      {
        var a := T.ServerDoes(T.Sends(NextSend(server.sender)));
        SendAdvances(start, View(), data);
        Machine.Then(T.Do, start, schedule, a);
        Advance(a);
        schedule := schedule + [a];
      }
    }
  }

  // ----- one goroutine that runs alone -----

  function NextRead(r: T.Reader): T.ReaderMove
  {
    match r
    case Looking(_) => T.Look
    case Took(_, _) => T.Announce
    case Announced(_, _) => T.CreditBack
    case _ => T.WakeRead
  }

  function NextWrite(k: T.Sender): T.WriterMove
  {
    match k
    case Loop(_) => T.SpendCredit
    case Sending(_, _) => T.WriteData
    case _ => T.WakeWrite
  }

  function NextSend(k: T.Sender): T.SenderMove
  {
    match k
    case Loop(_) => T.SpendOut
    case Sending(_, _) => T.WriteOutput
    case _ => T.WakeSend
  }

  /** How far a read that began with `v` has come. */
  predicate ReadSoFar(v: T.Screen, v': T.Screen, max: nat)
  {
    var front := if v.buffer.queue == [] then [] else Buffer.Front(v.buffer, max);
    match v'.reader
    case Looking(m) => m == max && v'.buffer.queue == v.buffer.queue && v'.returned == v.returned
    case Sleeping(m) => m == max && v'.buffer.queue == v.buffer.queue == [] && v'.returned == v.returned
    case Took(data, _) => data == front && v'.returned == v.returned
    case Announced(data, _) => data == front && v'.returned == v.returned
    case ReadIdle => v'.returned == v.returned + front
  }

  predicate Reading(l: T.Stream, l': T.Stream, max: nat)
  {
    l'.server == l.server && l'.down == l.down && !l'.client.done && ReadSoFar(l.client.screen, l'.client.screen, max)
  }

  /** What a write has on the wire and what it still has to write are its argument. */
  predicate Writing(l: T.Stream, l': T.Stream, data: seq<Byte>)
  {
    var v, v' := l.client.keyboard, l'.client.keyboard;
    && l'.server == l.server && l'.down == l.down && !l'.client.done && v'.lost == v.lost
    && v'.written + T.Pending(v'.writer) == v.written + data
  }

  predicate Outgoing(l: T.Stream, l': T.Stream, data: seq<Byte>)
  {
    && l'.client == l.client && l'.up == l.up && l'.server.closed.None? && !l'.server.source.sender.Stopped?
    && DataOf(l'.down) + T.Pending(l'.server.source.sender) == DataOf(l.down) + data
  }

  lemma OneStep(l: T.Stream, a: T.Action)
    ensures T.Run(l, [a]) == T.Do(l, a)
  {
    Machine.Then(T.Do, l, [], a);
    assert [] + [a] == [a];
  }

  lemma BeginRead(l: T.Stream, max: nat)
    requires T.Inv(l) && l.status.Live? && T.Found(l.client)
    requires l.client.screen.reader.ReadIdle? && 1 <= max <= PTY_CHUNK
    ensures var a := T.ClientDoes(T.Reads(T.StartRead(max)));
      && T.Inv(T.Do(l, a)) && T.Do(l, a).status.Live? && Reading(l, T.Do(l, a), max) && T.Run(l, [a]) == T.Do(l, a)
  {
    T.DoKeeps(l, T.ClientDoes(T.Reads(T.StartRead(max))));
    OneStep(l, T.ClientDoes(T.Reads(T.StartRead(max))));
  }

  lemma BeginWrite(l: T.Stream, data: seq<Byte>)
    requires T.Inv(l) && l.status.Live? && T.Found(l.client) && l.client.keyboard.writer.Idle?
    requires 1 <= |data| <= PTY_CHUNK
    ensures var a := T.ClientDoes(T.Writes(T.StartWrite(data)));
      && T.Inv(T.Do(l, a)) && T.Do(l, a).status.Live? && Writing(l, T.Do(l, a), data) && T.Run(l, [a]) == T.Do(l, a)
  {
    T.DoKeeps(l, T.ClientDoes(T.Writes(T.StartWrite(data))));
    OneStep(l, T.ClientDoes(T.Writes(T.StartWrite(data))));
  }

  lemma BeginSend(l: T.Stream, data: seq<Byte>)
    requires T.Inv(l) && l.status.Live? && l.server.source.sender.Idle? && l.server.closed.None?
    requires 0 < |data| <= PTY_CHUNK
    ensures var a := T.ServerDoes(T.Sends(T.Produce(data)));
      && T.Inv(T.Do(l, a)) && T.Do(l, a).status.Live? && Outgoing(l, T.Do(l, a), data) && T.Run(l, [a]) == T.Do(l, a)
  {
    T.DoKeeps(l, T.ServerDoes(T.Sends(T.Produce(data))));
    OneStep(l, T.ServerDoes(T.Sends(T.Produce(data))));
    assert l.down + [] == l.down;
  }

  lemma ReadStep(v: T.Screen, c: T.Client, max: nat)
    requires T.ClientOk(c) && !c.done && P.ReaderStirs(c) && ReadSoFar(v, c.screen, max) && max > 0
    ensures var o := T.ReaderStep(c, NextRead(c.screen.reader));
      && o.Moves? && o.next != c && !o.next.done && ReadSoFar(v, o.next.screen, max)
      && P.Cost(T.ClientDoes(T.Reads(NextRead(c.screen.reader)))) == 0
  {
    P.ReaderStirMoves(c);
  }

  lemma ReadAdvances(start: T.Stream, l: T.Stream, max: nat)
    requires T.Inv(l) && l.status.Live? && P.ReaderStirs(l.client) && Reading(start, l, max) && max > 0
    ensures var a := T.ClientDoes(T.Reads(NextRead(l.client.screen.reader)));
      T.Do(l, a) != l && T.Do(l, a).status.Live? && P.Cost(a) == 0 && Reading(start, T.Do(l, a), max)
  {
    ReadStep(start.client.screen, l.client, max);
  }

  lemma WriteStep(c: T.Client)
    requires T.ClientOk(c) && !c.done && P.WriterStirs(c)
    ensures var o := T.WriterStep(c, NextWrite(c.keyboard.writer));
      && o.Moves? && o.next != c && !o.next.done && o.next.keyboard.lost == c.keyboard.lost
      && o.next.keyboard.written + T.Pending(o.next.keyboard.writer) ==
         c.keyboard.written + T.Pending(c.keyboard.writer)
      && P.Cost(T.ClientDoes(T.Writes(NextWrite(c.keyboard.writer)))) == 0
  {
    if c.keyboard.writer.Loop? {
      T.SpendOk(c.keyboard.writer.rest, c.keyboard.sendCredit);
    }
    P.ReaderStirMoves(c);
  }

  lemma WriteAdvances(start: T.Stream, l: T.Stream, data: seq<Byte>)
    requires T.Inv(l) && l.status.Live? && P.WriterStirs(l.client) && Writing(start, l, data)
    ensures var a := T.ClientDoes(T.Writes(NextWrite(l.client.keyboard.writer)));
      T.Do(l, a) != l && T.Do(l, a).status.Live? && P.Cost(a) == 0 && Writing(start, T.Do(l, a), data)
  {
    WriteStep(l.client);
  }

  lemma SendStep(s: T.Server)
    requires T.ServerOk(s) && s.closed.None? && P.SenderStirs(s)
    ensures var o := T.SenderStep(s, NextSend(s.source.sender));
      && o.Moves? && o.next != s && o.next.closed.None? && !o.next.source.sender.Stopped?
      && DataOf(o.emits) + T.Pending(o.next.source.sender) == T.Pending(s.source.sender)
  {
    match s.source.sender
    case Loop(rest) => T.SpendOk(rest, s.source.sendCredit);
    case Sending(chunk, rest) => OneFrame(Data(chunk));
    case _ =>
  }

  lemma SendAdvances(start: T.Stream, l: T.Stream, data: seq<Byte>)
    requires T.Inv(l) && l.status.Live? && P.SenderStirs(l.server) && Outgoing(start, l, data)
    ensures var a := T.ServerDoes(T.Sends(NextSend(l.server.source.sender)));
      T.Do(l, a) != l && T.Do(l, a).status.Live? && P.Cost(a) == 0 && Outgoing(start, T.Do(l, a), data)
  {
    SendStep(l.server);
    var o := T.SenderStep(l.server, NextSend(l.server.source.sender));
    DataOfConcat(l.down, o.emits);
    T.Assoc(DataOf(l.down), DataOf(o.emits), T.Pending(o.next.source.sender));
  }
}
