/** The mutable objects behind a download, one method per critical section or frame write, and a session
    that runs any schedule of them: executing the objects is running the machine. */
module DownloadEndpoints {
  import Buffer
  import opened Credit
  import D = Download
  import Machine
  import opened Protocol

  // ----- client -----

  /** managedMuxChild and managedFileState, with the Read and the monitor step in progress. */
  class ClientDownload {
    var accepted: bool
    const buffer: Buffer.ReceiveBuffer
    var monitor: D.Monitor
    var done: bool
    var failed: bool
    var reader: D.Reader
    var returned: seq<Byte>
    var finished: bool

    ghost function View(): D.Client
      reads this, buffer
    {
      D.Client(accepted, buffer.View(), monitor, done, failed, reader, returned, finished)
    }

    constructor ()
      ensures View() == D.NewClient() && fresh(buffer)
    {
      buffer := new Buffer.ReceiveBuffer();
      accepted, monitor, done, failed := false, D.Listening, false, false;
      reader, returned, finished := D.ReadIdle, [], false;
    }

    /** The locked section in which Read looks at the queue. */
    method Look()
      requires D.ClientOk(View()) && reader.Looking?
      modifies this, buffer
      ensures View() == D.LookStep(old(View()), old(reader).max)
    {
      var max := reader.max;
      if |buffer.outputQueue| != 0 {
        var data := buffer.Take(max);
        reader := D.Took(data, done && buffer.outputBytes == 0);
      } else if done {
        reader := D.ReadIdle;
        finished := finished || !failed;
      } else {
        reader := D.Sleeping(max);
      }
    }

    /** The section under wireMu that gives the bytes back to the window unless the stream has ended. */
    method CreditBack()
      requires reader.Took? && !monitor.Acking?
      modifies this, buffer
      ensures D.ClientStep(old(View()), D.CreditBack) == Moves(View(), [])
      ensures old(D.ClientOk(View())) ==> buffer.recvCredit <= RECEIVE_WINDOW
    {
      var data, closed := reader.data, reader.closed;
      if !done {
        buffer.recvCredit := buffer.recvCredit + |data|;
        reader := D.Credited(data, closed);
      } else {
        reader := D.ReadIdle;
        returned := returned + data;
        finished := finished || (closed && !failed);
      }
    }

    method Step(m: D.ClientMove) returns (v: Verdict)
      requires D.ClientOk(View())
      modifies this, buffer
      ensures Did(D.ClientStep(old(View()), m), v, old(View()), View())
    {
      v := Waits;
      match m {
        case StartRead(max) =>
          if reader.ReadIdle? && 1 <= max <= MAX_CHUNK {
            reader, v := D.Looking(max), Wrote([]);
          }
        case Look =>
          if reader.Looking? {
            Look();
            v := Wrote([]);
          }
        case WakeRead =>
          if reader.Sleeping? && buffer.outputNotify {
            buffer.outputNotify, reader, v := false, D.Looking(reader.max), Wrote([]);
          }
        case WakeDone =>
          if reader.Sleeping? && done {
            reader, v := D.Looking(reader.max), Wrote([]);
          }
        case GiveUpRead =>
          if reader.Sleeping? {
            reader, v := D.ReadIdle, Wrote([]);
          }
        case CreditBack =>
          if reader.Took? && !monitor.Acking? {
            CreditBack();
            v := Wrote([]);
          }
        case Announce =>
          if reader.Credited? {
            v := Wrote([WindowUpdate(|reader.data|)]);
            returned := returned + reader.data;
            finished := finished || (reader.closed && !failed);
            reader := D.ReadIdle;
          }
        case Notify =>
          if monitor.Notifying? {
            monitor, buffer.outputNotify, v := D.Listening, true, Wrote([]);
          }
        case FinishClose =>
          if monitor.Acking? {
            monitor, done, buffer.outputNotify, v := D.Listening, true, true, Wrote([]);
          }
      }
    }

    /** handleFileData. */
    method HandleData(payload: seq<Byte>) returns (v: Verdict)
      requires D.ClientOk(View()) && monitor.Listening? && !done
      modifies this, buffer
      ensures Did(D.ClientReceive(old(View()), Data(payload)), v, old(View()), View())
    {
      if !(0 < |payload| <= MAX_CHUNK) || !accepted {
        return Refuses;
      }
      var ok := buffer.Put(payload);
      if !ok {
        return Refuses;
      }
      monitor := D.Notifying;
      v := Wrote([]);
    }

    /** The monitor goroutine's dispatch of one frame of this stream. */
    method Receive(f: Frame) returns (v: Verdict)
      requires D.ClientOk(View())
      modifies this, buffer
      ensures Did(D.ClientReceive(old(View()), f), v, old(View()), View())
    {
      if !monitor.Listening? {
        return Waits;
      }
      if done {
        return Refuses;
      }
      v := Refuses;
      match f {
        case Accepted(w) =>
          if !accepted && 0 < w <= MAX_WINDOW {
            accepted, v := true, Wrote([]);
          }
        case Data(p) => v := HandleData(p);
        case Close(r) =>
          if reader.Credited? {
            v := Waits;
          } else if accepted && r == DownloadComplete {
            monitor, v := D.Acking, Wrote([Close(PeerClose)]);
          }
        case StreamError => failed, done, buffer.outputNotify, v := true, true, true, Wrote([]);
        case _ =>
      }
    }
  }

  // ----- server -----

  /** typedFileChild of a download, its file, and the forwarding goroutine. */
  class ServedDownload {
    const sendCredit: Credit
    var remaining: nat
    var unread: seq<Byte>
    var closed: bool
    var token: bool
    var posting: bool
    var forwarder: D.Forwarder
    var broken: bool

    ghost predicate Valid()
      reads this, sendCredit
    {
      sendCredit.Valid()
    }

    ghost function View(): D.Server
      reads this, sendCredit
    {
      D.Server(sendCredit.remaining, remaining, unread, closed, token, posting, forwarder, broken)
    }

    constructor (content: seq<Byte>)
      ensures Valid() && fresh(sendCredit) && View() == D.NewServer(content)
    {
      sendCredit := new Credit(RECEIVE_WINDOW);
      remaining, unread, closed, token, posting := |content|, content, false, false, false;
      forwarder, broken := D.Head, false;
    }

    /** One pass of forwardDownload through the credit check: finished, out of credit, or a read limit. */
    method Check()
      requires Valid() && forwarder.Head?
      modifies this
      ensures Valid() && D.ServerStep(old(View()), D.Check) == Moves(View(), [])
    {
      if remaining == 0 {
        forwarder := D.Completing;
      } else if sendCredit.remaining == 0 {
        forwarder := D.Waiting;
      } else {
        var limit := sendCredit.remaining;
        if limit > remaining {
          limit := remaining;
        }
        if limit > MAX_CHUNK {
          limit := MAX_CHUNK;
        }
        forwarder := D.Ready(limit);
      }
    }

    /** The file returned `n` bytes, with an error or without. */
    method AfterRead(n: nat, fails: bool)
      requires Valid() && forwarder.Ready? && n <= forwarder.limit && n <= |unread|
      modifies this, sendCredit
      ensures Valid() && D.ServerStep(old(View()), D.ReadFile(n, fails)) == Moves(View(), [])
    {
      if closed {
        forwarder := D.Exited;
        return;
      }
      if |unread| == 0 {
        forwarder := D.Completing;
        return;
      }
      if n == 0 {
        forwarder := if fails then D.Failing else D.Head;
        return;
      }
      var ok := sendCredit.Consume(n);
      if !ok {
        closed, forwarder := true, D.Exited;
        return;
      }
      if n <= remaining {
        remaining := remaining - n;
      }
      forwarder := D.Writing(unread[..n], fails);
      unread := unread[n..];
    }

    method Step(m: D.ServerMove) returns (v: Verdict)
      requires Valid()
      modifies this, sendCredit
      ensures Valid() && Did(D.ServerStep(old(View()), m), v, old(View()), View())
    {
      v := Waits;
      match m {
        case Check =>
          if forwarder.Head? {
            Check();
            v := Wrote([]);
          }
        case Wake =>
          if forwarder.Waiting? {
            if token {
              token, forwarder, v := false, D.Head, Wrote([]);
            } else if closed {
              forwarder, v := D.Exited, Wrote([]);
            }
          }
        case ReadFile(n, fails) =>
          if forwarder.Ready? && n <= forwarder.limit && n <= |unread| {
            AfterRead(n, fails);
            v := Wrote([]);
          }
        case WriteData =>
          if forwarder.Writing? {
            v := Wrote([Data(forwarder.payload)]);
            forwarder :=
              if closed then D.Exited
              else if forwarder.fails then D.Failing
              else if remaining == 0 then D.Completing
              else D.Head;
          }
        case SendComplete =>
          if forwarder.Completing? {
            forwarder, v := D.Exited, Wrote([Close(DownloadComplete)]);
          }
        case CloseFailed =>
          if forwarder.Failing? {
            closed, broken, forwarder, v := true, true, D.Reporting, Wrote([]);
          }
        case ReportFailed =>
          if forwarder.Reporting? {
            forwarder, v := D.Exited, Wrote([StreamError]);
          }
        case PostToken =>
          if posting {
            posting, token, v := false, true, Wrote([]);
          }
      }
    }

    /** The frame loop's dispatch of one frame of this stream. */
    method Receive(f: Frame) returns (v: Verdict)
      requires Valid()
      modifies this, sendCredit
      ensures Valid() && Did(D.ServerReceive(old(View()), f), v, old(View()), View())
    {
      if posting {
        return Waits;
      }
      if closed {
        return Refuses;
      }
      v := Refuses;
      match f {
        case WindowUpdate(n) =>
          var ok := sendCredit.Add(n);
          if ok {
            posting, v := true, Wrote([]);
          }
        case Close(_) =>
          closed := true;
          v := Wrote(if remaining == 0 then [] else [Close(PeerClose)]);
        case StreamError => closed, v := true, Wrote([Close(PeerClose)]);
        case _ =>
      }
    }
  }

  // ----- both ends and the frames between them -----

  class DownloadSession {
    const client: ClientDownload
    const server: ServedDownload
    var up: seq<Frame>
    var down: seq<Frame>
    var status: Status
    ghost const content: seq<Byte>

    ghost function View(): D.Stream
      reads this, client, client.buffer, server, server.sendCredit
    {
      Link(client.View(), server.View(), up, down, status)
    }

    ghost predicate Valid()
      reads this, client, client.buffer, server, server.sendCredit
    {
      server.Valid() && D.Inv(View(), content)
    }

    constructor (content: seq<Byte>)
      ensures Valid() && this.content == content && View() == D.Init(content)
      ensures fresh(client) && fresh(client.buffer) && fresh(server) && fresh(server.sendCredit)
    {
      client := new ClientDownload();
      server := new ServedDownload(content);
      up, down, status, this.content := [], [Accepted(1)], Live, content;
      new;
      D.InitHolds(content);
    }

    method ClientMoves(m: D.ClientMove)
      requires server.Valid() && D.ClientOk(client.View()) && status.Live?
      modifies this`up, this`status, client, client.buffer
      ensures server.Valid() && View() == D.Do(old(View()), D.ClientDoes(m))
    {
      var v := client.Step(m);
      up, status := Sent(up, v), Ends(status, v, ClientRefused);
    }

    method ServerMoves(m: D.ServerMove)
      requires server.Valid() && status.Live?
      modifies this`down, this`status, server, server.sendCredit
      ensures server.Valid() && View() == D.Do(old(View()), D.ServerDoes(m))
    {
      var v := server.Step(m);
      down, status := Sent(down, v), Ends(status, v, ServerRefused);
    }

    method ClientTakes()
      requires server.Valid() && D.ClientOk(client.View()) && status.Live?
      modifies this`up, this`down, this`status, client, client.buffer
      ensures server.Valid() && View() == D.Do(old(View()), D.ClientReceives)
    {
      if down != [] {
        var v := client.Receive(down[0]);
        if v.Wrote? {
          down := down[1..];
        }
        up, status := Sent(up, v), Ends(status, v, ClientRefused);
      }
    }

    method ServerTakes()
      requires server.Valid() && status.Live?
      modifies this`up, this`down, this`status, server, server.sendCredit
      ensures server.Valid() && View() == D.Do(old(View()), D.ServerReceives)
    {
      if up != [] {
        var v := server.Receive(up[0]);
        if v.Wrote? {
          up := up[1..];
        }
        down, status := Sent(down, v), Ends(status, v, ServerRefused);
      }
    }

    /** One step of one goroutine, performed on the objects. */
    method Perform(a: D.Action)
      requires server.Valid() && D.ClientOk(client.View())
      modifies this, client, client.buffer, server, server.sendCredit
      ensures server.Valid() && View() == D.Do(old(View()), a)
    {
      if status.Live? {
        match a {
          case ClientDoes(m) => ClientMoves(m);
          case ServerDoes(m) => ServerMoves(m);
          case ClientReceives => ClientTakes();
          case ServerReceives => ServerTakes();
        }
      }
    }

    /** Any interleaving of the methods of both ends is a run of the machine, so everything proved about
        runs is true of the objects: here, that a finished client has read the whole file. */
    method Execute(schedule: seq<D.Action>)
      requires Valid()
      modifies this, client, client.buffer, server, server.sendCredit
      ensures Valid() && View() == D.Run(old(View()), schedule)
      ensures client.finished ==> client.returned == content
    {
      ghost var start := View();
      for i := 0 to |schedule|
        invariant Valid() && View() == D.Run(start, schedule[..i])
      {
        D.DoKeeps(View(), schedule[i], content);
        Machine.Next(D.Do, start, schedule, i);
        Perform(schedule[i]);
      }
      assert schedule[..|schedule|] == schedule;
      if client.finished {
        D.FinishedCopy(View(), content);
      }
    }

    /** One step of forwardDownload while nobody else moves; a file read gets `n` bytes at most. */
    method Advance(n: nat, fails: bool) returns (ghost a: D.Action)
      requires Valid() && status.Live? && !AtRest(server.View())
      modifies this, client, client.buffer, server, server.sendCredit
      ensures Valid() && status.Live? && View() == D.Do(old(View()), a) && client.View() == old(client.View())
      ensures old(server.forwarder).Ready? || Stage(server.View()) < old(Stage(server.View()))
    {
      var m := NextMove(server.forwarder, |server.unread|, n, fails);
      a := D.ServerDoes(m);
      D.DoKeeps(View(), a, content);
      ForwarderAdvances(server.View(), n, fails);
      ServerMoves(m);
    }

    /** The loop of forwardDownload on its own: `chunks` are the sizes the file hands out, short ones
        included, and whether each read fails. It goes on until it returns, waits for credit or needs one
        more read, and whatever it does is a run of the machine. */
    method Forward(chunks: seq<(nat, bool)>) returns (ghost schedule: seq<D.Action>)
      requires Valid() && status.Live?
      modifies this, client, client.buffer, server, server.sendCredit
      ensures Valid() && View() == D.Run(old(View()), schedule) && client.View() == old(client.View())
      ensures AtRest(server.View()) || server.forwarder.Ready?
    {
      ghost var start := View();
      schedule := [];
      var used := 0;
      while !server.forwarder.Exited? && !(server.forwarder.Waiting? && !server.token && !server.closed)
        invariant Valid() && status.Live? && used <= |chunks|
        invariant View() == D.Run(start, schedule) && client.View() == old(client.View())
        decreases |chunks| - used, Stage(server.View())
      {
        var n, fails := 0, false;
        if server.forwarder.Ready? {
          if used == |chunks| {
            return;
          }
          n, fails := chunks[used].0, chunks[used].1;
          used := used + 1;
        }
        ghost var a := Advance(n, fails);
        Machine.Then(D.Do, start, schedule, a);
        schedule := schedule + [a];
      }
    }
  }

  // ----- the forwarder between two file reads -----

  function NextMove(f: D.Forwarder, unread: nat, n: nat, fails: bool): D.ServerMove
  {
    match f
    case Head => D.Check
    case Waiting => D.Wake
    case Ready(limit) => D.ReadFile(Min(Min(n, limit), unread), fails)
    case Writing(_, _) => D.WriteData
    case Completing => D.SendComplete
    case Failing => D.CloseFailed
    case Reporting => D.ReportFailed
    case Exited => D.PostToken
  }

  predicate AtRest(s: D.Server)
  {
    s.forwarder.Exited? || (s.forwarder.Waiting? && !s.token && !s.closed)
  }

  /** How many steps the forwarder can take before its next file read. */
  function Stage(s: D.Server): nat
  {
    (if s.token then 4 else 0) +
    match s.forwarder
    case Writing(_, _) => 4
    case Head => 3
    case Waiting => 2
    case Completing | Failing => 2
    case Reporting => 1
    case _ => 0
  }

  lemma ForwarderAdvances(s: D.Server, n: nat, fails: bool)
    requires !AtRest(s)
    ensures var o := D.ServerStep(s, NextMove(s.forwarder, |s.unread|, n, fails));
      o.Moves? && (s.forwarder.Ready? || Stage(o.next) < Stage(s))
  {
  }
}
