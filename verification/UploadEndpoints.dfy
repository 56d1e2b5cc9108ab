/** The mutable objects behind an upload, one method per critical section or frame write, and a session
    that runs any schedule of them: executing the objects is running the machine. */
module UploadEndpoints {
  import opened Credit
  import FileStore
  import Machine
  import opened Protocol
  import U = Upload

  // ----- client -----

  /** managedMuxChild and managedFileState, with the Write or Commit in progress. */
  class ClientUpload {
    var accepted: bool
    var sendCredit: nat
    var closing: bool
    var done: bool
    var failed: bool
    var creditNotify: bool
    var posting: bool
    var caller: U.Caller
    var pending: seq<Byte>
    var acked: seq<Byte>
    var allNil: bool
    var committed: bool

    ghost function View(): U.Client
      reads this
    {
      U.Client(accepted, sendCredit, closing, done, failed, creditNotify, posting, caller, pending, acked, allNil,
               committed)
    }

    constructor ()
      ensures View() == U.NewClient()
    {
      accepted, sendCredit, closing, done, failed := false, 0, false, false, false;
      creditNotify, posting, caller, pending, acked := false, false, U.Idle, [], [];
      allNil, committed := true, false;
    }

    method FailWrite()
      modifies this`caller, this`pending, this`allNil
      ensures View() == U.FailWrite(old(View()))
    {
      caller, pending, allNil := U.Idle, [], false;
    }

    /** The locked section in which Write looks for credit. */
    method SpendCredit()
      requires caller.Loop?
      modifies this
      ensures U.ClientStep(old(View()), U.SpendCredit) == Moves(View(), [])
      ensures !old(done) && old(sendCredit) > 0 ==>
        caller.Sending? && old(caller).rest == caller.chunk + caller.rest && |caller.chunk| <= MAX_CHUNK &&
        sendCredit + |caller.chunk| == old(sendCredit)
    {
      var rest := caller.rest;
      if done {
        FailWrite();
      } else if sendCredit == 0 {
        caller := U.Asleep(rest);
      } else {
        var n := |rest|;
        if n > MAX_CHUNK {
          n := MAX_CHUNK;
        }
        if n > sendCredit {
          n := sendCredit;
        }
        sendCredit := sendCredit - n;
        caller := U.Sending(rest[..n], rest[n..]);
        assert rest == rest[..n] + rest[n..];
      }
    }

    /** creditNotify or done wakes a Write that waits. */
    method Wake() returns (v: Verdict)
      requires caller.Asleep?
      modifies this
      ensures Did(U.ClientStep(old(View()), U.Wake), v, old(View()), View())
    {
      v := Waits;
      if creditNotify {
        creditNotify, caller, v := false, U.Loop(caller.rest), Wrote([]);
      } else if done {
        FailWrite();
        v := Wrote([]);
      }
    }

    /** The chunk goes out; the call returns nil when it was the last one. */
    method WriteData() returns (v: Verdict)
      requires caller.Sending?
      modifies this
      ensures Did(U.ClientStep(old(View()), U.WriteData), v, old(View()), View())
    {
      v := Wrote([Data(caller.chunk)]);
      if caller.rest == [] {
        caller, acked, pending := U.Idle, acked + pending, [];
      } else {
        caller := U.Loop(caller.rest);
      }
    }

    method Step(m: U.ClientMove) returns (v: Verdict)
      modifies this
      ensures Did(U.ClientStep(old(View()), m), v, old(View()), View())
    {
      v := Waits;
      match m {
        case StartWrite(data) =>
          if caller.Idle? && accepted && data != [] {
            caller, pending, v := U.Loop(data), data, Wrote([]);
          }
        case SpendCredit =>
          if caller.Loop? {
            SpendCredit();
            v := Wrote([]);
          }
        case Wake =>
          if caller.Asleep? {
            v := Wake();
          }
        case AbandonWrite =>
          if caller.Asleep? {
            FailWrite();
            v := Wrote([]);
          }
        case WriteData =>
          if caller.Sending? {
            v := WriteData();
          }
        case StartCommit =>
          if caller.Idle? && accepted && !done {
            caller := if closing then U.Awaiting else U.Closing;
            closing, v := true, Wrote([]);
          }
        case WriteClose =>
          if caller.Closing? {
            caller, v := U.Awaiting, Wrote([Close(UploadComplete)]);
          }
        case EndCommit =>
          if caller.Awaiting? && done {
            caller, committed, v := U.Idle, committed || !failed, Wrote([]);
          }
        case Notify =>
          if posting {
            posting, creditNotify, v := false, true, Wrote([]);
          }
      }
    }

    /** The monitor goroutine's dispatch of one frame of this stream. */
    method Receive(f: Frame) returns (v: Verdict)
      modifies this
      ensures Did(U.ClientReceive(old(View()), f), v, old(View()), View())
    {
      if posting {
        return Waits;
      }
      if done {
        return Refuses;
      }
      v := Refuses;
      match f {
        case Accepted(w) =>
          if !accepted && !closing && 0 < w <= MAX_WINDOW {
            accepted, sendCredit, v := true, w, Wrote([]);
          }
        case WindowUpdate(n) =>
          if 0 < n <= MAX_WINDOW && accepted && n + sendCredit <= MAX_WINDOW {
            sendCredit, posting, v := sendCredit + n, true, Wrote([]);
          }
        case Close(r) =>
          if accepted && closing && r == PeerClose {
            done, creditNotify, v := true, true, Wrote([]);
          }
        case StreamError => failed, done, creditNotify, v := true, true, true, Wrote([]);
        case _ =>
      }
    }
  }

  // ----- server -----

  /** typedFileChild of an upload: the receive window in front of a staged upload. */
  class ServedUpload {
    const recvCredit: Credit
    const upload: FileStore.FileUpload
    var closed: bool
    var handler: U.Handler
    var broken: bool

    ghost function View(): U.Server
      reads this, recvCredit, upload, upload.root
    {
      U.Server(recvCredit.remaining, upload.View(), closed, handler, broken)
    }

    ghost predicate Valid()
      reads this, recvCredit, upload, upload.root
    {
      && recvCredit.Valid() && upload.Valid()
      && (handler.Refunding? ==> 0 < handler.n <= MAX_WINDOW)
      && (handler.Announcing? ==> 0 < handler.n <= MAX_WINDOW)
    }

    constructor (root: FileStore.Root, terms: FileStore.Terms, sha: FileStore.Hash)
      requires terms.Valid()
      modifies root
      ensures Valid() && fresh(recvCredit) && fresh(upload)
      ensures upload.root == root && upload.terms == terms && upload.sha == sha
      ensures View() == U.NewServer(terms, old(root.files))
    {
      recvCredit := new Credit(RECEIVE_WINDOW);
      upload := new FileStore.FileUpload(root, terms, sha);
      closed, handler, broken := false, U.Free, false;
    }

    /** The data handler up to the staged write. */
    method HandleData(payload: seq<Byte>, x: U.Faults) returns (v: Verdict)
      requires Valid() && !closed && handler.Free?
      modifies this, recvCredit, upload, upload.root
      ensures Valid()
      ensures Did(U.ServerReceive(upload.terms, upload.sha, old(View()), Data(payload), x), v, old(View()), View())
    {
      if !(0 < |payload| <= MAX_CHUNK) {
        return Refuses;
      }
      var spent := recvCredit.Consume(|payload|);
      if !spent {
        return Refuses;
      }
      var n, ok := upload.Write(payload, x.wf, x.removeOk);
      handler := if ok && n == |payload| then U.Announcing(n) else U.Finishing(false);
      v := Wrote([]);
    }

    /** closeChild: the staged upload is cancelled unless it was committed. */
    method CloseChild(removeOk: bool)
      requires Valid() && handler.Finishing?
      modifies this, upload, upload.root
      ensures Valid()
      ensures U.ServerStep(upload.terms, upload.sha, old(View()), U.CloseChild(removeOk)) == Moves(View(), [])
    {
      closed, broken, handler := true, !handler.ok, U.Answering(handler.ok);
      upload.Cancel(removeOk);
    }

    /** Other programs touch the directory. */
    method Elsewhere(after: FileStore.Directory) returns (v: Verdict)
      requires Valid()
      modifies upload.root
      ensures Valid()
      ensures Did(U.ServerStep(upload.terms, upload.sha, old(View()), U.Elsewhere(after)), v, old(View()), View())
    {
      v := Waits;
      if FileStore.Tolerates(upload.terms,
                             FileStore.Upload(upload.root.files, upload.written, upload.digest, upload.closed,
                                              upload.committed), after) {
        upload.root.files := after;
        v := Wrote([]);
      }
    }

    method Step(m: U.ServerMove) returns (v: Verdict)
      requires Valid()
      modifies this, recvCredit, upload, upload.root
      ensures Valid()
      ensures Did(U.ServerStep(upload.terms, upload.sha, old(View()), m), v, old(View()), View())
    {
      v := Waits;
      match m {
        case Announce =>
          if handler.Announcing? {
            handler, v := U.Refunding(handler.n), Wrote([WindowUpdate(handler.n)]);
          }
        case Refund =>
          if handler.Refunding? {
            var ok := recvCredit.Add(handler.n);
            if ok {
              handler, v := U.Free, Wrote([]);
            } else {
              v := Refuses;
            }
          }
        case CloseChild(removeOk) =>
          if handler.Finishing? {
            CloseChild(removeOk);
            v := Wrote([]);
          }
        case Answer =>
          if handler.Answering? {
            v := Wrote([if handler.ok then Close(PeerClose) else StreamError]);
            handler := U.Free;
          }
        case Elsewhere(after) => v := Elsewhere(after);
      }
    }

    /** The frame loop's dispatch of one frame of this stream. */
    method Receive(f: Frame, x: U.Faults) returns (v: Verdict)
      requires Valid()
      modifies this, recvCredit, upload, upload.root
      ensures Valid()
      ensures Did(U.ServerReceive(upload.terms, upload.sha, old(View()), f, x), v, old(View()), View())
    {
      if !handler.Free? {
        return Waits;
      }
      if closed {
        return Refuses;
      }
      v := Refuses;
      match f {
        case Data(p) => v := HandleData(p, x);
        case Close(_) =>
          var ok := upload.Commit(x.cf, x.removeOk);
          handler, v := U.Finishing(ok), Wrote([]);
        case StreamError =>
          upload.Cancel(x.removeOk);
          closed, v := true, Wrote([Close(PeerClose)]);
        case _ =>
      }
    }
  }

  // ----- both ends and the frames between them -----

  class UploadSession {
    const client: ClientUpload
    const server: ServedUpload
    var up: seq<Frame>
    var down: seq<Frame>
    var status: Status

    ghost function View(): U.Stream
      reads this, client, server, server.recvCredit, server.upload, server.upload.root
    {
      Link(client.View(), server.View(), up, down, status)
    }

    ghost predicate Valid()
      reads this, client, server, server.recvCredit, server.upload, server.upload.root
    {
      server.Valid() && U.Inv(server.upload.terms, server.upload.sha, View())
    }

    constructor (root: FileStore.Root, terms: FileStore.Terms, sha: FileStore.Hash)
      requires terms.Valid()
      modifies root
      ensures Valid() && View() == U.Init(terms, old(root.files))
      ensures server.upload.terms == terms && server.upload.sha == sha && server.upload.root == root
      ensures fresh(client) && fresh(server) && fresh(server.recvCredit) && fresh(server.upload)
    {
      client := new ClientUpload();
      server := new ServedUpload(root, terms, sha);
      up, down, status := [], [Accepted(RECEIVE_WINDOW)], Live;
      new;
      U.InitHolds(terms, sha, old(root.files));
    }

    method ClientMoves(m: U.ClientMove)
      requires server.Valid() && status.Live?
      modifies this`up, this`status, client
      ensures server.Valid() && View() == U.Do(server.upload.terms, server.upload.sha, old(View()), U.ClientDoes(m))
    {
      var v := client.Step(m);
      up, status := Sent(up, v), Ends(status, v, ClientRefused);
    }

    method ServerMoves(m: U.ServerMove)
      requires server.Valid() && status.Live?
      modifies this`down, this`status, server, server.recvCredit, server.upload, server.upload.root
      ensures server.Valid() && View() == U.Do(server.upload.terms, server.upload.sha, old(View()), U.ServerDoes(m))
    {
      var v := server.Step(m);
      down, status := Sent(down, v), Ends(status, v, ServerRefused);
    }

    method ClientTakes()
      requires server.Valid() && status.Live?
      modifies this`up, this`down, this`status, client
      ensures server.Valid() && View() == U.Do(server.upload.terms, server.upload.sha, old(View()), U.ClientReceives)
    {
      if down != [] {
        var v := client.Receive(down[0]);
        if v.Wrote? {
          down := down[1..];
        }
        up, status := Sent(up, v), Ends(status, v, ClientRefused);
      }
    }

    method ServerTakes(x: U.Faults)
      requires server.Valid() && status.Live?
      modifies this`up, this`down, this`status, server, server.recvCredit, server.upload, server.upload.root
      ensures server.Valid()
      ensures View() == U.Do(server.upload.terms, server.upload.sha, old(View()), U.ServerReceives(x))
    {
      if up != [] {
        var v := server.Receive(up[0], x);
        if v.Wrote? {
          up := up[1..];
        }
        down, status := Sent(down, v), Ends(status, v, ServerRefused);
      }
    }

    /** One step of one goroutine, performed on the objects. */
    method Perform(a: U.Action)
      requires server.Valid()
      modifies this, client, server, server.recvCredit, server.upload, server.upload.root
      ensures server.Valid() && View() == U.Do(server.upload.terms, server.upload.sha, old(View()), a)
    {
      if status.Live? {
        match a {
          case ClientDoes(m) => ClientMoves(m);
          case ServerDoes(m) => ServerMoves(m);
          case ClientReceives => ClientTakes();
          case ServerReceives(x) => ServerTakes(x);
        }
      }
    }

    /** Any interleaving of the methods of both ends is a run of the machine, so everything proved about
        runs is true of the objects: here, that a nil Commit after nil Writes published the bytes. */
    method Execute(schedule: seq<U.Action>)
      requires Valid()
      modifies this, client, server, server.recvCredit, server.upload, server.upload.root
      ensures Valid()
      ensures View() == U.Run(server.upload.terms, server.upload.sha, old(View()), schedule)
      ensures client.committed && client.allNil ==>
        server.upload.terms.destination in server.upload.root.files &&
        server.upload.root.files[server.upload.terms.destination] == client.acked
    {
      ghost var t, sha, start := server.upload.terms, server.upload.sha, View();
      for i := 0 to |schedule|
        invariant Valid() && View() == U.Run(t, sha, start, schedule[..i])
      {
        U.DoKeeps(t, sha, View(), schedule[i]);
        Machine.Next(U.Step(t, sha), start, schedule, i);
        Perform(schedule[i]);
      }
      assert schedule[..|schedule|] == schedule;
      if client.committed && client.allNil {
        U.CommittedCopy(t, sha, View());
      }
    }

    /** One step of Write while nobody else moves. */
    method Advance() returns (ghost a: U.Action)
      requires Valid() && status.Live? && WriteCanGoOn(client.View())
      modifies this, client, server, server.recvCredit, server.upload, server.upload.root
      ensures Valid() && status.Live? && server.View() == old(server.View())
      ensures View() == U.Do(server.upload.terms, server.upload.sha, old(View()), a)
      ensures Left(client.View()) < old(Left(client.View()))
      ensures Returns(old(client.View()), client.View())
    {
      var m := NextMove(client.caller);
      a := U.ClientDoes(m);
      U.DoKeeps(server.upload.terms, server.upload.sha, View(), a);
      WriteAdvances(client.View());
      ClientMoves(m);
    }

    /** The loop of Write on its own. It goes on until it returns or waits for credit, and whatever it does
        is a run of the machine; if it returns nil the whole argument is on the wire. */
    method Write(data: seq<Byte>) returns (ghost schedule: seq<U.Action>)
      requires Valid() && status.Live? && client.accepted && client.caller.Idle? && data != []
      modifies this, client, server, server.recvCredit, server.upload, server.upload.root
      ensures Valid() && server.View() == old(server.View())
      ensures View() == U.Run(server.upload.terms, server.upload.sha, old(View()), schedule)
      ensures !WriteCanGoOn(client.View())
      ensures client.caller.Idle? && client.allNil ==> client.acked == old(client.acked) + data
    {
      ghost var t, sha, start := server.upload.terms, server.upload.sha, View();
      ghost var first := U.ClientDoes(U.StartWrite(data));
      U.DoKeeps(t, sha, start, first);
      Machine.Then(U.Step(t, sha), start, [], first);
      ClientMoves(U.StartWrite(data));
      schedule := [] + [first];
      while client.caller.Loop? || client.caller.Sending? ||
            (client.caller.Asleep? && (client.creditNotify || client.done))
        invariant Valid() && status.Live? && server.View() == old(server.View())
        invariant View() == U.Run(t, sha, start, schedule)
        invariant !client.caller.Closing? && !client.caller.Awaiting?
        invariant if client.caller.Idle? then client.allNil ==> client.acked == start.client.acked + data
                  else client.pending == data && client.acked == start.client.acked
        decreases Left(client.View())
      {
        ghost var a := Advance();
        Machine.Then(U.Step(t, sha), start, schedule, a);
        schedule := schedule + [a];
      }
    }
  }

  // ----- a Write that runs alone -----

  predicate WriteCanGoOn(c: U.Client)
  {
    c.caller.Loop? || c.caller.Sending? || (c.caller.Asleep? && (c.token || c.done))
  }

  function NextMove(k: U.Caller): U.ClientMove
  {
    match k
    case Loop(_) => U.SpendCredit
    case Sending(_, _) => U.WriteData
    case _ => U.Wake
  }

  /** How many steps a Write can take before it returns or waits. */
  function Left(c: U.Client): nat
  {
    (if c.token then 2 else 0) +
    match c.caller
    case Loop(rest) => 3 * |rest| + 2
    case Asleep(rest) => 3 * |rest| + 1
    case Sending(chunk, rest) => 3 * |chunk| + 3 * |rest| + 1
    case _ => 0
  }

  /** The Write is still at its argument, or it returned nil, or it returned an error. */
  predicate Returns(c: U.Client, c': U.Client)
  {
    match c'.caller
    case Loop(_) | Asleep(_) | Sending(_, _) => c'.pending == c.pending && c'.acked == c.acked
    case Idle => c'.allNil ==> c'.acked == c.acked + c.pending
    case _ => false
  }

  lemma WriteAdvances(c: U.Client)
    requires U.ClientOk(c) && WriteCanGoOn(c)
    ensures var o := U.ClientStep(c, NextMove(c.caller));
      o.Moves? && Left(o.next) < Left(c) && Returns(c, o.next)
  {
  }
}
