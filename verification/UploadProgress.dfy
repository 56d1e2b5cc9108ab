/** Neither Write nor Commit can hang: from every reachable state with the parent session up, some
    continuation makes the call in progress return, whatever disk faults have happened before. */
module UploadProgress {
  import FileStore
  import Machine
  import opened Protocol
  import opened Upload

  // ----- a measure -----

  function CallerRank(k: Caller): nat
  {
    11 * |InCaller(k)| +
    match k
    case Loop(_) => 2
    case Closing => 10
    case Awaiting => 1
    case _ => 0
  }

  function ClientRank(c: Client): nat
  {
    CallerRank(c.caller) + (if c.token then 3 else 0) + (if c.posting then 4 else 0)
  }

  function ServerRank(s: Server): nat
  {
    match s.handler
    case Free => 0
    case Announcing(_) => 7
    case Refunding(_) => 1
    case Finishing(_) => 7
    case Answering(_) => 6
  }

  function Rank(l: Stream): nat
  {
    if l.status.Live? then 1 + ClientRank(l.client) + ServerRank(l.server) + 8 * |l.up| + 5 * |l.down| else 0
  }

  // ----- a schedule that always moves -----

  predicate CallerBusy(c: Client)
  {
    || c.caller.Loop? || c.caller.Sending? || c.caller.Closing?
    || (c.caller.Asleep? && (c.token || c.done))
    || (c.caller.Awaiting? && c.done)
  }

  function CallerNext(k: Caller): ClientMove
  {
    match k
    case Loop(_) => SpendCredit
    case Sending(_, _) => WriteData
    case Closing => WriteClose
    case Awaiting => EndCommit
    case _ => Wake
  }

  function ServerNext(h: Handler): ServerMove
  {
    match h
    case Announcing(_) => Announce
    case Refunding(_) => Refund
    case Finishing(_) => CloseChild(true)
    case _ => Answer
  }

  const NO_FAULTS := Faults(FileStore.WriteFault(MAX_CHUNK, false), FileStore.CommitFault(true, true, true), true)

  function Next(l: Stream): Action
  {
    if l.client.posting then ClientDoes(Notify)
    else if CallerBusy(l.client) then ClientDoes(CallerNext(l.client.caller))
    else if !l.server.handler.Free? then ServerDoes(ServerNext(l.server.handler))
    else if l.down != [] then ClientReceives
    else ServerReceives(NO_FAULTS)
  }

  lemma CallerMoves(c: Client)
    requires ClientOk(c) && !c.caller.Idle? && (c.posting || CallerBusy(c))
    ensures ClientStep(c, if c.posting then Notify else CallerNext(c.caller)).Moves?
  {
  }

  lemma ServerMoves(t: FileStore.Terms, sha: FileStore.Hash, s: Server)
    requires ServerOk(t, sha, s) && !s.handler.Free?
    ensures ServerStep(t, sha, s, ServerNext(s.handler)).Moves?
  {
    ServerStepLedger(t, sha, s, ServerNext(s.handler));
  }

  lemma ClientHandles(t: FileStore.Terms, sha: FileStore.Hash, l: Stream)
    requires Inv(t, sha, l) && !l.client.posting && !l.client.done && l.down != []
    ensures var o := ClientReceive(l.client, l.down[0]);
      o.Moves? && o.emits == [] && ClientRank(o.next) < ClientRank(l.client) + 5
  {
    ClientNeverRefuses(t, sha, l);
    assert DownFrame(l.down[0], !l.client.accepted, |l.down| == 1);
  }

  lemma ServerHandles(t: FileStore.Terms, sha: FileStore.Hash, l: Stream)
    requires Inv(t, sha, l) && l.server.handler.Free? && !l.server.closed && l.up != []
    ensures ServerReceive(t, sha, l.server, l.up[0], NO_FAULTS).Moves?
  {
    ServerRefusesOnlyWhenBroken(t, sha, l, NO_FAULTS);
  }

  /** A caller that can only wait is waiting for something that is on its way. */
  lemma NotStarved(t: FileStore.Terms, sha: FileStore.Hash, l: Stream)
    requires Inv(t, sha, l) && !l.client.caller.Idle? && !l.client.posting && !CallerBusy(l.client)
    requires l.server.handler.Free? && l.down == []
    ensures !l.server.closed && l.up != []
  {
    assert l.up == [] ==> DataOf(l.up) == [];
    assert CreditOf(l.down) == 0;
  }

  lemma Advances(t: FileStore.Terms, sha: FileStore.Hash, l: Stream)
    requires Inv(t, sha, l) && l.status.Live? && !l.client.caller.Idle?
    ensures var l' := Do(t, sha, l, Next(l)); l'.status.Live? && Rank(l') < Rank(l)
  {
    if l.client.posting || CallerBusy(l.client) {
      CallerMoves(l.client);
      ClientStepCounts(l.client, Next(l).cm);
    } else if !l.server.handler.Free? {
      ServerMoves(t, sha, l.server);
      ServerStepCounts(t, sha, l.server, Next(l).sm);
    } else if l.down != [] {
      ClientHandles(t, sha, l);
    } else {
      NotStarved(t, sha, l);
      ServerHandles(t, sha, l);
      ServerReceiveCounts(t, sha, l, NO_FAULTS);
    }
  }

  lemma {:induction false} Drain(t: FileStore.Terms, sha: FileStore.Hash, l: Stream) returns (rest: seq<Action>)
    requires Inv(t, sha, l) && l.status.Live?
    ensures Run(t, sha, l, rest).client.caller.Idle?
    ensures forall i :: 0 <= i < |rest| ==> rest[i] != ClientDoes(AbandonWrite)
    decreases Rank(l)
  {
    if l.client.caller.Idle? {
      rest := [];
    } else {
      var a := Next(l);
      Advances(t, sha, l);
      DoKeeps(t, sha, l, a);
      var tail := Drain(t, sha, Do(t, sha, l, a));
      rest := [a] + tail;
      Machine.Before(Step(t, sha), l, a, tail);
    }
  }

  // ----- every run is short -----

  /** What comes from outside: a call of Write or Commit, and somebody else changing the directory. */
  function Cost(a: Action): nat
  {
    if a.ClientDoes? && a.cm.StartWrite? then 11 * |a.cm.data| + 3
    else if a.ClientDoes? && a.cm.StartCommit? then 11
    else if a.ServerDoes? && a.sm.Elsewhere? then 1
    else 0
  }

  lemma ClientStepCounts(c: Client, m: ClientMove)
    requires ClientOk(c) && ClientStep(c, m).Moves?
    ensures var o := ClientStep(c, m); ClientRank(o.next) + 8 * |o.emits| < ClientRank(c) + Cost(ClientDoes(m))
  {
    if m.SpendCredit? && !c.done && c.sendCredit > 0 {
      var n := Min(Min(|c.caller.rest|, MAX_CHUNK), c.sendCredit);
      assert c.caller.rest == c.caller.rest[..n] + c.caller.rest[n..];
    }
  }

  lemma ServerStepCounts(t: FileStore.Terms, sha: FileStore.Hash, s: Server, m: ServerMove)
    requires ServerStep(t, sha, s, m).Moves?
    ensures var o := ServerStep(t, sha, s, m); ServerRank(o.next) + 5 * |o.emits| < ServerRank(s) + Cost(ServerDoes(m))
  {
  }

  lemma ServerReceiveCounts(t: FileStore.Terms, sha: FileStore.Hash, l: Stream, x: Faults)
    requires Inv(t, sha, l) && l.up != [] && ServerReceive(t, sha, l.server, l.up[0], x).Moves?
    ensures var o := ServerReceive(t, sha, l.server, l.up[0], x); o.emits == [] && ServerRank(o.next) < 8
  {
    assert UpFrame(l.up[0], |l.up| == 1);
  }

  lemma EveryStepCounts(t: FileStore.Terms, sha: FileStore.Hash, l: Stream, a: Action)
    requires Inv(t, sha, l)
    ensures var l' := Do(t, sha, l, a); l' == l || Rank(l') < Rank(l) + Cost(a)
  {
    if l.status.Live? {
      match a
      case ClientDoes(m) => if ClientStep(l.client, m).Moves? { ClientStepCounts(l.client, m); }
      case ServerDoes(m) => if ServerStep(t, sha, l.server, m).Moves? { ServerStepCounts(t, sha, l.server, m); }
      case ClientReceives => if l.down != [] && ClientReceive(l.client, l.down[0]).Moves? { ClientHandles(t, sha, l); }
      case ServerReceives(x) =>
        if l.up != [] && ServerReceive(t, sha, l.server, l.up[0], x).Moves? { ServerReceiveCounts(t, sha, l, x); }
    }
  }

  /** However the two ends are scheduled and whatever the disk does, the number of effective steps is
      linear in the bytes and calls submitted and in what others do to the directory. */
  lemma TerminatesWithin(t: FileStore.Terms, sha: FileStore.Hash, dir: FileStore.Directory, schedule: seq<Action>)
    requires t.Valid()
    ensures Machine.Effective(Step(t, sha), Init(t, dir), schedule) <= Machine.Work(Cost, schedule) + 6
  {
    InitHolds(t, sha, dir);
    forall l, a | Inv(t, sha, l)
      ensures Inv(t, sha, Do(t, sha, l, a)) && (Do(t, sha, l, a) == l || Rank(Do(t, sha, l, a)) < Rank(l) + Cost(a))
    {
      DoKeeps(t, sha, l, a);
      EveryStepCounts(t, sha, l, a);
    }
    Machine.RankBounds(Step(t, sha), l => Inv(t, sha, l), Rank, Cost, Init(t, dir), schedule);
  }

  /** While the parent session is up, a Write or Commit in progress always has a step ahead of it
      other than its caller giving up. */
  lemma NeverStuck(t: FileStore.Terms, sha: FileStore.Hash, dir: FileStore.Directory, schedule: seq<Action>)
    requires t.Valid()
    ensures var l := Run(t, sha, Init(t, dir), schedule);
      l.status.Live? && !l.client.caller.Idle? ==>
        && Next(l) != ClientDoes(AbandonWrite) && Cost(Next(l)) == 0
        && Do(t, sha, l, Next(l)).status.Live? && Do(t, sha, l, Next(l)) != l
  {
    Reachable(t, sha, dir, schedule);
    var l := Run(t, sha, Init(t, dir), schedule);
    if l.status.Live? && !l.client.caller.Idle? {
      Advances(t, sha, l);
    }
  }

  /** Every run with the parent session up can be continued until the Write or Commit in progress
      has returned, without its caller giving up. */
  lemma CallReturns(t: FileStore.Terms, sha: FileStore.Hash, dir: FileStore.Directory, schedule: seq<Action>)
    returns (rest: seq<Action>)
    requires t.Valid() && Run(t, sha, Init(t, dir), schedule).status.Live?
    ensures Run(t, sha, Init(t, dir), schedule + rest).client.caller.Idle?
    ensures forall i :: 0 <= i < |rest| ==> rest[i] != ClientDoes(AbandonWrite)
  {
    Reachable(t, sha, dir, schedule);
    rest := Drain(t, sha, Run(t, sha, Init(t, dir), schedule));
    Machine.RunConcat(Step(t, sha), Init(t, dir), schedule, rest);
  }

  // ----- a stream that stands still -----

  /** What the caller and everybody else decide. */
  predicate Callers(a: Action)
  {
    || (a.ClientDoes? && (a.cm.StartWrite? || a.cm.StartCommit? || a.cm.AbandonWrite?))
    || (a.ServerDoes? && a.sm.Elsewhere?)
  }

  predicate ClientStirs(c: Client) { c.posting || CallerBusy(c) }

  function StirMove(c: Client): ClientMove { if c.posting then Notify else CallerNext(c.caller) }

  lemma ClientStirMoves(c: Client)
    requires ClientOk(c) && ClientStirs(c)
    ensures var o := ClientStep(c, StirMove(c)); o.Moves? && o.next != c && !Callers(ClientDoes(StirMove(c)))
  {
  }

  lemma ServerStirMoves(t: FileStore.Terms, sha: FileStore.Hash, s: Server)
    requires ServerOk(t, sha, s) && !s.handler.Free?
    ensures var o := ServerStep(t, sha, s, ServerNext(s.handler));
      o.Moves? && o.next != s && !Callers(ServerDoes(ServerNext(s.handler)))
  {
    ServerStepLedger(t, sha, s, ServerNext(s.handler));
  }

  /** An end that does not stir takes the frame in front of it. */
  lemma NotBlocked(t: FileStore.Terms, sha: FileStore.Hash, l: Stream, x: Faults)
    requires Inv(t, sha, l)
    ensures l.up != [] && l.server.handler.Free? ==> !ServerReceive(t, sha, l.server, l.up[0], x).Blocked?
    ensures l.down != [] && !ClientStirs(l.client) ==> ClientReceive(l.client, l.down[0]).Moves?
  {
    if l.down != [] {
      ClientNeverRefuses(t, sha, l);
    }
  }

  /** Nothing is on its way and nothing stirs: then no call is waiting either. */
  lemma AtRest(t: FileStore.Terms, sha: FileStore.Hash, l: Stream)
    requires Inv(t, sha, l) && l.up == [] && l.down == [] && !ClientStirs(l.client) && l.server.handler.Free?
    ensures l.client.caller.Idle?
  {
    if !l.client.caller.Idle? {
      NotStarved(t, sha, l);
    }
  }

  ghost predicate Quiet(t: FileStore.Terms, sha: FileStore.Hash, l: Stream)
  {
    forall a :: !Callers(a) ==> Do(t, sha, l, a) == l
  }

  lemma QuietIsAtRest(t: FileStore.Terms, sha: FileStore.Hash, l: Stream)
    requires Inv(t, sha, l) && l.status.Live? && Quiet(t, sha, l)
    ensures l.up == [] && l.down == [] && !ClientStirs(l.client) && l.server.handler.Free?
  {
    NotBlocked(t, sha, l, NO_FAULTS);
    var cm, sm := ClientDoes(StirMove(l.client)), ServerDoes(ServerNext(l.server.handler));
    assert Callers(cm) || Do(t, sha, l, cm).client == l.client;
    if ClientStirs(l.client) {
      ClientStirMoves(l.client);
    }
    assert Callers(sm) || Do(t, sha, l, sm).server == l.server;
    if !l.server.handler.Free? {
      ServerStirMoves(t, sha, l.server);
    }
    var back := Do(t, sha, l, ServerReceives(NO_FAULTS));
    assert |back.up| == |l.up| && back.status == l.status;
    assert |Do(t, sha, l, ClientReceives).down| == |l.down|;
  }

  /** In every reachable state in which no step but the caller's has an effect, no call is waiting. */
  lemma OnlyTheCallerIsAwaited(t: FileStore.Terms, sha: FileStore.Hash, dir: FileStore.Directory, schedule: seq<Action>)
    requires t.Valid()
    ensures var l := Run(t, sha, Init(t, dir), schedule);
      l.status.Live? && Quiet(t, sha, l) ==> l.client.caller.Idle?
  {
    Reachable(t, sha, dir, schedule);
    var l := Run(t, sha, Init(t, dir), schedule);
    if l.status.Live? && Quiet(t, sha, l) {
      QuietIsAtRest(t, sha, l);
      AtRest(t, sha, l);
    }
  }
}
