/** A session over a transport that holds at most `cap` frames in each direction: a frame write that finds no
    room waits. Two goroutines write while they are also the only ones that take frames off a channel, the
    client's monitor for its acknowledgement of a finished download and the server's frame loop for its window
    updates and answers. If each waits for the other, the session stands still; and that is the only way. */
module MultiplexBackPressure {
  import opened Common
  import Download
  import DownloadProgress
  import FileStore
  import Machine
  import opened Multiplex
  import MultiplexProgress
  import opened Protocol
  import Terminal
  import TerminalProgress
  import Upload
  import UploadProgress

  predicate Fits(cap: nat, p: Parent) { |p.up| <= cap && |p.down| <= cap }

  /** A step that would write to a full channel has to wait. */
  function DoWithin(cap: nat, sha: FileStore.Hash, p: Parent, a: Action): Parent
  {
    if Fits(cap, Do(sha, p, a)) then Do(sha, p, a) else p
  }

  function StepWithin(cap: nat, sha: FileStore.Hash): (Parent, Action) -> Parent { (p, a) => DoWithin(cap, sha, p, a) }

  function RunWithin(cap: nat, sha: FileStore.Hash, p: Parent, schedule: seq<Action>): Parent
  {
    Machine.Run(StepWithin(cap, sha), p, schedule)
  }

  lemma StepsWithin(cap: nat, sha: FileStore.Hash, I: Property, p: Parent, schedule: seq<Action>)
    requires Inductive(sha, I) && Sane(I, p) && MultiplexProgress.Awaited(p) && Fits(cap, p)
    ensures var q := RunWithin(cap, sha, p, schedule); Sane(I, q) && MultiplexProgress.Awaited(q) && Fits(cap, q)
  {
    forall q, a | Sane(I, q) && MultiplexProgress.Awaited(q) && Fits(cap, q)
      ensures var r := DoWithin(cap, sha, q, a); Sane(I, r) && MultiplexProgress.Awaited(r) && Fits(cap, r)
    {
      DoKeeps(sha, I, q, a);
      MultiplexProgress.StepAwaits(sha, q, a);
    }
    Machine.RunKeeps(StepWithin(cap, sha), q => Sane(I, q) && MultiplexProgress.Awaited(q) && Fits(cap, q),
                     p, schedule);
  }

  lemma ReachableWithin(cap: nat, sha: FileStore.Hash, dir: FileStore.Directory, schedule: seq<Action>)
    ensures var p := RunWithin(cap, sha, Start(dir), schedule);
      Sane(Invariant(sha), p) && MultiplexProgress.Awaited(p) && Fits(cap, p)
  {
    InvariantsAreClosed(sha);
    ClosedIsInductive(sha, Download.Inv, UploadInv(sha), Terminal.Inv);
    StepsWithin(cap, sha, Invariant(sha), Start(dir), schedule);
  }

  // ----- one stream -----

  predicate ClientStirs(ch: Child)
  {
    match ch
    case DownloadChild(c, _, _) => DownloadProgress.Stirs(c)
    case UploadChild(c, _, _) => UploadProgress.ClientStirs(c)
    case TerminalChild(c, _) => TerminalProgress.ClientStirs(c)
    case RejectedChild(_, _) => false
  }

  predicate ServerStirs(ch: Child)
  {
    match ch
    case DownloadChild(_, s, _) => DownloadProgress.ServerStirs(s)
    case UploadChild(_, s, _) => !s.handler.Free?
    case TerminalChild(_, s) => TerminalProgress.ServerStirs(s)
    case RejectedChild(_, _) => false
  }

  function ClientMove(ch: Child): Move
  {
    match ch
    case DownloadChild(c, _, _) => DownloadClient(DownloadProgress.ClientNext(c))
    case UploadChild(c, _, _) => UploadClient(UploadProgress.StirMove(c))
    case TerminalChild(c, _) => TerminalClient(TerminalProgress.ClientNext(c))
    case RejectedChild(_, _) => UploadServer(Upload.Announce)
  }

  function ServerMove(ch: Child): Move
  {
    match ch
    case DownloadChild(_, s, _) => DownloadServer(DownloadProgress.StirMove(s))
    case UploadChild(_, s, _) => UploadServer(UploadProgress.ServerNext(s.handler))
    case TerminalChild(_, s) => TerminalServer(TerminalProgress.ServerNext(s))
    case RejectedChild(_, _) => UploadServer(Upload.Announce)
  }

  /** The monitor's own next step, which writes nothing. */
  function MonitorMove(ch: Child): Move
  {
    match ch
    case DownloadChild(c, _, _) => DownloadClient(if c.monitor.Acking? then Download.FinishClose else Download.Notify)
    case UploadChild(_, _, _) => UploadClient(Upload.Notify)
    case TerminalChild(_, _) => TerminalClient(Terminal.Controls(Terminal.Notify))
    case RejectedChild(_, _) => UploadServer(Upload.Announce)
  }

  predicate Moves(sha: FileStore.Hash, ch: Child, m: Move)
  {
    LocalEffect(sha, ch, m).Steps? && LocalEffect(sha, ch, m).child != ch
  }

  predicate Sound(sha: FileStore.Hash, ch: Child)
  {
    match ch
    case DownloadChild(c, s, _) => Download.ClientOk(c) && Download.ServerOk(s)
    case UploadChild(c, s, t) => Upload.ClientOk(c) && Upload.ServerOk(t, sha, s)
    case TerminalChild(c, s) => Terminal.ClientOk(c) && Terminal.ServerOk(s)
    case RejectedChild(_, _) => true
  }

  lemma InvIsSound(sha: FileStore.Hash, ch: Child, up: seq<Frame>, down: seq<Frame>, st: Status)
    requires Invariant(sha)(ch, up, down, st)
    ensures Sound(sha, ch)
  {
    match ch
    case DownloadChild(c, s, content) => assert Download.Inv(Link(c, s, up, down, st), content);
    case UploadChild(c, s, t) => assert Upload.Inv(t, sha, Link(c, s, up, down, st));
    case TerminalChild(c, s) => assert Terminal.Inv(Link(c, s, up, down, st));
    case RejectedChild(_, _) =>
  }

  lemma ClientEmits(sha: FileStore.Hash, ch: Child, id: nat)
    requires Sound(sha, ch) && ClientStirs(ch)
    ensures Moves(sha, ch, ClientMove(ch)) && !MultiplexProgress.Outside(Local(id, ClientMove(ch)))
    ensures var e := LocalEffect(sha, ch, ClientMove(ch)); e.down == [] && |e.up| <= 1
  {
    match ch
    case DownloadChild(c, _, _) => DownloadProgress.ClientStirMoves(c);
    case UploadChild(c, _, _) => UploadProgress.ClientStirMoves(c);
    case TerminalChild(c, _) => TerminalEmits(c);
  }

  lemma TerminalEmits(c: Terminal.Client)
    requires Terminal.ClientOk(c) && TerminalProgress.ClientStirs(c)
    ensures var o := Terminal.ClientStep(c, TerminalProgress.ClientNext(c));
      && o.Moves? && o.next != c && |o.emits| <= 1
      && !TerminalProgress.Outside(Terminal.ClientDoes(TerminalProgress.ClientNext(c)))
  {
    TerminalProgress.ClientStirMoves(c);
    Terminal.ClientWrites(c, TerminalProgress.ClientNext(c));
  }

  lemma ServerEmits(sha: FileStore.Hash, ch: Child, id: nat)
    requires Sound(sha, ch) && ServerStirs(ch)
    ensures Moves(sha, ch, ServerMove(ch)) && !MultiplexProgress.Outside(Local(id, ServerMove(ch)))
    ensures var e := LocalEffect(sha, ch, ServerMove(ch)); e.up == [] && |e.down| <= 1
  {
    match ch
    case DownloadChild(_, s, _) => DownloadProgress.ServerStirMoves(s);
    case UploadChild(_, s, t) => UploadProgress.ServerStirMoves(t, sha, s);
    case TerminalChild(_, s) => TerminalProgress.ServerStirMoves(s);
  }

  lemma MonitorMoves(sha: FileStore.Hash, ch: Child, id: nat)
    requires MonitorBusy(ch)
    ensures Moves(sha, ch, MonitorMove(ch)) && !MultiplexProgress.Outside(Local(id, MonitorMove(ch)))
    ensures var e := LocalEffect(sha, ch, MonitorMove(ch)); e.up == [] && e.down == []
  {
  }

  /** Only the acknowledgement of a finished download makes the monitor wait or write. */
  lemma MonitorTakes(ch: Child, f: Frame)
    requires !MonitorBusy(ch)
    ensures var e := ClientEffect(ch, f);
      && (e.Waits? ==> ch.DownloadChild? && f.Close? && ClientStirs(ch))
      && (e.Steps? ==> e.down == [] && |e.up| <= 1 && (e.up != [] ==> ch.DownloadChild? && f.Close?))
  {
  }

  lemma LoopTakes(sha: FileStore.Hash, ch: Child, f: Frame, x: Answers)
    requires !LoopBusy(ch)
    ensures var e := ServerEffect(sha, ch, f, x); !e.Waits? && (e.Steps? ==> e.up == [] && |e.down| <= 1)
  {
  }

  // ----- the session -----

  ghost predicate QuietWithin(cap: nat, sha: FileStore.Hash, p: Parent)
  {
    forall a :: !MultiplexProgress.Outside(a) ==> DoWithin(cap, sha, p, a) == p
  }

  /** The server's frame loop is busy with a frame, or the next one is one it answers at once. */
  predicate LoopWrites(sha: FileStore.Hash, p: Parent)
    requires p.up != []
  {
    || (exists id :: id in p.children && LoopBusy(p.children[id]))
    || p.up[0].Opens?
    || (p.up[0].id in p.children &&
        var e := ServerEffect(sha, p.children[p.up[0].id], p.up[0].frame, NO_FAULTS); e.Steps? && e.down != [])
  }

  /** Both channels are full, the client's monitor is at a download_complete it has to acknowledge, and the
      server's frame loop is at a frame it has to answer. */
  predicate Clinch(cap: nat, sha: FileStore.Hash, p: Parent)
  {
    && |p.up| == cap == |p.down| && p.down != [] && p.down[0].Tagged? && p.down[0].id in p.children
    && p.children[p.down[0].id].DownloadChild? && p.down[0].frame.Close? && LoopWrites(sha, p)
  }

  lemma LocalFits(cap: nat, sha: FileStore.Hash, p: Parent, id: nat, m: Move)
    requires p.health.Up? && id in p.children && Moves(sha, p.children[id], m) && Fits(cap, p)
    requires var e := LocalEffect(sha, p.children[id], m); |p.up| + |e.up| <= cap && |p.down| + |e.down| <= cap
    ensures DoWithin(cap, sha, p, Local(id, m)) != p
  {
    MultiplexProgress.EffectShows(p, id, LocalEffect(sha, p.children[id], m));
  }

  lemma ClientWaitsOnlyForRoom(cap: nat, sha: FileStore.Hash, p: Parent, id: nat)
    requires Sane(Invariant(sha), p) && p.health.Up? && Fits(cap, p) && QuietWithin(cap, sha, p) && id in p.children
    ensures ClientStirs(p.children[id]) ==> |p.up| == cap
    ensures ServerStirs(p.children[id]) ==> |p.down| == cap
    ensures !MonitorBusy(p.children[id])
  {
    var ch := p.children[id];
    assert Invariant(sha)(ch, Only(id, p.up), Only(id, p.down), StatusOf(p.health, id));
    InvIsSound(sha, ch, Only(id, p.up), Only(id, p.down), StatusOf(p.health, id));
    if ClientStirs(ch) {
      ClientEmits(sha, ch, id);
      if |p.up| < cap {
        LocalFits(cap, sha, p, id, ClientMove(ch));
      }
    }
    if ServerStirs(ch) {
      ServerEmits(sha, ch, id);
      if |p.down| < cap {
        LocalFits(cap, sha, p, id, ServerMove(ch));
      }
    }
    if MonitorBusy(ch) {
      MonitorMoves(sha, ch, id);
      LocalFits(cap, sha, p, id, MonitorMove(ch));
    }
  }

  lemma MonitorGoesOn(cap: nat, sha: FileStore.Hash, p: Parent)
    requires Channels(p) && p.health.Up? && Fits(cap, p) && p.down != []
    requires forall id :: id in p.children ==> !MonitorBusy(p.children[id])
    requires var e := ClientEffect(p.children[p.down[0].id], p.down[0].frame);
      !e.Waits? && (e.Steps? ==> e.down == [] && |p.up| + |e.up| <= cap)
    ensures DoWithin(cap, sha, p, ClientReceives) != p
  {
    var id := p.down[0].id;
    var e := ClientEffect(p.children[id], p.down[0].frame);
    MultiplexProgress.TakingShows(p, id, e);
    if e.Steps? {
      assert |Do(sha, p, ClientReceives).down| == |p.down| - 1;
    }
  }

  lemma OpenGoesOn(cap: nat, sha: FileStore.Hash, p: Parent)
    requires p.health.Up? && Fits(cap, p) && p.up != [] && p.up[0].Opens? && |p.down| < cap
    requires forall id :: id in p.children ==> !LoopBusy(p.children[id])
    ensures DoWithin(cap, sha, p, ServerReceives(NO_FAULTS)) != p
  {
    OpenFits(p.(up := p.up[1..]), p.up[0].id, p.up[0].spec, NO_FAULTS);
    assert |Do(sha, p, ServerReceives(NO_FAULTS)).up| < |p.up|;
  }

  lemma FrameGoesOn(cap: nat, sha: FileStore.Hash, p: Parent)
    requires Channels(p) && p.health.Up? && Fits(cap, p) && p.up != [] && p.up[0].Tagged?
    requires forall id :: id in p.children ==> !LoopBusy(p.children[id])
    requires var e := ServerEffect(sha, p.children[p.up[0].id], p.up[0].frame, NO_FAULTS);
      !e.Waits? && (e.Steps? ==> e.up == [] && |p.down| + |e.down| <= cap)
    ensures DoWithin(cap, sha, p, ServerReceives(NO_FAULTS)) != p
  {
    var id := p.up[0].id;
    var e := ServerEffect(sha, p.children[id], p.up[0].frame, NO_FAULTS);
    MultiplexProgress.TakingShows(p, id, e);
    if e.Steps? {
      assert |Do(sha, p, ServerReceives(NO_FAULTS)).up| == |p.up| - 1;
    }
  }

  lemma LoopGoesOn(cap: nat, sha: FileStore.Hash, p: Parent)
    requires Channels(p) && p.health.Up? && Fits(cap, p) && p.up != [] && (|p.down| < cap || !LoopWrites(sha, p))
    requires forall id :: id in p.children ==> !LoopBusy(p.children[id])
    ensures DoWithin(cap, sha, p, ServerReceives(NO_FAULTS)) != p
  {
    if p.up[0].Opens? {
      OpenGoesOn(cap, sha, p);
    } else {
      LoopTakes(sha, p.children[p.up[0].id], p.up[0].frame, NO_FAULTS);
      FrameGoesOn(cap, sha, p);
    }
  }

  lemma OpenFits(q: Parent, id: nat, spec: Spec, x: Answers)
    ensures var r := ServerTakesOpen(q, id, spec, x); r.up == q.up && |r.down| <= |q.down| + 1
  {
  }

  /** With any capacity of at least one frame: in every reachable state of a session that is up and in which
      nothing but callers, processes and timers could act, either everything is at rest as in a session
      without limits, or the monitor and the frame loop wait for each other. */
  lemma StuckOnlyInAClinch(cap: nat, sha: FileStore.Hash, dir: FileStore.Directory, schedule: seq<Action>)
    requires cap >= 1
    ensures var p := RunWithin(cap, sha, Start(dir), schedule);
      p.health.Up? && QuietWithin(cap, sha, p) ==>
        || Clinch(cap, sha, p)
        || (&& p.up == [] && p.down == [] && p.asking == map[] && p.opening == map[]
            && forall id :: id in p.children ==> MultiplexProgress.ChildRests(p.children[id]))
  {
    ReachableWithin(cap, sha, dir, schedule);
    var p := RunWithin(cap, sha, Start(dir), schedule);
    if p.health.Up? && QuietWithin(cap, sha, p) {
      forall id | id in p.children
        ensures ClientStirs(p.children[id]) ==> |p.up| == cap
        ensures ServerStirs(p.children[id]) ==> |p.down| == cap
        ensures !MonitorBusy(p.children[id])
      {
        ClientWaitsOnlyForRoom(cap, sha, p, id);
      }
      if !Clinch(cap, sha, p) {
        DownDrains(cap, sha, p);
        UpDrains(cap, sha, p);
        RestsWithin(cap, sha, p);
      }
    }
  }

  ghost predicate WaitsForRoom(cap: nat, p: Parent)
  {
    forall id :: id in p.children ==>
      && (ClientStirs(p.children[id]) ==> |p.up| == cap) && (ServerStirs(p.children[id]) ==> |p.down| == cap)
      && !MonitorBusy(p.children[id])
  }

  lemma NoLoopBusy(cap: nat, p: Parent)
    requires WaitsForRoom(cap, p) && |p.down| < cap
    ensures forall id :: id in p.children ==> !LoopBusy(p.children[id])
  {
    forall id | id in p.children ensures !LoopBusy(p.children[id]) {
      BusyLoopStirs(p.children[id]);
    }
  }

  lemma BusyLoopStirs(ch: Child)
    ensures LoopBusy(ch) ==> ServerStirs(ch)
  {
  }

  /** Outside a clinch the client's monitor drains its channel. */
  lemma DownDrains(cap: nat, sha: FileStore.Hash, p: Parent)
    requires Sane(Invariant(sha), p) && p.health.Up? && Fits(cap, p) && cap >= 1
    requires QuietWithin(cap, sha, p) && WaitsForRoom(cap, p) && !Clinch(cap, sha, p)
    ensures p.down == []
  {
    if p.down != [] {
      var id, f := p.down[0].id, p.down[0].frame;
      MonitorTakes(p.children[id], f);
      if |p.up| < cap || !p.children[id].DownloadChild? || !f.Close? {
        MonitorGoesOn(cap, sha, p);
      } else {
        if |p.down| < cap {
          NoLoopBusy(cap, p);
        }
        LoopGoesOn(cap, sha, p);
      }
    }
  }

  lemma UpDrains(cap: nat, sha: FileStore.Hash, p: Parent)
    requires Sane(Invariant(sha), p) && p.health.Up? && Fits(cap, p) && cap >= 1 && p.down == []
    requires QuietWithin(cap, sha, p) && WaitsForRoom(cap, p)
    ensures p.up == []
  {
    NoLoopBusy(cap, p);
    if p.up != [] {
      LoopGoesOn(cap, sha, p);
    }
  }

  lemma RestsWithin(cap: nat, sha: FileStore.Hash, p: Parent)
    requires Sane(Invariant(sha), p) && MultiplexProgress.Awaited(p) && p.health.Up? && cap >= 1
    requires p.up == [] && p.down == [] && QuietWithin(cap, sha, p) && WaitsForRoom(cap, p)
    ensures p.asking == map[] && p.opening == map[]
    ensures forall id :: id in p.children ==> MultiplexProgress.ChildRests(p.children[id])
  {
    forall id | id in p.children ensures MultiplexProgress.ChildRests(p.children[id]) {
      var ch := p.children[id];
      assert Invariant(sha)(ch, Only(id, p.up), Only(id, p.down), StatusOf(p.health, id));
      assert MultiplexProgress.ChildStirs(ch) ==> ClientStirs(ch) || ServerStirs(ch);
      MultiplexProgress.ChildAtRest(sha, ch);
    }
    assert forall id :: id in p.opening ==> MultiplexProgress.Asked(p.up, id);
    if p.asking != map[] {
      var id :| id in p.asking;
      MultiplexProgress.OpeningShows(sha, p, id);
    }
  }
}
