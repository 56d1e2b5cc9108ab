/** A session cannot deadlock: neither head-of-line blocking on the shared channels nor the single
    goroutine behind each of them can bring its streams to a halt. */
module MultiplexProgress {
  import opened Common
  import Download
  import DownloadProgress
  import FileStore
  import Machine
  import opened Multiplex
  import Namespace
  import opened Protocol
  import Terminal
  import TerminalProgress
  import Upload
  import UploadProgress

  /** What callers, their contexts, processes, timers and everybody else decide. */
  predicate Outside(a: Action)
  {
    match a
    case ClientAllocates(_) => true
    case ClientAbandons(_) => true
    case ContextEnds(_) => true
    case Elsewhere(_) => true
    case Local(_, DownloadClient(m)) => DownloadProgress.Callers(Download.ClientDoes(m))
    case Local(_, UploadClient(m)) => UploadProgress.Callers(Upload.ClientDoes(m))
    case Local(_, TerminalClient(m)) => TerminalProgress.Outside(Terminal.ClientDoes(m))
    case Local(_, TerminalServer(m)) => TerminalProgress.Outside(Terminal.ServerDoes(m))
    case _ => false
  }

  /** Some goroutine of this stream has a step of its own. */
  predicate ChildStirs(ch: Child)
  {
    match ch
    case DownloadChild(c, s, _) => DownloadProgress.Stirs(c) || DownloadProgress.ServerStirs(s)
    case UploadChild(c, s, _) => UploadProgress.ClientStirs(c) || !s.handler.Free?
    case TerminalChild(c, s) => TerminalProgress.ClientStirs(c) || TerminalProgress.ServerStirs(s)
    case RejectedChild(_, _) => false
  }

  function StirMove(ch: Child): Move
  {
    match ch
    case DownloadChild(c, s, _) =>
      if DownloadProgress.Stirs(c) then DownloadClient(DownloadProgress.ClientNext(c))
      else DownloadServer(DownloadProgress.StirMove(s))
    case UploadChild(c, s, _) =>
      if UploadProgress.ClientStirs(c) then UploadClient(UploadProgress.StirMove(c))
      else UploadServer(UploadProgress.ServerNext(s.handler))
    case TerminalChild(c, s) =>
      if TerminalProgress.ClientStirs(c) then TerminalClient(TerminalProgress.ClientNext(c))
      else TerminalServer(TerminalProgress.ServerNext(s))
    case RejectedChild(_, _) => UploadServer(Upload.Announce)
  }

  lemma BusyStirs(ch: Child)
    ensures MonitorBusy(ch) || LoopBusy(ch) ==> ChildStirs(ch)
  {
  }

  lemma DownloadStirs(sha: FileStore.Hash, ch: Child)
    requires ch.DownloadChild? && ChildStirs(ch) && Download.ClientOk(ch.dc) && Download.ServerOk(ch.ds)
    ensures var e := LocalEffect(sha, ch, StirMove(ch)); e.Steps? && e.child != ch
    ensures forall id :: !Outside(Local(id, StirMove(ch)))
  {
    if DownloadProgress.Stirs(ch.dc) {
      DownloadProgress.ClientStirMoves(ch.dc);
    } else {
      DownloadProgress.ServerStirMoves(ch.ds);
    }
  }

  lemma UploadStirs(sha: FileStore.Hash, ch: Child)
    requires ch.UploadChild? && ChildStirs(ch) && Upload.ClientOk(ch.uc) && Upload.ServerOk(ch.terms, sha, ch.us)
    ensures var e := LocalEffect(sha, ch, StirMove(ch)); e.Steps? && e.child != ch
    ensures forall id :: !Outside(Local(id, StirMove(ch)))
  {
    if UploadProgress.ClientStirs(ch.uc) {
      UploadProgress.ClientStirMoves(ch.uc);
    } else {
      UploadProgress.ServerStirMoves(ch.terms, sha, ch.us);
    }
  }

  lemma TerminalStirs(sha: FileStore.Hash, ch: Child)
    requires ch.TerminalChild? && ChildStirs(ch) && Terminal.ClientOk(ch.tc) && Terminal.ServerOk(ch.ts)
    ensures var e := LocalEffect(sha, ch, StirMove(ch)); e.Steps? && e.child != ch
    ensures forall id :: !Outside(Local(id, StirMove(ch)))
  {
    if TerminalProgress.ClientStirs(ch.tc) {
      TerminalProgress.ClientStirMoves(ch.tc);
    } else {
      TerminalProgress.ServerStirMoves(ch.ts);
    }
  }

  lemma StirSteps(sha: FileStore.Hash, ch: Child, up: seq<Frame>, down: seq<Frame>, st: Status)
    requires Invariant(sha)(ch, up, down, st) && ChildStirs(ch)
    ensures var e := LocalEffect(sha, ch, StirMove(ch)); e.Steps? && e.child != ch
    ensures forall id :: !Outside(Local(id, StirMove(ch)))
  {
    match ch
    case DownloadChild(c, s, content) =>
      assert Download.Inv(Link(c, s, up, down, st), content);
      DownloadStirs(sha, ch);
    case UploadChild(c, s, t) =>
      assert Upload.Inv(t, sha, Link(c, s, up, down, st));
      UploadStirs(sha, ch);
    case TerminalChild(c, s) =>
      assert Terminal.Inv(Link(c, s, up, down, st));
      TerminalStirs(sha, ch);
    case RejectedChild(_, _) =>
  }

  lemma HeadIsTaken(sha: FileStore.Hash, ch: Child, up: seq<Frame>, down: seq<Frame>, x: Answers)
    requires Invariant(sha)(ch, up, down, Live) && !ChildStirs(ch)
    ensures down != [] ==> !ClientEffect(ch, down[0]).Waits?
    ensures up != [] ==> !ServerEffect(sha, ch, up[0], x).Waits?
  {
    match ch
    case DownloadChild(c, s, content) =>
      assert Download.Inv(Link(c, s, up, down, Live), content);
      DownloadProgress.NotBlocked(Link(c, s, up, down, Live), content);
    case UploadChild(c, s, t) =>
      assert Upload.Inv(t, sha, Link(c, s, up, down, Live));
      UploadProgress.NotBlocked(t, sha, Link(c, s, up, down, Live), x.faults);
    case TerminalChild(c, s) =>
      assert Terminal.Inv(Link(c, s, up, down, Live));
      TerminalProgress.NotBlocked(Link(c, s, up, down, Live), x.pty);
    case RejectedChild(_, _) =>
  }

  /** Nothing of this stream waits for another goroutine. */
  predicate ChildRests(ch: Child)
  {
    match ch
    case DownloadChild(c, _, content) => DownloadProgress.WaitsForCaller(c, content)
    case UploadChild(c, _, _) => c.caller.Idle?
    case TerminalChild(c, s) => TerminalProgress.AtEase(Link(c, s, [], [], Live))
    case RejectedChild(_, done) => done
  }

  lemma ChildAtRest(sha: FileStore.Hash, ch: Child)
    requires Invariant(sha)(ch, [], [], Live) && !ChildStirs(ch)
    ensures ChildRests(ch)
  {
    match ch
    case DownloadChild(c, s, content) =>
      assert Download.Inv(Link(c, s, [], [], Live), content);
      DownloadProgress.AtRest(Link(c, s, [], [], Live), content);
    case UploadChild(c, s, t) =>
      assert Upload.Inv(t, sha, Link(c, s, [], [], Live));
      UploadProgress.AtRest(t, sha, Link(c, s, [], [], Live));
    case TerminalChild(c, s) =>
      assert Terminal.Inv(Link(c, s, [], [], Live));
      TerminalProgress.AtRest(Link(c, s, [], [], Live));
    case RejectedChild(_, _) =>
  }

  // ----- the session -----

  ghost predicate Quiet(sha: FileStore.Hash, p: Parent) { forall a :: !Outside(a) ==> Do(sha, p, a) == p }

  lemma EffectShows(p: Parent, id: nat, e: Effect)
    requires id in p.children && e.Steps? && e.child != p.children[id]
    ensures Apply(p, id, e) != p
  {
    assert WithDir(e.child, DirOf(e.child, p.dir)) == e.child;
    assert Apply(p, id, e).children[id] == e.child;
  }

  lemma NobodyStirs(sha: FileStore.Hash, p: Parent, id: nat)
    requires Sane(Invariant(sha), p) && p.health.Up? && Quiet(sha, p) && id in p.children
    ensures !ChildStirs(p.children[id])
  {
    var ch := p.children[id];
    var a := Local(id, StirMove(ch));
    assert Outside(a) || Do(sha, p, a) == p;
    assert Invariant(sha)(ch, Only(id, p.up), Only(id, p.down), StatusOf(p.health, id));
    if ChildStirs(ch) {
      StirSteps(sha, ch, Only(id, p.up), Only(id, p.down), Live);
      EffectShows(p, id, LocalEffect(sha, ch, StirMove(ch)));
    }
  }

  /** An end only writes towards the other one. */
  lemma EffectsPointAway(sha: FileStore.Hash, ch: Child, f: Frame, x: Answers)
    ensures ClientEffect(ch, f).Steps? ==> ClientEffect(ch, f).down == []
    ensures ServerEffect(sha, ch, f, x).Steps? ==> ServerEffect(sha, ch, f, x).up == []
  {
  }

  /** Taking a frame off a channel shows, whatever comes of it. */
  lemma TakingShows(p: Parent, id: nat, e: Effect)
    requires p.health.Up? && !e.Waits?
    ensures p.down != [] && (e.Steps? ==> e.down == []) ==>
      Apply(if e.Steps? then p.(down := p.down[1..]) else p, id, e) != p
    ensures p.up != [] && (e.Steps? ==> e.up == []) ==>
      Apply(if e.Steps? then p.(up := p.up[1..]) else p, id, e) != p
  {
    if e.Steps? {
      if p.down != [] && e.down == [] {
        assert |p.down[1..] + Tag(id, e.down)| < |p.down|;
      }
      if p.up != [] && e.up == [] {
        assert |p.up[1..] + Tag(id, e.up)| < |p.up|;
      }
    }
  }

  lemma ClientTakesOne(sha: FileStore.Hash, p: Parent)
    requires p.health.Up? && p.down != [] && p.down[0].Tagged? && p.down[0].id in p.children
    requires forall id :: id in p.children ==> !MonitorBusy(p.children[id])
    requires !ClientEffect(p.children[p.down[0].id], p.down[0].frame).Waits?
    ensures Do(sha, p, ClientReceives) != p
  {
    var id, f := p.down[0].id, p.down[0].frame;
    EffectsPointAway(sha, p.children[id], f, NO_FAULTS);
    TakingShows(p, id, ClientEffect(p.children[id], f));
  }

  lemma ServerTakesOne(sha: FileStore.Hash, p: Parent)
    requires p.health.Up? && p.up != [] && p.up[0].Tagged? && p.up[0].id in p.children
    requires forall id :: id in p.children ==> !LoopBusy(p.children[id])
    requires !ServerEffect(sha, p.children[p.up[0].id], p.up[0].frame, NO_FAULTS).Waits?
    ensures Do(sha, p, ServerReceives(NO_FAULTS)) != p
  {
    var id, f := p.up[0].id, p.up[0].frame;
    EffectsPointAway(sha, p.children[id], f, NO_FAULTS);
    TakingShows(p, id, ServerEffect(sha, p.children[id], f, NO_FAULTS));
  }

  lemma ServerTakesAnOpen(sha: FileStore.Hash, p: Parent)
    requires p.health.Up? && p.up != [] && p.up[0].Opens?
    requires forall id :: id in p.children ==> !LoopBusy(p.children[id])
    ensures Do(sha, p, ServerReceives(NO_FAULTS)) != p
  {
    assert |p.up[1..]| < |p.up|;
  }

  lemma DownIsEmpty(sha: FileStore.Hash, p: Parent)
    requires Sane(Invariant(sha), p) && p.health.Up? && Do(sha, p, ClientReceives) == p
    requires forall id :: id in p.children ==> !ChildStirs(p.children[id])
    ensures p.down == []
  {
    if p.down != [] {
      var id := p.down[0].id;
      NoBusy(p);
      PopDown(p);
      assert Invariant(sha)(p.children[id], Only(id, p.up), Only(id, p.down), StatusOf(p.health, id));
      HeadIsTaken(sha, p.children[id], Only(id, p.up), Only(id, p.down), NO_FAULTS);
      ClientTakesOne(sha, p);
    }
  }

  lemma NoBusy(p: Parent)
    requires forall id :: id in p.children ==> !ChildStirs(p.children[id])
    ensures forall id :: id in p.children ==> !MonitorBusy(p.children[id]) && !LoopBusy(p.children[id])
  {
    forall id | id in p.children ensures !MonitorBusy(p.children[id]) && !LoopBusy(p.children[id]) {
      BusyStirs(p.children[id]);
    }
  }

  lemma UpIsEmpty(sha: FileStore.Hash, p: Parent)
    requires Sane(Invariant(sha), p) && p.health.Up? && Do(sha, p, ServerReceives(NO_FAULTS)) == p
    requires forall id :: id in p.children ==> !ChildStirs(p.children[id])
    ensures p.up == []
  {
    if p.up != [] {
      NoBusy(p);
      if p.up[0].Opens? {
        ServerTakesAnOpen(sha, p);
      } else {
        var id := p.up[0].id;
        PopUp(p);
        assert Invariant(sha)(p.children[id], Only(id, p.up), Only(id, p.down), StatusOf(p.health, id));
        HeadIsTaken(sha, p.children[id], Only(id, p.up), Only(id, p.down), NO_FAULTS);
        ServerTakesOne(sha, p);
      }
    }
  }

  lemma OpeningShows(sha: FileStore.Hash, p: Parent, id: nat)
    requires p.health.Up? && id in p.asking
    ensures Do(sha, p, ClientOpens(id)) != p && !Outside(ClientOpens(id))
  {
    assert |Do(sha, p, ClientOpens(id)).up| == |p.up| + 1;
  }

  lemma OpensAreWritten(sha: FileStore.Hash, p: Parent)
    requires p.health.Up? && Quiet(sha, p)
    ensures p.asking == map[]
  {
    if p.asking != map[] {
      var id :| id in p.asking;
      OpeningShows(sha, p, id);
    }
  }

  /** In every reachable state of a session that is still up and in which no step but a caller's, a
      process's or a timer's has an effect, both channels are empty and every stream is at rest: downloads
      wait for their readers, no Write, Commit or close is waiting, no terminal write is unless its whole
      window has been lost, and terminal output waits only for its reader. */
  lemma NeverStuck(sha: FileStore.Hash, dir: FileStore.Directory, schedule: seq<Action>)
    ensures var p := Run(sha, Start(dir), schedule);
      p.health.Up? && Quiet(sha, p) ==>
        && p.up == [] && p.down == [] && p.asking == map[] && p.opening == map[]
        && forall id :: id in p.children ==> ChildRests(p.children[id])
  {
    Reachable(sha, dir, schedule);
    Awaits(sha, dir, schedule);
    var p := Run(sha, Start(dir), schedule);
    if p.health.Up? && Quiet(sha, p) {
      forall id | id in p.children ensures !ChildStirs(p.children[id]) {
        NobodyStirs(sha, p, id);
      }
      assert Do(sha, p, ServerReceives(NO_FAULTS)) == p && Do(sha, p, ClientReceives) == p;
      UpIsEmpty(sha, p);
      DownIsEmpty(sha, p);
      forall id | id in p.children ensures ChildRests(p.children[id]) {
        assert Invariant(sha)(p.children[id], Only(id, p.up), Only(id, p.down), StatusOf(p.health, id));
        ChildAtRest(sha, p.children[id]);
      }
      assert forall id :: id in p.opening ==> Asked(p.up, id);
      OpensAreWritten(sha, p);
    }
  }

  // ----- a StreamOpen is answered -----

  predicate Asked(up: seq<Tagged>, id: nat) { exists i :: 0 <= i < |up| && up[i].Opens? && up[i].id == id }

  predicate Awaited(p: Parent) { p.health.Up? ==> forall id :: id in p.opening ==> Asked(p.up, id) }

  lemma AskedGrows(up: seq<Tagged>, more: seq<Tagged>, id: nat)
    requires Asked(up, id)
    ensures Asked(up + more, id)
  {
    var i :| 0 <= i < |up| && up[i].Opens? && up[i].id == id;
    assert (up + more)[i] == up[i];
  }

  lemma AskedTail(up: seq<Tagged>, id: nat)
    requires Asked(up, id) && !(up[0].Opens? && up[0].id == id)
    ensures Asked(up[1..], id)
  {
    var i :| 0 <= i < |up| && up[i].Opens? && up[i].id == id;
    assert up[1..][i - 1] == up[i];
  }

  lemma ApplyAwaits(p: Parent, id: nat, e: Effect)
    requires Awaited(p)
    ensures Awaited(Apply(p, id, e))
  {
    if e.Steps? && p.health.Up? {
      forall k | k in p.opening ensures Asked(p.up + Tag(id, e.up), k) {
        AskedGrows(p.up, Tag(id, e.up), k);
      }
    }
  }

  lemma PopAwaits(p: Parent)
    requires Awaited(p) && p.health.Up? && p.up != [] && p.up[0].Tagged?
    ensures Awaited(p.(up := p.up[1..]))
  {
    forall k | k in p.opening ensures Asked(p.up[1..], k) {
      AskedTail(p.up, k);
    }
  }

  lemma OpenAwaits(p: Parent, id: nat, spec: Spec)
    requires Awaited(p) && p.health.Up?
    ensures forall k :: k in p.opening[id := spec] ==> Asked(p.up + [Opens(id, spec)], k)
  {
    forall k | k in p.opening[id := spec] ensures Asked(p.up + [Opens(id, spec)], k) {
      if k == id {
        assert (p.up + [Opens(id, spec)])[|p.up|] == Opens(id, spec);
      } else {
        AskedGrows(p.up, [Opens(id, spec)], k);
      }
    }
  }

  lemma StepAwaits(sha: FileStore.Hash, p: Parent, a: Action)
    requires Awaited(p)
    ensures Awaited(Do(sha, p, a))
  {
    if p.health.Up? {
      match a
      case ClientOpens(id) => if id in p.asking { OpenAwaits(p, id, p.asking[id]); }
      case Local(id, m) => if id in p.children { ApplyAwaits(p, id, LocalEffect(sha, p.children[id], m)); }
      case ClientReceives =>
        if p.down != [] && p.down[0].Tagged? && p.down[0].id in p.children {
          var e := ClientEffect(p.children[p.down[0].id], p.down[0].frame);
          ApplyAwaits(if e.Steps? then p.(down := p.down[1..]) else p, p.down[0].id, e);
        }
      case ServerReceives(x) => if p.up != [] { ServerAwaits(sha, p, x); }
      case _ =>
    }
  }

  lemma ServerAwaits(sha: FileStore.Hash, p: Parent, x: Answers)
    requires Awaited(p) && p.health.Up? && p.up != []
    ensures Awaited(Do(sha, p, ServerReceives(x)))
  {
    if p.up[0].Opens? {
      forall k | k in p.opening - {p.up[0].id} ensures Asked(p.up[1..], k) {
        AskedTail(p.up, k);
      }
    } else if p.up[0].id in p.children {
      var e := ServerEffect(sha, p.children[p.up[0].id], p.up[0].frame, x);
      PopAwaits(p);
      ApplyAwaits(if e.Steps? then p.(up := p.up[1..]) else p, p.up[0].id, e);
    }
  }

  lemma Awaits(sha: FileStore.Hash, dir: FileStore.Directory, schedule: seq<Action>)
    ensures Awaited(Run(sha, Start(dir), schedule))
  {
    forall p, a | Awaited(p) ensures Awaited(Do(sha, p, a)) {
      StepAwaits(sha, p, a);
    }
    Machine.RunKeeps(Step(sha), Awaited, Start(dir), schedule);
  }

  // ----- sessions of terminals that stand still -----

  lemma IdleTerminal(sha: FileStore.Hash, ch: Child, m: Move, id: nat)
    requires ch.TerminalChild? && !ChildStirs(ch) && !Outside(Local(id, m))
    ensures LocalEffect(sha, ch, m).Waits?
  {
    match m
    case TerminalClient(x) => TerminalProgress.IdleClient(ch.tc, x);
    case TerminalServer(x) => TerminalProgress.IdleServer(ch.ts, x);
    case _ =>
  }

  lemma RestIsQuiet(sha: FileStore.Hash, p: Parent)
    requires p.up == [] && p.down == [] && p.asking == map[]
    requires forall id :: id in p.children ==> p.children[id].TerminalChild? && !ChildStirs(p.children[id])
    ensures Quiet(sha, p)
  {
    forall a | !Outside(a) ensures Do(sha, p, a) == p {
      match a
      case Local(id, m) => if id in p.children { IdleTerminal(sha, p.children[id], m, id); }
      case _ =>
    }
  }
}
