/** Many terminal, upload and download streams over one parent session: one pair of FIFO channels whose
    frames carry their StreamID, one monitor goroutine at the client, one frame loop at the server, one
    directory behind all file transfers. A refused frame ends the parent for every stream. Each stream
    seen through its own frames behaves like the single-stream machines, so whatever those keep holds for
    every stream of every multiplexed run. */
module Multiplex {
  import Allocator
  import opened Common
  import Download
  import FileStore
  import Machine
  import Namespace
  import opened Protocol
  import Sets
  import Terminal
  import Upload

  /** What the client asks for. The staging name in `terms` is the one the server will draw. */
  datatype Spec = OpenDownload(path: FileStore.Path) | OpenUpload(terms: FileStore.Terms) | OpenTerminal

  datatype Tagged = Tagged(id: nat, frame: Frame) | Opens(id: nat, spec: Spec)

  /** The two ends of a stream the server has answered; a rejected one got a stream error instead of an
      acceptance. */
  datatype Child =
    | DownloadChild(dc: Download.Client, ds: Download.Server, content: seq<Byte>)
    | UploadChild(uc: Upload.Client, us: Upload.Server, terms: FileStore.Terms)
    | TerminalChild(tc: Terminal.Client, ts: Terminal.Server)
    | RejectedChild(file: bool, done: bool)

  /** `Down`: a frame of stream `id` was refused. `TooMany`: it was one terminal too many. `BadId`: the
      registry refused its ID. `Torn`: its caller's context ended where the client then ends the parent. */
  datatype Health = Up | Down(id: nat, status: Status) | TooMany(id: nat) | BadId(id: nat) | Torn(id: nat)

  /** `asking`: streams whose ID is allocated and whose StreamOpen is not yet written. `opening`: streams
      the server has not answered. `next` and `count`: nextStream and allocated. */
  datatype Parent = Parent(
    children: map<nat, Child>, asking: map<nat, Spec>, opening: map<nat, Spec>, up: seq<Tagged>, down: seq<Tagged>,
    dir: FileStore.Directory, next: nat, count: nat, health: Health)

  /** A move of one endpoint of one stream. */
  datatype Move =
    | DownloadClient(dcm: Download.ClientMove) | DownloadServer(dsm: Download.ServerMove)
    | UploadClient(ucm: Upload.ClientMove) | UploadServer(usm: Upload.ServerMove)
    | TerminalClient(tcm: Terminal.ClientMove) | TerminalServer(tsm: Terminal.ServerMove)

  /** What the disk, the PTY and the policy answer while one frame is handled. */
  datatype Answers = Answers(faults: Upload.Faults, pty: Terminal.PtyFault, rejects: bool)

  const NO_FAULTS := Answers(Upload.Faults(FileStore.WriteFault(MAX_CHUNK, false),
                                   FileStore.CommitFault(true, true, true), true),
                             Terminal.PtyFault(MAX_CHUNK, false), false)

  datatype Action =
    | ClientAllocates(spec: Spec)            // an open call takes the next ID
    | ClientAbandons(id: nat)                // it finds its metadata malformed
    | ClientOpens(id: nat)                   // it writes its StreamOpen
    | ContextEnds(id: nat)                   // a caller gives up where that ends the parent
    | Local(id: nat, move: Move)
    | ClientReceives                         // the client's monitor takes the oldest frame
    | ServerReceives(x: Answers)             // the server's frame loop takes the oldest frame
    | Elsewhere(after: FileStore.Directory)  // somebody else changes the directory

  // ----- one stream's share of a step -----

  datatype Effect = Waits | Refuses(side: Status) | Steps(child: Child, up: seq<Frame>, down: seq<Frame>)

  function FromClient<C>(o: Outcome<C>, k: C -> Child): Effect
  {
    match o
    case Blocked => Waits
    case Refused => Refuses(ClientRefused)
    case Moves(c, emits) => Steps(k(c), emits, [])
  }

  function FromServer<S>(o: Outcome<S>, k: S -> Child): Effect
  {
    match o
    case Blocked => Waits
    case Refused => Refuses(ServerRefused)
    case Moves(s, emits) => Steps(k(s), [], emits)
  }

  function LocalEffect(sha: FileStore.Hash, ch: Child, m: Move): Effect
  {
    match (ch, m)
    case (DownloadChild(c, s, content), DownloadClient(x)) =>
      FromClient(Download.ClientStep(c, x), c' => DownloadChild(c', s, content))
    case (DownloadChild(c, s, content), DownloadServer(x)) =>
      FromServer(Download.ServerStep(s, x), s' => DownloadChild(c, s', content))
    case (UploadChild(c, s, t), UploadClient(x)) =>
      FromClient(Upload.ClientStep(c, x), c' => UploadChild(c', s, t))
    case (UploadChild(c, s, t), UploadServer(x)) =>
      if x.Elsewhere? then Waits else FromServer(Upload.ServerStep(t, sha, s, x), s' => UploadChild(c, s', t))
    case (TerminalChild(c, s), TerminalClient(x)) =>
      FromClient(Terminal.ClientStep(c, x), c' => TerminalChild(c', s))
    case (TerminalChild(c, s), TerminalServer(x)) =>
      FromServer(Terminal.ServerStep(s, x), s' => TerminalChild(c, s'))
    case _ => Waits
  }

  function ClientEffect(ch: Child, f: Frame): Effect
  {
    match ch
    case DownloadChild(c, s, content) =>
      FromClient(Download.ClientReceive(c, f), c' => DownloadChild(c', s, content))
    case UploadChild(c, s, t) => FromClient(Upload.ClientReceive(c, f), c' => UploadChild(c', s, t))
    case TerminalChild(c, s) => FromClient(Terminal.ClientReceive(c, f), c' => TerminalChild(c', s))
    case RejectedChild(file, done) =>
      if done || !f.StreamError? then Refuses(ClientRefused) else Steps(RejectedChild(file, true), [], [])
  }

  function ServerEffect(sha: FileStore.Hash, ch: Child, f: Frame, x: Answers): Effect
  {
    match ch
    case DownloadChild(c, s, content) =>
      FromServer(Download.ServerReceive(s, f), s' => DownloadChild(c, s', content))
    case UploadChild(c, s, t) =>
      FromServer(Upload.ServerReceive(t, sha, s, f, x.faults), s' => UploadChild(c, s', t))
    case TerminalChild(c, s) => FromServer(Terminal.ServerReceive(s, f, x.pty), s' => TerminalChild(c, s'))
    case RejectedChild(_, _) => Refuses(ServerRefused)
  }

  /** The one monitor goroutine is still at an earlier frame of this stream. */
  predicate MonitorBusy(ch: Child)
  {
    match ch
    case DownloadChild(c, _, _) => !c.monitor.Listening?
    case UploadChild(c, _, _) => c.posting
    case TerminalChild(c, _) => !c.monitor.Listening?
    case RejectedChild(_, _) => false
  }

  /** The one frame loop is still at an earlier frame of this stream. */
  predicate LoopBusy(ch: Child)
  {
    match ch
    case DownloadChild(_, s, _) => s.posting
    case UploadChild(_, s, _) => !s.handler.Free?
    case TerminalChild(_, s) => !s.loop.Free?
    case RejectedChild(_, _) => false
  }

  // ----- limits -----

  predicate ClientDone(ch: Child)
  {
    match ch
    case DownloadChild(c, _, _) => c.done
    case UploadChild(c, _, _) => c.done
    case TerminalChild(c, _) => c.done
    case RejectedChild(_, done) => done
  }

  predicate IsFile(ch: Child) { ch.DownloadChild? || ch.UploadChild? || (ch.RejectedChild? && ch.file) }

  /** The client's streams and files maps. */
  function ClientStreams(p: Parent): set<nat>
  {
    p.asking.Keys + p.opening.Keys + set id | id in p.children && !ClientDone(p.children[id])
  }

  function ClientFiles(p: Parent): set<nat>
  {
    (set id | id in p.asking && !p.asking[id].OpenTerminal?) +
    (set id | id in p.opening && !p.opening[id].OpenTerminal?) +
    set id | id in p.children && IsFile(p.children[id]) && !ClientDone(p.children[id])
  }

  function TerminalSpecs(m: map<nat, Spec>): set<nat> { set id | id in m && m[id].OpenTerminal? }

  function OpenTerminals(children: map<nat, Child>): set<nat>
  {
    set id | id in children && !IsFile(children[id]) && !ClientDone(children[id])
  }

  /** The terminals among them. */
  function ClientTerminals(p: Parent): set<nat>
  {
    TerminalSpecs(p.asking) + TerminalSpecs(p.opening) + OpenTerminals(p.children)
  }

  function ClientOf(p: Parent): Allocator.Client { Allocator.Client(p.next, p.count, ClientStreams(p), ClientFiles(p)) }

  /** The server's live terminals and files. */
  function LiveTerminals(p: Parent): set<nat>
  {
    set id | id in p.children && p.children[id].TerminalChild? && p.children[id].ts.closed.None?
  }

  predicate ServesFile(ch: Child)
  {
    (ch.DownloadChild? && !ch.ds.closed) || (ch.UploadChild? && !ch.us.closed)
  }

  function LiveFiles(p: Parent): set<nat> { set id | id in p.children && ServesFile(p.children[id]) }

  predicate MayOpen(p: Parent, spec: Spec) { Allocator.MayOpen(ClientOf(p), !spec.OpenTerminal?) }

  /** Where the end of a caller's context makes the client end the parent: in an open, before a read's window
      update, before a terminal's close frame, and in most of Write and Commit of an upload. */
  predicate EndsParent(ch: Child)
  {
    match ch
    case DownloadChild(c, _, _) => c.reader.Credited?
    case UploadChild(c, _, _) => c.caller.Sending? || c.caller.Closing? || c.caller.Awaiting?
    case TerminalChild(c, _) => c.screen.reader.Took? || c.control.closer.SendsClose?
    case RejectedChild(_, _) => false
  }

  predicate MayTear(p: Parent, id: nat)
  {
    id in p.asking || id in p.opening || (id in p.children && EndsParent(p.children[id]))
  }

  // ----- the registry -----

  function KindOf(ch: Child): Namespace.Kind
  {
    match ch
    case DownloadChild(_, _, _) => Namespace.DOWNLOAD
    case TerminalChild(_, _) => Namespace.TERMINAL
    case UploadChild(_, _, _) => Namespace.UPLOAD
    case RejectedChild(file, _) => if file then Namespace.UPLOAD else Namespace.TERMINAL
  }

  predicate Served(ch: Child) { ServesFile(ch) || (ch.TerminalChild? && ch.ts.closed.None?) }

  /** What the server's registry holds: every ID it was ever asked for. */
  function Registry(p: Parent): Namespace.Records
  {
    map id | id in p.children ::
      Namespace.Record(KindOf(p.children[id]), if Served(p.children[id]) then Namespace.Open else Namespace.Closed)
  }

  function SpecKind(spec: Spec): Namespace.Kind
  {
    match spec
    case OpenDownload(_) => Namespace.DOWNLOAD
    case OpenUpload(_) => Namespace.UPLOAD
    case OpenTerminal => Namespace.TERMINAL
  }

  // ----- the shared directory -----

  function WithDir(ch: Child, dir: FileStore.Directory): Child
  {
    if ch.UploadChild? then ch.(us := ch.us.(upload := ch.us.upload.(dir := dir))) else ch
  }

  function DirOf(ch: Child, dir: FileStore.Directory): FileStore.Directory
  {
    if ch.UploadChild? then ch.us.upload.dir else dir
  }

  function AllWithDir(children: map<nat, Child>, dir: FileStore.Directory): map<nat, Child>
  {
    map id | id in children :: WithDir(children[id], dir)
  }

  predicate ChildTolerates(ch: Child, dir: FileStore.Directory)
  {
    ch.UploadChild? ==> FileStore.Tolerates(ch.terms, ch.us.upload, dir)
  }

  // ----- the parent session -----

  function Tag(id: nat, frames: seq<Frame>): seq<Tagged>
  {
    seq(|frames|, i requires 0 <= i < |frames| => Tagged(id, frames[i]))
  }

  function Apply(p: Parent, id: nat, e: Effect): Parent
  {
    match e
    case Waits => p
    case Refuses(side) => p.(health := Down(id, side))
    case Steps(ch, u, d) =>
      var dir := DirOf(ch, p.dir);
      p.(children := AllWithDir(p.children[id := ch], dir), dir := dir,
         up := p.up + Tag(id, u), down := p.down + Tag(id, d))
  }

  /** The server's answer to a StreamOpen: nothing, for one terminal too many. */
  datatype Answer = NoAnswer | Answer(child: Child, frame: Frame)

  function Fresh(spec: Spec, dir: FileStore.Directory): Answer
  {
    match spec
    case OpenDownload(path) =>
      if path in dir then Answer(DownloadChild(Download.NewClient(), Download.NewServer(dir[path]), dir[path]),
                                 Accepted(1))
      else Answer(RejectedChild(true, false), StreamError)
    case OpenUpload(t) =>
      if t.Valid() && t.stage !in dir && t.destination !in dir
      then Answer(UploadChild(Upload.NewClient(), Upload.NewServer(t, dir), t), Accepted(RECEIVE_WINDOW))
      else Answer(RejectedChild(true, false), StreamError)
    case OpenTerminal => Answer(TerminalChild(Terminal.NewClient(), Terminal.NewServer()), Accepted(RECEIVE_WINDOW))
  }

  function Reply(p: Parent, spec: Spec, x: Answers): Answer
  {
    if spec.OpenTerminal? && |LiveTerminals(p)| >= Namespace.MAX_TERMINALS then NoAnswer
    else if x.rejects || (!spec.OpenTerminal? && |LiveFiles(p)| >= Namespace.MAX_FILES)
    then Answer(RejectedChild(!spec.OpenTerminal?, false), StreamError)
    else Fresh(spec, p.dir)
  }

  function Admit(p: Parent, id: nat, a: Answer): Parent
    requires a.Answer?
  {
    var dir := DirOf(a.child, p.dir);
    p.(children := AllWithDir(p.children[id := a.child], dir), opening := p.opening - {id}, dir := dir,
       down := p.down + Tag(id, [a.frame]))
  }

  function ServerTakesOpen(p: Parent, id: nat, spec: Spec, x: Answers): Parent
  {
    var a := Reply(p, spec, x);
    if a.NoAnswer? then p.(health := TooMany(id))
    else if !Namespace.Reserve(Registry(p), id, SpecKind(spec)).0.Ok? then p.(health := BadId(id))
    else Admit(p, id, a)
  }

  function Do(sha: FileStore.Hash, p: Parent, a: Action): Parent
  {
    if !p.health.Up? then p
    else
      match a
      case ClientAllocates(spec) =>
        if !MayOpen(p, spec) then p
        else
          var id := Allocator.Pick(ClientOf(p));
          p.(asking := p.asking[id := spec], next := id + 1, count := p.count + 1)
      case ClientAbandons(id) =>
        if id in p.asking && !p.asking[id].OpenTerminal? then p.(asking := p.asking - {id}) else p
      case ClientOpens(id) =>
        if id !in p.asking then p
        else
          var spec := p.asking[id];
          p.(asking := p.asking - {id}, opening := p.opening[id := spec], up := p.up + [Opens(id, spec)])
      case ContextEnds(id) => if MayTear(p, id) then p.(health := Torn(id)) else p
      case Local(id, m) =>
        if id in p.children then Apply(p, id, LocalEffect(sha, p.children[id], m)) else p
      case ClientReceives =>
        if p.down == [] || !p.down[0].Tagged? || p.down[0].id !in p.children then p
        else if exists id :: id in p.children && MonitorBusy(p.children[id]) then p
        else
          var e := ClientEffect(p.children[p.down[0].id], p.down[0].frame);
          Apply(if e.Steps? then p.(down := p.down[1..]) else p, p.down[0].id, e)
      case ServerReceives(x) =>
        if p.up == [] || (exists id :: id in p.children && LoopBusy(p.children[id])) then p
        else if p.up[0].Opens? then ServerTakesOpen(p.(up := p.up[1..]), p.up[0].id, p.up[0].spec, x)
        else if p.up[0].id !in p.children then p
        else
          var e := ServerEffect(sha, p.children[p.up[0].id], p.up[0].frame, x);
          Apply(if e.Steps? then p.(up := p.up[1..]) else p, p.up[0].id, e)
      case Elsewhere(after) =>
        if forall id :: id in p.children ==> ChildTolerates(p.children[id], after)
        then p.(children := AllWithDir(p.children, after), dir := after) else p
  }

  function Step(sha: FileStore.Hash): (Parent, Action) -> Parent { (p, a) => Do(sha, p, a) }

  function Run(sha: FileStore.Hash, p: Parent, schedule: seq<Action>): Parent { Machine.Run(Step(sha), p, schedule) }

  function Start(dir: FileStore.Directory): Parent
  {
    Parent(map[], map[], map[], [], [], dir, MIN_TYPED_STREAM_ID, 0, Up)
  }

  // ----- one stream's view of the shared channels -----

  function Only(id: nat, ch: seq<Tagged>): seq<Frame>
  {
    if ch == [] then []
    else (if ch[0].Tagged? && ch[0].id == id then [ch[0].frame] else []) + Only(id, ch[1..])
  }

  function StatusOf(h: Health, id: nat): Status { if h.Down? && h.id == id then h.status else Live }

  lemma {:induction false} OnlyConcat(id: nat, a: seq<Tagged>, b: seq<Tagged>)
    ensures Only(id, a + b) == Only(id, a) + Only(id, b)
  {
    if a == [] {
      assert a + b == b;
    } else {
      var head := if a[0].Tagged? && a[0].id == id then [a[0].frame] else [];
      assert (a + b)[1..] == a[1..] + b;
      OnlyConcat(id, a[1..], b);
      assert Only(id, a + b) == head + (Only(id, a[1..]) + Only(id, b));
      assert Only(id, a) == head + Only(id, a[1..]);
    }
  }

  lemma {:induction false} OnlyTag(id: nat, other: nat, frames: seq<Frame>)
    ensures Only(id, Tag(other, frames)) == if id == other then frames else []
  {
    if frames != [] {
      assert Tag(other, frames)[1..] == Tag(other, frames[1..]);
      OnlyTag(id, other, frames[1..]);
    }
  }

  /** Writing frames of stream `id` extends its own view and nobody else's. */
  lemma OnlyAfter(k: nat, id: nat, ch: seq<Tagged>, frames: seq<Frame>)
    ensures Only(k, ch + Tag(id, frames)) == if k == id then Only(k, ch) + frames else Only(k, ch)
  {
    OnlyConcat(k, ch, Tag(id, frames));
    OnlyTag(k, id, frames);
    assert Only(k, ch) + [] == Only(k, ch);
  }

  lemma {:induction false} OnlyAbsent(id: nat, ch: seq<Tagged>)
    requires forall i :: 0 <= i < |ch| && ch[i].Tagged? ==> ch[i].id != id
    ensures Only(id, ch) == []
  {
    if ch != [] {
      OnlyAbsent(id, ch[1..]);
    }
  }

  /** Every frame belongs to a stream that exists, and every StreamOpen to one that does not yet. */
  predicate UpOk(p: Parent, up: seq<Tagged>)
  {
    && (forall i :: 0 <= i < |up| && up[i].Tagged? ==> up[i].id in p.children)
    && (forall i :: 0 <= i < |up| && up[i].Opens? ==> up[i].id in p.opening && p.opening[up[i].id] == up[i].spec)
    && (forall i, j :: 0 <= i < j < |up| && up[i].Opens? && up[j].Opens? ==> up[i].id != up[j].id)
  }

  predicate DownOk(p: Parent, down: seq<Tagged>)
  {
    forall i :: 0 <= i < |down| ==> down[i].Tagged? && down[i].id in p.children
  }

  /** Every ID was allocated once, and is in one place. */
  predicate Numbered(p: Parent)
  {
    && p.asking.Keys !! p.opening.Keys !! p.children.Keys
    && p.asking.Keys + p.opening.Keys + p.children.Keys <= Allocator.UsedBelow(p.next)
    && p.next == MIN_TYPED_STREAM_ID + p.count && p.count <= Namespace.MAX_IDS
  }

  predicate Channels(p: Parent)
  {
    && UpOk(p, p.up) && DownOk(p, p.down) && Numbered(p)
    && (p.health.Down? ==> p.health.id in p.children && !p.health.status.Live?)
  }

  // ----- the directory behind the uploads -----

  predicate UploadSound(ch: Child, dir: FileStore.Directory)
  {
    ch.UploadChild? ==>
      var u := ch.us.upload;
      && u.dir == dir && ch.terms.stage != ch.terms.destination
      && (u.committed ==> u.closed && ch.terms.destination in dir)
      && (!u.closed ==> ch.terms.stage in dir)
  }

  /** Two uploads never stand in each other's way, and never publish to the same place. */
  predicate Apart(a: Child, b: Child)
  {
    a.UploadChild? && b.UploadChild? ==>
      && (!a.us.upload.closed && !b.us.upload.closed ==> a.terms.stage != b.terms.stage)
      && (!a.us.upload.closed && b.us.upload.committed ==> a.terms.stage != b.terms.destination)
      && (a.us.upload.committed && b.us.upload.committed ==> a.terms.destination != b.terms.destination)
  }

  predicate Disk(children: map<nat, Child>, dir: FileStore.Directory)
  {
    && (forall i :: i in children ==> UploadSound(children[i], dir))
    && (forall i, j :: i in children && j in children && i != j ==> Apart(children[i], children[j]))
  }

  /** What a step does to the files of the stream it belongs to. */
  ghost predicate Polite(ch: Child, ch': Child)
  {
    && (ch.UploadChild? <==> ch'.UploadChild?)
    && (ch.UploadChild? ==> ch'.terms == ch.terms && FileStore.Touches(ch.terms, ch.us.upload, ch'.us.upload))
  }

  /** One upload's step is tolerated by every other one. */
  lemma Tolerated(a: Child, a': Child, b: Child, dir: FileStore.Directory)
    requires UploadSound(a, dir) && UploadSound(b, dir) && Apart(a, b) && Apart(b, a) && Polite(a, a')
    ensures ChildTolerates(b, DirOf(a', dir))
  {
  }

  lemma StillApart(a: Child, a': Child, b: Child, dir: FileStore.Directory)
    requires UploadSound(a, dir) && UploadSound(b, dir) && Apart(a, b) && Apart(b, a) && Polite(a, a')
    ensures var dir' := DirOf(a', dir);
      && UploadSound(a', dir') && UploadSound(WithDir(b, dir'), dir')
      && Apart(a', WithDir(b, dir')) && Apart(WithDir(b, dir'), a')
  {
    Tolerated(a, a', b, dir);
  }

  lemma StillSound(a: Child, a': Child, dir: FileStore.Directory)
    requires UploadSound(a, dir) && Polite(a, a')
    ensures UploadSound(a', DirOf(a', dir)) && WithDir(a', DirOf(a', dir)) == a'
  {
  }

  lemma DiskStep(children: map<nat, Child>, dir: FileStore.Directory, id: nat, ch: Child)
    requires Disk(children, dir) && id in children && Polite(children[id], ch)
    ensures Disk(AllWithDir(children[id := ch], DirOf(ch, dir)), DirOf(ch, dir))
    ensures forall k :: k in children && k != id ==> ChildTolerates(children[k], DirOf(ch, dir))
    ensures WithDir(ch, DirOf(ch, dir)) == ch
  {
    var dir' := DirOf(ch, dir);
    var all := AllWithDir(children[id := ch], dir');
    StillSound(children[id], ch, dir);
    forall k | k in children && k != id
      ensures ChildTolerates(children[k], dir') && UploadSound(all[k], dir') &&
        Apart(all[id], all[k]) && Apart(all[k], all[id])
    {
      Tolerated(children[id], ch, children[k], dir);
      StillApart(children[id], ch, children[k], dir);
    }
    forall i, j | i in all && j in all && i != j ensures Apart(all[i], all[j]) {
      if i != id && j != id {
        assert Apart(children[i], children[j]);
      }
    }
  }

  // ----- any invariant of single streams is an invariant of multiplexed streams -----

  /** A property of one stream: its two ends, its frames on the two channels, and its status. */
  type Property = (Child, seq<Frame>, seq<Frame>, Status) -> bool

  /** What `e` leaves of the stream: `up` and `down` before, `up'` and `down'` without the frame
      that was handled. */
  predicate Holds(I: Property, e: Effect, ch: Child, up: seq<Frame>, down: seq<Frame>,
                  up': seq<Frame>, down': seq<Frame>)
  {
    match e
    case Waits => true
    case Refuses(side) => !side.Live? && I(ch, up, down, side)
    case Steps(ch', u, d) => I(ch', up' + u, down' + d, Live)
  }

  /** `I` holds of every new stream, is kept by every step of a stream on its own, and does not depend on
      what others do to the directory. */
  ghost predicate Inductive(sha: FileStore.Hash, I: Property)
  {
    && (forall spec, dir :: Fresh(spec, dir).Answer? ==> I(Fresh(spec, dir).child, [], [Fresh(spec, dir).frame], Live))
    && (forall file :: I(RejectedChild(file, false), [], [StreamError], Live))
    && (forall ch, m, up, down :: I(ch, up, down, Live) ==> Holds(I, LocalEffect(sha, ch, m), ch, up, down, up, down))
    && (forall ch, up, down :: I(ch, up, down, Live) && down != [] ==>
          Holds(I, ClientEffect(ch, down[0]), ch, up, down, up, down[1..]))
    && (forall ch, up, down, x :: I(ch, up, down, Live) && up != [] ==>
          Holds(I, ServerEffect(sha, ch, up[0], x), ch, up, down, up[1..], down))
    && (forall ch, up, down, st, dir :: I(ch, up, down, st) && ChildTolerates(ch, dir) ==>
          I(WithDir(ch, dir), up, down, st))
  }

  ghost predicate EachChild(I: Property, p: Parent)
  {
    forall id :: id in p.children ==> I(p.children[id], Only(id, p.up), Only(id, p.down), StatusOf(p.health, id))
  }

  ghost predicate Sane(I: Property, p: Parent) { EachChild(I, p) && Channels(p) && Disk(p.children, p.dir) }

  lemma UploadStepIsPolite(t: FileStore.Terms, sha: FileStore.Hash, s: Upload.Server, m: Upload.ServerMove)
    requires t.stage != t.destination && (s.upload.committed ==> s.upload.closed)
    ensures var o := Upload.ServerStep(t, sha, s, m);
      o.Moves? && !m.Elsewhere? ==> FileStore.Touches(t, s.upload, o.next.upload)
  {
    FileStore.CallsTouch(t, sha, s.upload, FileStore.DoCancel(true));
  }

  lemma UploadReceiveIsPolite(t: FileStore.Terms, sha: FileStore.Hash, s: Upload.Server, x: Upload.Faults, f: Frame)
    requires t.stage != t.destination && (s.upload.committed ==> s.upload.closed)
    ensures var o := Upload.ServerReceive(t, sha, s, f, x);
      o.Moves? ==> FileStore.Touches(t, s.upload, o.next.upload)
  {
    FileStore.CallsTouch(t, sha, s.upload, FileStore.DoCancel(true));
    FileStore.CallsTouch(t, sha, s.upload, FileStore.DoCommit(x.cf, x.removeOk));
    if f.Data? {
      FileStore.CallsTouch(t, sha, s.upload, FileStore.DoWrite(f.payload, x.wf, x.removeOk));
    }
  }

  lemma LocalIsPolite(sha: FileStore.Hash, ch: Child, dir: FileStore.Directory, m: Move)
    requires UploadSound(ch, dir)
    ensures LocalEffect(sha, ch, m).Steps? ==> Polite(ch, LocalEffect(sha, ch, m).child)
  {
    if ch.UploadChild? && m.UploadServer? {
      UploadStepIsPolite(ch.terms, sha, ch.us, m.usm);
    }
  }

  lemma ClientIsPolite(ch: Child, f: Frame)
    ensures ClientEffect(ch, f).Steps? ==> Polite(ch, ClientEffect(ch, f).child)
  {
  }

  lemma ServerIsPolite(sha: FileStore.Hash, ch: Child, dir: FileStore.Directory, f: Frame, x: Answers)
    requires UploadSound(ch, dir)
    ensures ServerEffect(sha, ch, f, x).Steps? ==> Polite(ch, ServerEffect(sha, ch, f, x).child)
  {
    if ch.UploadChild? {
      UploadReceiveIsPolite(ch.terms, sha, ch.us, x.faults, f);
    }
  }

  /** `q` is `p` with the frame that stream `id` is about to handle taken off its channel. */
  ghost predicate Popped(p: Parent, q: Parent, id: nat)
  {
    && q == p.(up := q.up, down := q.down)
    && UpOk(q, q.up) && DownOk(q, q.down)
    && forall k :: k in p.children && k != id ==> Only(k, q.up) == Only(k, p.up) && Only(k, q.down) == Only(k, p.down)
  }

  /** A step of stream `id` moves only that stream's view of the parent. */
  lemma StepsKeep(sha: FileStore.Hash, I: Property, p: Parent, id: nat, e: Effect, q: Parent, k: nat)
    requires Inductive(sha, I) && EachChild(I, p) && p.health.Up? && id in p.children && e.Steps? && k in p.children
    requires Popped(p, q, id)
    requires k != id ==> ChildTolerates(p.children[k], DirOf(e.child, p.dir))
    requires WithDir(e.child, DirOf(e.child, p.dir)) == e.child
    requires Holds(I, e, p.children[id], Only(id, p.up), Only(id, p.down), Only(id, q.up), Only(id, q.down))
    ensures var r := Apply(q, id, e); k in r.children && I(r.children[k], Only(k, r.up), Only(k, r.down), Live)
  {
    OnlyAfter(k, id, q.up, e.up);
    OnlyAfter(k, id, q.down, e.down);
    assert I(p.children[k], Only(k, p.up), Only(k, p.down), StatusOf(p.health, k));
  }

  lemma TaggedOk(p: Parent, id: nat, ch: seq<Tagged>, frames: seq<Frame>)
    requires id in p.children
    ensures UpOk(p, ch) ==> UpOk(p, ch + Tag(id, frames))
    ensures DownOk(p, ch) ==> DownOk(p, ch + Tag(id, frames))
  {
  }

  lemma ApplyChannels(p: Parent, id: nat, e: Effect, q: Parent)
    requires Channels(p) && p.health.Up? && id in p.children && Popped(p, q, id) && e.Steps?
    ensures Channels(Apply(q, id, e))
  {
    var r := Apply(q, id, e);
    TaggedOk(q, id, q.up, e.up);
    TaggedOk(q, id, q.down, e.down);
    assert r.children.Keys == p.children.Keys;
  }

  lemma ApplyChildren(sha: FileStore.Hash, I: Property, p: Parent, id: nat, e: Effect, q: Parent)
    requires Inductive(sha, I) && EachChild(I, p) && p.health.Up? && id in p.children && e.Steps? && Popped(p, q, id)
    requires forall k :: k in p.children && k != id ==> ChildTolerates(p.children[k], DirOf(e.child, p.dir))
    requires WithDir(e.child, DirOf(e.child, p.dir)) == e.child
    requires Holds(I, e, p.children[id], Only(id, p.up), Only(id, p.down), Only(id, q.up), Only(id, q.down))
    ensures EachChild(I, Apply(q, id, e))
  {
    var r := Apply(q, id, e);
    forall k | k in r.children
      ensures I(r.children[k], Only(k, r.up), Only(k, r.down), StatusOf(r.health, k))
    {
      StepsKeep(sha, I, p, id, e, q, k);
    }
  }

  lemma ApplyKeeps(sha: FileStore.Hash, I: Property, p: Parent, id: nat, e: Effect, q: Parent)
    requires Inductive(sha, I) && Sane(I, p) && p.health.Up? && id in p.children
    requires Popped(p, q, id) && (!e.Steps? ==> q == p) && (e.Steps? ==> Polite(p.children[id], e.child))
    requires Holds(I, e, p.children[id], Only(id, p.up), Only(id, p.down), Only(id, q.up), Only(id, q.down))
    ensures Sane(I, Apply(q, id, e))
  {
    if e.Steps? {
      DiskStep(p.children, p.dir, id, e.child);
      ApplyChildren(sha, I, p, id, e, q);
      ApplyChannels(p, id, e, q);
    }
  }

  /** A new stream joins; a new upload brings a staging file that did not exist. */
  lemma NewIsApart(children: map<nat, Child>, dir: FileStore.Directory, spec: Spec, k: nat)
    requires Disk(children, dir) && k in children && Fresh(spec, dir).Answer?
    ensures var ch := Fresh(spec, dir).child;
      var dir' := DirOf(ch, dir);
      && ChildTolerates(children[k], dir') && UploadSound(WithDir(children[k], dir'), dir')
      && Apart(ch, WithDir(children[k], dir')) && Apart(WithDir(children[k], dir'), ch)
  {
    assert UploadSound(children[k], dir);
  }

  lemma NewIsSound(spec: Spec, dir: FileStore.Directory)
    requires Fresh(spec, dir).Answer?
    ensures var ch := Fresh(spec, dir).child; UploadSound(ch, DirOf(ch, dir)) && WithDir(ch, DirOf(ch, dir)) == ch
  {
  }

  lemma DiskGrows(children: map<nat, Child>, dir: FileStore.Directory, id: nat, ch: Child)
    requires Disk(children, dir) && id !in children
    requires ch.RejectedChild? || exists spec :: Fresh(spec, dir).Answer? && ch == Fresh(spec, dir).child
    ensures Disk(AllWithDir(children[id := ch], DirOf(ch, dir)), DirOf(ch, dir))
    ensures forall k :: k in children ==> ChildTolerates(children[k], DirOf(ch, dir))
    ensures WithDir(ch, DirOf(ch, dir)) == ch
  {
    var dir' := DirOf(ch, dir);
    var all := AllWithDir(children[id := ch], dir');
    if !ch.RejectedChild? {
      var spec :| Fresh(spec, dir).Answer? && ch == Fresh(spec, dir).child;
      NewIsSound(spec, dir);
      forall k | k in children
        ensures ChildTolerates(children[k], dir') && UploadSound(all[k], dir') && Apart(ch, all[k]) && Apart(all[k], ch)
      {
        NewIsApart(children, dir, spec, k);
      }
    } else {
      forall k | k in children ensures UploadSound(all[k], dir') {
        assert UploadSound(children[k], dir);
      }
    }
    forall i, j | i in all && j in all && i != j ensures Apart(all[i], all[j]) {
      if i != id && j != id {
        assert Apart(children[i], children[j]);
      }
    }
  }

  lemma AdmitKeeps(sha: FileStore.Hash, I: Property, p: Parent, id: nat, a: Answer, tail: seq<Tagged>)
    requires Inductive(sha, I) && Sane(I, p) && p.health.Up? && p.up != [] && p.up[0].Opens? && p.up[0].id == id
    requires tail == p.up[1..] && a.Answer? && I(a.child, [], [a.frame], Live)
    requires a.child.RejectedChild? || exists spec :: Fresh(spec, p.dir).Answer? && a.child == Fresh(spec, p.dir).child
    ensures Sane(I, Admit(p.(up := tail), id, a))
  {
    var r := Admit(p.(up := tail), id, a);
    DiskGrows(p.children, p.dir, id, a.child);
    assert r.children.Keys == p.children.Keys + {id};
    forall k | k in r.children
      ensures I(r.children[k], Only(k, r.up), Only(k, r.down), StatusOf(r.health, k))
    {
      OnlyAfter(k, id, p.down, [a.frame]);
      assert Only(k, p.up) == Only(k, tail);
      if k == id {
        OnlyAbsent(id, tail);
        OnlyAbsent(id, p.down);
        assert [] + [a.frame] == [a.frame];
      } else {
        assert I(p.children[k], Only(k, p.up), Only(k, p.down), StatusOf(p.health, k));
      }
    }
    AdmitChannels(p, id, a, tail);
  }

  lemma AdmitChannels(p: Parent, id: nat, a: Answer, tail: seq<Tagged>)
    requires Channels(p) && p.health.Up? && p.up != [] && p.up[0].Opens? && p.up[0].id == id
    requires tail == p.up[1..] && a.Answer?
    ensures Channels(Admit(p.(up := tail), id, a))
  {
    var r := Admit(p.(up := tail), id, a);
    assert r.children.Keys == p.children.Keys + {id};
    assert UpOk(r, tail);
    assert DownOk(r, p.down);
    TaggedOk(r, id, p.down, [a.frame]);
  }

  lemma ReplyHolds(sha: FileStore.Hash, I: Property, p: Parent, spec: Spec, x: Answers)
    requires Inductive(sha, I) && Reply(p, spec, x).Answer?
    ensures var a := Reply(p, spec, x);
      && I(a.child, [], [a.frame], Live)
      && (a.child.RejectedChild? || (Fresh(spec, p.dir).Answer? && a.child == Fresh(spec, p.dir).child))
  {
  }

  lemma StreamsAreUsed(p: Parent)
    requires Numbered(p)
    ensures Allocator.ClientOk(ClientOf(p))
  {
  }

  /** The client's next ID is one that was never used. */
  lemma NextIsNew(p: Parent)
    requires Numbered(p)
    ensures Allocator.Pick(ClientOf(p)) == p.next
    ensures p.next !in p.asking && p.next !in p.opening && p.next !in p.children
  {
    StreamsAreUsed(p);
    Allocator.PickIsNext(ClientOf(p));
    assert p.next !in Allocator.UsedBelow(p.next);
  }

  function Allocated(p: Parent, spec: Spec): Parent
  {
    p.(asking := p.asking[p.next := spec], next := p.next + 1, count := p.count + 1)
  }

  lemma AllocateNumbers(p: Parent, spec: Spec)
    requires Numbered(p) && p.count < Namespace.MAX_IDS
    ensures Numbered(Allocated(p, spec))
  {
    NextIsNew(p);
    Allocator.UsedGrows(p.next);
    assert Allocated(p, spec).asking.Keys == p.asking.Keys + {p.next};
  }

  lemma AllocateKeeps(I: Property, p: Parent, spec: Spec)
    requires Sane(I, p) && MayOpen(p, spec)
    ensures Sane(I, Allocated(p, spec))
  {
    AllocateNumbers(p, spec);
    assert EachChild(I, Allocated(p, spec));
  }

  lemma AbandonKeeps(I: Property, p: Parent, id: nat)
    requires Sane(I, p)
    ensures Sane(I, p.(asking := p.asking - {id}))
  {
    var r := p.(asking := p.asking - {id});
    assert r.asking.Keys == p.asking.Keys - {id};
    assert EachChild(I, r);
  }

  lemma TearKeeps(I: Property, p: Parent, id: nat)
    requires Sane(I, p) && p.health.Up?
    ensures Sane(I, p.(health := Torn(id)))
  {
    var r := p.(health := Torn(id));
    forall k | k in r.children
      ensures I(r.children[k], Only(k, r.up), Only(k, r.down), StatusOf(r.health, k))
    {
      assert I(p.children[k], Only(k, p.up), Only(k, p.down), StatusOf(p.health, k));
    }
  }

  lemma OpenKeeps(I: Property, p: Parent, id: nat)
    requires Sane(I, p) && p.health.Up? && id in p.asking
    ensures var spec := p.asking[id];
      Sane(I, p.(asking := p.asking - {id}, opening := p.opening[id := spec], up := p.up + [Opens(id, spec)]))
  {
    var spec := p.asking[id];
    var r := p.(asking := p.asking - {id}, opening := p.opening[id := spec], up := p.up + [Opens(id, spec)]);
    assert r.asking.Keys == p.asking.Keys - {id} && r.opening.Keys == p.opening.Keys + {id};
    forall k | k in r.children
      ensures I(r.children[k], Only(k, r.up), Only(k, r.down), StatusOf(r.health, k))
    {
      OnlyConcat(k, p.up, [Opens(id, spec)]);
      assert Only(k, [Opens(id, spec)]) == [];
      assert Only(k, r.up) == Only(k, p.up);
      assert I(p.children[k], Only(k, p.up), Only(k, p.down), StatusOf(p.health, k));
    }
  }

  lemma ElsewhereDisk(children: map<nat, Child>, dir: FileStore.Directory, after: FileStore.Directory)
    requires Disk(children, dir) && forall id :: id in children ==> ChildTolerates(children[id], after)
    ensures Disk(AllWithDir(children, after), after)
  {
    var all := AllWithDir(children, after);
    forall k | k in all ensures UploadSound(all[k], after) {
      assert UploadSound(children[k], dir) && ChildTolerates(children[k], after);
    }
    forall i, j | i in all && j in all && i != j ensures Apart(all[i], all[j]) {
      assert Apart(children[i], children[j]);
    }
  }

  lemma ElsewhereKeeps(sha: FileStore.Hash, I: Property, p: Parent, after: FileStore.Directory)
    requires Inductive(sha, I) && Sane(I, p) && forall id :: id in p.children ==> ChildTolerates(p.children[id], after)
    ensures Sane(I, p.(children := AllWithDir(p.children, after), dir := after))
  {
    var r := p.(children := AllWithDir(p.children, after), dir := after);
    ElsewhereDisk(p.children, p.dir, after);
    forall k | k in r.children
      ensures I(r.children[k], Only(k, r.up), Only(k, r.down), StatusOf(r.health, k))
    {
      assert I(p.children[k], Only(k, p.up), Only(k, p.down), StatusOf(p.health, k));
      assert ChildTolerates(p.children[k], after);
    }
    assert r.children.Keys == p.children.Keys;
  }

  lemma LocalKeeps(sha: FileStore.Hash, I: Property, p: Parent, id: nat, m: Move)
    requires Inductive(sha, I) && Sane(I, p) && p.health.Up? && id in p.children
    ensures Sane(I, Apply(p, id, LocalEffect(sha, p.children[id], m)))
  {
    LocalIsPolite(sha, p.children[id], p.dir, m);
    assert I(p.children[id], Only(id, p.up), Only(id, p.down), StatusOf(p.health, id));
    ApplyKeeps(sha, I, p, id, LocalEffect(sha, p.children[id], m), p);
  }

  lemma PopDown(p: Parent)
    requires Channels(p) && p.down != []
    ensures Popped(p, p.(down := p.down[1..]), p.down[0].id)
    ensures Only(p.down[0].id, p.down) == [p.down[0].frame] + Only(p.down[0].id, p.down[1..])
  {
  }

  lemma PopUp(p: Parent)
    requires Channels(p) && p.up != [] && p.up[0].Tagged?
    ensures Popped(p, p.(up := p.up[1..]), p.up[0].id)
    ensures Only(p.up[0].id, p.up) == [p.up[0].frame] + Only(p.up[0].id, p.up[1..])
  {
  }

  lemma ClientReceivesKeeps(sha: FileStore.Hash, I: Property, p: Parent)
    requires Inductive(sha, I) && Sane(I, p) && p.health.Up? && p.down != []
    ensures var e := ClientEffect(p.children[p.down[0].id], p.down[0].frame);
      Sane(I, Apply(if e.Steps? then p.(down := p.down[1..]) else p, p.down[0].id, e))
  {
    var id, f := p.down[0].id, p.down[0].frame;
    var e := ClientEffect(p.children[id], f);
    PopDown(p);
    var down := Only(id, p.down);
    assert down[0] == f && down[1..] == Only(id, p.down[1..]);
    assert I(p.children[id], Only(id, p.up), down, StatusOf(p.health, id));
    ClientIsPolite(p.children[id], f);
    ApplyKeeps(sha, I, p, id, e, if e.Steps? then p.(down := p.down[1..]) else p);
  }

  lemma ServerReceivesKeeps(sha: FileStore.Hash, I: Property, p: Parent, x: Answers)
    requires Inductive(sha, I) && Sane(I, p) && p.health.Up? && p.up != [] && p.up[0].Tagged?
    ensures var e := ServerEffect(sha, p.children[p.up[0].id], p.up[0].frame, x);
      Sane(I, Apply(if e.Steps? then p.(up := p.up[1..]) else p, p.up[0].id, e))
  {
    var id, f := p.up[0].id, p.up[0].frame;
    var e := ServerEffect(sha, p.children[id], f, x);
    PopUp(p);
    var up := Only(id, p.up);
    assert up[0] == f && up[1..] == Only(id, p.up[1..]);
    assert I(p.children[id], up, Only(id, p.down), StatusOf(p.health, id));
    ServerIsPolite(sha, p.children[id], p.dir, f, x);
    ApplyKeeps(sha, I, p, id, e, if e.Steps? then p.(up := p.up[1..]) else p);
  }

  lemma LoseKeeps(I: Property, p: Parent, health: Health)
    requires Sane(I, p) && p.health.Up? && p.up != [] && p.up[0].Opens? && (health.TooMany? || health.BadId?)
    ensures Sane(I, p.(up := p.up[1..], health := health))
  {
    var r := p.(up := p.up[1..], health := health);
    forall k | k in r.children
      ensures I(r.children[k], Only(k, r.up), Only(k, r.down), StatusOf(r.health, k))
    {
      assert Only(k, p.up) == Only(k, r.up);
      assert I(p.children[k], Only(k, p.up), Only(k, p.down), StatusOf(p.health, k));
    }
    assert UpOk(r, r.up);
  }

  lemma ServerTakesOpenKeeps(sha: FileStore.Hash, I: Property, p: Parent, x: Answers)
    requires Inductive(sha, I) && Sane(I, p) && p.health.Up? && p.up != [] && p.up[0].Opens?
    ensures Sane(I, ServerTakesOpen(p.(up := p.up[1..]), p.up[0].id, p.up[0].spec, x))
  {
    var id, spec, tail := p.up[0].id, p.up[0].spec, p.up[1..];
    var q := p.(up := tail);
    var a := Reply(q, spec, x);
    if a.Answer? && Namespace.Reserve(Registry(q), id, SpecKind(spec)).0.Ok? {
      ReplyHolds(sha, I, q, spec, x);
      AdmitKeeps(sha, I, p, id, a, tail);
    } else {
      LoseKeeps(I, p, if a.Answer? then BadId(id) else TooMany(id));
    }
  }

  lemma DoKeeps(sha: FileStore.Hash, I: Property, p: Parent, a: Action)
    requires Inductive(sha, I) && Sane(I, p)
    ensures Sane(I, Do(sha, p, a))
  {
    if p.health.Up? {
      match a
      case ClientAllocates(spec) =>
        if MayOpen(p, spec) {
          NextIsNew(p);
          AllocateKeeps(I, p, spec);
        }
      case ClientAbandons(id) => AbandonKeeps(I, p, id);
      case ClientOpens(id) => if id in p.asking { OpenKeeps(I, p, id); }
      case ContextEnds(id) => TearKeeps(I, p, id);
      case Local(id, m) => if id in p.children { LocalKeeps(sha, I, p, id, m); }
      case ClientReceives => if p.down != [] { ClientReceivesKeeps(sha, I, p); }
      case ServerReceives(x) =>
        if p.up != [] {
          if p.up[0].Opens? {
            ServerTakesOpenKeeps(sha, I, p, x);
          } else {
            ServerReceivesKeeps(sha, I, p, x);
          }
        }
      case Elsewhere(after) =>
        if forall id :: id in p.children ==> ChildTolerates(p.children[id], after) { ElsewhereKeeps(sha, I, p, after); }
    }
  }

  lemma RunKeeps(sha: FileStore.Hash, I: Property, p: Parent, schedule: seq<Action>)
    requires Inductive(sha, I) && Sane(I, p)
    ensures Sane(I, Run(sha, p, schedule))
  {
    forall q, a | Sane(I, q) ensures Sane(I, Do(sha, q, a)) {
      DoKeeps(sha, I, q, a);
    }
    Machine.RunKeeps(Step(sha), q => Sane(I, q), p, schedule);
  }

  // ----- the promises, for every stream of every multiplexed run -----

  type Downloads = (Download.Stream, seq<Byte>) -> bool
  type Uploads = (Upload.Stream, FileStore.Terms) -> bool
  type Terminals = Terminal.Stream -> bool

  function OtherDir(l: Upload.Stream, dir: FileStore.Directory): Upload.Stream
  {
    l.(server := l.server.(upload := l.server.upload.(dir := dir)))
  }

  /** Invariants of the three single-stream machines: true at the start and kept by every step. */
  ghost predicate Closed(sha: FileStore.Hash, D: Downloads, U: Uploads, T: Terminals)
  {
    && (forall content :: D(Download.Init(content), content))
    && (forall l, a, content :: D(l, content) ==> D(Download.Do(l, a), content))
    && (forall t: FileStore.Terms, dir :: t.Valid() ==> U(Upload.Init(t, dir), t))
    && (forall l, a, t :: U(l, t) ==> U(Upload.Do(t, sha, l, a), t))
    && (forall l, t, dir :: U(l, t) && FileStore.Tolerates(t, l.server.upload, dir) ==> U(OtherDir(l, dir), t))
    && T(Terminal.Init()) && (forall l, a :: T(l) ==> T(Terminal.Do(l, a)))
  }

  /** The same invariants, for one stream of a session. */
  function Lift(D: Downloads, U: Uploads, T: Terminals): Property
  {
    (ch: Child, up: seq<Frame>, down: seq<Frame>, st: Status) =>
      match ch
      case DownloadChild(c, s, content) => D(Link(c, s, up, down, st), content)
      case UploadChild(c, s, t) => U(Link(c, s, up, down, st), t)
      case TerminalChild(c, s) => T(Link(c, s, up, down, st))
      case RejectedChild(_, done) => st.Live? && up == [] && down == if done then [] else [StreamError]
  }

  lemma FreshHolds(sha: FileStore.Hash, D: Downloads, U: Uploads, T: Terminals, spec: Spec, dir: FileStore.Directory)
    requires Closed(sha, D, U, T) && Fresh(spec, dir).Answer?
    ensures Lift(D, U, T)(Fresh(spec, dir).child, [], [Fresh(spec, dir).frame], Live)
  {
    match spec
    case OpenDownload(path) => assert path in dir ==> D(Download.Init(dir[path]), dir[path]);
    case OpenUpload(t) => assert t.Valid() ==> U(Upload.Init(t, dir), t);
    case OpenTerminal =>
  }

  /** `e` is outcome `o` of one end, as an effect on the stream. */
  predicate ClientSide<C(==), S>(o: Outcome<C>, e: Effect, mk: (C, S) -> Child, s: S)
  {
    match o
    case Blocked => e == Waits
    case Refused => e == Refuses(ClientRefused)
    case Moves(c, emits) => e == Steps(mk(c, s), emits, [])
  }

  predicate ServerSide<C, S(==)>(o: Outcome<S>, e: Effect, mk: (C, S) -> Child, c: C)
  {
    match o
    case Blocked => e == Waits
    case Refused => e == Refuses(ServerRefused)
    case Moves(s, emits) => e == Steps(mk(c, s), [], emits)
  }

  /** `P` speaks of a single-stream machine exactly as `I` speaks of a stream of the session. */
  ghost predicate Agrees<C(!new), S(!new)>(I: Property, P: Link<C, S> -> bool, mk: (C, S) -> Child)
  {
    forall c, s, up, down, st :: I(mk(c, s), up, down, st) == P(Link(c, s, up, down, st))
  }

  lemma ClientGlue<C(!new), S(!new)>(I: Property, P: Link<C, S> -> bool, mk: (C, S) -> Child,
                                           l: Link<C, S>, o: Outcome<C>, e: Effect)
    requires Agrees(I, P, mk) && l.status.Live? && ClientSide(o, e, mk, l.server)
    ensures P(AfterClient(l, o)) ==> Holds(I, e, mk(l.client, l.server), l.up, l.down, l.up, l.down)
    ensures l.down != [] && P(ClientTakes(l, o)) ==>
      Holds(I, e, mk(l.client, l.server), l.up, l.down, l.up, l.down[1..])
  {
    assert l.down + [] == l.down && l.down != [] ==> l.down[1..] + [] == l.down[1..];
    if o.Moves? {
      assert AfterClient(l, o) == Link(o.next, l.server, l.up + o.emits, l.down + [], Live);
      if l.down != [] {
        assert ClientTakes(l, o) == Link(o.next, l.server, l.up + o.emits, l.down[1..] + [], Live);
      }
    } else if o.Refused? {
      assert AfterClient(l, o) == Link(l.client, l.server, l.up, l.down, ClientRefused);
    }
  }

  lemma ServerGlue<C(!new), S(!new)>(I: Property, P: Link<C, S> -> bool, mk: (C, S) -> Child,
                                           l: Link<C, S>, o: Outcome<S>, e: Effect)
    requires Agrees(I, P, mk) && l.status.Live? && ServerSide(o, e, mk, l.client)
    ensures P(AfterServer(l, o)) ==> Holds(I, e, mk(l.client, l.server), l.up, l.down, l.up, l.down)
    ensures l.up != [] && P(ServerTakes(l, o)) ==> Holds(I, e, mk(l.client, l.server), l.up, l.down, l.up[1..], l.down)
  {
    assert l.up + [] == l.up && l.up != [] ==> l.up[1..] + [] == l.up[1..];
    if o.Moves? {
      assert AfterServer(l, o) == Link(l.client, o.next, l.up + [], l.down + o.emits, Live);
      if l.up != [] {
        assert ServerTakes(l, o) == Link(l.client, o.next, l.up[1..] + [], l.down + o.emits, Live);
      }
    } else if o.Refused? {
      assert AfterServer(l, o) == Link(l.client, l.server, l.up, l.down, ServerRefused);
    }
  }

  lemma DownloadLocal(sha: FileStore.Hash, D: Downloads, U: Uploads, T: Terminals, ch: Child, m: Move,
            up: seq<Frame>, down: seq<Frame>)
    requires Closed(sha, D, U, T) && ch.DownloadChild? && Lift(D, U, T)(ch, up, down, Live)
    ensures Holds(Lift(D, U, T), LocalEffect(sha, ch, m), ch, up, down, up, down)
  {
    var I, P, mk := Lift(D, U, T), l => D(l, ch.content), (c, s) => DownloadChild(c, s, ch.content);
    var l := Link(ch.dc, ch.ds, up, down, Live);
    assert Agrees(I, P, mk);
    if m.DownloadClient? {
      assert P(Download.Do(l, Download.ClientDoes(m.dcm)));
      ClientGlue(I, P, mk, l, Download.ClientStep(ch.dc, m.dcm), LocalEffect(sha, ch, m));
    } else if m.DownloadServer? {
      assert P(Download.Do(l, Download.ServerDoes(m.dsm)));
      ServerGlue(I, P, mk, l, Download.ServerStep(ch.ds, m.dsm), LocalEffect(sha, ch, m));
    }
  }

  lemma DownloadReceive(sha: FileStore.Hash, D: Downloads, U: Uploads, T: Terminals, ch: Child,
            up: seq<Frame>, down: seq<Frame>, x: Answers)
    requires Closed(sha, D, U, T) && ch.DownloadChild? && Lift(D, U, T)(ch, up, down, Live)
    ensures down != [] ==> Holds(Lift(D, U, T), ClientEffect(ch, down[0]), ch, up, down, up, down[1..])
    ensures up != [] ==> Holds(Lift(D, U, T), ServerEffect(sha, ch, up[0], x), ch, up, down, up[1..], down)
  {
    var I, P, mk := Lift(D, U, T), l => D(l, ch.content), (c, s) => DownloadChild(c, s, ch.content);
    var l := Link(ch.dc, ch.ds, up, down, Live);
    assert Agrees(I, P, mk);
    if down != [] {
      assert P(Download.Do(l, Download.ClientReceives));
      ClientGlue(I, P, mk, l, Download.ClientReceive(ch.dc, down[0]), ClientEffect(ch, down[0]));
    }
    if up != [] {
      assert P(Download.Do(l, Download.ServerReceives));
      ServerGlue(I, P, mk, l, Download.ServerReceive(ch.ds, up[0]), ServerEffect(sha, ch, up[0], x));
    }
  }

  lemma UploadLocal(sha: FileStore.Hash, D: Downloads, U: Uploads, T: Terminals, ch: Child, m: Move,
            up: seq<Frame>, down: seq<Frame>)
    requires Closed(sha, D, U, T) && ch.UploadChild? && Lift(D, U, T)(ch, up, down, Live)
    ensures Holds(Lift(D, U, T), LocalEffect(sha, ch, m), ch, up, down, up, down)
  {
    var I, P, mk := Lift(D, U, T), l => U(l, ch.terms), (c, s) => UploadChild(c, s, ch.terms);
    var l := Link(ch.uc, ch.us, up, down, Live);
    assert Agrees(I, P, mk);
    if m.UploadClient? {
      assert P(Upload.Do(ch.terms, sha, l, Upload.ClientDoes(m.ucm)));
      ClientGlue(I, P, mk, l, Upload.ClientStep(ch.uc, m.ucm), LocalEffect(sha, ch, m));
    } else if m.UploadServer? && !m.usm.Elsewhere? {
      assert P(Upload.Do(ch.terms, sha, l, Upload.ServerDoes(m.usm)));
      ServerGlue(I, P, mk, l, Upload.ServerStep(ch.terms, sha, ch.us, m.usm), LocalEffect(sha, ch, m));
    }
  }

  lemma UploadReceive(sha: FileStore.Hash, D: Downloads, U: Uploads, T: Terminals, ch: Child,
            up: seq<Frame>, down: seq<Frame>, x: Answers)
    requires Closed(sha, D, U, T) && ch.UploadChild? && Lift(D, U, T)(ch, up, down, Live)
    ensures down != [] ==> Holds(Lift(D, U, T), ClientEffect(ch, down[0]), ch, up, down, up, down[1..])
    ensures up != [] ==> Holds(Lift(D, U, T), ServerEffect(sha, ch, up[0], x), ch, up, down, up[1..], down)
  {
    var I, P, mk := Lift(D, U, T), l => U(l, ch.terms), (c, s) => UploadChild(c, s, ch.terms);
    var l := Link(ch.uc, ch.us, up, down, Live);
    assert Agrees(I, P, mk);
    if down != [] {
      assert P(Upload.Do(ch.terms, sha, l, Upload.ClientReceives));
      ClientGlue(I, P, mk, l, Upload.ClientReceive(ch.uc, down[0]), ClientEffect(ch, down[0]));
    }
    if up != [] {
      assert P(Upload.Do(ch.terms, sha, l, Upload.ServerReceives(x.faults)));
      ServerGlue(I, P, mk, l, Upload.ServerReceive(ch.terms, sha, ch.us, up[0], x.faults),
                 ServerEffect(sha, ch, up[0], x));
    }
  }

  lemma TerminalLocal(sha: FileStore.Hash, D: Downloads, U: Uploads, T: Terminals, ch: Child, m: Move,
            up: seq<Frame>, down: seq<Frame>)
    requires Closed(sha, D, U, T) && ch.TerminalChild? && Lift(D, U, T)(ch, up, down, Live)
    ensures Holds(Lift(D, U, T), LocalEffect(sha, ch, m), ch, up, down, up, down)
  {
    var I, P, mk, l := Lift(D, U, T), T, (c, s) => TerminalChild(c, s), Link(ch.tc, ch.ts, up, down, Live);
    assert Agrees(I, P, mk);
    if m.TerminalClient? {
      assert P(Terminal.Do(l, Terminal.ClientDoes(m.tcm)));
      ClientGlue(I, P, mk, l, Terminal.ClientStep(ch.tc, m.tcm), LocalEffect(sha, ch, m));
    } else if m.TerminalServer? {
      assert P(Terminal.Do(l, Terminal.ServerDoes(m.tsm)));
      ServerGlue(I, P, mk, l, Terminal.ServerStep(ch.ts, m.tsm), LocalEffect(sha, ch, m));
    }
  }

  lemma TerminalReceive(sha: FileStore.Hash, D: Downloads, U: Uploads, T: Terminals, ch: Child,
            up: seq<Frame>, down: seq<Frame>, x: Answers)
    requires Closed(sha, D, U, T) && ch.TerminalChild? && Lift(D, U, T)(ch, up, down, Live)
    ensures down != [] ==> Holds(Lift(D, U, T), ClientEffect(ch, down[0]), ch, up, down, up, down[1..])
    ensures up != [] ==> Holds(Lift(D, U, T), ServerEffect(sha, ch, up[0], x), ch, up, down, up[1..], down)
  {
    var I, P, mk, l := Lift(D, U, T), T, (c, s) => TerminalChild(c, s), Link(ch.tc, ch.ts, up, down, Live);
    assert Agrees(I, P, mk);
    if down != [] {
      assert P(Terminal.Do(l, Terminal.ClientReceives));
      ClientGlue(I, P, mk, l, Terminal.ClientReceive(ch.tc, down[0]), ClientEffect(ch, down[0]));
    }
    if up != [] {
      assert P(Terminal.Do(l, Terminal.ServerReceives(x.pty)));
      ServerGlue(I, P, mk, l, Terminal.ServerReceive(ch.ts, up[0], x.pty), ServerEffect(sha, ch, up[0], x));
    }
  }

  lemma RejectedHolds(sha: FileStore.Hash, D: Downloads, U: Uploads, T: Terminals, ch: Child, m: Move,
                      up: seq<Frame>, down: seq<Frame>, x: Answers)
    requires ch.RejectedChild? && Lift(D, U, T)(ch, up, down, Live)
    ensures Holds(Lift(D, U, T), LocalEffect(sha, ch, m), ch, up, down, up, down)
    ensures down != [] ==> Holds(Lift(D, U, T), ClientEffect(ch, down[0]), ch, up, down, up, down[1..])
    ensures up != [] ==> Holds(Lift(D, U, T), ServerEffect(sha, ch, up[0], x), ch, up, down, up[1..], down)
  {
    if down != [] {
      assert down[1..] + [] == [] && up + [] == [];
    }
  }

  lemma LiftHolds(sha: FileStore.Hash, D: Downloads, U: Uploads, T: Terminals, ch: Child, m: Move,
                  up: seq<Frame>, down: seq<Frame>, x: Answers)
    requires Closed(sha, D, U, T) && Lift(D, U, T)(ch, up, down, Live)
    ensures Holds(Lift(D, U, T), LocalEffect(sha, ch, m), ch, up, down, up, down)
    ensures down != [] ==> Holds(Lift(D, U, T), ClientEffect(ch, down[0]), ch, up, down, up, down[1..])
    ensures up != [] ==> Holds(Lift(D, U, T), ServerEffect(sha, ch, up[0], x), ch, up, down, up[1..], down)
  {
    match ch
    case DownloadChild(_, _, _) =>
      DownloadLocal(sha, D, U, T, ch, m, up, down);
      DownloadReceive(sha, D, U, T, ch, up, down, x);
    case UploadChild(_, _, _) =>
      UploadLocal(sha, D, U, T, ch, m, up, down);
      UploadReceive(sha, D, U, T, ch, up, down, x);
    case TerminalChild(_, _) =>
      TerminalLocal(sha, D, U, T, ch, m, up, down);
      TerminalReceive(sha, D, U, T, ch, up, down, x);
    case RejectedChild(_, _) => RejectedHolds(sha, D, U, T, ch, m, up, down, x);
  }

  lemma OthersHold(sha: FileStore.Hash, D: Downloads, U: Uploads, T: Terminals, ch: Child,
                   up: seq<Frame>, down: seq<Frame>, st: Status, dir: FileStore.Directory)
    requires Closed(sha, D, U, T) && Lift(D, U, T)(ch, up, down, st) && ChildTolerates(ch, dir)
    ensures Lift(D, U, T)(WithDir(ch, dir), up, down, st)
  {
    if ch.UploadChild? {
      assert U(OtherDir(Link(ch.uc, ch.us, up, down, st), dir), ch.terms);
    }
  }

  lemma ClosedIsInductive(sha: FileStore.Hash, D: Downloads, U: Uploads, T: Terminals)
    requires Closed(sha, D, U, T)
    ensures Inductive(sha, Lift(D, U, T))
  {
    var I := Lift(D, U, T);
    forall spec, dir | Fresh(spec, dir).Answer? ensures I(Fresh(spec, dir).child, [], [Fresh(spec, dir).frame], Live) {
      FreshHolds(sha, D, U, T, spec, dir);
    }
    forall ch, m, up, down | I(ch, up, down, Live)
      ensures Holds(I, LocalEffect(sha, ch, m), ch, up, down, up, down)
    {
      LiftHolds(sha, D, U, T, ch, m, up, down, NO_FAULTS);
    }
    forall ch, up, down | I(ch, up, down, Live) && down != []
      ensures Holds(I, ClientEffect(ch, down[0]), ch, up, down, up, down[1..])
    {
      LiftHolds(sha, D, U, T, ch, UploadServer(Upload.Announce), up, down, NO_FAULTS);
    }
    forall ch, up, down, x | I(ch, up, down, Live) && up != []
      ensures Holds(I, ServerEffect(sha, ch, up[0], x), ch, up, down, up[1..], down)
    {
      LiftHolds(sha, D, U, T, ch, UploadServer(Upload.Announce), up, down, x);
    }
    forall ch, up, down, st, dir | I(ch, up, down, st) && ChildTolerates(ch, dir)
      ensures I(WithDir(ch, dir), up, down, st) {
      OthersHold(sha, D, U, T, ch, up, down, st, dir);
    }
  }

  /** The lifting theorem: whatever the single-stream machines keep, every stream of every run of the
      session keeps, and the uploads of a session never get in each other's way on the disk. */
  lemma Lifting(sha: FileStore.Hash, D: Downloads, U: Uploads, T: Terminals,
                dir: FileStore.Directory, schedule: seq<Action>)
    requires Closed(sha, D, U, T)
    ensures Sane(Lift(D, U, T), Run(sha, Start(dir), schedule))
  {
    ClosedIsInductive(sha, D, U, T);
    RunKeeps(sha, Lift(D, U, T), Start(dir), schedule);
  }

  function UploadInv(sha: FileStore.Hash): Uploads { (l, t) => Upload.Inv(t, sha, l) }

  function Invariant(sha: FileStore.Hash): Property { Lift(Download.Inv, UploadInv(sha), Terminal.Inv) }

  lemma InvariantsAreClosed(sha: FileStore.Hash)
    ensures Closed(sha, Download.Inv, UploadInv(sha), Terminal.Inv)
  {
    forall content ensures Download.Inv(Download.Init(content), content) {
      Download.InitHolds(content);
    }
    forall l, a, content | Download.Inv(l, content) ensures Download.Inv(Download.Do(l, a), content) {
      Download.DoKeeps(l, a, content);
    }
    forall t: FileStore.Terms, dir | t.Valid() ensures Upload.Inv(t, sha, Upload.Init(t, dir)) {
      Upload.InitHolds(t, sha, dir);
    }
    forall l, a, t | Upload.Inv(t, sha, l) ensures Upload.Inv(t, sha, Upload.Do(t, sha, l, a)) {
      Upload.DoKeeps(t, sha, l, a);
    }
    forall l, t, dir | Upload.Inv(t, sha, l) && FileStore.Tolerates(t, l.server.upload, dir)
      ensures Upload.Inv(t, sha, OtherDir(l, dir))
    {
      OtherDirKeeps(sha, l, t, dir);
    }
    Terminal.InitHolds();
    forall l, a | Terminal.Inv(l) ensures Terminal.Inv(Terminal.Do(l, a)) {
      Terminal.DoKeeps(l, a);
    }
  }

  lemma OtherDirKeeps(sha: FileStore.Hash, l: Upload.Stream, t: FileStore.Terms, dir: FileStore.Directory)
    requires Upload.Inv(t, sha, l) && FileStore.Tolerates(t, l.server.upload, dir)
    ensures Upload.Inv(t, sha, OtherDir(l, dir))
  {
    FileStore.OthersKeep(t, sha, l.server.upload, dir);
  }

  lemma Reachable(sha: FileStore.Hash, dir: FileStore.Directory, schedule: seq<Action>)
    ensures Sane(Invariant(sha), Run(sha, Start(dir), schedule))
  {
    InvariantsAreClosed(sha);
    Lifting(sha, Download.Inv, UploadInv(sha), Terminal.Inv, dir, schedule);
  }

  /** What a caller can rely on for one stream. */
  predicate Exact(ch: Child, dir: FileStore.Directory)
  {
    match ch
    case DownloadChild(c, s, content) => c.finished ==> c.returned == content
    case UploadChild(c, s, t) =>
      && (c.committed && c.allNil ==> t.destination in dir && dir[t.destination] == c.acked)
      && (s.upload.committed ==> t.destination in dir && dir[t.destination] == s.upload.hashed)
    case TerminalChild(c, s) => Terminal.Arrived(c.screen) <= s.source.produced && s.sink.typed <= c.keyboard.written
    case RejectedChild(_, _) => true
  }

  lemma InvImpliesExact(sha: FileStore.Hash, ch: Child, up: seq<Frame>, down: seq<Frame>,
                        st: Status, dir: FileStore.Directory)
    requires Invariant(sha)(ch, up, down, st) && UploadSound(ch, dir)
    ensures Exact(ch, dir)
  {
    match ch
    case DownloadChild(c, s, content) =>
      if c.finished {
        Download.FinishedCopy(Link(c, s, up, down, st), content);
      }
    case UploadChild(c, s, t) =>
      if c.committed && c.allNil {
        Upload.CommittedCopy(t, sha, Link(c, s, up, down, st));
      }
    case TerminalChild(c, s) => assert Terminal.Inv(Link(c, s, up, down, st));
    case RejectedChild(_, _) =>
  }

  /** However many streams share the parent and however their frames and file operations interleave: a
      finished download is an exact copy of the file as it was opened, a committed upload is exactly what
      its Writes were given, in the one directory all of them share, and terminal input and output arrive
      in order. */
  lemma TransfersAreExact(sha: FileStore.Hash, dir: FileStore.Directory, schedule: seq<Action>, id: nat)
    ensures var p := Run(sha, Start(dir), schedule); id in p.children ==> Exact(p.children[id], p.dir)
  {
    Reachable(sha, dir, schedule);
    var p := Run(sha, Start(dir), schedule);
    if id in p.children {
      assert Invariant(sha)(p.children[id], Only(id, p.up), Only(id, p.down), StatusOf(p.health, id));
      InvImpliesExact(sha, p.children[id], Only(id, p.up), Only(id, p.down), StatusOf(p.health, id), p.dir);
    }
  }

  /** At most one upload of a session ever publishes to a destination. */
  lemma OneWriterPerDestination(sha: FileStore.Hash, dir: FileStore.Directory, schedule: seq<Action>, i: nat, j: nat)
    ensures var p := Run(sha, Start(dir), schedule);
      i in p.children && j in p.children && i != j && p.children[i].UploadChild? && p.children[j].UploadChild? &&
      p.children[i].terms.destination == p.children[j].terms.destination ==>
        !(p.children[i].us.upload.committed && p.children[j].us.upload.committed)
  {
    Reachable(sha, dir, schedule);
    var p := Run(sha, Start(dir), schedule);
    if i in p.children && j in p.children && i != j {
      assert Apart(p.children[i], p.children[j]);
    }
  }

  /** Why a frame of this stream was refused. */
  predicate Cause(ch: Child, st: Status)
  {
    match ch
    case DownloadChild(c, s, content) => st == ServerRefused && s.broken
    case UploadChild(c, s, t) => st == ServerRefused && s.broken
    case TerminalChild(c, s) =>
      || (st == ServerRefused && s.closed.Some?)
      || (st == ClientRefused && (c.done || c.screen.reader.Announced?))
    case RejectedChild(_, _) => false
  }

  lemma InvImpliesCause(sha: FileStore.Hash, ch: Child, up: seq<Frame>, down: seq<Frame>, st: Status)
    requires Invariant(sha)(ch, up, down, st) && !st.Live?
    ensures Cause(ch, st)
  {
    match ch
    case DownloadChild(c, s, content) => assert Download.Inv(Link(c, s, up, down, st), content);
    case UploadChild(c, s, t) => assert Upload.Inv(t, sha, Link(c, s, up, down, st));
    case TerminalChild(c, s) => assert Terminal.Inv(Link(c, s, up, down, st));
    case RejectedChild(_, _) =>
  }

  /** The ways an honest session can be lost: a frame of a stream meets an end that has already closed it,
      which happens to terminals however they end and to file streams after a failed read, write or commit;
      a terminal read announced its credit too early; the client opened one terminal more than the server
      serves; or a caller's context ended in one of the places where the client then ends the parent. */
  lemma WhyTheParentGoesDown(sha: FileStore.Hash, dir: FileStore.Directory, schedule: seq<Action>)
    ensures var p := Run(sha, Start(dir), schedule);
      match p.health
      case Up => true
      case Down(id, st) => id in p.children && Cause(p.children[id], st)
      case TooMany(_) => |LiveTerminals(p)| >= Namespace.MAX_TERMINALS
      case BadId(_) => false
      case Torn(id) => MayTear(p, id)
  {
    Reachable(sha, dir, schedule);
    NeverForItsId(sha, dir, schedule);
    var p := Run(sha, Start(dir), schedule);
    if p.health.Down? {
      var id := p.health.id;
      assert Invariant(sha)(p.children[id], Only(id, p.up), Only(id, p.down), p.health.status);
      InvImpliesCause(sha, p.children[id], Only(id, p.up), Only(id, p.down), p.health.status);
    }
  }

  // ----- opens and their IDs -----

  /** The registry has room and no record for an ID that is being opened. */
  lemma IdIsFree(p: Parent, id: nat, spec: Spec)
    requires Numbered(p) && id in p.opening
    ensures Namespace.Reserve(Registry(p), id, SpecKind(spec)).0.Ok?
  {
    Allocator.UsedSize(p.count);
    var used := Allocator.UsedBelow(p.next);
    assert Registry(p).Keys == p.children.Keys;
    Sets.SubsetSize(Registry(p).Keys, used - {id});
    assert |Registry(p)| == |Registry(p).Keys|;
  }

  predicate Blameless(p: Parent)
  {
    match p.health
    case TooMany(_) => |LiveTerminals(p)| >= Namespace.MAX_TERMINALS
    case BadId(_) => false
    case Torn(id) => MayTear(p, id)
    case _ => true
  }

  lemma OpenIsBlameless(p: Parent, x: Answers)
    requires Channels(p) && p.health.Up? && p.up != [] && p.up[0].Opens?
    ensures Blameless(ServerTakesOpen(p.(up := p.up[1..]), p.up[0].id, p.up[0].spec, x))
  {
    var q, id := p.(up := p.up[1..]), p.up[0].id;
    IdIsFree(q, id, p.up[0].spec);
    assert LiveTerminals(q.(health := TooMany(id))) == LiveTerminals(q);
  }

  lemma StepIsBlameless(sha: FileStore.Hash, p: Parent, a: Action)
    requires Channels(p) && Blameless(p)
    ensures Blameless(Do(sha, p, a))
  {
    if p.health.Up? {
      match a
      case ServerReceives(x) => if p.up != [] && p.up[0].Opens? { OpenIsBlameless(p, x); }
      case ContextEnds(id) => assert MayTear(p, id) <==> MayTear(p.(health := Torn(id)), id);
      case _ => assert Do(sha, p, a).health.Up? || Do(sha, p, a).health.Down?;
    }
  }

  lemma RunBlameless(sha: FileStore.Hash, I: Property, p: Parent, schedule: seq<Action>)
    requires Inductive(sha, I) && Sane(I, p) && Blameless(p)
    ensures Blameless(Run(sha, p, schedule))
  {
    forall q, a | Sane(I, q) && Blameless(q) ensures Sane(I, Do(sha, q, a)) && Blameless(Do(sha, q, a)) {
      DoKeeps(sha, I, q, a);
      StepIsBlameless(sha, q, a);
    }
    Machine.RunKeeps(Step(sha), q => Sane(I, q) && Blameless(q), p, schedule);
  }

  /** No StreamOpen is ever refused for its ID: not as reserved, not as a duplicate, not as one too many. */
  lemma NeverForItsId(sha: FileStore.Hash, dir: FileStore.Directory, schedule: seq<Action>)
    ensures Blameless(Run(sha, Start(dir), schedule)) && !Run(sha, Start(dir), schedule).health.BadId?
  {
    InvariantsAreClosed(sha);
    ClosedIsInductive(sha, Download.Inv, UploadInv(sha), Terminal.Inv);
    RunBlameless(sha, Invariant(sha), Start(dir), schedule);
  }
}
