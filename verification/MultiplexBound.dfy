/** A session cannot livelock: however its streams are interleaved on the shared channels, the number of
    effective steps is bounded by what callers, processes and the files they open feed into it. */
module MultiplexBound {
  import Allocator
  import opened Common
  import Download
  import DownloadProgress
  import FileStore
  import Machine
  import opened Multiplex
  import opened Protocol
  import Terminal
  import TerminalProgress
  import Upload
  import UploadProgress

  /** How much one stream, seen through its own frames, still has to do. */
  type Ranking = (Child, seq<Frame>, seq<Frame>) -> nat

  /** What a move of a stream feeds into it, and what a newly opened stream brings along. */
  type Feeding = Move -> nat

  const OPENING: nat := 30

  function FileSize(spec: Spec, dir: FileStore.Directory): nat
  {
    if spec.OpenDownload? && spec.path in dir then |dir[spec.path]| else 0
  }

  predicate Unchanged(ch: Child, e: Effect) { e.Steps? && e.child == ch && e.up == [] && e.down == [] }

  ghost predicate IgnoresDir(R: Ranking)
  {
    forall ch, up, down, dir :: R(WithDir(ch, dir), up, down) == R(ch, up, down)
  }

  /** Every step of a stream on its own lowers its rank, apart from what it feeds in. */
  ghost predicate Falls(sha: FileStore.Hash, I: Property, R: Ranking, feed: Feeding)
  {
    && (forall ch, m, up, down :: I(ch, up, down, Live) && LocalEffect(sha, ch, m).Steps? ==>
          var e := LocalEffect(sha, ch, m);
          Unchanged(ch, e) || R(e.child, up + e.up, down + e.down) < R(ch, up, down) + feed(m))
    && (forall ch, up, down :: I(ch, up, down, Live) && down != [] && ClientEffect(ch, down[0]).Steps? ==>
          var e := ClientEffect(ch, down[0]);
          R(e.child, up + e.up, down[1..] + e.down) < R(ch, up, down))
    && (forall ch, up, down, x :: I(ch, up, down, Live) && up != [] && ServerEffect(sha, ch, up[0], x).Steps? ==>
          var e := ServerEffect(sha, ch, up[0], x);
          R(e.child, up[1..] + e.up, down + e.down) < R(ch, up, down))
    && IgnoresDir(R)
    && (forall spec, dir :: Fresh(spec, dir).Answer? ==>
          R(Fresh(spec, dir).child, [], [Fresh(spec, dir).frame]) < OPENING + 39 * FileSize(spec, dir))
    && (forall file :: R(RejectedChild(file, false), [], [StreamError]) < OPENING)
  }

  // ----- the session -----

  function Share(R: Ranking, p: Parent, k: nat): nat
  {
    if k in p.children then R(p.children[k], Only(k, p.up), Only(k, p.down))
    else if k in p.opening then OPENING
    else if k in p.asking then OPENING + 1
    else 0
  }

  function Rank(R: Ranking, p: Parent): nat
  {
    if p.health.Up? then 1 + Machine.Total(k => Share(R, p, k), p.next) else 0
  }

  function CostOf(feed: Feeding, p: Parent, a: Action): nat
  {
    match a
    case ClientAllocates(_) => OPENING + 2
    case Local(_, m) => feed(m)
    case ServerReceives(_) => if p.up != [] && p.up[0].Opens? then 39 * FileSize(p.up[0].spec, p.dir) else 0
    case Elsewhere(_) => 1
    case _ => 0
  }

  /** What an action feeds into the session: a stream that is opened, the file it is to send, a call with its
      bytes, the output of a process. */
  function Cost(feed: Feeding): (Parent, Action) -> nat { (p, a) => CostOf(feed, p, a) }

  /** One stream's share changes and nobody else's. */
  lemma OneShare(R: Ranking, p: Parent, q: Parent, id: nat)
    requires p.health.Up? && q.health.Up? && q.next == p.next && id < p.next
    requires forall k: nat :: k < p.next && k != id ==> Share(R, p, k) == Share(R, q, k)
    ensures Rank(R, q) + Share(R, p, id) == Rank(R, p) + Share(R, q, id)
  {
    Machine.TotalChange(k => Share(R, p, k), k => Share(R, q, k), p.next, id);
  }

  lemma SameShares(R: Ranking, p: Parent, q: Parent)
    requires p.health.Up? && q.health.Up? && q.next == p.next
    requires forall k: nat :: k < p.next ==> Share(R, p, k) == Share(R, q, k)
    ensures Rank(R, q) == Rank(R, p)
  {
    Machine.TotalSame(k => Share(R, p, k), k => Share(R, q, k), p.next);
  }

  lemma Below(p: Parent, k: nat)
    requires Numbered(p) && (k in p.children || k in p.opening || k in p.asking)
    ensures k < p.next
  {
  }

  lemma AllocateCounts(R: Ranking, p: Parent, spec: Spec)
    requires Numbered(p) && p.health.Up?
    ensures Rank(R, Allocated(p, spec)) == Rank(R, p) + OPENING + 1
  {
    var q := Allocated(p, spec);
    NextIsNew(p);
    forall k: nat | k < p.next ensures Share(R, p, k) == Share(R, q, k) {
    }
    Machine.TotalSame(k => Share(R, p, k), k => Share(R, q, k), p.next);
    assert Share(R, q, p.next) == OPENING + 1;
  }

  lemma AbandonCounts(R: Ranking, p: Parent, id: nat)
    requires Numbered(p) && p.health.Up? && id in p.asking
    ensures Rank(R, p.(asking := p.asking - {id})) < Rank(R, p)
  {
    Below(p, id);
    OneShare(R, p, p.(asking := p.asking - {id}), id);
  }

  lemma OpenCounts(R: Ranking, p: Parent, id: nat)
    requires Numbered(p) && p.health.Up? && id in p.asking
    ensures var spec := p.asking[id];
      var q := p.(asking := p.asking - {id}, opening := p.opening[id := spec], up := p.up + [Opens(id, spec)]);
      Rank(R, q) < Rank(R, p)
  {
    var spec := p.asking[id];
    var q := p.(asking := p.asking - {id}, opening := p.opening[id := spec], up := p.up + [Opens(id, spec)]);
    Below(p, id);
    forall k: nat | k < p.next && k != id ensures Share(R, p, k) == Share(R, q, k) {
      OnlyConcat(k, p.up, [Opens(id, spec)]);
      assert Only(k, [Opens(id, spec)]) == [];
      assert Only(k, q.up) == Only(k, p.up);
    }
    OneShare(R, p, q, id);
  }

  lemma OtherShare(R: Ranking, p: Parent, q: Parent, id: nat, e: Effect, k: nat)
    requires IgnoresDir(R) && e.Steps? && q == p.(up := q.up, down := q.down) && k != id
    requires k in p.children ==> Only(k, q.up) == Only(k, p.up) && Only(k, q.down) == Only(k, p.down)
    ensures Share(R, Apply(q, id, e), k) == Share(R, p, k)
  {
    OnlyAfter(k, id, q.up, e.up);
    OnlyAfter(k, id, q.down, e.down);
  }

  lemma OwnShare(R: Ranking, q: Parent, id: nat, e: Effect)
    requires e.Steps? && WithDir(e.child, DirOf(e.child, q.dir)) == e.child
    ensures Share(R, Apply(q, id, e), id) == R(e.child, Only(id, q.up) + e.up, Only(id, q.down) + e.down)
  {
    OnlyAfter(id, id, q.up, e.up);
    OnlyAfter(id, id, q.down, e.down);
  }

  /** `q` is `p` with the frame that stream `id` handles taken off its channel. */
  lemma ApplyShares(R: Ranking, p: Parent, q: Parent, id: nat, e: Effect)
    requires IgnoresDir(R) && Numbered(p) && p.health.Up? && id in p.children && e.Steps? && Popped(p, q, id)
    requires WithDir(e.child, DirOf(e.child, p.dir)) == e.child
    ensures var r := Apply(q, id, e);
      Rank(R, r) + R(p.children[id], Only(id, p.up), Only(id, p.down)) ==
        Rank(R, p) + R(e.child, Only(id, q.up) + e.up, Only(id, q.down) + e.down)
  {
    var r := Apply(q, id, e);
    Below(p, id);
    forall k: nat | k < p.next && k != id ensures Share(R, p, k) == Share(R, r, k) {
      OtherShare(R, p, q, id, e, k);
    }
    OwnShare(R, q, id, e);
    OneShare(R, p, r, id);
  }

  lemma NothingHappens(p: Parent, id: nat, e: Effect)
    requires Disk(p.children, p.dir) && id in p.children && Unchanged(p.children[id], e)
    ensures Apply(p, id, e) == p
  {
    assert UploadSound(p.children[id], p.dir);
    assert AllWithDir(p.children, p.dir) == p.children by {
      forall k | k in p.children ensures WithDir(p.children[k], p.dir) == p.children[k] {
        assert UploadSound(p.children[k], p.dir);
      }
    }
    assert p.children[id := e.child] == p.children && Tag(id, []) == [];
    assert p.up + [] == p.up && p.down + [] == p.down;
  }

  lemma LocalShare(sha: FileStore.Hash, I: Property, R: Ranking, p: Parent, id: nat, m: Move, fed: nat)
    requires IgnoresDir(R) && Sane(I, p) && p.health.Up? && id in p.children
    requires LocalEffect(sha, p.children[id], m).Steps?
    requires var ch, e := p.children[id], LocalEffect(sha, p.children[id], m);
      Unchanged(ch, e) ||
      R(e.child, Only(id, p.up) + e.up, Only(id, p.down) + e.down) < R(ch, Only(id, p.up), Only(id, p.down)) + fed
    ensures var q := Apply(p, id, LocalEffect(sha, p.children[id], m)); q == p || Rank(R, q) < Rank(R, p) + fed
  {
    var ch := p.children[id];
    var e := LocalEffect(sha, ch, m);
    if Unchanged(ch, e) {
      NothingHappens(p, id, e);
    } else {
      LocalIsPolite(sha, ch, p.dir, m);
      StillSound(ch, e.child, p.dir);
      ApplyShares(R, p, p, id, e);
    }
  }

  lemma LocalCounts(sha: FileStore.Hash, I: Property, R: Ranking, feed: Feeding, p: Parent, id: nat, m: Move)
    requires Falls(sha, I, R, feed) && Sane(I, p) && p.health.Up? && id in p.children
    ensures var e := LocalEffect(sha, p.children[id], m);
      e.Steps? ==> Apply(p, id, e) == p || Rank(R, Apply(p, id, e)) < Rank(R, p) + feed(m)
  {
    assert I(p.children[id], Only(id, p.up), Only(id, p.down), StatusOf(p.health, id));
    if LocalEffect(sha, p.children[id], m).Steps? {
      LocalShare(sha, I, R, p, id, m, feed(m));
    }
  }

  lemma ClientCounts(sha: FileStore.Hash, I: Property, R: Ranking, feed: Feeding, p: Parent)
    requires Falls(sha, I, R, feed) && Sane(I, p) && p.health.Up? && p.down != []
    ensures var e := ClientEffect(p.children[p.down[0].id], p.down[0].frame);
      e.Steps? ==> Rank(R, Apply(p.(down := p.down[1..]), p.down[0].id, e)) < Rank(R, p)
  {
    var id, f := p.down[0].id, p.down[0].frame;
    var ch := p.children[id];
    var e := ClientEffect(ch, f);
    if e.Steps? {
      PopDown(p);
      var down := Only(id, p.down);
      assert down[0] == f && down[1..] == Only(id, p.down[1..]);
      assert I(ch, Only(id, p.up), down, StatusOf(p.health, id));
      ClientIsPolite(ch, f);
      StillSound(ch, e.child, p.dir);
      ApplyShares(R, p, p.(down := p.down[1..]), id, e);
    }
  }

  lemma ServerCounts(sha: FileStore.Hash, I: Property, R: Ranking, feed: Feeding, p: Parent, x: Answers)
    requires Falls(sha, I, R, feed) && Sane(I, p) && p.health.Up? && p.up != [] && p.up[0].Tagged?
    ensures var e := ServerEffect(sha, p.children[p.up[0].id], p.up[0].frame, x);
      e.Steps? ==> Rank(R, Apply(p.(up := p.up[1..]), p.up[0].id, e)) < Rank(R, p)
  {
    var id, f := p.up[0].id, p.up[0].frame;
    var ch := p.children[id];
    var e := ServerEffect(sha, ch, f, x);
    if e.Steps? {
      PopUp(p);
      var up := Only(id, p.up);
      assert up[0] == f && up[1..] == Only(id, p.up[1..]);
      assert I(ch, up, Only(id, p.down), StatusOf(p.health, id));
      ServerIsPolite(sha, ch, p.dir, f, x);
      StillSound(ch, e.child, p.dir);
      ApplyShares(R, p, p.(up := p.up[1..]), id, e);
    }
  }

  lemma AdmitShares(R: Ranking, p: Parent, id: nat, a: Answer)
    requires IgnoresDir(R) && Channels(p) && p.health.Up? && a.Answer?
    requires p.up != [] && p.up[0].Opens? && p.up[0].id == id
    requires WithDir(a.child, DirOf(a.child, p.dir)) == a.child
    ensures Rank(R, Admit(p.(up := p.up[1..]), id, a)) + OPENING == Rank(R, p) + R(a.child, [], [a.frame])
  {
    var r := Admit(p.(up := p.up[1..]), id, a);
    Below(p, id);
    forall k: nat | k < p.next && k != id ensures Share(R, p, k) == Share(R, r, k) {
      OnlyAfter(k, id, p.down, [a.frame]);
      assert Only(k, p.up) == Only(k, p.up[1..]);
    }
    OnlyAfter(id, id, p.down, [a.frame]);
    OnlyAbsent(id, p.up[1..]);
    OnlyAbsent(id, p.down);
    assert [] + [a.frame] == [a.frame];
    OneShare(R, p, r, id);
  }

  lemma ReplyBrings(sha: FileStore.Hash, I: Property, R: Ranking, feed: Feeding, p: Parent, spec: Spec, x: Answers)
    requires Falls(sha, I, R, feed) && Reply(p, spec, x).Answer?
    ensures var a := Reply(p, spec, x);
      && R(a.child, [], [a.frame]) < OPENING + 39 * FileSize(spec, p.dir)
      && WithDir(a.child, DirOf(a.child, p.dir)) == a.child
  {
    var a := Reply(p, spec, x);
    if a.child.RejectedChild? {
      assert a.frame == StreamError && !a.child.done;
    } else {
      NewIsSound(spec, p.dir);
    }
  }

  lemma AnswerCounts(sha: FileStore.Hash, I: Property, R: Ranking, feed: Feeding, p: Parent, x: Answers)
    requires Falls(sha, I, R, feed) && Sane(I, p) && p.health.Up? && p.up != [] && p.up[0].Opens?
    ensures var q := ServerTakesOpen(p.(up := p.up[1..]), p.up[0].id, p.up[0].spec, x);
      Rank(R, q) < Rank(R, p) + 39 * FileSize(p.up[0].spec, p.dir)
  {
    var q := p.(up := p.up[1..]);
    var a := Reply(q, p.up[0].spec, x);
    if a.Answer? {
      ReplyBrings(sha, I, R, feed, q, p.up[0].spec, x);
      AdmitShares(R, p, p.up[0].id, a);
    }
  }

  lemma ElsewhereCounts(R: Ranking, p: Parent, after: FileStore.Directory)
    requires IgnoresDir(R) && p.health.Up?
    ensures Rank(R, p.(children := AllWithDir(p.children, after), dir := after)) == Rank(R, p)
  {
    SameShares(R, p, p.(children := AllWithDir(p.children, after), dir := after));
  }

  lemma AllocateStepCounts(sha: FileStore.Hash, R: Ranking, p: Parent, spec: Spec)
    requires Numbered(p) && p.health.Up?
    ensures var q := Do(sha, p, ClientAllocates(spec)); q == p || Rank(R, q) < Rank(R, p) + OPENING + 2
  {
    NextIsNew(p);
    AllocateCounts(R, p, spec);
  }

  lemma OpenStepCounts(sha: FileStore.Hash, R: Ranking, p: Parent, id: nat)
    requires Numbered(p) && p.health.Up?
    ensures Do(sha, p, ClientOpens(id)) == p || Rank(R, Do(sha, p, ClientOpens(id))) < Rank(R, p)
    ensures Do(sha, p, ClientAbandons(id)) == p || Rank(R, Do(sha, p, ClientAbandons(id))) < Rank(R, p)
  {
    if id in p.asking {
      AbandonCounts(R, p, id);
      OpenCounts(R, p, id);
    }
  }

  lemma EveryStepCounts(sha: FileStore.Hash, I: Property, R: Ranking, feed: Feeding, p: Parent, a: Action)
    requires Falls(sha, I, R, feed) && Sane(I, p)
    ensures Do(sha, p, a) == p || Rank(R, Do(sha, p, a)) < Rank(R, p) + CostOf(feed, p, a)
  {
    if p.health.Up? {
      match a
      case Local(id, m) => if id in p.children { LocalCounts(sha, I, R, feed, p, id, m); }
      case ClientReceives => if p.down != [] { ClientCounts(sha, I, R, feed, p); }
      case ServerReceives(x) =>
        if p.up != [] {
          if p.up[0].Opens? {
            AnswerCounts(sha, I, R, feed, p, x);
          } else {
            ServerCounts(sha, I, R, feed, p, x);
          }
        }
      case Elsewhere(after) => ElsewhereCounts(R, p, after);
      case ClientAllocates(spec) => AllocateStepCounts(sha, R, p, spec);
      case ClientAbandons(id) => OpenStepCounts(sha, R, p, id);
      case ClientOpens(id) => OpenStepCounts(sha, R, p, id);
      case ContextEnds(id) =>
    }
  }

  /** The bound, for any ranking of single streams. */
  lemma BoundedBy(sha: FileStore.Hash, I: Property, R: Ranking, feed: Feeding, dir: FileStore.Directory,
                  schedule: seq<Action>)
    requires Inductive(sha, I) && Falls(sha, I, R, feed) && Sane(I, Start(dir))
    ensures Machine.Effective(Step(sha), Start(dir), schedule) <=
      1 + Machine.Spent(Step(sha), Cost(feed), Start(dir), schedule)
  {
    forall p, a | Sane(I, p)
      ensures Sane(I, Do(sha, p, a)) && (Do(sha, p, a) == p || Rank(R, Do(sha, p, a)) < Rank(R, p) + CostOf(feed, p, a))
    {
      DoKeeps(sha, I, p, a);
      EveryStepCounts(sha, I, R, feed, p, a);
    }
    assert Rank(R, Start(dir)) == 1 by {
      NothingYet(R, dir, MIN_TYPED_STREAM_ID);
    }
    Machine.RankBoundsAt(Step(sha), p => Sane(I, p), (p: Parent) => Rank(R, p), Cost(feed), Start(dir), schedule);
  }

  lemma {:induction false} NothingYet(R: Ranking, dir: FileStore.Directory, n: nat)
    ensures Machine.Total(k => Share(R, Start(dir), k), n) == 0
  {
    if n > 0 {
      NothingYet(R, dir, n - 1);
    }
  }

  // ----- the three kinds of stream -----

  function ChildRank(ch: Child, up: seq<Frame>, down: seq<Frame>): nat
  {
    match ch
    case DownloadChild(c, s, _) => DownloadProgress.Rank(Link(c, s, up, down, Live))
    case UploadChild(c, s, _) => UploadProgress.Rank(Link(c, s, up, down, Live))
    case TerminalChild(c, s) => TerminalProgress.Rank(Link(c, s, up, down, Live))
    case RejectedChild(_, done) => if done then 0 else 1
  }

  /** What comes from outside: calls, the bytes they are given, and the output of processes. */
  function Fed(m: Move): nat
  {
    match m
    case DownloadClient(x) => DownloadProgress.Cost(Download.ClientDoes(x))
    case DownloadServer(x) => DownloadProgress.Cost(Download.ServerDoes(x))
    case UploadClient(x) => UploadProgress.Cost(Upload.ClientDoes(x))
    case UploadServer(x) => UploadProgress.Cost(Upload.ServerDoes(x))
    case TerminalClient(x) => TerminalProgress.Cost(Terminal.ClientDoes(x))
    case TerminalServer(x) => TerminalProgress.Cost(Terminal.ServerDoes(x))
  }

  predicate LocalFalls(ch: Child, e: Effect, up: seq<Frame>, down: seq<Frame>, fed: nat)
  {
    e.Steps? ==> Unchanged(ch, e) || ChildRank(e.child, up + e.up, down + e.down) < ChildRank(ch, up, down) + fed
  }

  lemma DownloadLocalFalls(sha: FileStore.Hash, ch: Child, m: Move, up: seq<Frame>, down: seq<Frame>)
    requires ch.DownloadChild? && Download.Inv(Link(ch.dc, ch.ds, up, down, Live), ch.content)
    ensures LocalFalls(ch, LocalEffect(sha, ch, m), up, down, Fed(m))
  {
    var l := Link(ch.dc, ch.ds, up, down, Live);
    assert up + [] == up && down + [] == down;
    if m.DownloadClient? {
      DownloadProgress.EveryStepCounts(l, Download.ClientDoes(m.dcm), ch.content);
    } else if m.DownloadServer? {
      DownloadProgress.EveryStepCounts(l, Download.ServerDoes(m.dsm), ch.content);
    }
  }

  lemma UploadLocalFalls(sha: FileStore.Hash, ch: Child, m: Move, up: seq<Frame>, down: seq<Frame>)
    requires ch.UploadChild? && Upload.Inv(ch.terms, sha, Link(ch.uc, ch.us, up, down, Live))
    ensures LocalFalls(ch, LocalEffect(sha, ch, m), up, down, Fed(m))
  {
    var l := Link(ch.uc, ch.us, up, down, Live);
    assert up + [] == up && down + [] == down;
    if m.UploadClient? {
      UploadProgress.EveryStepCounts(ch.terms, sha, l, Upload.ClientDoes(m.ucm));
    } else if m.UploadServer? {
      UploadProgress.EveryStepCounts(ch.terms, sha, l, Upload.ServerDoes(m.usm));
    }
  }

  lemma TerminalLocalFalls(sha: FileStore.Hash, ch: Child, m: Move, up: seq<Frame>, down: seq<Frame>)
    requires ch.TerminalChild? && Terminal.Inv(Link(ch.tc, ch.ts, up, down, Live))
    ensures LocalFalls(ch, LocalEffect(sha, ch, m), up, down, Fed(m))
  {
    var l := Link(ch.tc, ch.ts, up, down, Live);
    assert up + [] == up && down + [] == down;
    if m.TerminalClient? {
      TerminalProgress.EveryStepCounts(l, Terminal.ClientDoes(m.tcm));
    } else if m.TerminalServer? {
      TerminalProgress.EveryStepCounts(l, Terminal.ServerDoes(m.tsm));
    }
  }

  predicate ReceiveFalls(ch: Child, e: Effect, up: seq<Frame>, down: seq<Frame>, up': seq<Frame>, down': seq<Frame>)
  {
    e.Steps? ==> ChildRank(e.child, up' + e.up, down' + e.down) < ChildRank(ch, up, down)
  }

  lemma DownloadClientFalls(ch: Child, up: seq<Frame>, down: seq<Frame>)
    requires ch.DownloadChild? && Download.Inv(Link(ch.dc, ch.ds, up, down, Live), ch.content) && down != []
    ensures ReceiveFalls(ch, ClientEffect(ch, down[0]), up, down, up, down[1..])
  {
    var l := Link(ch.dc, ch.ds, up, down, Live);
    assert down[1..] + [] == down[1..];
    DownloadProgress.EveryStepCounts(l, Download.ClientReceives, ch.content);
  }

  lemma DownloadServerFalls(sha: FileStore.Hash, ch: Child, up: seq<Frame>, down: seq<Frame>, x: Answers)
    requires ch.DownloadChild? && Download.Inv(Link(ch.dc, ch.ds, up, down, Live), ch.content) && up != []
    ensures ReceiveFalls(ch, ServerEffect(sha, ch, up[0], x), up, down, up[1..], down)
  {
    var l := Link(ch.dc, ch.ds, up, down, Live);
    assert up[1..] + [] == up[1..];
    DownloadProgress.EveryStepCounts(l, Download.ServerReceives, ch.content);
  }

  lemma UploadClientFalls(sha: FileStore.Hash, ch: Child, up: seq<Frame>, down: seq<Frame>)
    requires ch.UploadChild? && Upload.Inv(ch.terms, sha, Link(ch.uc, ch.us, up, down, Live)) && down != []
    ensures ReceiveFalls(ch, ClientEffect(ch, down[0]), up, down, up, down[1..])
  {
    var l := Link(ch.uc, ch.us, up, down, Live);
    assert down[1..] + [] == down[1..];
    UploadProgress.EveryStepCounts(ch.terms, sha, l, Upload.ClientReceives);
  }

  lemma UploadServerFalls(sha: FileStore.Hash, ch: Child, up: seq<Frame>, down: seq<Frame>, x: Answers)
    requires ch.UploadChild? && Upload.Inv(ch.terms, sha, Link(ch.uc, ch.us, up, down, Live)) && up != []
    ensures ReceiveFalls(ch, ServerEffect(sha, ch, up[0], x), up, down, up[1..], down)
  {
    var l := Link(ch.uc, ch.us, up, down, Live);
    assert up[1..] + [] == up[1..];
    UploadProgress.EveryStepCounts(ch.terms, sha, l, Upload.ServerReceives(x.faults));
  }

  lemma TerminalClientFalls(ch: Child, up: seq<Frame>, down: seq<Frame>)
    requires ch.TerminalChild? && Terminal.Inv(Link(ch.tc, ch.ts, up, down, Live)) && down != []
    ensures ReceiveFalls(ch, ClientEffect(ch, down[0]), up, down, up, down[1..])
  {
    var l := Link(ch.tc, ch.ts, up, down, Live);
    assert down[1..] + [] == down[1..];
    TerminalProgress.EveryStepCounts(l, Terminal.ClientReceives);
  }

  lemma TerminalServerFalls(sha: FileStore.Hash, ch: Child, up: seq<Frame>, down: seq<Frame>, x: Answers)
    requires ch.TerminalChild? && Terminal.Inv(Link(ch.tc, ch.ts, up, down, Live)) && up != []
    ensures ReceiveFalls(ch, ServerEffect(sha, ch, up[0], x), up, down, up[1..], down)
  {
    var l := Link(ch.tc, ch.ts, up, down, Live);
    assert up[1..] + [] == up[1..];
    TerminalProgress.EveryStepCounts(l, Terminal.ServerReceives(x.pty));
  }

  lemma LocalRankFalls(sha: FileStore.Hash, ch: Child, m: Move, up: seq<Frame>, down: seq<Frame>)
    requires Invariant(sha)(ch, up, down, Live)
    ensures LocalFalls(ch, LocalEffect(sha, ch, m), up, down, Fed(m))
  {
    match ch
    case DownloadChild(_, _, _) => DownloadLocalFalls(sha, ch, m, up, down);
    case UploadChild(_, _, _) => UploadLocalFalls(sha, ch, m, up, down);
    case TerminalChild(_, _) => TerminalLocalFalls(sha, ch, m, up, down);
    case RejectedChild(_, _) =>
  }

  lemma ReceiveRankFalls(sha: FileStore.Hash, ch: Child, up: seq<Frame>, down: seq<Frame>, x: Answers)
    requires Invariant(sha)(ch, up, down, Live)
    ensures down != [] ==> ReceiveFalls(ch, ClientEffect(ch, down[0]), up, down, up, down[1..])
    ensures up != [] ==> ReceiveFalls(ch, ServerEffect(sha, ch, up[0], x), up, down, up[1..], down)
  {
    match ch
    case DownloadChild(_, _, _) =>
      if down != [] { DownloadClientFalls(ch, up, down); }
      if up != [] { DownloadServerFalls(sha, ch, up, down, x); }
    case UploadChild(_, _, _) =>
      if down != [] { UploadClientFalls(sha, ch, up, down); }
      if up != [] { UploadServerFalls(sha, ch, up, down, x); }
    case TerminalChild(_, _) =>
      if down != [] { TerminalClientFalls(ch, up, down); }
      if up != [] { TerminalServerFalls(sha, ch, up, down, x); }
    case RejectedChild(_, _) =>
  }

  lemma NewRank(spec: Spec, dir: FileStore.Directory)
    requires Fresh(spec, dir).Answer?
    ensures ChildRank(Fresh(spec, dir).child, [], [Fresh(spec, dir).frame]) < OPENING + 39 * FileSize(spec, dir)
  {
    match spec
    case OpenDownload(path) => if path in dir { DownloadProgress.InitRank(dir[path]); }
    case OpenUpload(t) =>
    case OpenTerminal => assert Terminal.Init().down[1..] == [];
  }

  lemma RankFalls(sha: FileStore.Hash)
    ensures Falls(sha, Invariant(sha), ChildRank, Fed)
  {
    var I := Invariant(sha);
    forall ch, m, up, down | I(ch, up, down, Live) ensures LocalFalls(ch, LocalEffect(sha, ch, m), up, down, Fed(m)) {
      LocalRankFalls(sha, ch, m, up, down);
    }
    forall ch, up, down | I(ch, up, down, Live) && down != []
      ensures ReceiveFalls(ch, ClientEffect(ch, down[0]), up, down, up, down[1..])
    {
      ReceiveRankFalls(sha, ch, up, down, NO_FAULTS);
    }
    forall ch, up, down, x | I(ch, up, down, Live) && up != []
      ensures ReceiveFalls(ch, ServerEffect(sha, ch, up[0], x), up, down, up[1..], down)
    {
      ReceiveRankFalls(sha, ch, up, down, x);
    }
    forall spec, dir | Fresh(spec, dir).Answer?
      ensures ChildRank(Fresh(spec, dir).child, [], [Fresh(spec, dir).frame]) < OPENING + 39 * FileSize(spec, dir)
    {
      NewRank(spec, dir);
    }
  }

  lemma InvariantIsInductive(sha: FileStore.Hash, dir: FileStore.Directory)
    ensures Inductive(sha, Invariant(sha)) && Sane(Invariant(sha), Start(dir))
  {
    InvariantsAreClosed(sha);
    ClosedIsInductive(sha, Download.Inv, UploadInv(sha), Terminal.Inv);
    Reachable(sha, dir, []);
  }

  /** However many streams share the session and however they are scheduled, the number of steps that do
      anything is bounded by what callers, processes and the files they ask for feed into it. */
  lemma EffectiveStepsAreBounded(sha: FileStore.Hash, dir: FileStore.Directory, schedule: seq<Action>)
    ensures Machine.Effective(Step(sha), Start(dir), schedule) <=
      1 + Machine.Spent(Step(sha), Cost(Fed), Start(dir), schedule)
  {
    InvariantIsInductive(sha, dir);
    RankFalls(sha);
    BoundedBy(sha, Invariant(sha), ChildRank, Fed, dir, schedule);
  }
}
