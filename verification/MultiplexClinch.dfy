/** A session over a transport with room for two frames each way, the one being handled included, that comes
    to a standstill: two downloads are complete and two more streams are asked for. */
module MultiplexClinch {
  import Allocator
  import opened Common
  import Download
  import DownloadProgress
  import FileStore
  import Machine
  import opened Multiplex
  import opened MultiplexBackPressure
  import MultiplexProgress
  import Namespace
  import opened Protocol
  import Sets
  import Terminal

  lemma Before(sha: FileStore.Hash, p: Parent, a: Action, q: Parent, tail: seq<Action>) returns (schedule: seq<Action>)
    requires Do(sha, p, a) == q && Fits(2, q)
    ensures RunWithin(2, sha, p, schedule) == RunWithin(2, sha, q, tail)
  {
    schedule := [a] + tail;
    Machine.Before(StepWithin(2, sha), p, a, tail);
  }

  const FILE: FileStore.Path := "f"
  const DIR: FileStore.Directory := map[FILE := []]

  /** Both ends of a download of the empty file, at the four points of its life here. */
  const NEW := DownloadChild(Download.NewClient(), Download.NewServer([]), [])
  const READY := NEW.(dc := Download.NewClient().(accepted := true))
  const CHECKED := READY.(ds := Download.NewServer([]).(forwarder := Download.Completing))
  const ENDED := READY.(ds := Download.NewServer([]).(forwarder := Download.Exited))

  /** `n` IDs have been given out and nothing is waiting to be written. */
  function Session(children: map<nat, Child>, opening: map<nat, Spec>,
                   up: seq<Tagged>, down: seq<Tagged>, n: nat): Parent
  {
    Parent(children, map[], opening, up, down, DIR, MIN_TYPED_STREAM_ID + n, n, Up)
  }

  predicate Downloads(children: map<nat, Child>)
  {
    forall id :: id in children ==> children[id] in {NEW, READY, CHECKED, ENDED}
  }

  lemma SameChildren(children: map<nat, Child>)
    requires Downloads(children)
    ensures AllWithDir(children, DIR) == children
  {
  }

  lemma NobodyBusy(children: map<nat, Child>)
    requires Downloads(children)
    ensures forall id :: id in children ==> !LoopBusy(children[id]) && !MonitorBusy(children[id])
  {
  }

  lemma ApplyToDownload(p: Parent, id: nat, ch: Child, u: seq<Frame>, d: seq<Frame>)
    requires p.dir == DIR && Downloads(p.children[id := ch]) && ch.DownloadChild?
    ensures Apply(p, id, Steps(ch, u, d)) ==
      p.(children := p.children[id := ch], up := p.up + Tag(id, u), down := p.down + Tag(id, d))
  {
    SameChildren(p.children[id := ch]);
  }

  // ----- opening -----

  /** The keys of `children` are the first `n` IDs. */
  predicate Dense(children: map<nat, Child>, n: nat)
  {
    Downloads(children) && children.Keys == Allocator.UsedBelow(MIN_TYPED_STREAM_ID + n) && n <= 4
  }

  lemma DenseCounts(children: map<nat, Child>, n: nat)
    requires Dense(children, n)
    ensures Numbered(Session(children, map[], [], [], n))
    ensures |children.Keys| == n && MIN_TYPED_STREAM_ID + n !in children
  {
    Allocator.UsedSize(n);
  }

  lemma Allocate(sha: FileStore.Hash, p: Parent, spec: Spec)
    requires Numbered(p) && p.health.Up? && MayOpen(p, spec)
    ensures Do(sha, p, ClientAllocates(spec)) == Allocated(p, spec)
  {
    NextIsNew(p);
  }

  lemma FilesAreFew(p: Parent, n: nat)
    requires p.asking == map[] && p.opening == map[] && |p.children.Keys| == n < 4 && p.count == n
    ensures MayOpen(p, OpenDownload(FILE))
  {
    assert ClientFiles(p) <= p.children.Keys;
    Sets.SubsetSize(ClientFiles(p), p.children.Keys);
  }

  lemma OpenDownloadFrame(sha: FileStore.Hash, children: map<nat, Child>, n: nat)
    requires Dense(children, n) && n < 4
    ensures var id := MIN_TYPED_STREAM_ID + n;
      var p := Allocated(Session(children, map[], [], [], n), OpenDownload(FILE));
      Do(sha, p, ClientOpens(id)) ==
        Session(children, map[id := OpenDownload(FILE)], [Opens(id, OpenDownload(FILE))], [], n + 1)
  {
    var id := MIN_TYPED_STREAM_ID + n;
    var p := Allocated(Session(children, map[], [], [], n), OpenDownload(FILE));
    assert p.asking - {id} == map[] && [] + [Opens(id, OpenDownload(FILE))] == [Opens(id, OpenDownload(FILE))];
  }

  lemma AdmitDownload(q: Parent, id: nat, children: map<nat, Child>, n: nat)
    requires Dense(children, n) && n < 4 && id == MIN_TYPED_STREAM_ID + n
    requires q == Session(children, map[id := OpenDownload(FILE)], [], [], n + 1)
    ensures Admit(q, id, Answer(NEW, Accepted(1))) ==
      Session(children[id := NEW], map[], [], [Tagged(id, Accepted(1))], n + 1)
  {
    SameChildren(children[id := NEW]);
    assert q.opening - {id} == map[];
    assert Tag(id, [Accepted(1)]) == [Tagged(id, Accepted(1))];
    assert [] + [Tagged(id, Accepted(1))] == [Tagged(id, Accepted(1))];
  }

  lemma OpeningIsNumbered(children: map<nat, Child>, n: nat, spec: Spec)
    requires Dense(children, n) && n < 4
    ensures Numbered(Session(children, map[MIN_TYPED_STREAM_ID + n := spec], [], [], n + 1))
  {
    DenseCounts(children, n);
    Allocator.UsedGrows(MIN_TYPED_STREAM_ID + n);
  }

  lemma ReplyToDownload(q: Parent, id: nat)
    requires q.dir == DIR && Numbered(q) && id in q.opening && |LiveFiles(q)| < Namespace.MAX_FILES
    ensures ServerTakesOpen(q, id, OpenDownload(FILE), NO_FAULTS) == Admit(q, id, Answer(NEW, Accepted(1)))
  {
    IdIsFree(q, id, OpenDownload(FILE));
  }

  lemma OpenIsTaken(sha: FileStore.Hash, p: Parent, id: nat, spec: Spec)
    requires p.health.Up? && p.up == [Opens(id, spec)] && forall k :: k in p.children ==> !LoopBusy(p.children[k])
    ensures Do(sha, p, ServerReceives(NO_FAULTS)) == ServerTakesOpen(p.(up := []), id, spec, NO_FAULTS)
  {
    assert p.up[1..] == [];
  }

  lemma FewLiveFiles(q: Parent, n: nat)
    requires Dense(q.children, n)
    ensures |LiveFiles(q)| <= n
  {
    Allocator.UsedSize(n);
    Sets.SubsetSize(LiveFiles(q), q.children.Keys);
  }

  lemma AnswerDownload(sha: FileStore.Hash, children: map<nat, Child>, n: nat)
    requires Dense(children, n) && n < 4
    ensures var id := MIN_TYPED_STREAM_ID + n;
      var p := Session(children, map[id := OpenDownload(FILE)], [Opens(id, OpenDownload(FILE))], [], n + 1);
      Do(sha, p, ServerReceives(NO_FAULTS)) ==
        Session(children[id := NEW], map[], [], [Tagged(id, Accepted(1))], n + 1)
  {
    var id := MIN_TYPED_STREAM_ID + n;
    var p := Session(children, map[id := OpenDownload(FILE)], [Opens(id, OpenDownload(FILE))], [], n + 1);
    NobodyBusy(children);
    OpenIsTaken(sha, p, id, OpenDownload(FILE));
    AnswerIs(p.(up := []), id, children, n);
  }

  lemma AnswerIs(q: Parent, id: nat, children: map<nat, Child>, n: nat)
    requires Dense(children, n) && n < 4 && id == MIN_TYPED_STREAM_ID + n
    requires q == Session(children, map[id := OpenDownload(FILE)], [], [], n + 1)
    ensures ServerTakesOpen(q, id, OpenDownload(FILE), NO_FAULTS) ==
      Session(children[id := NEW], map[], [], [Tagged(id, Accepted(1))], n + 1)
  {
    FewLiveFiles(q, n);
    OpeningIsNumbered(children, n, OpenDownload(FILE));
    ReplyToDownload(q, id);
    AdmitDownload(q, id, children, n);
  }

  lemma AcceptDownload(sha: FileStore.Hash, children: map<nat, Child>, n: nat)
    requires Dense(children, n)
    ensures var id := MIN_TYPED_STREAM_ID + n;
      Do(sha, Session(children[id := NEW], map[], [], [Tagged(id, Accepted(1))], n + 1), ClientReceives) ==
        Session(children[id := READY], map[], [], [], n + 1)
  {
    var id := MIN_TYPED_STREAM_ID + n;
    var p := Session(children[id := NEW], map[], [], [Tagged(id, Accepted(1))], n + 1);
    NobodyBusy(p.children);
    assert ClientEffect(NEW, Accepted(1)) == Steps(READY, [], []);
    assert p.down[1..] == [] && Tag(id, []) == [] && p.children[id := READY] == children[id := READY];
    ApplyToDownload(p.(down := []), id, READY, [], []);
  }

  /** One more download of the empty file is opened and accepted. */
  lemma OpenOne(sha: FileStore.Hash, children: map<nat, Child>, n: nat, p0: Parent, p4: Parent, tail: seq<Action>)
    returns (schedule: seq<Action>)
    requires Dense(children, n) && n < 4 && p0 == Session(children, map[], [], [], n)
    requires p4 == Session(children[MIN_TYPED_STREAM_ID + n := READY], map[], [], [], n + 1)
    ensures RunWithin(2, sha, p0, schedule) == RunWithin(2, sha, p4, tail)
  {
    var id, spec := MIN_TYPED_STREAM_ID + n, OpenDownload(FILE);
    var p1 := Allocated(p0, spec);
    var p2 := Session(children, map[id := spec], [Opens(id, spec)], [], n + 1);
    var p3 := Session(children[id := NEW], map[], [], [Tagged(id, Accepted(1))], n + 1);
    DenseCounts(children, n);
    FilesAreFew(p0, n);
    Allocate(sha, p0, spec);
    OpenDownloadFrame(sha, children, n);
    AnswerDownload(sha, children, n);
    AcceptDownload(sha, children, n);
    schedule := Before(sha, p3, ClientReceives, p4, tail);
    schedule := Before(sha, p2, ServerReceives(NO_FAULTS), p3, schedule);
    schedule := Before(sha, p1, ClientOpens(id), p2, schedule);
    schedule := Before(sha, p0, ClientAllocates(spec), p1, schedule);
  }

  lemma OneMoreDense(children: map<nat, Child>, n: nat)
    requires Dense(children, n) && n < 4
    ensures Dense(children[MIN_TYPED_STREAM_ID + n := READY], n + 1)
  {
    Allocator.UsedGrows(MIN_TYPED_STREAM_ID + n);
  }

  // ----- completing -----

  const COMPLETE := Close(DownloadComplete)

  /** The server tells that download `id` is complete. */
  lemma Complete(sha: FileStore.Hash, p: Parent, id: nat, tail: seq<Action>) returns (schedule: seq<Action>)
    requires p.health.Up? && p.dir == DIR && Downloads(p.children) && id in p.children && p.children[id] == READY
    requires |p.up| <= 2 && |p.down| < 2
    ensures RunWithin(2, sha, p, schedule) ==
      RunWithin(2, sha, p.(children := p.children[id := ENDED], down := p.down + [Tagged(id, COMPLETE)]), tail)
  {
    var p1 := p.(children := p.children[id := CHECKED]);
    var p2 := p.(children := p.children[id := ENDED], down := p.down + [Tagged(id, COMPLETE)]);
    assert LocalEffect(sha, READY, DownloadServer(Download.Check)) == Steps(CHECKED, [], []);
    assert LocalEffect(sha, CHECKED, DownloadServer(Download.SendComplete)) == Steps(ENDED, [], [COMPLETE]);
    assert Tag(id, []) == [] && Tag(id, [COMPLETE]) == [Tagged(id, COMPLETE)];
    assert p.up + [] == p.up && p.down + [] == p.down && p1.children[id := ENDED] == p2.children;
    ApplyToDownload(p, id, CHECKED, [], []);
    ApplyToDownload(p1, id, ENDED, [], [COMPLETE]);
    schedule := Before(sha, p1, Local(id, DownloadServer(Download.SendComplete)), p2, tail);
    schedule := Before(sha, p, Local(id, DownloadServer(Download.Check)), p1, schedule);
  }

  // ----- two more streams are asked for -----

  function Ended(): map<nat, Child> { map[2 := ENDED, 3 := ENDED] }

  const BOTH: seq<Tagged> := [Tagged(2, COMPLETE), Tagged(3, COMPLETE)]

  /** Two downloads are complete, the client has not taken note, and it has asked for `k` terminals. */
  function Wanting(k: nat): Parent
    requires k <= 2
  {
    if k == 0 then Session(Ended(), map[], [], BOTH, 2)
    else if k == 1 then Session(Ended(), map[4 := OpenTerminal], [Opens(4, OpenTerminal)], BOTH, 3)
    else
      Session(Ended(), map[4 := OpenTerminal, 5 := OpenTerminal], [Opens(4, OpenTerminal), Opens(5, OpenTerminal)],
              BOTH, 4)
  }

  lemma WantingIsNumbered(k: nat)
    requires k <= 2
    ensures Numbered(Wanting(k)) && Numbered(Allocated(Wanting(k), OpenTerminal))
  {
    var used := Allocator.UsedBelow(4 + k);
    assert used == {2, 3} + (if k >= 1 then {4} else {}) + (if k >= 2 then {5} else {}) by {
      forall i: nat ensures i in used <==> 2 <= i < 4 + k {
        assert i in used <==> i < 4 + k && Allocator.Issued(4 + k, i);
      }
    }
    AllocateNumbers(Wanting(k), OpenTerminal);
  }

  lemma StreamsAreFew(k: nat)
    requires k <= 1
    ensures MayOpen(Wanting(k), OpenTerminal)
  {
    var p := Wanting(k);
    assert ClientStreams(p) <= {2, 3, 4};
    Sets.SubsetSize(ClientStreams(p), {2, 3, 4});
  }

  lemma WriteOpen(sha: FileStore.Hash, k: nat)
    requires k <= 1
    ensures Do(sha, Allocated(Wanting(k), OpenTerminal), ClientOpens(4 + k)) == Wanting(k + 1)
  {
    var p := Allocated(Wanting(k), OpenTerminal);
    assert p.asking - {4 + k} == map[];
    assert Wanting(k).up + [Opens(4 + k, OpenTerminal)] == Wanting(k + 1).up;
    assert Wanting(k).opening[4 + k := OpenTerminal] == Wanting(k + 1).opening;
  }

  lemma Want(sha: FileStore.Hash, k: nat, tail: seq<Action>) returns (schedule: seq<Action>)
    requires k <= 1
    ensures RunWithin(2, sha, Wanting(k), schedule) == RunWithin(2, sha, Wanting(k + 1), tail)
  {
    WantingIsNumbered(k);
    StreamsAreFew(k);
    Allocate(sha, Wanting(k), OpenTerminal);
    WriteOpen(sha, k);
    schedule := Before(sha, Allocated(Wanting(k), OpenTerminal), ClientOpens(4 + k), Wanting(k + 1), tail);
    schedule := Before(sha, Wanting(k), ClientAllocates(OpenTerminal), Allocated(Wanting(k), OpenTerminal), schedule);
  }

  // ----- the standstill -----

  lemma EndedIsIdle(sha: FileStore.Hash, m: Move, id: nat)
    requires !MultiplexProgress.Outside(Local(id, m))
    ensures LocalEffect(sha, ENDED, m).Waits?
  {
  }

  lemma MonitorWaits(sha: FileStore.Hash)
    ensures |Do(sha, Wanting(2), ClientReceives).up| == 3
  {
    var p := Wanting(2);
    assert ClientEffect(ENDED, COMPLETE).Steps? && ClientEffect(ENDED, COMPLETE).up == [Close(PeerClose)];
    NobodyBusy(p.children);
    assert |Tag(2, [Close(PeerClose)])| == 1;
  }

  lemma LoopWaits(sha: FileStore.Hash, x: Answers)
    ensures |Do(sha, Wanting(2), ServerReceives(x)).down| == 3
  {
    var p := Wanting(2);
    NobodyBusy(p.children);
    var q := p.(up := p.up[1..]);
    WantingIsNumbered(2);
    IdIsFree(q, 4, OpenTerminal);
    assert LiveTerminals(q) == {};
    assert forall f :: |Tag(4, [f])| == 1;
  }

  lemma Standstill(sha: FileStore.Hash)
    ensures QuietWithin(2, sha, Wanting(2))
  {
    var p := Wanting(2);
    forall a | !MultiplexProgress.Outside(a) ensures DoWithin(2, sha, p, a) == p {
      match a
      case Local(id, m) => if id in p.children { EndedIsIdle(sha, m, id); }
      case ClientReceives => MonitorWaits(sha);
      case ServerReceives(x) => LoopWaits(sha, x);
      case _ =>
    }
  }

  const TWO := Session(map[2 := READY, 3 := READY], map[], [], [], 2)

  const NONE: map<nat, Child> := map[]
  const ONE: map<nat, Child> := map[2 := READY]

  lemma NoneAndOne()
    ensures Dense(NONE, 0) && Dense(ONE, 1) && NONE[2 := READY] == ONE && ONE[3 := READY] == TWO.children
  {
    assert Allocator.UsedBelow(MIN_TYPED_STREAM_ID) == {};
    assert NONE[2 := READY] == ONE;
    OneMoreDense(NONE, 0);
  }

  lemma ReachOne(sha: FileStore.Hash, tail: seq<Action>) returns (schedule: seq<Action>)
    ensures RunWithin(2, sha, Start(DIR), schedule) == RunWithin(2, sha, Session(ONE, map[], [], [], 1), tail)
  {
    NoneAndOne();
    schedule := OpenOne(sha, NONE, 0, Start(DIR), Session(ONE, map[], [], [], 1), tail);
  }

  lemma ReachTwo(sha: FileStore.Hash, tail: seq<Action>) returns (schedule: seq<Action>)
    ensures RunWithin(2, sha, Session(ONE, map[], [], [], 1), schedule) == RunWithin(2, sha, TWO, tail)
  {
    NoneAndOne();
    schedule := OpenOne(sha, ONE, 1, Session(ONE, map[], [], [], 1), TWO, tail);
  }

  lemma ReachEnded(sha: FileStore.Hash, tail: seq<Action>) returns (schedule: seq<Action>)
    ensures RunWithin(2, sha, TWO, schedule) == RunWithin(2, sha, Wanting(0), tail)
  {
    var one := TWO.(children := map[2 := ENDED, 3 := READY], down := [Tagged(2, COMPLETE)]);
    assert one.children[3 := ENDED] == Ended() && one.down + [Tagged(3, COMPLETE)] == BOTH;
    schedule := Complete(sha, one, 3, tail);
    assert TWO.children[2 := ENDED] == one.children && TWO.down + [Tagged(2, COMPLETE)] == one.down;
    schedule := Complete(sha, TWO, 2, schedule);
  }

  /** The client's monitor wants to acknowledge the first download and finds no room; the server's frame loop
      wants to accept the third stream and finds none. Nothing but a write timeout ends that. */
  lemma SessionCanClinch(sha: FileStore.Hash) returns (schedule: seq<Action>)
    ensures var p := RunWithin(2, sha, Start(DIR), schedule);
      p.health.Up? && QuietWithin(2, sha, p) && Clinch(2, sha, p)
  {
    Standstill(sha);
    schedule := Want(sha, 1, []);
    schedule := Want(sha, 0, schedule);
    schedule := ReachEnded(sha, schedule);
    schedule := ReachTwo(sha, schedule);
    schedule := ReachOne(sha, schedule);
    assert RunWithin(2, sha, Start(DIR), schedule) == Wanting(2);
  }
}
