/** The client counts eight streams, the server seven terminals. A client that opens terminals only while it
    counts fewer than seven of its own never loses the session to that limit; at rest, an open ends the
    session exactly when it counts seven. */
module MultiplexLimits {
  import Allocator
  import opened Common
  import Download
  import FileStore
  import Machine
  import opened Multiplex
  import MultiplexProgress
  import Namespace
  import opened Protocol
  import Sets
  import Terminal
  import TerminalProgress
  import Upload

  // ----- seven terminals are safe -----

  /** This step opens a terminal although the client counts seven already. */
  predicate Immodest(p: Parent, a: Action)
  {
    && p.health.Up? && a == ClientAllocates(OpenTerminal) && MayOpen(p, OpenTerminal)
    && |ClientTerminals(p)| >= Namespace.MAX_TERMINALS
  }

  predicate Seven(p: Parent) { |ClientTerminals(p)| <= Namespace.MAX_TERMINALS && !p.health.TooMany? }

  /** A stream keeps its kind, and once the client has forgotten it, it stays forgotten. */
  predicate Ages(ch: Child, ch': Child)
  {
    IsFile(ch') == IsFile(ch) && (ClientDone(ch) ==> ClientDone(ch'))
  }

  lemma DownloadAges(c: Download.Client, m: Download.ClientMove)
    ensures var o := Download.ClientStep(c, m); o.Moves? && c.done ==> o.next.done
  {
  }

  lemma UploadAges(c: Upload.Client, m: Upload.ClientMove)
    ensures var o := Upload.ClientStep(c, m); o.Moves? && c.done ==> o.next.done
  {
  }

  lemma TerminalAges(c: Terminal.Client, m: Terminal.ClientMove)
    ensures var o := Terminal.ClientStep(c, m); o.Moves? && c.done ==> o.next.done
  {
  }

  lemma LocalAges(sha: FileStore.Hash, ch: Child, m: Move)
    ensures var e := LocalEffect(sha, ch, m); e.Steps? ==> Ages(ch, e.child)
  {
    match ch
    case DownloadChild(c, _, _) => if m.DownloadClient? { DownloadAges(c, m.dcm); }
    case UploadChild(c, _, _) => if m.UploadClient? { UploadAges(c, m.ucm); }
    case TerminalChild(c, _) => if m.TerminalClient? { TerminalAges(c, m.tcm); }
    case RejectedChild(_, _) =>
  }

  lemma FramesAge(sha: FileStore.Hash, ch: Child, f: Frame, x: Answers)
    ensures var e := ClientEffect(ch, f); e.Steps? ==> Ages(ch, e.child)
    ensures var e := ServerEffect(sha, ch, f, x); e.Steps? ==> Ages(ch, e.child)
  {
  }

  lemma Fewer(p: Parent, q: Parent)
    requires Seven(p) && ClientTerminals(q) <= ClientTerminals(p) && !q.health.TooMany?
    ensures Seven(q)
  {
    Sets.SubsetSize(ClientTerminals(q), ClientTerminals(p));
  }

  lemma ChildrenAge(children: map<nat, Child>, id: nat, ch: Child, dir: FileStore.Directory)
    requires id in children && Ages(children[id], ch)
    ensures OpenTerminals(AllWithDir(children[id := ch], dir)) <= OpenTerminals(children)
  {
  }

  lemma ApplySeven(p: Parent, id: nat, e: Effect)
    requires Seven(p) && id in p.children && (e.Steps? ==> Ages(p.children[id], e.child))
    ensures Seven(Apply(p, id, e))
  {
    if e.Steps? {
      ChildrenAge(p.children, id, e.child, DirOf(e.child, p.dir));
    }
    Fewer(p, Apply(p, id, e));
  }

  lemma OneMoreSpec(m: map<nat, Spec>, id: nat, spec: Spec)
    ensures spec.OpenTerminal? ==> TerminalSpecs(m[id := spec]) == TerminalSpecs(m) + {id}
    ensures !spec.OpenTerminal? ==> TerminalSpecs(m[id := spec]) <= TerminalSpecs(m)
    ensures TerminalSpecs(m - {id}) == TerminalSpecs(m) - {id}
  {
  }

  lemma Regroup(a: set<nat>, b: set<nat>, c: set<nat>, x: nat)
    ensures a + {x} + b + c == a + b + c + {x}
  {
  }

  lemma AllocateSeven(p: Parent, spec: Spec)
    requires Seven(p) && (spec.OpenTerminal? ==> |ClientTerminals(p)| < Namespace.MAX_TERMINALS)
    ensures Seven(Allocated(p, spec))
  {
    var q, c := Allocated(p, spec), ClientTerminals(p);
    OneMoreSpec(p.asking, p.next, spec);
    if spec.OpenTerminal? {
      Regroup(TerminalSpecs(p.asking), TerminalSpecs(p.opening), OpenTerminals(p.children), p.next);
      Sets.WithOne(c, p.next);
    } else {
      Fewer(p, q);
    }
  }

  lemma WriteSeven(p: Parent, id: nat)
    requires Seven(p) && id in p.asking && p.health.Up?
    ensures var spec := p.asking[id];
      Seven(p.(asking := p.asking - {id}, opening := p.opening[id := spec], up := p.up + [Opens(id, spec)]))
  {
    var spec := p.asking[id];
    OneMoreSpec(p.asking, id, spec);
    OneMoreSpec(p.opening, id, spec);
    Fewer(p, p.(asking := p.asking - {id}, opening := p.opening[id := spec], up := p.up + [Opens(id, spec)]));
  }

  lemma CallsSeven(sha: FileStore.Hash, p: Parent, a: Action)
    requires Channels(p) && Seven(p) && p.health.Up? && !Immodest(p, a)
    requires a.ClientAllocates? || a.ClientAbandons? || a.ClientOpens? || a.ContextEnds?
    ensures Seven(Do(sha, p, a))
  {
    match a
    case ClientAllocates(spec) =>
      if MayOpen(p, spec) {
        NextIsNew(p);
        AllocateSeven(p, spec);
      }
    case ClientAbandons(id) =>
      OneMoreSpec(p.asking, id, OpenTerminal);
      Fewer(p, p.(asking := p.asking - {id}));
    case ClientOpens(id) => if id in p.asking { WriteSeven(p, id); }
    case ContextEnds(id) => Fewer(p, p.(health := Torn(id)));
  }

  /** A terminal the server serves is one the client still counts. */
  lemma LiveAreCounted(sha: FileStore.Hash, p: Parent)
    requires Sane(Invariant(sha), p)
    ensures LiveTerminals(p) <= ClientTerminals(p)
  {
    forall id | id in LiveTerminals(p) ensures id in ClientTerminals(p) {
      var ch := p.children[id];
      assert Invariant(sha)(ch, Only(id, p.up), Only(id, p.down), StatusOf(p.health, id));
      assert Terminal.Inv(Link(ch.tc, ch.ts, Only(id, p.up), Only(id, p.down), StatusOf(p.health, id)));
    }
  }

  lemma AnswerKind(p: Parent, spec: Spec, x: Answers)
    ensures var a := Reply(p, spec, x); a.Answer? ==> IsFile(a.child) == !spec.OpenTerminal?
  {
  }

  lemma AdmitSeven(p: Parent, id: nat, spec: Spec, a: Answer)
    requires Seven(p) && p.health.Up? && id in p.opening && p.opening[id] == spec && a.Answer?
    requires IsFile(a.child) == !spec.OpenTerminal?
    ensures Seven(Admit(p, id, a))
  {
    OneMoreSpec(p.opening, id, spec);
    assert OpenTerminals(Admit(p, id, a).children) <=
      OpenTerminals(p.children) + if spec.OpenTerminal? then {id} else {};
    Fewer(p, Admit(p, id, a));
  }

  lemma RoomForOne(p: Parent, id: nat)
    requires Channels(p) && LiveTerminals(p) <= ClientTerminals(p) && Seven(p)
    requires id in p.opening && p.opening[id].OpenTerminal?
    ensures |LiveTerminals(p)| < Namespace.MAX_TERMINALS
  {
    var c := ClientTerminals(p);
    assert id in c && LiveTerminals(p) <= c - {id};
    Sets.SubsetSize(LiveTerminals(p), c - {id});
  }

  lemma OpenSeven(p: Parent, x: Answers)
    requires Channels(p) && LiveTerminals(p) <= ClientTerminals(p) && Seven(p)
    requires p.health.Up? && p.up != [] && p.up[0].Opens?
    ensures Seven(ServerTakesOpen(p.(up := p.up[1..]), p.up[0].id, p.up[0].spec, x))
  {
    var q, id, spec := p.(up := p.up[1..]), p.up[0].id, p.up[0].spec;
    Fewer(p, q);
    if spec.OpenTerminal? {
      RoomForOne(p, id);
    }
    AnswerSeven(q, id, spec, x);
  }

  lemma AnswerSeven(q: Parent, id: nat, spec: Spec, x: Answers)
    requires Seven(q) && q.health.Up? && id in q.opening && q.opening[id] == spec
    requires spec.OpenTerminal? ==> |LiveTerminals(q)| < Namespace.MAX_TERMINALS
    ensures Seven(ServerTakesOpen(q, id, spec, x))
  {
    AnswerKind(q, spec, x);
    AdmitSeven(q, id, spec, Reply(q, spec, x));
    Fewer(q, q.(health := BadId(id)));
  }

  lemma ClientFrameSeven(sha: FileStore.Hash, p: Parent)
    requires Seven(p) && p.health.Up? && p.down != [] && p.down[0].Tagged? && p.down[0].id in p.children
    ensures var e := ClientEffect(p.children[p.down[0].id], p.down[0].frame);
      Seven(Apply(if e.Steps? then p.(down := p.down[1..]) else p, p.down[0].id, e))
  {
    var id, q := p.down[0].id, p.(down := p.down[1..]);
    var e := ClientEffect(p.children[id], p.down[0].frame);
    FramesAge(sha, p.children[id], p.down[0].frame, NO_FAULTS);
    Fewer(p, q);
    ApplySeven(if e.Steps? then q else p, id, e);
  }

  lemma ServerFrameSeven(sha: FileStore.Hash, p: Parent, x: Answers)
    requires Seven(p) && p.health.Up? && p.up != [] && p.up[0].Tagged? && p.up[0].id in p.children
    ensures var e := ServerEffect(sha, p.children[p.up[0].id], p.up[0].frame, x);
      Seven(Apply(if e.Steps? then p.(up := p.up[1..]) else p, p.up[0].id, e))
  {
    var id, q := p.up[0].id, p.(up := p.up[1..]);
    var e := ServerEffect(sha, p.children[id], p.up[0].frame, x);
    FramesAge(sha, p.children[id], p.up[0].frame, x);
    Fewer(p, q);
    ApplySeven(if e.Steps? then q else p, id, e);
  }

  lemma ElsewhereSeven(p: Parent, after: FileStore.Directory)
    requires Seven(p)
    ensures Seven(p.(children := AllWithDir(p.children, after), dir := after))
  {
    Fewer(p, p.(children := AllWithDir(p.children, after), dir := after));
  }

  lemma StepSeven(sha: FileStore.Hash, p: Parent, a: Action)
    requires Channels(p) && LiveTerminals(p) <= ClientTerminals(p) && Seven(p) && !Immodest(p, a)
    ensures Seven(Do(sha, p, a))
  {
    if p.health.Up? {
      match a
      case Local(id, m) =>
        if id in p.children {
          LocalAges(sha, p.children[id], m);
          ApplySeven(p, id, LocalEffect(sha, p.children[id], m));
        }
      case ClientReceives =>
        if p.down != [] && p.down[0].Tagged? && p.down[0].id in p.children { ClientFrameSeven(sha, p); }
      case ServerReceives(x) =>
        if p.up != [] && p.up[0].Opens? {
          OpenSeven(p, x);
        } else if p.up != [] && p.up[0].id in p.children {
          ServerFrameSeven(sha, p, x);
        }
      case Elsewhere(after) => ElsewhereSeven(p, after);
      case _ => CallsSeven(sha, p, a);
    }
  }

  /** A session is lost to the server's limit only after the client opened a terminal while it counted seven
      of its own, in whatever order the opens were written and answered. */
  lemma TooManyNeedsAnEighth(sha: FileStore.Hash, dir: FileStore.Directory, schedule: seq<Action>)
    requires Run(sha, Start(dir), schedule).health.TooMany?
    ensures exists i :: 0 <= i < |schedule| && Immodest(Run(sha, Start(dir), schedule[..i]), schedule[i])
  {
    InvariantsAreClosed(sha);
    ClosedIsInductive(sha, Download.Inv, UploadInv(sha), Terminal.Inv);
    forall p | Sane(Invariant(sha), p) ensures LiveTerminals(p) <= ClientTerminals(p) {
      LiveAreCounted(sha, p);
    }
    if forall i :: 0 <= i < |schedule| ==> !Immodest(Run(sha, Start(dir), schedule[..i]), schedule[i]) {
      ModestIsSafe(sha, Invariant(sha), dir, schedule);
    }
  }

  lemma ModestIsSafe(sha: FileStore.Hash, I: Property, dir: FileStore.Directory, schedule: seq<Action>)
    requires Inductive(sha, I) && Sane(I, Start(dir))
    requires forall p :: Sane(I, p) ==> LiveTerminals(p) <= ClientTerminals(p)
    requires forall i :: 0 <= i < |schedule| ==> !Immodest(Run(sha, Start(dir), schedule[..i]), schedule[i])
    ensures !Run(sha, Start(dir), schedule).health.TooMany?
  {
    forall q, a | Sane(I, q) && Seven(q) && !Immodest(q, a) ensures Sane(I, Do(sha, q, a)) && Seven(Do(sha, q, a)) {
      DoKeeps(sha, I, q, a);
      StepSeven(sha, q, a);
    }
    Machine.RunKeepsUnless(Step(sha), q => Sane(I, q) && Seven(q), Immodest, Start(dir), schedule, |schedule|);
    assert schedule[..|schedule|] == schedule;
  }

  // ----- exactly seven at rest -----

  /** A session at rest and three steps later: one more terminal asked for and answered. */
  function Next(p: Parent, x: Answers): seq<Action>
  {
    [ClientAllocates(OpenTerminal), ClientOpens(p.next), ServerReceives(x)]
  }

  function Asked(p: Parent): Parent
  {
    p.(opening := map[p.next := OpenTerminal], up := [Opens(p.next, OpenTerminal)], next := p.next + 1,
       count := p.count + 1)
  }

  lemma AskOne(sha: FileStore.Hash, p: Parent)
    requires Numbered(p) && p.health.Up? && p.asking == map[] && p.opening == map[] && p.up == []
    requires MayOpen(p, OpenTerminal)
    ensures Do(sha, Do(sha, p, ClientAllocates(OpenTerminal)), ClientOpens(p.next)) == Asked(p)
  {
    NextIsNew(p);
    var q := Do(sha, p, ClientAllocates(OpenTerminal));
    assert q == Allocated(p, OpenTerminal);
    assert q.asking - {p.next} == map[] && [] + [Opens(p.next, OpenTerminal)] == [Opens(p.next, OpenTerminal)];
  }

  lemma ReachAsked(sha: FileStore.Hash, p: Parent, x: Answers)
    requires Numbered(p) && p.health.Up? && p.asking == map[] && p.opening == map[] && p.up == []
    requires MayOpen(p, OpenTerminal)
    ensures Run(sha, p, Next(p, x)) == Do(sha, Asked(p), ServerReceives(x))
  {
    AskOne(sha, p);
    var a, b, c := ClientAllocates(OpenTerminal), ClientOpens(p.next), ServerReceives(x);
    ThreeSteps(sha, p, a, b, c);
  }

  lemma ThreeSteps(sha: FileStore.Hash, p: Parent, a: Action, b: Action, c: Action)
    ensures Run(sha, p, [a, b, c]) == Do(sha, Do(sha, Do(sha, p, a), b), c)
  {
    assert [a, b, c] == [a, b] + [c] && [a, b] == [a] + [b] && [a] == [] + [a];
    Machine.Then(Step(sha), p, [a, b], c);
    Machine.Then(Step(sha), p, [a], b);
    Machine.Then(Step(sha), p, [], a);
  }

  lemma OpenIsTaken(sha: FileStore.Hash, p: Parent, x: Answers)
    requires p.health.Up? && forall id :: id in p.children ==> !LoopBusy(p.children[id])
    ensures Do(sha, Asked(p), ServerReceives(x)) == ServerTakesOpen(Asked(p).(up := []), p.next, OpenTerminal, x)
    ensures LiveTerminals(Asked(p).(up := [])) == LiveTerminals(p)
  {
    assert Asked(p).up[1..] == [];
  }

  lemma AnswerAtRest(sha: FileStore.Hash, p: Parent, x: Answers)
    requires p.health.Up? && forall id :: id in p.children ==> !LoopBusy(p.children[id])
    ensures Do(sha, Asked(p), ServerReceives(x)).health == TooMany(p.next) <==>
      |LiveTerminals(p)| >= Namespace.MAX_TERMINALS
  {
    OpenIsTaken(sha, p, x);
  }

  lemma AtRestTheCountsAgree(sha: FileStore.Hash, p: Parent)
    requires Sane(Invariant(sha), p) && p.asking == map[] && p.opening == map[]
    requires forall id :: id in p.children ==> MultiplexProgress.ChildRests(p.children[id])
    ensures LiveTerminals(p) == ClientTerminals(p)
  {
    LiveAreCounted(sha, p);
    forall id | id in ClientTerminals(p) ensures id in LiveTerminals(p) {
      assert MultiplexProgress.ChildRests(p.children[id]);
    }
  }

  /** In every session that has come to rest, the next terminal the client opens ends the session if and only
      if the client counts seven terminals of its own. */
  lemma EighthIsRefusedExactly(sha: FileStore.Hash, dir: FileStore.Directory, schedule: seq<Action>, x: Answers)
    requires var p := Run(sha, Start(dir), schedule);
      p.health.Up? && MultiplexProgress.Quiet(sha, p) && MayOpen(p, OpenTerminal)
    ensures var p := Run(sha, Start(dir), schedule);
      Run(sha, p, Next(p, x)).health == TooMany(p.next) <==> |ClientTerminals(p)| >= Namespace.MAX_TERMINALS
  {
    var p := Run(sha, Start(dir), schedule);
    Reachable(sha, dir, schedule);
    MultiplexProgress.NeverStuck(sha, dir, schedule);
    forall id | id in p.children ensures !LoopBusy(p.children[id]) {
      MultiplexProgress.NobodyStirs(sha, p, id);
      MultiplexProgress.BusyStirs(p.children[id]);
    }
    AtRestTheCountsAgree(sha, p);
    ReachAsked(sha, p, x);
    AnswerAtRest(sha, p, x);
  }
}
