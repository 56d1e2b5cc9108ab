/** Concrete runs of a session: one that rests with an open terminal, and one that loses eight. */
module MultiplexRuns {
  import Allocator
  import opened Common
  import FileStore
  import Machine
  import opened Multiplex
  import MultiplexLimits
  import MultiplexProgress
  import Namespace
  import opened Protocol
  import Terminal

  function NewTerminal(): Child { TerminalChild(Terminal.NewClient(), Terminal.NewServer()) }

  /** The ID of the client's stream number `k`. */
  function IdOf(k: nat): nat { MIN_TYPED_STREAM_ID + k }

  function Terminals(k: nat): map<nat, Child>
  {
    if k == 0 then map[] else Terminals(k - 1)[IdOf(k - 1) := NewTerminal()]
  }

  function Acceptances(k: nat): seq<Tagged>
  {
    if k == 0 then [] else Acceptances(k - 1) + [Tagged(IdOf(k - 1), Accepted(RECEIVE_WINDOW))]
  }

  /** `k` terminals have been opened and accepted. */
  function House(k: nat): Parent { Parent(Terminals(k), map[], map[], [], Acceptances(k), map[], IdOf(k), k, Up) }

  lemma {:induction false} CountTerminals(k: nat)
    ensures Terminals(k).Keys == Allocator.UsedBelow(IdOf(k)) && |Terminals(k).Keys| == k
    ensures forall i :: i in Terminals(k) ==> Terminals(k)[i] == NewTerminal()
  {
    Allocator.UsedSize(k);
    if k == 0 {
      assert Allocator.UsedBelow(IdOf(0)) == {};
    } else {
      CountTerminals(k - 1);
      Allocator.UsedGrows(IdOf(k - 1));
    }
  }

  lemma NewTerminalIsLive()
    ensures var ch := NewTerminal(); ch.ts.closed.None? && !ClientDone(ch) && !LoopBusy(ch) && !IsFile(ch)
  {
  }

  lemma HouseCounts(k: nat)
    requires k <= Namespace.MAX_IDS
    ensures Numbered(House(k)) && LiveTerminals(House(k)) == ClientStreams(House(k)) == Terminals(k).Keys
    ensures |Terminals(k).Keys| == k
    ensures forall id :: id in Terminals(k) ==> !LoopBusy(Terminals(k)[id])
  {
    CountTerminals(k);
    NewTerminalIsLive();
  }

  lemma Before(sha: FileStore.Hash, p: Parent, a: Action, tail: seq<Action>) returns (schedule: seq<Action>)
    ensures Run(sha, p, schedule) == Run(sha, Do(sha, p, a), tail)
  {
    schedule := [a] + tail;
    Machine.Before(Step(sha), p, a, tail);
  }

  /** The client has asked for one more. */
  function Asking(k: nat): Parent { MultiplexLimits.Asked(House(k)) }

  lemma MayAsk(k: nat)
    requires k < 8
    ensures Numbered(House(k)) && MayOpen(House(k), OpenTerminal)
  {
    HouseCounts(k);
  }

  lemma Ask(sha: FileStore.Hash, k: nat, tail: seq<Action>) returns (schedule: seq<Action>)
    requires k < 8
    ensures Run(sha, House(k), schedule) == Run(sha, Asking(k), tail)
  {
    MayAsk(k);
    MultiplexLimits.AskOne(sha, House(k));
    var q := Do(sha, House(k), ClientAllocates(OpenTerminal));
    schedule := Before(sha, q, ClientOpens(IdOf(k)), tail);
    schedule := Before(sha, House(k), ClientAllocates(OpenTerminal), schedule);
  }

  lemma SameDirectory(k: nat)
    ensures AllWithDir(Terminals(k), map[]) == Terminals(k)
  {
    CountTerminals(k);
    assert WithDir(NewTerminal(), map[]) == NewTerminal();
  }

  lemma AdmitShape(p: Parent, id: nat, a: Answer)
    requires a.Answer? && DirOf(a.child, p.dir) == p.dir && p.opening.Keys == {id}
    requires AllWithDir(p.children[id := a.child], p.dir) == p.children[id := a.child]
    ensures Admit(p, id, a) ==
      p.(children := p.children[id := a.child], opening := map[], down := p.down + [Tagged(id, a.frame)])
  {
    assert p.opening - {id} == map[];
    assert Tag(id, [a.frame]) == [Tagged(id, a.frame)];
  }

  lemma AdmitTerminal(q: Parent, k: nat)
    requires q == Asking(k).(up := [])
    ensures Admit(q, IdOf(k), Answer(NewTerminal(), Accepted(RECEIVE_WINDOW))) == House(k + 1)
  {
    SameDirectory(k + 1);
    assert Terminals(k + 1) == Terminals(k)[IdOf(k) := NewTerminal()];
    AdmitShape(q, IdOf(k), Answer(NewTerminal(), Accepted(RECEIVE_WINDOW)));
  }

  lemma AdmitOne(sha: FileStore.Hash, k: nat)
    requires k < 7
    ensures Do(sha, Asking(k), ServerReceives(NO_FAULTS)) == House(k + 1)
  {
    HouseCounts(k);
    MultiplexLimits.OpenIsTaken(sha, House(k), NO_FAULTS);
    AdmitAnswer(Asking(k).(up := []), k);
  }

  lemma AdmitAnswer(q: Parent, k: nat)
    requires k < 7 && q == Asking(k).(up := []) && |LiveTerminals(q)| == k
    ensures ServerTakesOpen(q, IdOf(k), OpenTerminal, NO_FAULTS) == House(k + 1)
  {
    AskedIsNumbered(k);
    IdIsFree(q, IdOf(k), OpenTerminal);
    AdmitTerminal(q, k);
    assert Reply(q, OpenTerminal, NO_FAULTS) == Answer(NewTerminal(), Accepted(RECEIVE_WINDOW));
  }

  lemma AskedIsNumbered(k: nat)
    requires k < Namespace.MAX_IDS
    ensures Numbered(Asking(k).(up := []))
  {
    HouseCounts(k);
    NextIsNew(House(k));
    Allocator.UsedGrows(IdOf(k));
  }

  lemma OneMore(sha: FileStore.Hash, k: nat, tail: seq<Action>) returns (schedule: seq<Action>)
    requires k < 7
    ensures Run(sha, House(k), schedule) == Run(sha, House(k + 1), tail)
  {
    AdmitOne(sha, k);
    schedule := Before(sha, Asking(k), ServerReceives(NO_FAULTS), tail);
    schedule := Ask(sha, k, schedule);
  }

  lemma {:induction false} FillHouse(sha: FileStore.Hash, k: nat, tail: seq<Action>) returns (schedule: seq<Action>)
    requires k <= 7
    ensures Run(sha, House(0), schedule) == Run(sha, House(k), tail)
  {
    schedule := tail;
    if k > 0 {
      schedule := OneMore(sha, k - 1, tail);
      schedule := FillHouse(sha, k - 1, schedule);
    }
  }

  /** Eight terminals, which the client allows, lose all of them: the eighth has ID 9. */
  lemma EighthTerminalEndsParent(sha: FileStore.Hash) returns (schedule: seq<Action>)
    ensures Run(sha, Start(map[]), schedule).health == TooMany(9)
  {
    HouseCounts(7);
    MultiplexLimits.AnswerAtRest(sha, House(7), NO_FAULTS);
    schedule := Before(sha, Asking(7), ServerReceives(NO_FAULTS), []);
    schedule := Ask(sha, 7, schedule);
    schedule := FillHouse(sha, 7, schedule);
  }

  // ----- a session that rests with an open terminal -----

  function OpenedTerminal(): Child
  {
    var c := Terminal.NewClient();
    TerminalChild(c.(accepted := true, keyboard := c.keyboard.(sendCredit := RECEIVE_WINDOW)), Terminal.NewServer())
  }

  function Lodger(): Parent { House(1).(children := map[2 := OpenedTerminal()], down := []) }

  lemma ReachLodger(sha: FileStore.Hash)
    ensures Do(sha, House(1), ClientReceives) == Lodger()
  {
    var p, f := House(1), Accepted(RECEIVE_WINDOW);
    assert p.down == [Tagged(2, f)] && p.children == map[2 := NewTerminal()] by {
      assert Acceptances(0) == [] && Terminals(0) == map[];
    }
    var e := ClientEffect(NewTerminal(), f);
    assert e == Steps(OpenedTerminal(), [], []);
    assert !MonitorBusy(NewTerminal());
    assert p.down[1..] == [] && Tag(2, []) == [];
    assert AllWithDir(map[2 := OpenedTerminal()], map[]) == map[2 := OpenedTerminal()];
    assert p.children[2 := OpenedTerminal()] == map[2 := OpenedTerminal()];
  }

  lemma OpenTerminalStirsNobody()
    ensures !MultiplexProgress.ChildStirs(OpenedTerminal())
  {
  }

  /** The deadlock theorem is not empty: a session with an open terminal comes to rest. */
  lemma OpenSessionCanRest(sha: FileStore.Hash) returns (schedule: seq<Action>)
    ensures var p := Run(sha, Start(map[]), schedule);
      && p.health.Up? && MultiplexProgress.Quiet(sha, p)
      && 2 in p.children && p.children[2].TerminalChild? && p.children[2].tc.accepted && !p.children[2].tc.done
      && p.children[2].ts.closed.None?
  {
    ReachLodger(sha);
    OpenTerminalStirsNobody();
    MultiplexProgress.RestIsQuiet(sha, Lodger());
    schedule := Before(sha, House(1), ClientReceives, []);
    schedule := FillHouse(sha, 1, schedule);
  }
}
