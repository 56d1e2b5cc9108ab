/** The UI's single-flight recovery: callers that saw the same generation fail share one recovery. */
module Recovery {

  type Caller = nat   // one recoverOnce call; a recovery is named after the caller that runs it

  datatype Outcome = Recovered | Cancelled | Failed(error: nat)

  datatype Flight = Idle | InFlight(leader: Caller)

  /** Where a caller is; `seen` is the generation it observed before its operation failed. */
  datatype Phase =
    | Checking(seen: nat)                      // about to take the lock
    | Waiting(seen: nat, leader: Caller)
    | Leading(seen: nat)                       // running recover
    | Returned(seen: nat, outcome: Outcome)

  /** `done` holds the outcome of every finished recovery, whose done channel is closed. */
  datatype Core = Core(generation: nat, flight: Flight, done: map<Caller, Outcome>, callers: map<Caller, Phase>)

  datatype Action =
    | Observe(c: Caller)                       // recoveryGeneration, then a failed operation
    | Enter(c: Caller)                         // one pass through the locked part of the loop
    | Finish(c: Caller, outcome: Outcome)      // recover returned
    | Wake(c: Caller, cancelled: bool)         // done is closed
    | GiveUp(c: Caller)                        // the caller's context ended

  /** What the locked part of recoverOnce decides. */
  function Decide(generation: nat, flight: Flight, seen: nat): Phase
  {
    if generation != seen then Returned(seen, Recovered)
    else match flight
      case InFlight(leader) => Waiting(seen, leader)
      case Idle => Leading(seen)
  }

  function EnterStep(s: Core, c: Caller): Core
    requires c in s.callers && s.callers[c].Checking?
  {
    var next := Decide(s.generation, s.flight, s.callers[c].seen);
    s.(flight := if next.Leading? then InFlight(c) else s.flight, callers := s.callers[c := next])
  }

  function FinishStep(s: Core, c: Caller, outcome: Outcome): Core
    requires c in s.callers && s.callers[c].Leading?
  {
    Core(if outcome == Recovered then s.generation + 1 else s.generation,
         if s.flight == InFlight(c) then Idle else s.flight,
         s.done[c := outcome],
         s.callers[c := Returned(s.callers[c].seen, outcome)])
  }

  function AfterWait(seen: nat, outcome: Outcome, cancelled: bool): Phase
  {
    if outcome == Recovered then Returned(seen, Recovered)
    else if !cancelled && outcome == Cancelled then Checking(seen)
    else Returned(seen, outcome)
  }

  function Do(s: Core, a: Action): Core
  {
    match a
    case Observe(c) => if c in s.callers then s else s.(callers := s.callers[c := Checking(s.generation)])
    case Enter(c) => if c in s.callers && s.callers[c].Checking? then EnterStep(s, c) else s
    case Finish(c, outcome) => if c in s.callers && s.callers[c].Leading? then FinishStep(s, c, outcome) else s
    case Wake(c, cancelled) =>
      if c in s.callers && s.callers[c].Waiting? && s.callers[c].leader in s.done
      then s.(callers := s.callers[c := AfterWait(s.callers[c].seen, s.done[s.callers[c].leader], cancelled)]) else s
    case GiveUp(c) =>
      if c in s.callers && s.callers[c].Waiting?
      then s.(callers := s.callers[c := Returned(s.callers[c].seen, Cancelled)]) else s
  }

  function Run(s: Core, schedule: seq<Action>): Core
    decreases |schedule|
  {
    if schedule == [] then s else Run(Do(s, schedule[0]), schedule[1..])
  }

  function Fresh(): Core { Core(0, Idle, map[], map[]) }

  // ----- the invariant -----

  predicate Leads(s: Core, c: Caller) { c in s.callers && s.callers[c].Leading? }

  /** A finished recovery made for generation `seen`. */
  predicate Finished(s: Core, c: Caller, seen: nat, outcome: Outcome)
  {
    c in s.done && s.done[c] == outcome && c in s.callers && s.callers[c] == Returned(seen, outcome)
  }

  ghost predicate CallerOk(s: Core, p: Phase)
  {
    match p
    case Checking(seen) => seen <= s.generation
    case Waiting(seen, leader) =>
      && seen <= s.generation
      && (if Leads(s, leader) then s.callers[leader].seen == seen else exists o :: Finished(s, leader, seen, o))
    case Leading(seen) => seen == s.generation
    case Returned(seen, outcome) => if outcome == Recovered then seen < s.generation else seen <= s.generation
  }

  ghost predicate Ended(s: Core, g: nat) { exists c :: Finished(s, c, g, Recovered) }

  /** Every generation but the current one was ended by exactly one successful recovery. */
  ghost predicate OnePerGeneration(s: Core)
  {
    && (forall g: nat :: g < s.generation ==> Ended(s, g))
    && (forall b, c, g :: Finished(s, b, g, Recovered) && Finished(s, c, g, Recovered) ==> b == c)
  }

  ghost predicate Inv(s: Core)
  {
    && (forall c :: Leads(s, c) <==> s.flight == InFlight(c))
    && (forall c :: c in s.callers ==> CallerOk(s, s.callers[c]))
    && (forall c :: c in s.done ==> c in s.callers && s.callers[c] == Returned(s.callers[c].seen, s.done[c]))
    && OnePerGeneration(s)
  }

  lemma ObserveKeeps(s: Core, c: Caller)
    requires Inv(s)
    ensures Inv(Do(s, Observe(c)))
  {
    if c !in s.callers {
      Stable(s, Do(s, Observe(c)), c);
    }
  }

  /** Moving a caller that neither leads nor has led leaves everyone else's standing alone. */
  lemma Stable(s: Core, s': Core, c: Caller)
    requires Inv(s) && c !in s.done && !Leads(s, c)
    requires s'.generation == s.generation && s'.done == s.done
    requires s' == s || (c in s'.callers && s'.callers == s.callers[c := s'.callers[c]] && CallerOk(s', s'.callers[c]))
    requires forall b :: Leads(s', b) <==> s'.flight == InFlight(b)
    requires forall b :: b != c ==> (Leads(s', b) <==> Leads(s, b))
    ensures Inv(s')
  {
    assert forall b, g, o :: Finished(s', b, g, o) == Finished(s, b, g, o);
    forall b | b in s'.callers ensures CallerOk(s', s'.callers[b]) {
      if b != c {
        assert CallerOk(s, s.callers[b]);
        if s.callers[b].Waiting? {
          var leader := s.callers[b].leader;
          if leader == c {
            assert !Leads(s, c);
          }
        }
      }
    }
    forall g: nat | g < s'.generation ensures Ended(s', g) {
      assert Ended(s, g);
      var b :| Finished(s, b, g, Recovered);
      assert Finished(s', b, g, Recovered);
    }
  }

  lemma EnterKeeps(s: Core, c: Caller)
    requires Inv(s) && c in s.callers && s.callers[c].Checking?
    ensures Inv(EnterStep(s, c))
  {
    assert CallerOk(s, s.callers[c]);
    var s' := EnterStep(s, c);
    if s.flight.InFlight? {
      assert Leads(s, s.flight.leader);
      assert CallerOk(s, s.callers[s.flight.leader]);
    }
    Stable(s, s', c);
  }

  lemma FinishKeeps(s: Core, c: Caller, outcome: Outcome)
    requires Inv(s) && c in s.callers && s.callers[c].Leading?
    ensures Inv(FinishStep(s, c, outcome))
  {
    var s' := FinishStep(s, c, outcome);
    assert Leads(s, c) && CallerOk(s, s.callers[c]);
    assert Finished(s', c, s.generation, outcome);
    assert forall b, g, o :: b != c ==> Finished(s', b, g, o) == Finished(s, b, g, o);
    forall b | b in s'.callers ensures CallerOk(s', s'.callers[b]) {
      if b != c {
        assert CallerOk(s, s.callers[b]);
        assert !Leads(s, b);
        if s.callers[b].Waiting? && s.callers[b].leader != c {
          assert !Leads(s, s.callers[b].leader);
          var o :| Finished(s, s.callers[b].leader, s.callers[b].seen, o);
          assert Finished(s', s.callers[b].leader, s.callers[b].seen, o);
        }
      }
    }
    forall g: nat | g < s'.generation ensures Ended(s', g) {
      if g < s.generation {
        assert Ended(s, g);
        var b :| Finished(s, b, g, Recovered);
        assert b != c;
        assert Finished(s', b, g, Recovered);
      }
    }
    forall b, g: nat | b != c && Finished(s, b, g, Recovered) ensures g < s.generation {
      assert CallerOk(s, s.callers[b]);
    }
  }

  lemma WakeKeeps(s: Core, c: Caller, cancelled: bool)
    requires Inv(s)
    ensures Inv(Do(s, Wake(c, cancelled)))
  {
    if c in s.callers && s.callers[c].Waiting? && s.callers[c].leader in s.done {
      assert CallerOk(s, s.callers[c]);
      var leader := s.callers[c].leader;
      var o :| Finished(s, leader, s.callers[c].seen, o);
      assert CallerOk(s, s.callers[leader]);
      Stable(s, Do(s, Wake(c, cancelled)), c);
    }
  }

  lemma DoKeeps(s: Core, a: Action)
    requires Inv(s)
    ensures Inv(Do(s, a))
  {
    match a
    case Observe(c) => ObserveKeeps(s, c);
    case Enter(c) => if c in s.callers && s.callers[c].Checking? { EnterKeeps(s, c); }
    case Finish(c, outcome) => if c in s.callers && s.callers[c].Leading? { FinishKeeps(s, c, outcome); }
    case Wake(c, cancelled) => WakeKeeps(s, c, cancelled);
    case GiveUp(c) =>
      if c in s.callers && s.callers[c].Waiting? {
        assert CallerOk(s, s.callers[c]);
        Stable(s, Do(s, a), c);
      }
  }

  lemma {:induction false} RunKeeps(s: Core, schedule: seq<Action>)
    requires Inv(s)
    ensures Inv(Run(s, schedule))
    decreases |schedule|
  {
    if schedule != [] {
      DoKeeps(s, schedule[0]);
      RunKeeps(Do(s, schedule[0]), schedule[1..]);
    }
  }

  // ----- what single flight promises -----

  /** At most one recovery runs at any time, and it runs for the generation every caller that waits
      for it observed. */
  lemma SingleFlight(schedule: seq<Action>, b: Caller, c: Caller)
    ensures var s := Run(Fresh(), schedule);
      && (Leads(s, b) && Leads(s, c) ==> b == c)
      && (Leads(s, b) ==> s.callers[b].seen == s.generation)
      && (c in s.callers && s.callers[c].Waiting? && s.callers[c].leader == b && Leads(s, b) ==>
            s.callers[c].seen == s.callers[b].seen)
  {
    RunKeeps(Fresh(), schedule);
    var s := Run(Fresh(), schedule);
    if Leads(s, b) {
      assert CallerOk(s, s.callers[b]);
    }
    if c in s.callers {
      assert CallerOk(s, s.callers[c]);
    }
  }

  /** A caller told that recovery worked has it: exactly one recovery for the generation it observed
      has succeeded, however many callers observed that generation. */
  lemma SuccessIsExact(schedule: seq<Action>, c: Caller)
    ensures var s := Run(Fresh(), schedule);
      c in s.callers && s.callers[c].Returned? && s.callers[c].outcome == Recovered ==>
        && s.callers[c].seen < s.generation
        && Ended(s, s.callers[c].seen)
        && (forall b, d ::
              Finished(s, b, s.callers[c].seen, Recovered) && Finished(s, d, s.callers[c].seen, Recovered) ==> b == d)
  {
    RunKeeps(Fresh(), schedule);
    var s := Run(Fresh(), schedule);
    if c in s.callers {
      assert CallerOk(s, s.callers[c]);
    }
  }

  /** No waiter is left behind: the recovery it waits for still runs or has been published. */
  lemma NoStuckWaiter(schedule: seq<Action>, c: Caller)
    ensures var s := Run(Fresh(), schedule);
      c in s.callers && s.callers[c].Waiting? ==> Leads(s, s.callers[c].leader) || s.callers[c].leader in s.done
  {
    RunKeeps(Fresh(), schedule);
    var s := Run(Fresh(), schedule);
    if c in s.callers {
      assert CallerOk(s, s.callers[c]);
    }
  }

  /** recoveringCore's fields and the two locked parts of recoverOnce. */
  class RecoveringCore {
    var generation: nat
    var inFlight: Flight
    var done: map<Caller, Outcome>

    /** The object holds the shared part of `s`. */
    ghost predicate Holds(s: Core)
      reads this
    {
      generation == s.generation && inFlight == s.flight && done == s.done
    }

    constructor ()
      ensures Holds(Fresh())
    {
      generation, inFlight, done := 0, Idle, map[];
    }

    method EnterLocked(c: Caller, seen: nat, ghost s: Core) returns (next: Phase)
      requires Inv(s) && Holds(s) && c in s.callers && s.callers[c] == Checking(seen)
      modifies this`inFlight
      ensures Holds(EnterStep(s, c)) && next == EnterStep(s, c).callers[c]
      ensures next.Leading? ==> forall b :: !Leads(s, b)
    {
      if generation != seen {
        next := Returned(seen, Recovered);
      } else if inFlight.InFlight? {
        next := Waiting(seen, inFlight.leader);
      } else {
        inFlight := InFlight(c);
        next := Leading(seen);
      }
    }

    method FinishLocked(c: Caller, outcome: Outcome, ghost s: Core)
      requires Inv(s) && Holds(s) && Leads(s, c)
      modifies this
      ensures Holds(FinishStep(s, c, outcome))
      ensures inFlight == Idle && c in done
    {
      done := done[c := outcome];
      if outcome == Recovered {
        generation := generation + 1;
      }
      if inFlight == InFlight(c) {
        inFlight := Idle;
      }
    }
  }
}
