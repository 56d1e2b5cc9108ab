/** The connection-wide StreamID namespace: the registry shared by both server engines, their live
    counters and dispatch by registered kind. */
module Namespace {
  import opened Protocol

  /** protocol.StreamKind; `NoKind` is the empty string. */
  datatype Kind = NoKind | TERMINAL | UPLOAD | DOWNLOAD

  const MAX_IDS: nat := 256          // maxTypedStreamIDsPerConnection, managedMuxMaxAllocated
  const MAX_TERMINALS: nat := 7      // maxTerminalStreamsPerConnection - 1
  const MAX_FILES: nat := 4          // maxFileStreamsPerConnection, managedMuxMaxFileStreams
  const MAX_CLIENT_STREAMS: nat := 8 // managedMuxMaxStreams

  datatype State = Opening | Open | Closed
  datatype Record = Record(kind: Kind, state: State)
  type Records = map<nat, Record>

  datatype Verdict = Ok | IdReserved | BadKind | Duplicate | Limit | NotOpen

  // ----- typedParentStreamRegistry -----

  function Reserve(m: Records, id: nat, kind: Kind): (Verdict, Records)
  {
    if id < MIN_TYPED_STREAM_ID then (IdReserved, m)
    else if kind.NoKind? then (BadKind, m)
    else if id in m then (Duplicate, m)
    else if |m| >= MAX_IDS then (Limit, m)
    else (Ok, m[id := Record(kind, Opening)])
  }

  function Accept(m: Records, id: nat, kind: Kind): (Verdict, Records)
  {
    if id !in m || m[id].kind != kind || !m[id].state.Opening? then (NotOpen, m)
    else (Ok, m[id := Record(kind, Open)])
  }

  function CloseId(m: Records, id: nat, kind: Kind): (Verdict, Records)
  {
    if id !in m || m[id].kind != kind || m[id].state.Closed? then (NotOpen, m)
    else (Ok, m[id := Record(kind, Closed)])
  }

  function CloseAllOf(m: Records, kind: Kind): Records
  {
    map id | id in m :: if m[id].kind == kind then Record(kind, Closed) else m[id]
  }

  predicate IsOpen(m: Records, id: nat, kind: Kind) { id in m && m[id] == Record(kind, Open) }

  /** The IDs of one kind that are not closed. */
  function LiveIds(m: Records, kind: Kind): set<nat>
  {
    set id | id in m && m[id].kind == kind && !m[id].state.Closed?
  }

  /** `m'` extends `m`: no ID disappears, changes kind or moves backwards. */
  predicate Extends(m: Records, m': Records)
  {
    forall id :: id in m ==> id in m' && m'[id].kind == m[id].kind && Rank(m[id].state) <= Rank(m'[id].state)
  }

  function Rank(s: State): nat
  {
    match s
    case Opening => 0
    case Open => 1
    case Closed => 2
  }

  // ----- dispatch -----

  datatype Engine = TerminalEngine | FileEngine

  function EngineOf(kind: Kind): Engine { if kind == TERMINAL then TerminalEngine else FileEngine }

  datatype Route = To(engine: Engine) | Violation

  /** routeTypedApplicationFrame for a frame other than StreamOpen, with both capabilities. */
  function Dispatch(m: Records, id: nat): Route
  {
    if id !in m || m[id].state.Closed? then Violation
    else if m[id].kind == TERMINAL then To(TerminalEngine)
    else if m[id].kind == UPLOAD || m[id].kind == DOWNLOAD then To(FileEngine)
    else Violation
  }

  // ----- both engines at work -----

  /** Where the file engine's open handler is between its locks. */
  datatype Opener =
    | Idle
    | Reserved(id: nat, kind: Kind)    // registered, no slot yet
    | Rejected(id: nat, kind: Kind)    // no slot free, registration not yet closed
    | Slotted(id: nat, kind: Kind)     // slot taken: a pending reservation
    | Mapped(id: nat, kind: Kind)      // child mapped, not yet accepted
    | Released(id: nat, kind: Kind)    // registration closed, slot not yet returned

  /** `open` counts live typed terminals, `active` file slots; `children` is the file engine's map
      and `closing` the children closeChild removed from it but has not closed in the registry. */
  datatype Engines = Engines(records: Records, open: nat, active: nat, children: set<nat>,
                             closing: set<nat>, opener: Opener)

  datatype Action =
    | TerminalReserve(id: nat) | TerminalAccept(id: nat) | TerminalClose(id: nat) | TerminalCloseAll
    | FileReserve(id: nat, kind: Kind) | TakeSlot | RejectOpen | Release | ReturnSlot | MapChild | AcceptChild
    | RemoveChild(id: nat) | CloseRemoved(id: nat)

  function KindOf(m: Records, id: nat): Kind { if id in m then m[id].kind else NoKind }

  function Do(e: Engines, a: Action): Engines
  {
    match a
    case TerminalReserve(id) =>
      if e.open >= MAX_TERMINALS then e
      else
        var (v, m) := Reserve(e.records, id, TERMINAL);
        if v.Ok? then e.(records := m, open := e.open + 1) else e
    case TerminalAccept(id) => e.(records := Accept(e.records, id, TERMINAL).1)
    case TerminalClose(id) =>
      var (v, m) := CloseId(e.records, id, TERMINAL);
      if v.Ok? then e.(records := m, open := if e.open > 0 then e.open - 1 else 0) else e
    case TerminalCloseAll => e.(records := CloseAllOf(e.records, TERMINAL), open := 0)
    case FileReserve(id, kind) =>
      if !e.opener.Idle? || (kind != UPLOAD && kind != DOWNLOAD) then e
      else
        var (v, m) := Reserve(e.records, id, kind);
        if v.Ok? then e.(records := m, opener := Reserved(id, kind)) else e
    case TakeSlot =>
      if !e.opener.Reserved? then e
      else if e.active >= MAX_FILES then e.(opener := Rejected(e.opener.id, e.opener.kind))
      else e.(active := e.active + 1, opener := Slotted(e.opener.id, e.opener.kind))
    case RejectOpen =>
      if !e.opener.Rejected? then e
      else e.(records := CloseId(e.records, e.opener.id, e.opener.kind).1, opener := Idle)
    case Release =>
      if !e.opener.Slotted? then e
      else
        e.(records := CloseId(e.records, e.opener.id, e.opener.kind).1,
           opener := Released(e.opener.id, e.opener.kind))
    case ReturnSlot =>
      if !e.opener.Released? then e
      else e.(active := if e.active > 0 then e.active - 1 else 0, opener := Idle)
    case MapChild =>
      if !e.opener.Slotted? then e
      else e.(children := e.children + {e.opener.id}, opener := Mapped(e.opener.id, e.opener.kind))
    case AcceptChild =>
      if !e.opener.Mapped? then e
      else
        var (v, m) := Accept(e.records, e.opener.id, e.opener.kind);
        if v.Ok? then e.(records := m, opener := Idle)
        else e.(children := e.children - {e.opener.id}, opener := Slotted(e.opener.id, e.opener.kind))
    case RemoveChild(id) =>
      if id !in e.children || e.opener == Mapped(id, KindOf(e.records, id)) then e
      else
        e.(children := e.children - {id}, active := if e.active > 0 then e.active - 1 else 0,
           closing := e.closing + {id})
    case CloseRemoved(id) =>
      if id !in e.closing then e
      else e.(records := CloseId(e.records, id, KindOf(e.records, id)).1, closing := e.closing - {id})
  }

  function Run(e: Engines, schedule: seq<Action>): Engines
    decreases |schedule|
  {
    if schedule == [] then e else Run(Do(e, schedule[0]), schedule[1..])
  }

  function NewEngines(): Engines { Engines(map[], 0, 0, {}, {}, Idle) }

  predicate IsFile(m: Records, id: nat, s: State)
  {
    id in m && (m[id].kind == UPLOAD || m[id].kind == DOWNLOAD) && m[id].state == s
  }

  predicate OpenerOk(e: Engines)
  {
    match e.opener
    case Idle => true
    case Reserved(id, kind) =>
      IsFile(e.records, id, Opening) && e.records[id].kind == kind && id !in e.children + e.closing
    case Rejected(id, kind) =>
      IsFile(e.records, id, Opening) && e.records[id].kind == kind && id !in e.children + e.closing
    case Slotted(id, kind) =>
      IsFile(e.records, id, Opening) && e.records[id].kind == kind && id !in e.children + e.closing
    case Mapped(id, kind) => IsFile(e.records, id, Opening) && e.records[id].kind == kind && id in e.children
    case Released(id, kind) =>
      IsFile(e.records, id, Closed) && e.records[id].kind == kind && id !in e.children + e.closing
  }

  predicate Pending(o: Opener) { o.Slotted? || o.Released? }

  /** At most 256 IDs are ever recorded, and `open` counts exactly the live terminals. */
  predicate RegistryOk(m: Records, open: nat)
  {
    && |m| <= MAX_IDS
    && (forall id :: id in m ==> id >= MIN_TYPED_STREAM_ID && !m[id].kind.NoKind?)
    && open == |LiveIds(m, TERMINAL)| && open <= MAX_TERMINALS
  }

  /** `active` counts exactly the mapped children and the pending reservation. */
  predicate FilesOk(e: Engines)
  {
    && e.active == |e.children| + (if Pending(e.opener) then 1 else 0) && e.active <= MAX_FILES
    && OpenerOk(e)
    && (forall id :: id in e.children && !(e.opener.Mapped? && e.opener.id == id) ==> IsFile(e.records, id, Open))
    && (forall id :: id in e.closing ==> IsFile(e.records, id, Open))
    && e.children !! e.closing
  }

  predicate Inv(e: Engines) { RegistryOk(e.records, e.open) && FilesOk(e) }

  // ----- every step keeps it -----

  /** Recording `r` under `id` changes the live set of `kind` by at most `id`. */
  lemma LiveUpdate(m: Records, id: nat, r: Record, kind: Kind)
    ensures LiveIds(m[id := r], kind) ==
      if r.kind == kind && !r.state.Closed? then LiveIds(m, kind) + {id} else LiveIds(m, kind) - {id}
  {
  }

  /** Recording a terminal state adds, keeps or removes exactly one live terminal. */
  lemma TerminalUpdate(m: Records, id: nat, st: State)
    requires id in m ==> m[id].kind.TERMINAL?
    ensures var before, after := id in m && !m[id].state.Closed?, !st.Closed?;
      |LiveIds(m[id := Record(TERMINAL, st)], TERMINAL)| ==
        |LiveIds(m, TERMINAL)| + (if after then 1 else 0) - (if before then 1 else 0)
  {
    LiveUpdate(m, id, Record(TERMINAL, st), TERMINAL);
    var live := LiveIds(m, TERMINAL);
    assert id in live <==> id in m && !m[id].state.Closed?;
    assert |live + {id}| == |live| + if id in live then 0 else 1;
  }

  lemma TerminalRegistry(e: Engines, a: Action)
    requires RegistryOk(e.records, e.open) && (a.TerminalReserve? || a.TerminalAccept? || a.TerminalClose?)
    ensures var e' := Do(e, a); RegistryOk(e'.records, e'.open)
  {
    var st := if a.TerminalReserve? then Opening else if a.TerminalAccept? then Open else Closed;
    if a.id !in e.records || e.records[a.id].kind.TERMINAL? {
      TerminalUpdate(e.records, a.id, st);
    }
  }

  lemma CloseAllRegistry(m: Records)
    requires |m| <= MAX_IDS && forall id :: id in m ==> id >= MIN_TYPED_STREAM_ID && !m[id].kind.NoKind?
    ensures RegistryOk(CloseAllOf(m, TERMINAL), 0)
  {
    var m' := CloseAllOf(m, TERMINAL);
    assert m'.Keys == m.Keys;
    assert |m'| == |m'.Keys| && |m| == |m.Keys|;
    assert LiveIds(m', TERMINAL) == {};
  }

  /** The file engine does not depend on terminal registrations. */
  lemma FilesFrame(e: Engines, m: Records, open: nat)
    requires FilesOk(e)
    requires forall id :: id in e.records && e.records[id].kind != TERMINAL ==> id in m && m[id] == e.records[id]
    ensures FilesOk(e.(records := m, open := open))
  {
  }

  lemma TerminalKeeps(e: Engines, a: Action)
    requires Inv(e) && (a.TerminalReserve? || a.TerminalAccept? || a.TerminalClose? || a.TerminalCloseAll?)
    ensures Inv(Do(e, a))
  {
    if a.TerminalCloseAll? {
      CloseAllRegistry(e.records);
    } else {
      TerminalRegistry(e, a);
    }
    FilesFrame(e, Do(e, a).records, Do(e, a).open);
  }

  /** A file registration changing state leaves the terminals alone. */
  lemma FileRegistry(m: Records, open: nat, id: nat, r: Record)
    requires RegistryOk(m, open) && (r.kind.UPLOAD? || r.kind.DOWNLOAD?) && (id in m ==> !m[id].kind.TERMINAL?)
    requires id >= MIN_TYPED_STREAM_ID && (id in m || |m| < MAX_IDS)
    ensures RegistryOk(m[id := r], open)
  {
    LiveUpdate(m, id, r, TERMINAL);
  }

  lemma FileReserveKeeps(e: Engines, id: nat, kind: Kind)
    requires Inv(e)
    ensures Inv(Do(e, FileReserve(id, kind)))
  {
    if e.opener.Idle? && (kind.UPLOAD? || kind.DOWNLOAD?) && Reserve(e.records, id, kind).0.Ok? {
      FileRegistry(e.records, e.open, id, Record(kind, Opening));
      FileReserveFiles(e, id, kind);
    }
  }

  lemma FileReserveFiles(e: Engines, id: nat, kind: Kind)
    requires FilesOk(e)
    ensures FilesOk(Do(e, FileReserve(id, kind)))
  {
  }

  lemma SlotKeeps(e: Engines, a: Action)
    requires Inv(e) && (a.TakeSlot? || a.ReturnSlot? || a.MapChild?)
    ensures Inv(Do(e, a))
  {
  }

  lemma GiveUpKeeps(e: Engines, a: Action)
    requires Inv(e) && (a.RejectOpen? || a.Release?)
    ensures Inv(Do(e, a))
  {
    if e.opener.Rejected? || e.opener.Slotted? {
      FileRegistry(e.records, e.open, e.opener.id, Record(e.opener.kind, Closed));
    }
  }

  lemma AcceptChildKeeps(e: Engines)
    requires Inv(e)
    ensures Inv(Do(e, AcceptChild))
  {
    if e.opener.Mapped? {
      FileRegistry(e.records, e.open, e.opener.id, Record(e.opener.kind, Open));
      AcceptChildFiles(e);
    }
  }

  lemma AcceptChildFiles(e: Engines)
    requires FilesOk(e)
    ensures FilesOk(Do(e, AcceptChild))
  {
  }

  lemma RemoveChildKeeps(e: Engines, id: nat)
    requires Inv(e)
    ensures Inv(Do(e, RemoveChild(id)))
  {
    if id in e.children && !(e.opener.Mapped? && e.opener.id == id) {
      assert IsFile(e.records, id, Open);
      assert |e.children - {id}| == |e.children| - 1;
    }
  }

  lemma CloseRemovedKeeps(e: Engines, id: nat)
    requires Inv(e)
    ensures Inv(Do(e, CloseRemoved(id)))
  {
    if id in e.closing {
      FileRegistry(e.records, e.open, id, Record(e.records[id].kind, Closed));
      CloseRemovedFiles(e, id);
    }
  }

  lemma CloseRemovedFiles(e: Engines, id: nat)
    requires FilesOk(e)
    ensures FilesOk(Do(e, CloseRemoved(id)))
  {
  }

  lemma DoKeeps(e: Engines, a: Action)
    requires Inv(e)
    ensures Inv(Do(e, a))
  {
    match a
    case TerminalReserve(_) => TerminalKeeps(e, a);
    case TerminalAccept(_) => TerminalKeeps(e, a);
    case TerminalClose(_) => TerminalKeeps(e, a);
    case TerminalCloseAll => TerminalKeeps(e, a);
    case FileReserve(id, kind) => FileReserveKeeps(e, id, kind);
    case AcceptChild => AcceptChildKeeps(e);
    case RemoveChild(id) => RemoveChildKeeps(e, id);
    case CloseRemoved(id) => CloseRemovedKeeps(e, id);
    case RejectOpen => GiveUpKeeps(e, a);
    case Release => GiveUpKeeps(e, a);
    case _ => SlotKeeps(e, a);
  }

  lemma DoExtends(e: Engines, a: Action)
    ensures Extends(e.records, Do(e, a).records)
  {
  }

  lemma {:induction false} RunKeeps(e: Engines, schedule: seq<Action>)
    requires Inv(e)
    ensures Inv(Run(e, schedule)) && Extends(e.records, Run(e, schedule).records)
    decreases |schedule|
  {
    if schedule != [] {
      DoKeeps(e, schedule[0]);
      DoExtends(e, schedule[0]);
      RunKeeps(Do(e, schedule[0]), schedule[1..]);
    }
  }

  lemma Reachable(schedule: seq<Action>)
    ensures Inv(Run(NewEngines(), schedule))
  {
    assert LiveIds(NewEngines().records, TERMINAL) == {};
    RunKeeps(NewEngines(), schedule);
  }

  // ----- the promises, over every interleaving of the two engines -----

  /** At most 256 IDs are ever recorded, at most 7 typed terminals and 4 file transfers are live, and
      the counters that enforce it are exact at every step. */
  lemma CountersAreExact(schedule: seq<Action>)
    ensures var e := Run(NewEngines(), schedule);
      && |e.records| <= MAX_IDS
      && e.open == |LiveIds(e.records, TERMINAL)| && e.open <= MAX_TERMINALS
      && e.active == |e.children| + (if Pending(e.opener) then 1 else 0) && e.active <= MAX_FILES
      && (forall id :: id in e.children + e.closing ==> id in e.records && EngineOf(e.records[id].kind) == FileEngine)
  {
    Reachable(schedule);
    InvCounts(Run(NewEngines(), schedule));
  }

  lemma InvCounts(e: Engines)
    requires Inv(e)
    ensures forall id :: id in e.children + e.closing ==> id in e.records && EngineOf(e.records[id].kind) == FileEngine
  {
  }

  /** An ID is recorded once: it never disappears, never changes kind and only moves from Opening to Open
      to Closed, whatever either engine does. */
  lemma IdsOnlyMoveForward(before: seq<Action>, after: seq<Action>)
    ensures Extends(Run(NewEngines(), before).records, Run(Run(NewEngines(), before), after).records)
  {
    Reachable(before);
    RunKeeps(Run(NewEngines(), before), after);
  }

  /** The kind under which an action reserves its ID. */
  function ReservedKind(a: Action): Kind
    requires a.TerminalReserve? || a.FileReserve?
  {
    if a.TerminalReserve? then TERMINAL else a.kind
  }

  lemma Reserves(e: Engines, a: Action)
    requires (a.TerminalReserve? || a.FileReserve?) && a.id !in e.records && a.id in Do(e, a).records
    ensures Do(e, a).records[a.id].kind == ReservedKind(a) &&
      (a.FileReserve? ==> a.kind == UPLOAD || a.kind == DOWNLOAD)
  {
  }

  lemma DispatchFrom(m: Records, m': Records, id: nat)
    requires Extends(m, m') && id in m && (m[id].kind == TERMINAL || m[id].kind == UPLOAD || m[id].kind == DOWNLOAD)
    ensures id in m' && m'[id].kind == m[id].kind
    ensures Dispatch(m', id) == if m'[id].state.Closed? then Violation else To(EngineOf(m[id].kind))
    ensures forall k :: !Reserve(m', id, k).0.Ok?
  {
  }

  /** The ID keeps the kind it was reserved under; its later frames go to that kind's engine, all of them
      until the ID closes; and it can never be reserved again under any kind. */
  lemma DispatchFollowsReservation(before: seq<Action>, a: Action, after: seq<Action>)
    requires a.TerminalReserve? || a.FileReserve?
    ensures var e := Run(NewEngines(), before);
      var m := Run(Do(e, a), after).records;
      a.id !in e.records && a.id in Do(e, a).records ==>
        && a.id in m && m[a.id].kind == ReservedKind(a)
        && Dispatch(m, a.id) == (if m[a.id].state.Closed? then Violation else To(EngineOf(ReservedKind(a))))
        && forall k :: !Reserve(m, a.id, k).0.Ok?
  {
    Reachable(before);
    var e := Run(NewEngines(), before);
    var e1 := Do(e, a);
    DoKeeps(e, a);
    RunKeeps(e1, after);
    if a.id !in e.records && a.id in e1.records {
      Reserves(e, a);
      DispatchFrom(e1.records, Run(e1, after).records, a.id);
    }
  }

  /** activate's registration cannot fail, so its roll-back never runs. */
  lemma AcceptNeverFails(schedule: seq<Action>)
    ensures var e := Run(NewEngines(), schedule);
      e.opener.Mapped? ==> Accept(e.records, e.opener.id, e.opener.kind).0.Ok?
  {
    Reachable(schedule);
  }

  /** closeKind leaves nothing of that kind live and everything else as it was. */
  lemma CloseAllFacts(m: Records, kind: Kind)
    ensures LiveIds(CloseAllOf(m, kind), kind) == {} && Extends(m, CloseAllOf(m, kind))
    ensures forall other :: other != kind ==> LiveIds(CloseAllOf(m, kind), other) == LiveIds(m, other)
  {
  }

  // ----- the objects of typed_stream_state.go -----

  class StreamRegistry {
    var states: Records

    constructor ()
      ensures states == map[]
    {
      states := map[];
    }

    method ReserveId(id: nat, kind: Kind) returns (v: Verdict)
      modifies this
      ensures (v, states) == Reserve(old(states), id, kind)
    {
      if id < MIN_TYPED_STREAM_ID {
        return IdReserved;
      }
      if kind.NoKind? {
        return BadKind;
      }
      if id in states {
        return Duplicate;
      }
      if |states| >= MAX_IDS {
        return Limit;
      }
      states := states[id := Record(kind, Opening)];
      return Ok;
    }

    method AcceptId(id: nat, kind: Kind) returns (v: Verdict)
      modifies this
      ensures (v, states) == Accept(old(states), id, kind)
      ensures v.Ok? <==> old(id in states && states[id] == Record(kind, Opening))
      ensures v.Ok? ==> IsOpen(states, id, kind)
    {
      if id !in states || states[id].kind != kind || !states[id].state.Opening? {
        return NotOpen;
      }
      states := states[id := states[id].(state := Open)];
      return Ok;
    }

    method Close(id: nat, kind: Kind) returns (v: Verdict)
      modifies this
      ensures (v, states) == CloseId(old(states), id, kind)
      ensures id in states && states[id].kind == kind ==> states[id].state.Closed?
    {
      if id !in states || states[id].kind != kind || states[id].state.Closed? {
        return NotOpen;
      }
      states := states[id := states[id].(state := Closed)];
      return Ok;
    }

    method CloseKind(kind: Kind)
      modifies this
      ensures states == CloseAllOf(old(states), kind)
    {
      ghost var before := states;
      var todo := states.Keys;
      while todo != {}
        invariant todo <= states.Keys == before.Keys
        invariant forall id :: id in before ==>
          states[id] == if id in todo then before[id] else CloseAllOf(before, kind)[id]
        decreases |todo|
      {
        var id :| id in todo;
        todo := todo - {id};
        if states[id].kind == kind && !states[id].state.Closed? {
          states := states[id := states[id].(state := Closed)];
        }
      }
    }
  }

  /** typedTerminalStreamSet over the shared registry. */
  class TerminalStreamSet {
    const registry: StreamRegistry
    var open: nat

    ghost predicate Valid()
      reads this, registry
    {
      RegistryOk(registry.states, open)
    }

    constructor (registry: StreamRegistry)
      requires RegistryOk(registry.states, 0)
      ensures Valid() && this.registry == registry
    {
      this.registry := registry;
      open := 0;
    }

    method ReserveId(id: nat) returns (v: Verdict)
      requires Valid()
      modifies this, registry
      ensures Valid()
      ensures old(open) >= MAX_TERMINALS ==> v == Limit && open == old(open) && registry.states == old(registry.states)
      ensures old(open) < MAX_TERMINALS ==> (v, registry.states) == Reserve(old(registry.states), id, TERMINAL)
      ensures v.Ok? ==> open == old(open) + 1 && id in LiveIds(registry.states, TERMINAL)
      ensures !v.Ok? ==> open == old(open)
    {
      if open >= MAX_TERMINALS {
        return Limit;
      }
      if id !in registry.states {
        TerminalUpdate(registry.states, id, Opening);
      }
      v := registry.ReserveId(id, TERMINAL);
      if v.Ok? {
        open := open + 1;
      }
    }

    method Close(id: nat) returns (v: Verdict)
      requires Valid()
      modifies this, registry
      ensures Valid()
      ensures (v, registry.states) == CloseId(old(registry.states), id, TERMINAL)
      ensures open == old(open) - (if v.Ok? then 1 else 0)
    {
      if id in registry.states && registry.states[id].kind.TERMINAL? {
        TerminalUpdate(registry.states, id, Closed);
      }
      v := registry.Close(id, TERMINAL);
      if v.Ok? && open > 0 {
        open := open - 1;
      }
    }

    method CloseAll()
      requires Valid()
      modifies this, registry
      ensures Valid() && open == 0
      ensures registry.states == CloseAllOf(old(registry.states), TERMINAL)
    {
      CloseAllRegistry(registry.states);
      registry.CloseKind(TERMINAL);
      open := 0;
    }
  }
}
