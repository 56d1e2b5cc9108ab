/** Process-local replay protection for connection.connect and terminal.write: callers that carry the
    same operation ID share one call of the wrapped service. A record is named after the caller that
    leads it. The two services differ in one rule: connect forgets a cancelled leader, terminal.write
    caches every outcome. */
module Idempotency {
  import Sets

  type OpId = nat
  type Caller = nat

  /** What is compared on a repeat: the device, or the connection and the digest of the bytes. */
  type Request = nat

  /** The wrapped service's outcome; Cancelled is a cancellation or deadline error. */
  datatype Result = Value(v: nat) | Cancelled

  datatype Record = Pending(request: Request) | Completed(request: Request, at: int, result: Result)

  datatype Config = Config(retention: int, maxEntries: nat, cachesCancelled: bool)

  predicate Drops(g: Config, r: Result) { r == Cancelled && !g.cachesCancelled }

  // ----- what the mutex protects -----

  /** `ops` names the current record of an operation ID. */
  datatype Table = Table(ops: map<OpId, Caller>, records: map<Caller, Record>)

  predicate Stale(g: Config, t: Table, op: OpId, now: int)
  {
    op in t.ops && t.ops[op] in t.records && t.records[t.ops[op]].Completed? &&
    now - t.records[t.ops[op]].at >= g.retention
  }

  function Pruned(g: Config, t: Table, now: int): Table
  {
    t.(ops := map op | op in t.ops && !Stale(g, t, op, now) :: t.ops[op])
  }

  datatype Begun = Follow(leader: Caller) | Lead | Mismatch | Full

  function Begin(g: Config, t: Table, op: OpId, request: Request): Begun
  {
    if op in t.ops then
      if t.ops[op] in t.records && t.records[t.ops[op]].request == request then Follow(t.ops[op]) else Mismatch
    else if |t.ops| >= g.maxEntries then Full
    else Lead
  }

  function Enroll(t: Table, op: OpId, c: Caller, request: Request): Table
  {
    Table(t.ops[op := c], t.records[c := Pending(request)])
  }

  predicate IsCurrent(t: Table, op: OpId, c: Caller) { op in t.ops && t.ops[op] == c }

  /** The record and whether its done channel is closed. */
  function Complete(g: Config, t: Table, op: OpId, c: Caller, r: Result, now: int): (Table, bool)
  {
    if !IsCurrent(t, op, c) || c !in t.records then (t, false)
    else if Drops(g, r) then (t.(ops := t.ops - {op}), true)
    else (t.(records := t.records[c := Completed(t.records[c].request, now, r)]), true)
  }

  // ----- callers -----

  datatype Answer = Own(r: Result) | Shared(leader: Caller, r: Result) | Refused | Overloaded | GaveUp

  datatype Phase =
    | Ready                                   // about to call begin
    | Leading                                 // inside the wrapped service
    | Waiting(leader: Caller)
    | Returned(answer: Answer)

  datatype Client = Client(op: OpId, request: Request, phase: Phase)

  /** One call of the wrapped service; it ends when its outcome is recorded. */
  datatype Inner = Inner(op: OpId, request: Request, start: int, end: End)
  datatype End = Running | Ended(at: int, r: Result)

  /** `calls` and `order` are the history of wrapped calls, `closed` the closed done channels. */
  datatype Service = Service(
    now: int, table: Table, closed: set<Caller>, clients: map<Caller, Client>,
    calls: Calls, order: seq<Caller>)

  datatype Action =
    | Tick(d: nat)
    | Arrive(c: Caller, op: OpId, request: Request)
    | Start(c: Caller)
    | Finish(c: Caller, r: Result)
    | Wake(c: Caller)
    | GiveUp(c: Caller)

  predicate IsAt(s: Service, c: Caller, p: Phase) { c in s.clients && s.clients[c].phase == p }

  function Go(s: Service, c: Caller, p: Phase): Service
    requires c in s.clients
  {
    s.(clients := s.clients[c := s.clients[c].(phase := p)])
  }

  function LeadStep(s: Service, t: Table, c: Caller): Service
    requires c in s.clients
  {
    var op, request := s.clients[c].op, s.clients[c].request;
    Go(s.(table := Enroll(t, op, c, request), calls := s.calls[c := Inner(op, request, s.now, Running)],
          order := s.order + [c]), c, Leading)
  }

  function StartStep(g: Config, s: Service, c: Caller): Service
    requires IsAt(s, c, Ready)
  {
    var op, request := s.clients[c].op, s.clients[c].request;
    var t := Pruned(g, s.table, s.now);
    match Begin(g, t, op, request)
    case Follow(leader) => Go(s.(table := t), c, Waiting(leader))
    case Mismatch => Go(s.(table := t), c, Returned(Refused))
    case Full => Go(s.(table := t), c, Returned(Overloaded))
    case Lead => LeadStep(s, t, c)
  }

  function FinishStep(g: Config, s: Service, c: Caller, r: Result): Service
    requires IsAt(s, c, Leading) && c in s.calls
  {
    var done := Complete(g, s.table, s.clients[c].op, c, r, s.now);
    Go(s.(table := done.0, closed := if done.1 then s.closed + {c} else s.closed,
          calls := s.calls[c := s.calls[c].(end := Ended(s.now, r))]), c, Returned(Own(r)))
  }

  function WakeStep(s: Service, c: Caller): Service
    requires c in s.clients && s.clients[c].phase.Waiting?
  {
    var leader := s.clients[c].phase.leader;
    if leader !in s.closed then s
    else if IsCurrent(s.table, s.clients[c].op, leader) &&
            leader in s.table.records && s.table.records[leader].Completed?
    then Go(s, c, Returned(Shared(leader, s.table.records[leader].result)))
    else Go(s, c, Ready)
  }

  function Do(g: Config, s: Service, a: Action): Service
  {
    match a
    case Tick(d) => s.(now := s.now + d)
    case Arrive(c, op, request) =>
      if c in s.clients then s else s.(clients := s.clients[c := Client(op, request, Ready)])
    case Start(c) => if IsAt(s, c, Ready) then StartStep(g, s, c) else s
    case Finish(c, r) => if IsAt(s, c, Leading) && c in s.calls then FinishStep(g, s, c, r) else s
    case Wake(c) => if c in s.clients && s.clients[c].phase.Waiting? then WakeStep(s, c) else s
    case GiveUp(c) => if c in s.clients && s.clients[c].phase.Waiting? then Go(s, c, Returned(GaveUp)) else s
  }

  function Run(g: Config, s: Service, schedule: seq<Action>): Service
    decreases |schedule|
  {
    if schedule == [] then s else Run(g, Do(g, s, schedule[0]), schedule[1..])
  }

  function NewService(): Service { Service(0, Table(map[], map[]), {}, map[], map[], []) }

  // ----- the invariant -----

  type Calls = map<Caller, Inner>

  /** A wrapped call that is no longer the current record is over, and either was forgotten because it
      was cancelled or has outlived the retention. */
  predicate Past(g: Config, now: int, k: Inner)
  {
    k.end.Ended? && (Drops(g, k.end.r) || now - k.end.at >= g.retention)
  }

  predicate Mirrors(g: Config, record: Record, k: Inner)
  {
    && record.request == k.request
    && (record.Pending? <==> k.end.Running?)
    && (record.Completed? ==> k.end == Ended(record.at, record.result) && !Drops(g, record.result))
  }

  predicate Backed(g: Config, t: Table, calls: Calls, op: OpId)
    requires op in t.ops
  {
    var c := t.ops[op];
    c in calls && calls[c].op == op && c in t.records && Mirrors(g, t.records[c], calls[c])
  }

  /** The table against the history. */
  predicate TableOk(g: Config, now: int, t: Table, calls: Calls)
  {
    && (forall op :: op in t.ops ==> Backed(g, t, calls, op))
    && (forall c :: c in calls && !IsCurrent(t, calls[c].op, c) ==> Past(g, now, calls[c]))
  }

  predicate Served(k: Client, calls: Calls, leader: Caller)
  {
    leader in calls && calls[leader].op == k.op && calls[leader].request == k.request
  }

  predicate ClientOk(k: Client, c: Caller, calls: Calls)
  {
    match k.phase
    case Ready => c !in calls
    case Leading => Served(k, calls, c) && calls[c].end.Running?
    case Waiting(leader) => c !in calls && Served(k, calls, leader)
    case Returned(answer) =>
      match answer
      case Own(r) => Served(k, calls, c) && calls[c].end.Ended? && calls[c].end.r == r
      case Shared(leader, r) =>
        c !in calls && Served(k, calls, leader) && calls[leader].end.Ended? && calls[leader].end.r == r
      case _ => c !in calls
  }

  predicate ClientsOk(clients: map<Caller, Client>, calls: Calls)
  {
    && (forall c :: c in clients ==> ClientOk(clients[c], c, calls))
    && calls.Keys <= clients.Keys
  }

  /** A done channel is closed exactly when its wrapped call has ended. */
  predicate ClosedOk(closed: set<Caller>, calls: Calls)
  {
    && closed <= calls.Keys
    && (forall c :: c in calls ==> (c in closed <==> calls[c].end.Ended?))
  }

  /** Two wrapped calls of one operation ID, in the order they started. */
  predicate Spaced(g: Config, first: Inner, second: Inner)
  {
    first.op == second.op ==> Past(g, second.start, first)
  }

  predicate OrderOk(g: Config, calls: Calls, order: seq<Caller>)
  {
    && (forall i :: 0 <= i < |order| ==> order[i] in calls)
    && (forall i, j :: 0 <= i < j < |order| ==> order[i] != order[j] && Spaced(g, calls[order[i]], calls[order[j]]))
  }

  predicate Inv(g: Config, s: Service)
  {
    && TableOk(g, s.now, s.table, s.calls) && |s.table.ops| <= g.maxEntries
    && ClientsOk(s.clients, s.calls) && ClosedOk(s.closed, s.calls) && OrderOk(g, s.calls, s.order)
  }

  // ----- steps -----

  lemma PruneTable(g: Config, now: int, t: Table, calls: Calls)
    requires TableOk(g, now, t, calls)
    ensures TableOk(g, now, Pruned(g, t, now), calls) && |Pruned(g, t, now).ops| <= |t.ops|
  {
    var t' := Pruned(g, t, now);
    Sets.SubsetSize(t'.ops.Keys, t.ops.Keys);
    forall op | op in t'.ops ensures Backed(g, t', calls, op) {
      assert Backed(g, t, calls, op);
    }
    forall c | c in calls && !IsCurrent(t', calls[c].op, c) ensures Past(g, now, calls[c]) {
      if IsCurrent(t, calls[c].op, c) {
        assert Backed(g, t, calls, calls[c].op);
      }
    }
  }

  lemma LeadTable(g: Config, now: int, t: Table, calls: Calls, op: OpId, c: Caller, request: Request)
    requires TableOk(g, now, t, calls) && op !in t.ops && c !in calls
    ensures TableOk(g, now, Enroll(t, op, c, request), calls[c := Inner(op, request, now, Running)])
  {
    var t', calls' := Enroll(t, op, c, request), calls[c := Inner(op, request, now, Running)];
    forall o | o in t'.ops ensures Backed(g, t', calls', o) {
      if o != op {
        assert Backed(g, t, calls, o);
      }
    }
  }

  lemma LeadOrder(g: Config, now: int, t: Table, calls: Calls, order: seq<Caller>, op: OpId,
                  c: Caller, request: Request)
    requires TableOk(g, now, t, calls) && op !in t.ops && c !in calls && OrderOk(g, calls, order)
    ensures OrderOk(g, calls[c := Inner(op, request, now, Running)], order + [c])
  {
    var calls', order' := calls[c := Inner(op, request, now, Running)], order + [c];
    forall i, j | 0 <= i < j < |order'|
      ensures order'[i] != order'[j] && Spaced(g, calls'[order'[i]], calls'[order'[j]])
    {
      if j < |order| {
        assert Spaced(g, calls[order[i]], calls[order[j]]);
      }
    }
  }

  lemma LeadKeeps(g: Config, s: Service, t: Table, c: Caller)
    requires Inv(g, s) && IsAt(s, c, Ready) && TableOk(g, s.now, t, s.calls)
    requires Begin(g, t, s.clients[c].op, s.clients[c].request) == Lead
    ensures Inv(g, LeadStep(s, t, c))
  {
    var op, request := s.clients[c].op, s.clients[c].request;
    var s' := LeadStep(s, t, c);
    assert ClientOk(s.clients[c], c, s.calls);
    assert TableOk(g, s'.now, s'.table, s'.calls) by {
      LeadTable(g, s.now, t, s.calls, op, c, request);
    }
    assert OrderOk(g, s'.calls, s'.order) by {
      LeadOrder(g, s.now, t, s.calls, s.order, op, c, request);
    }
    assert ClientsOk(s'.clients, s'.calls) by {
      LeadClients(s.clients, s.calls, c, s.now);
    }
    assert |s'.table.ops| <= g.maxEntries by {
      EnrollSize(t, op, c, request);
    }
    LeadClosed(s.closed, s.calls, c, Inner(op, request, s.now, Running));
  }

  lemma EnrollSize(t: Table, op: OpId, c: Caller, request: Request)
    ensures |Enroll(t, op, c, request).ops| <= |t.ops| + 1
  {
    assert Enroll(t, op, c, request).ops.Keys == t.ops.Keys + {op};
  }

  lemma LeadClosed(closed: set<Caller>, calls: Calls, c: Caller, k: Inner)
    requires ClosedOk(closed, calls) && c !in calls && k.end.Running?
    ensures ClosedOk(closed, calls[c := k])
  {
  }

  lemma StartKeeps(g: Config, s: Service, c: Caller)
    requires Inv(g, s) && IsAt(s, c, Ready)
    ensures Inv(g, StartStep(g, s, c))
  {
    var t := Pruned(g, s.table, s.now);
    match Begin(g, t, s.clients[c].op, s.clients[c].request)
    case Lead =>
      PruneTable(g, s.now, s.table, s.calls);
      LeadKeeps(g, s, t, c);
    case Follow(leader) => JoinKeeps(g, s, c, Waiting(leader));
    case Mismatch => JoinKeeps(g, s, c, Returned(Refused));
    case Full => JoinKeeps(g, s, c, Returned(Overloaded));
  }

  lemma JoinKeeps(g: Config, s: Service, c: Caller, p: Phase)
    requires Inv(g, s) && IsAt(s, c, Ready)
    requires p == Returned(Refused) || p == Returned(Overloaded) ||
      (p.Waiting? && Begin(g, Pruned(g, s.table, s.now), s.clients[c].op, s.clients[c].request) == Follow(p.leader))
    ensures Inv(g, Go(s.(table := Pruned(g, s.table, s.now)), c, p))
  {
    var t := Pruned(g, s.table, s.now);
    assert ClientOk(s.clients[c], c, s.calls);
    PruneTable(g, s.now, s.table, s.calls);
    if p.Waiting? {
      assert Backed(g, t, s.calls, s.clients[c].op);
    }
    MoveClient(s.clients, s.calls, c, p);
  }

  lemma MoveClient(clients: map<Caller, Client>, calls: Calls, c: Caller, p: Phase)
    requires ClientsOk(clients, calls) && c in clients && ClientOk(clients[c].(phase := p), c, calls)
    ensures ClientsOk(clients[c := clients[c].(phase := p)], calls)
  {
  }

  lemma LeadClients(clients: map<Caller, Client>, calls: Calls, c: Caller, now: int)
    requires ClientsOk(clients, calls) && c in clients && c !in calls
    ensures ClientsOk(clients[c := clients[c].(phase := Leading)],
                      calls[c := Inner(clients[c].op, clients[c].request, now, Running)])
  {
    var calls' := calls[c := Inner(clients[c].op, clients[c].request, now, Running)];
    forall b | b in clients && b != c ensures ClientOk(clients[b], b, calls') {
      assert ClientOk(clients[b], b, calls);
    }
  }

  /** The record of a call that is running is current, so its leader finds it. */
  lemma RunningIsCurrent(g: Config, s: Service, c: Caller)
    requires Inv(g, s) && IsAt(s, c, Leading)
    ensures c in s.calls && IsCurrent(s.table, s.clients[c].op, c) && c in s.table.records
    ensures s.table.records[c].Pending? && s.table.records[c].request == s.clients[c].request
  {
    assert ClientOk(s.clients[c], c, s.calls);
    assert Backed(g, s.table, s.calls, s.clients[c].op);
  }

  lemma FinishTable(g: Config, now: int, t: Table, calls: Calls, op: OpId, c: Caller, r: Result)
    requires TableOk(g, now, t, calls) && IsCurrent(t, op, c)
    ensures var t' := Complete(g, t, op, c, r, now).0;
      c in calls && TableOk(g, now, t', calls[c := calls[c].(end := Ended(now, r))]) && |t'.ops| <= |t.ops|
  {
    assert Backed(g, t, calls, op);
    var t' := Complete(g, t, op, c, r, now).0;
    var calls' := calls[c := calls[c].(end := Ended(now, r))];
    Sets.SubsetSize(t'.ops.Keys, t.ops.Keys);
    forall o | o in t'.ops ensures Backed(g, t', calls', o) {
      assert Backed(g, t, calls, o);
    }
  }

  lemma FinishClients(clients: map<Caller, Client>, calls: Calls, c: Caller, now: int, r: Result)
    requires ClientsOk(clients, calls) && c in clients && c in calls && clients[c].phase == Leading
    ensures ClientsOk(clients[c := clients[c].(phase := Returned(Own(r)))], calls[c := calls[c].(end := Ended(now, r))])
  {
    var calls' := calls[c := calls[c].(end := Ended(now, r))];
    assert ClientOk(clients[c], c, calls);
    forall b | b in clients && b != c ensures ClientOk(clients[b], b, calls') {
      assert ClientOk(clients[b], b, calls);
    }
  }

  lemma FinishOrder(g: Config, calls: Calls, order: seq<Caller>, c: Caller, now: int, r: Result)
    requires OrderOk(g, calls, order) && c in calls && calls[c].end.Running?
    ensures OrderOk(g, calls[c := calls[c].(end := Ended(now, r))], order)
  {
    var calls' := calls[c := calls[c].(end := Ended(now, r))];
    forall i, j | 0 <= i < j < |order| ensures Spaced(g, calls'[order[i]], calls'[order[j]]) {
      assert Spaced(g, calls[order[i]], calls[order[j]]);
    }
  }

  lemma FinishKeeps(g: Config, s: Service, c: Caller, r: Result)
    requires Inv(g, s) && IsAt(s, c, Leading) && c in s.calls
    ensures Inv(g, FinishStep(g, s, c, r))
  {
    assert ClientOk(s.clients[c], c, s.calls);
    RunningIsCurrent(g, s, c);
    FinishTable(g, s.now, s.table, s.calls, s.clients[c].op, c, r);
    FinishClients(s.clients, s.calls, c, s.now, r);
    FinishOrder(g, s.calls, s.order, c, s.now, r);
  }

  lemma WakeKeeps(g: Config, s: Service, c: Caller)
    requires Inv(g, s) && c in s.clients && s.clients[c].phase.Waiting?
    ensures Inv(g, WakeStep(s, c))
  {
    assert ClientOk(s.clients[c], c, s.calls);
    if IsCurrent(s.table, s.clients[c].op, s.clients[c].phase.leader) {
      assert Backed(g, s.table, s.calls, s.clients[c].op);
    }
    MoveClient(s.clients, s.calls, c, WakeStep(s, c).clients[c].phase);
  }

  lemma TickKeeps(g: Config, s: Service, d: nat)
    requires Inv(g, s)
    ensures Inv(g, s.(now := s.now + d))
  {
    forall c | c in s.calls && !IsCurrent(s.table, s.calls[c].op, c) ensures Past(g, s.now + d, s.calls[c]) {
      assert Past(g, s.now, s.calls[c]);
    }
  }

  lemma DoKeeps(g: Config, s: Service, a: Action)
    requires Inv(g, s)
    ensures Inv(g, Do(g, s, a))
  {
    match a
    case Tick(d) => TickKeeps(g, s, d);
    case Arrive(c, op, request) =>
    case Start(c) => if IsAt(s, c, Ready) { StartKeeps(g, s, c); }
    case Finish(c, r) => if IsAt(s, c, Leading) && c in s.calls { FinishKeeps(g, s, c, r); }
    case Wake(c) => if c in s.clients && s.clients[c].phase.Waiting? { WakeKeeps(g, s, c); }
    case GiveUp(c) =>
      if c in s.clients && s.clients[c].phase.Waiting? {
        assert ClientOk(s.clients[c], c, s.calls);
        MoveClient(s.clients, s.calls, c, Returned(GaveUp));
      }
  }

  lemma {:induction false} RunKeeps(g: Config, s: Service, schedule: seq<Action>)
    requires Inv(g, s)
    ensures Inv(g, Run(g, s, schedule))
    decreases |schedule|
  {
    if schedule != [] {
      DoKeeps(g, s, schedule[0]);
      RunKeeps(g, Do(g, s, schedule[0]), schedule[1..]);
    }
  }

  // ----- what replay protection promises -----

  /** The wrapped service is inside at most one call of an operation ID, and two calls of it are
      separated by the whole retention, measured from the first one's completion, unless the first was
      cancelled and the service forgets cancellations. */
  lemma OneCallPerWindow(g: Config, schedule: seq<Action>, i: nat, j: nat)
    ensures var s := Run(g, NewService(), schedule);
      i < j < |s.order| && s.order[i] in s.calls && s.order[j] in s.calls &&
      s.calls[s.order[i]].op == s.calls[s.order[j]].op ==>
        var first := s.calls[s.order[i]].end;
        && first.Ended?
        && ((first.r == Cancelled && !g.cachesCancelled) || s.calls[s.order[j]].start >= first.at + g.retention)
  {
    RunKeeps(g, NewService(), schedule);
  }

  lemma OneInFlight(g: Config, schedule: seq<Action>, a: Caller, b: Caller)
    ensures var s := Run(g, NewService(), schedule);
      IsAt(s, a, Leading) && IsAt(s, b, Leading) && s.clients[a].op == s.clients[b].op ==> a == b
  {
    RunKeeps(g, NewService(), schedule);
    var s := Run(g, NewService(), schedule);
    if IsAt(s, a, Leading) && IsAt(s, b, Leading) {
      RunningIsCurrent(g, s, a);
      RunningIsCurrent(g, s, b);
    }
  }

  /** A follower that returns an answer returns the outcome of a wrapped call made with its own
      operation ID and its own request; it made no call itself. */
  lemma FollowersShare(g: Config, schedule: seq<Action>, c: Caller)
    ensures var s := Run(g, NewService(), schedule);
      c in s.clients && s.clients[c].phase.Returned? && s.clients[c].phase.answer.Shared? ==>
        var answer := s.clients[c].phase.answer;
        && c !in s.calls && answer.leader in s.calls
        && s.calls[answer.leader].op == s.clients[c].op && s.calls[answer.leader].request == s.clients[c].request
        && s.calls[answer.leader].end.Ended? && s.calls[answer.leader].end.r == answer.r
  {
    RunKeeps(g, NewService(), schedule);
    var s := Run(g, NewService(), schedule);
    if c in s.clients {
      assert ClientOk(s.clients[c], c, s.calls);
    }
  }

  /** A leader always finds its own record when it completes, so a follower's leader is running or its
      done channel is closed; the table never exceeds its bound. */
  lemma NoStuckFollower(g: Config, schedule: seq<Action>, c: Caller)
    ensures var s := Run(g, NewService(), schedule);
      && |s.table.ops| <= g.maxEntries
      && (IsAt(s, c, Leading) ==> IsCurrent(s.table, s.clients[c].op, c))
      && (c in s.clients && s.clients[c].phase.Waiting? ==>
            IsAt(s, s.clients[c].phase.leader, Leading) || s.clients[c].phase.leader in s.closed)
  {
    RunKeeps(g, NewService(), schedule);
    var s := Run(g, NewService(), schedule);
    if c in s.clients {
      assert ClientOk(s.clients[c], c, s.calls);
      if IsAt(s, c, Leading) {
        RunningIsCurrent(g, s, c);
      } else if s.clients[c].phase.Waiting? {
        var leader := s.clients[c].phase.leader;
        assert ClientOk(s.clients[leader], leader, s.calls);
      }
    }
  }

  // ----- the service object -----

  /** The operation map with its records and the locked parts of the call. */
  class OperationTable {
    const g: Config
    var ops: map<OpId, Caller>
    var records: map<Caller, Record>
    var closed: set<Caller>

    ghost function View(): Table
      reads this
    {
      Table(ops, records)
    }

    constructor (g: Config)
      ensures this.g == g && View() == NewService().table && closed == {}
    {
      this.g, ops, records, closed := g, map[], map[], {};
    }

    method Prune(now: int)
      modifies this`ops
      ensures View() == Pruned(g, old(View()), now)
    {
      var todo := ops.Keys;
      while todo != {}
        invariant todo <= ops.Keys <= old(ops).Keys
        invariant forall op :: op in ops ==> ops[op] == old(ops)[op]
        invariant forall op :: op in old(ops) && op !in todo ==> (op in ops <==> !Stale(g, old(View()), op, now))
        decreases |todo|
      {
        var op :| op in todo;
        todo := todo - {op};
        if ops[op] in records && records[ops[op]].Completed? && now - records[ops[op]].at >= g.retention {
          ops := ops - {op};
        }
      }
    }

    method BeginLocked(c: Caller, op: OpId, request: Request, now: int) returns (b: Begun)
      modifies this`ops, this`records
      ensures b == Begin(g, Pruned(g, old(View()), now), op, request)
      ensures View() == var t := Pruned(g, old(View()), now); if b == Lead then Enroll(t, op, c, request) else t
    {
      Prune(now);
      if op in ops {
        if ops[op] in records && records[ops[op]].request == request {
          return Follow(ops[op]);
        }
        return Mismatch;
      }
      if |ops| >= g.maxEntries {
        return Full;
      }
      ops := ops[op := c];
      records := records[c := Pending(request)];
      b := Lead;
    }

    method CompleteLocked(op: OpId, c: Caller, r: Result, now: int)
      modifies this`ops, this`records, this`closed
      ensures View() == Complete(g, old(View()), op, c, r, now).0
      ensures closed == if Complete(g, old(View()), op, c, r, now).1 then old(closed) + {c} else old(closed)
    {
      if op !in ops || ops[op] != c || c !in records {
        return;
      }
      if r == Cancelled && !g.cachesCancelled {
        ops := ops - {op};
      } else {
        records := records[c := Completed(records[c].request, now, r)];
      }
      closed := closed + {c};
    }
  }
}
