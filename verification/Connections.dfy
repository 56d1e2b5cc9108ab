/** The Local Core connection manager: Connect, Disconnect, remote close and shutdown as interleaved
    critical sections and outside calls. A Connect call, its backend handle and its generation token
    are identified by the same number. */
module Connections {
  import opened Common
  import Machine
  import Sets

  type Id = nat       // connection ID
  type Call = nat     // one Connect call, its handle and its token

  datatype Entry = Entry(token: Call, closing: bool, suppressDone: bool)
  datatype Retained = Retained(token: Call, closed: bool)

  // ----- what the service mutex protects -----

  datatype Table = Table(
    max: nat, opening: int, active: map<Id, Entry>, streams: map<Id, Retained>, reserved: set<Id>, closed: bool)

  predicate HasRoom(t: Table) { !t.closed && |t.active| + t.opening < t.max }

  predicate IsFree(t: Table, id: Id) { id !in t.active && id !in t.streams && id !in t.reserved }

  function Reserve(t: Table, id: Id): Table { t.(reserved := t.reserved + {id}) }

  /** The release helpers never count below zero. */
  function FreeSlot(t: Table): Table { if t.opening > 0 then t.(opening := t.opening - 1) else t }

  function FreeSlotAndId(t: Table, id: Id): Table { FreeSlot(t).(reserved := t.reserved - {id}) }

  const RETAINED_STREAM_SCALE: nat := 2
  const MAX_ID_ATTEMPTS: nat := 8

  /** The table size at which publication prunes retained streams. */
  function Limit(max: nat): nat
  {
    if max * RETAINED_STREAM_SCALE < max + 1 then max + 1 else max * RETAINED_STREAM_SCALE
  }

  function ClosedIds(streams: map<Id, Retained>): set<Id> { set id | id in streams && streams[id].closed }

  /** Deleting `victims` is what the pruning loop may do: one closed entry at a time, in any order,
      while the table is at the limit and a closed entry is left. */
  predicate Prunes(streams: map<Id, Retained>, limit: nat, victims: set<Id>)
  {
    && victims <= ClosedIds(streams)
    && (victims == {} || |streams| - |victims| + 1 >= limit)
    && (|streams| - |victims| < limit || victims == ClosedIds(streams))
  }

  /** Publication: the slot and the reservation become an entry, unless the service was shut down. */
  function Publish(t: Table, id: Id, token: Call, streamable: bool, victims: set<Id>): Table
  {
    var t' := t.(opening := t.opening - 1, reserved := t.reserved - {id});
    if t.closed then t'
    else
      t'.(active := t.active[id := Entry(token, false, false)],
          streams := if streamable then (t.streams - victims)[id := Retained(token, false)] else t.streams)
  }

  predicate Holds(t: Table, id: Id, token: Call) { id in t.active && t.active[id].token == token }

  predicate Streams(t: Table, id: Id, token: Call) { id in t.streams && t.streams[id].token == token }

  predicate CanLeave(t: Table, id: Id) { id in t.active && !t.active[id].closing }

  function MarkClosing(t: Table, id: Id): Table
    requires CanLeave(t, id)
  {
    t.(active := t.active[id := t.active[id].(closing := true)])
  }

  /** A Disconnect whose handle closed. */
  function Drop(t: Table, id: Id, token: Call): Table
  {
    t.(active := if Holds(t, id, token) then t.active - {id} else t.active,
       streams := if Streams(t, id, token) then t.streams - {id} else t.streams)
  }

  /** A Disconnect whose handle failed to close: the entry can be disconnected again. */
  function Retry(t: Table, id: Id, token: Call, doneClosed: bool): Table
  {
    if Holds(t, id, token)
    then t.(active := t.active[id := t.active[id].(closing := false, suppressDone := doneClosed)]) else t
  }

  predicate EndsRemotely(t: Table, id: Id, token: Call)
  {
    Holds(t, id, token) && !t.active[id].closing && !t.active[id].suppressDone
  }

  function RemoteClose(t: Table, id: Id, token: Call): Table
  {
    if !Holds(t, id, token) || t.active[id].closing then t
    else if t.active[id].suppressDone then t.(active := t.active[id := t.active[id].(suppressDone := false)])
    else
      t.(active := t.active - {id},
         streams := if Streams(t, id, token) then t.streams[id := t.streams[id].(closed := true)] else t.streams)
  }

  function Expire(t: Table, id: Id, token: Call): Table
  {
    if Streams(t, id, token) && t.streams[id].closed then t.(streams := t.streams - {id}) else t
  }

  function ShutDown(t: Table): Table { t.(closed := true, active := map[], streams := map[]) }

  // ----- calls in progress -----

  /** `observable`: the handle has a Done channel. */
  datatype Handle = Handle(closeCalled: bool, done: bool, observable: bool)

  /** Where a Connect call is. */
  datatype Phase =
    | HasSlot                  // a slot, no ID yet
    | HasId(id: Id)            // slot and ID, backend not yet opened
    | Opened(id: Id)           // owns a handle
    | Pathed(id: Id)           // path state published, not yet active
    | Releasing(id: Id)        // failed, slot and ID not yet returned
    | ReleasingSlot            // no ID found, slot not yet returned
    | Withdrawing(id: Id)      // shut down before publication: path state still to be removed
    | ClosingHandle            // path state removed, handle still to be closed
    | Finished

  /** Where a Disconnect call is. */
  datatype Leaving =
    | RemovesPath(id: Id, token: Call)
    | ClosesHandle(id: Id, token: Call)
    | Peeks(id: Id, token: Call)                            // Close failed, Done not yet looked at
    | Settles(id: Id, token: Call, ok: bool, sawDone: bool)
    | Left

  /** The table, the network service's path entries, the handles, and every call's progress:
      `watching` goroutines, `removing` path removals and `doomed` handles still to be closed. */
  datatype Service = Service(
    table: Table, paths: set<Id>, handles: map<Call, Handle>,
    connects: map<Call, Phase>, disconnects: map<nat, Leaving>,
    watching: set<(Id, Call)>, removing: set<(Id, Call)>, doomed: set<Call>)

  datatype Action =
    | Enter(c: Call, enter: Entering)
    | Open(c: Call, opening: Opening)
    | Settle(c: Call, settle: Settling)
    | Disconnect(d: nat, leave: Disconnecting)
    | Environment(event: Event)

  datatype Entering = ReserveOpening | ReserveId(id: Id) | GiveUpId | ReleaseOpening
  datatype Opening = OpenFails | OpenInvalid | OpenOk(observable: bool) | Abort | SetPath(ok: bool)
  datatype Settling =
    | PublishEntry(streamable: bool, victims: set<Id>)
    | WithdrawPath | CloseWithdrawn | ReleaseOpeningAndId
  datatype Disconnecting = Begin(id: Id) | RemovePathOf | CloseHandle(ok: bool) | Peek | Finish
  datatype Event =
    | RemoteDone(c: Call) | Watch(id: Id, c: Call) | RemovePath(id: Id, c: Call)
    | ExpireStream(id: Id, c: Call) | ExpirePath(id: Id) | Shutdown | CloseDoomed(c: Call)

  function At(connects: map<Call, Phase>, c: Call): Phase { if c in connects then connects[c] else Finished }

  function LeavingAt(disconnects: map<nat, Leaving>, d: nat): Leaving
  {
    if d in disconnects then disconnects[d] else Left
  }

  function Go(s: Service, c: Call, p: Phase): Service { s.(connects := s.connects[c := p]) }

  function CallClose(handles: map<Call, Handle>, c: Call): map<Call, Handle>
  {
    if c in handles then handles[c := handles[c].(closeCalled := true)] else handles
  }

  /** Slots and IDs. */
  function EnterStep(s: Service, c: Call, a: Entering): Service
  {
    match a
    case ReserveOpening =>
      if c in s.connects || !HasRoom(s.table) then s
      else Go(s.(table := s.table.(opening := s.table.opening + 1)), c, HasSlot)
    case ReserveId(id) =>
      if !At(s.connects, c).HasSlot? then s
      else if s.table.closed then Go(s, c, ReleasingSlot)
      else if !IsFree(s.table, id) then s
      else Go(s.(table := Reserve(s.table, id)), c, HasId(id))
    case GiveUpId => if At(s.connects, c).HasSlot? then Go(s, c, ReleasingSlot) else s
    case ReleaseOpening =>
      if At(s.connects, c).ReleasingSlot? then Go(s.(table := FreeSlot(s.table)), c, Finished) else s
  }

  /** The backend call, the checks after it, and the path entry. */
  function OpenStep(s: Service, c: Call, a: Opening): Service
  {
    var p := At(s.connects, c);
    match a
    case OpenFails => if p.HasId? then Go(s, c, Releasing(p.id)) else s
    case OpenInvalid =>
      if p.HasId? then Go(s.(handles := s.handles[c := Handle(true, false, false)]), c, Releasing(p.id)) else s
    case OpenOk(observable) =>
      if p.HasId? then Go(s.(handles := s.handles[c := Handle(false, false, observable)]), c, Opened(p.id)) else s
    case Abort => if p.Opened? then Go(s.(handles := CallClose(s.handles, c)), c, Releasing(p.id)) else s
    case SetPath(ok) =>
      if !p.Opened? then s
      else if ok then Go(s.(paths := s.paths + {p.id}), c, Pathed(p.id))
      else Go(s.(handles := CallClose(s.handles, c)), c, Releasing(p.id))
  }

  predicate IsObservable(s: Service, c: Call) { c in s.handles && s.handles[c].observable }

  /** observableHandleDoneClosed */
  predicate DoneClosed(s: Service, c: Call) { IsObservable(s, c) && s.handles[c].done }

  /** Publication, or giving everything back. */
  function SettleStep(s: Service, c: Call, a: Settling): Service
  {
    var p := At(s.connects, c);
    match a
    case PublishEntry(streamable, victims) =>
      if !p.Pathed? || !Prunes(s.table.streams, Limit(s.table.max), victims) then s
      else
        var s' := s.(table := Publish(s.table, p.id, c, streamable, victims));
        if s.table.closed then Go(s', c, Withdrawing(p.id))
        else Go(if IsObservable(s, c) then s'.(watching := s.watching + {(p.id, c)}) else s', c, Finished)
    case WithdrawPath =>
      if p.Withdrawing? then Go(s.(paths := s.paths - {p.id}), c, ClosingHandle) else s
    case CloseWithdrawn => if p.ClosingHandle? then Go(s.(handles := CallClose(s.handles, c)), c, Finished) else s
    case ReleaseOpeningAndId => if p.Releasing? then Go(s.(table := FreeSlotAndId(s.table, p.id)), c, Finished) else s
  }

  function DisconnectStep(s: Service, d: nat, a: Disconnecting): Service
  {
    var l := LeavingAt(s.disconnects, d);
    match a
    case Begin(id) =>
      if d in s.disconnects || !CanLeave(s.table, id) then s
      else
        s.(table := MarkClosing(s.table, id),
           disconnects := s.disconnects[d := RemovesPath(id, s.table.active[id].token)])
    case RemovePathOf =>
      if l.RemovesPath?
      then s.(paths := s.paths - {l.id}, disconnects := s.disconnects[d := ClosesHandle(l.id, l.token)]) else s
    case CloseHandle(ok) =>
      if l.ClosesHandle?
      then
        s.(handles := CallClose(s.handles, l.token),
           disconnects := s.disconnects[d := if ok then Settles(l.id, l.token, true, false) else Peeks(l.id, l.token)])
      else s
    case Peek =>
      if l.Peeks?
      then s.(disconnects := s.disconnects[d := Settles(l.id, l.token, false, DoneClosed(s, l.token))]) else s
    case Finish =>
      if !l.Settles? then s
      else
        s.(table := if l.ok then Drop(s.table, l.id, l.token) else Retry(s.table, l.id, l.token, l.sawDone),
           disconnects := s.disconnects[d := Left])
  }

  function EventStep(s: Service, e: Event): Service
  {
    match e
    case RemoteDone(c) =>
      if c in s.handles then s.(handles := s.handles[c := s.handles[c].(done := true)]) else s
    case Watch(id, c) =>
      if (id, c) !in s.watching || !DoneClosed(s, c) then s
      else
        s.(table := RemoteClose(s.table, id, c), watching := s.watching - {(id, c)},
           removing := if EndsRemotely(s.table, id, c) then s.removing + {(id, c)} else s.removing)
    case RemovePath(id, c) =>
      if (id, c) in s.removing then s.(paths := s.paths - {id}, removing := s.removing - {(id, c)}) else s
    case ExpireStream(id, c) => s.(table := Expire(s.table, id, c))
    case ExpirePath(id) => s.(paths := s.paths - {id})
    case Shutdown =>
      if s.table.closed then s
      else
        s.(table := ShutDown(s.table),
           removing := s.removing + (set id | id in s.table.active :: (id, s.table.active[id].token)),
           doomed := s.doomed + (set id | id in s.table.active :: s.table.active[id].token))
    case CloseDoomed(c) =>
      if c in s.doomed then s.(handles := CallClose(s.handles, c), doomed := s.doomed - {c}) else s
  }

  function Do(s: Service, a: Action): Service
  {
    match a
    case Enter(c, enter) => EnterStep(s, c, enter)
    case Open(c, opening) => OpenStep(s, c, opening)
    case Settle(c, settle) => SettleStep(s, c, settle)
    case Disconnect(d, leave) => DisconnectStep(s, d, leave)
    case Environment(e) => EventStep(s, e)
  }

  function Run(s: Service, schedule: seq<Action>): Service { Machine.Run(Do, s, schedule) }

  function NewService(max: nat): Service
  {
    Service(Table(max, 0, map[], map[], {}, false), {}, map[], map[], map[], {}, {}, {})
  }

  // ----- slots: the limit -----

  predicate HoldsSlot(p: Phase)
  {
    p.HasSlot? || p.HasId? || p.Opened? || p.Pathed? || p.Releasing? || p.ReleasingSlot?
  }

  function Slots(connects: map<Call, Phase>): set<Call> { set c | c in connects && HoldsSlot(connects[c]) }

  predicate SlotsOk(t: Table, connects: map<Call, Phase>)
  {
    t.opening == |Slots(connects)| && |t.active| + t.opening <= t.max
  }

  lemma MoveSlots(connects: map<Call, Phase>, c: Call, p: Phase)
    ensures |Slots(connects[c := p])| ==
      |Slots(connects)| + (if HoldsSlot(p) then 1 else 0) - (if HoldsSlot(At(connects, c)) then 1 else 0)
  {
    var h := Slots(connects);
    assert Slots(connects[c := p]) == if HoldsSlot(p) then h + {c} else h - {c};
    assert c in h <==> HoldsSlot(At(connects, c));
    Sets.WithOne(h, c);
  }

  lemma EnterSlots(s: Service, c: Call, a: Entering)
    requires SlotsOk(s.table, s.connects)
    ensures var s' := EnterStep(s, c, a); SlotsOk(s'.table, s'.connects) && s'.table.max == s.table.max
  {
    var s' := EnterStep(s, c, a);
    MoveSlots(s.connects, c, At(s'.connects, c));
  }

  lemma OpenSlots(s: Service, c: Call, a: Opening)
    requires SlotsOk(s.table, s.connects)
    ensures var s' := OpenStep(s, c, a); SlotsOk(s'.table, s'.connects) && s'.table.max == s.table.max
  {
    var s' := OpenStep(s, c, a);
    MoveSlots(s.connects, c, At(s'.connects, c));
  }

  lemma SettleSlots(s: Service, c: Call, a: Settling)
    requires SlotsOk(s.table, s.connects)
    ensures var s' := SettleStep(s, c, a); SlotsOk(s'.table, s'.connects) && s'.table.max == s.table.max
  {
    var s' := SettleStep(s, c, a);
    MoveSlots(s.connects, c, At(s'.connects, c));
  }

  // ----- what Disconnect, remote close, expiry and shutdown leave alone -----

  predicate Shrinks(t: Table, t': Table)
  {
    && t'.max == t.max && t'.opening == t.opening && t'.reserved == t.reserved
    && t'.active.Keys <= t.active.Keys && t'.streams.Keys <= t.streams.Keys
    && (t'.closed ==> t.closed || (t'.active == map[] && t'.streams == map[]))
  }

  lemma DisconnectShrinks(s: Service, d: nat, a: Disconnecting)
    ensures var s' := DisconnectStep(s, d, a); Shrinks(s.table, s'.table) && s'.connects == s.connects
  {
  }

  lemma RemoteShrinks(t: Table, id: Id, token: Call)
    ensures Shrinks(t, RemoteClose(t, id, token)) && Shrinks(t, Expire(t, id, token)) && Shrinks(t, ShutDown(t))
  {
  }

  lemma EventShrinks(s: Service, e: Event)
    ensures var s' := EventStep(s, e); Shrinks(s.table, s'.table) && s'.connects == s.connects
  {
    match e
    case Watch(id, c) => RemoteShrinks(s.table, id, c);
    case ExpireStream(id, c) => RemoteShrinks(s.table, id, c);
    case Shutdown => RemoteShrinks(s.table, 0, 0);
    case _ => assert EventStep(s, e).table == s.table;
  }

  lemma SlotsKeep(s: Service, a: Action)
    requires SlotsOk(s.table, s.connects)
    ensures var s' := Do(s, a); SlotsOk(s'.table, s'.connects) && s'.table.max == s.table.max
  {
    match a
    case Enter(c, enter) => EnterSlots(s, c, enter);
    case Open(c, opening) => OpenSlots(s, c, opening);
    case Settle(c, settle) => SettleSlots(s, c, settle);
    case Disconnect(d, leave) =>
      DisconnectShrinks(s, d, leave);
      Sets.SubsetSize(Do(s, a).table.active.Keys, s.table.active.Keys);
    case Environment(e) =>
      EventShrinks(s, e);
      Sets.SubsetSize(Do(s, a).table.active.Keys, s.table.active.Keys);
  }

  // ----- reserved IDs -----

  predicate HoldsId(p: Phase) { p.HasId? || p.Opened? || p.Pathed? || p.Releasing? }

  predicate Reserves(connects: map<Call, Phase>, c: Call, id: Id)
  {
    c in connects && HoldsId(connects[c]) && connects[c].id == id
  }

  /** The reserved IDs are exactly those of the calls that hold one, and no two calls share one. */
  ghost predicate Held(reserved: set<Id>, connects: map<Call, Phase>)
  {
    && (forall c, id :: Reserves(connects, c, id) ==> id in reserved)
    && (forall id :: id in reserved ==> exists c :: Reserves(connects, c, id))
    && (forall b, c, id :: Reserves(connects, b, id) && Reserves(connects, c, id) ==> b == c)
  }

  predicate Apart(t: Table)
  {
    && t.reserved !! t.active.Keys && t.reserved !! t.streams.Keys
    && (t.closed ==> t.active == map[] && t.streams == map[])
  }

  /** How the reserved IDs change when one call moves from `p` to `q`. */
  predicate Follows(reserved: set<Id>, p: Phase, q: Phase, reserved': set<Id>)
  {
    if HoldsId(p) then
      if HoldsId(q) then p.id == q.id && reserved' == reserved else reserved' == reserved - {p.id}
    else
      if HoldsId(q) then q.id !in reserved && reserved' == reserved + {q.id} else reserved' == reserved
  }

  lemma MoveHeld(reserved: set<Id>, connects: map<Call, Phase>, c: Call, q: Phase, reserved': set<Id>)
    requires Held(reserved, connects) && Follows(reserved, At(connects, c), q, reserved')
    ensures Held(reserved', connects[c := q])
  {
    var connects' := connects[c := q];
    var p := At(connects, c);
    assert forall b, id :: b != c ==> Reserves(connects', b, id) == Reserves(connects, b, id);
    assert forall id :: Reserves(connects', c, id) <==> HoldsId(q) && q.id == id;
    assert forall id :: Reserves(connects, c, id) <==> HoldsId(p) && p.id == id;
    if HoldsId(p) {
      assert Reserves(connects, c, p.id);
    }
    forall id | id in reserved' ensures exists b :: Reserves(connects', b, id) {
      if id in reserved {
        var b :| Reserves(connects, b, id);
        assert Reserves(connects', b, id);
      } else {
        assert Reserves(connects', c, id);
      }
    }
  }

  /** A Connect step is a move of its call that the reserved IDs follow. */
  predicate Moves(s: Service, s': Service, c: Call)
  {
    s' == s || (
      && s'.connects == s.connects[c := At(s'.connects, c)]
      && Follows(s.table.reserved, At(s.connects, c), At(s'.connects, c), s'.table.reserved)
      && Apart(s'.table))
  }

  lemma EnterMoves(s: Service, c: Call, a: Entering)
    requires Apart(s.table)
    ensures Moves(s, EnterStep(s, c, a), c)
  {
  }

  lemma OpenMoves(s: Service, c: Call, a: Opening)
    requires Apart(s.table)
    ensures Moves(s, OpenStep(s, c, a), c)
  {
  }

  lemma SettleMoves(s: Service, c: Call, a: Settling)
    requires Apart(s.table)
    ensures Moves(s, SettleStep(s, c, a), c)
  {
  }

  lemma IdsKeep(s: Service, a: Action)
    requires Held(s.table.reserved, s.connects) && Apart(s.table)
    ensures var s' := Do(s, a); Held(s'.table.reserved, s'.connects) && Apart(s'.table)
  {
    var s' := Do(s, a);
    match a
    case Enter(c, enter) =>
      EnterMoves(s, c, enter);
      MovesKeep(s, s', c);
    case Open(c, opening) =>
      OpenMoves(s, c, opening);
      MovesKeep(s, s', c);
    case Settle(c, settle) =>
      SettleMoves(s, c, settle);
      MovesKeep(s, s', c);
    case Disconnect(d, leave) => DisconnectShrinks(s, d, leave);
    case Environment(e) => EventShrinks(s, e);
  }

  lemma MovesKeep(s: Service, s': Service, c: Call)
    requires Held(s.table.reserved, s.connects) && Apart(s.table) && Moves(s, s', c)
    ensures Held(s'.table.reserved, s'.connects) && Apart(s'.table)
  {
    if s' != s {
      MoveHeld(s.table.reserved, s.connects, c, At(s'.connects, c), s'.table.reserved);
    }
  }

  // ----- retained streams -----

  /** An open retained stream belongs to an active connection of the same generation. */
  predicate OpenAreActive(t: Table)
  {
    forall id :: id in t.streams && !t.streams[id].closed ==> Holds(t, id, t.streams[id].token)
  }

  predicate StreamsOk(t: Table) { OpenAreActive(t) && |t.streams| <= Limit(t.max) }

  /** Pruning always makes room: what it cannot delete is active, and a slot was taken before. */
  lemma PruneMakesRoom(t: Table, victims: set<Id>)
    requires OpenAreActive(t) && |t.active| < t.max && Prunes(t.streams, Limit(t.max), victims)
    ensures |t.streams - victims| < Limit(t.max)
  {
    var left := t.streams - victims;
    Remaining(t.streams, victims);
    if victims == ClosedIds(t.streams) {
      assert left.Keys <= t.active.Keys;
      Sets.SubsetSize(left.Keys, t.active.Keys);
    }
  }

  lemma Remaining(streams: map<Id, Retained>, victims: set<Id>)
    requires victims <= streams.Keys
    ensures |streams - victims| == |streams| - |victims|
  {
    assert (streams - victims).Keys == streams.Keys - victims;
    assert (streams.Keys - victims) + victims == streams.Keys;
  }

  lemma PublishStreams(t: Table, id: Id, token: Call, streamable: bool, victims: set<Id>)
    requires StreamsOk(t) && Apart(t) && id in t.reserved && |t.active| < t.max
    requires Prunes(t.streams, Limit(t.max), victims)
    ensures StreamsOk(Publish(t, id, token, streamable, victims))
  {
    var t' := Publish(t, id, token, streamable, victims);
    if !t.closed {
      assert id !in t.streams && id !in t.active;
      forall k | k in t'.streams && !t'.streams[k].closed ensures Holds(t', k, t'.streams[k].token) {
        assert k != id ==> Holds(t, k, t.streams[k].token);
      }
      if streamable {
        PruneMakesRoom(t, victims);
        AddOne(t.streams - victims, id, Retained(token, false));
      }
    }
  }

  lemma AddOne(streams: map<Id, Retained>, id: Id, r: Retained)
    ensures |streams[id := r]| <= |streams| + 1
  {
    assert streams[id := r].Keys == streams.Keys + {id};
  }

  lemma LeaveStreams(t: Table, id: Id, token: Call, doneClosed: bool)
    requires StreamsOk(t)
    ensures CanLeave(t, id) ==> StreamsOk(MarkClosing(t, id))
    ensures StreamsOk(Drop(t, id, token))
    ensures StreamsOk(Retry(t, id, token, doneClosed))
  {
  }

  lemma RemoteStreams(t: Table, id: Id, token: Call)
    requires StreamsOk(t)
    ensures StreamsOk(RemoteClose(t, id, token)) && StreamsOk(Expire(t, id, token)) && StreamsOk(ShutDown(t))
  {
  }

  lemma StreamsKeep(s: Service, a: Action)
    requires SlotsOk(s.table, s.connects) && Held(s.table.reserved, s.connects) && Apart(s.table) && StreamsOk(s.table)
    ensures StreamsOk(Do(s, a).table)
  {
    match a
    case Enter(c, enter) => EnterStreams(s, c, enter);
    case Open(c, opening) => assert OpenStep(s, c, opening).table == s.table;
    case Settle(c, settle) => SettleStreams(s, c, settle);
    case Disconnect(d, leave) => DisconnectStreams(s, d, leave);
    case Environment(e) => EventStreams(s, e);
  }

  lemma EnterStreams(s: Service, c: Call, a: Entering)
    requires StreamsOk(s.table)
    ensures StreamsOk(EnterStep(s, c, a).table)
  {
    var t' := EnterStep(s, c, a).table;
    assert t'.active == s.table.active && t'.streams == s.table.streams && t'.max == s.table.max;
  }

  lemma DisconnectStreams(s: Service, d: nat, a: Disconnecting)
    requires StreamsOk(s.table)
    ensures StreamsOk(DisconnectStep(s, d, a).table)
  {
    var l := LeavingAt(s.disconnects, d);
    if a.Begin? {
      LeaveStreams(s.table, a.id, 0, false);
    } else if l.Settles? {
      LeaveStreams(s.table, l.id, l.token, l.sawDone);
    }
  }

  lemma EventStreams(s: Service, e: Event)
    requires StreamsOk(s.table)
    ensures StreamsOk(EventStep(s, e).table)
  {
    match e
    case Watch(id, c) => RemoteStreams(s.table, id, c);
    case ExpireStream(id, c) => RemoteStreams(s.table, id, c);
    case Shutdown => RemoteStreams(s.table, 0, 0);
    case _ => assert EventStep(s, e).table == s.table;
  }

  lemma SettleStreams(s: Service, c: Call, a: Settling)
    requires SlotsOk(s.table, s.connects) && Held(s.table.reserved, s.connects) && Apart(s.table) && StreamsOk(s.table)
    ensures StreamsOk(SettleStep(s, c, a).table)
  {
    var p := At(s.connects, c);
    if a.PublishEntry? && p.Pathed? && Prunes(s.table.streams, Limit(s.table.max), a.victims) {
      assert Reserves(s.connects, c, p.id);
      assert c in Slots(s.connects);
      PublishStreams(s.table, p.id, c, a.streamable, a.victims);
    } else {
      assert SettleStep(s, c, a).table.active == s.table.active && SettleStep(s, c, a).table.streams == s.table.streams;
    }
  }

  // ----- handles -----

  predicate InHand(p: Phase) { p.Opened? || p.Pathed? || p.Withdrawing? || p.ClosingHandle? }

  predicate BeforeHandle(p: Phase) { p.HasSlot? || p.HasId? || p.ReleasingSlot? }

  /** A handle is owned by an unfinished Connect, active, about to be closed, closed or ended. */
  ghost predicate Accounted(s: Service, c: Call)
    requires c in s.handles
  {
    || s.handles[c].closeCalled || s.handles[c].done
    || InHand(At(s.connects, c))
    || c in s.doomed
    || exists id :: Holds(s.table, id, c)
  }

  ghost predicate NoneLost(s: Service) { forall c :: c in s.handles ==> Accounted(s, c) }

  /** Every reference to a handle is to one that exists. */
  predicate Known(s: Service)
  {
    && (forall c :: c in s.connects && InHand(s.connects[c]) ==> c in s.handles)
    && (forall c :: c in s.handles ==> c in s.connects && !BeforeHandle(s.connects[c]))
    && (forall id :: id in s.table.active ==> s.table.active[id].token in s.handles)
    && s.doomed <= s.handles.Keys
  }

  /** A Disconnect closes the handle before it settles. */
  predicate ClosedFirst(s: Service)
  {
    && (forall d :: d in s.disconnects && !s.disconnects[d].Left? ==> s.disconnects[d].token in s.handles)
    && (forall d :: d in s.disconnects && (s.disconnects[d].Peeks? || s.disconnects[d].Settles?) ==>
          s.handles[s.disconnects[d].token].closeCalled)
  }

  ghost predicate HandlesOk(s: Service) { Known(s) && ClosedFirst(s) && NoneLost(s) }

  lemma EnterHandles(s: Service, c: Call, a: Entering)
    requires HandlesOk(s)
    ensures HandlesOk(EnterStep(s, c, a))
  {
    var s' := EnterStep(s, c, a);
    if s' != s {
      BeforeOpening(s, s', c);
    }
  }

  lemma BeforeOpening(s: Service, s': Service, c: Call)
    requires HandlesOk(s) && c !in s.handles
    requires s'.table.active == s.table.active && s'.handles == s.handles && s'.doomed == s.doomed
    requires s'.disconnects == s.disconnects
    requires s'.connects == s.connects[c := At(s'.connects, c)] && !InHand(At(s'.connects, c))
    ensures HandlesOk(s')
  {
    forall b | b in s'.handles ensures Accounted(s', b) {
      assert Accounted(s, b);
      if id :| Holds(s.table, id, b) {
        assert Holds(s'.table, id, b);
      }
    }
  }

  lemma OpenKnown(s: Service, c: Call, a: Opening)
    requires Known(s) && ClosedFirst(s)
    ensures Known(OpenStep(s, c, a)) && ClosedFirst(OpenStep(s, c, a))
  {
  }

  lemma OpenHandles(s: Service, c: Call, a: Opening)
    requires HandlesOk(s)
    ensures HandlesOk(OpenStep(s, c, a))
  {
    var s' := OpenStep(s, c, a);
    OpenKnown(s, c, a);
    assert s'.table == s.table && s'.doomed == s.doomed;
    forall b | b in s'.handles ensures Accounted(s', b) {
      if b in s.handles {
        assert Accounted(s, b);
      }
    }
  }

  lemma PublishKnown(s: Service, c: Call, a: Settling)
    requires Known(s) && ClosedFirst(s) && a.PublishEntry? && At(s.connects, c).Pathed?
    ensures Known(SettleStep(s, c, a)) && ClosedFirst(SettleStep(s, c, a))
  {
  }

  lemma PublishHandles(s: Service, c: Call, a: Settling)
    requires HandlesOk(s) && Held(s.table.reserved, s.connects) && Apart(s.table)
    requires a.PublishEntry? && At(s.connects, c).Pathed?
    ensures HandlesOk(SettleStep(s, c, a))
  {
    var s' := SettleStep(s, c, a);
    var mine := At(s.connects, c).id;
    PublishKnown(s, c, a);
    assert mine !in s.table.active by {
      assert Reserves(s.connects, c, mine);
    }
    forall b | b in s'.handles ensures Accounted(s', b) {
      assert Accounted(s, b);
      if id :| Holds(s.table, id, b) {
        assert Holds(s'.table, id, b);
      } else if b == c {
        assert s' == s || s.table.closed || Holds(s'.table, mine, c);
      }
    }
  }

  lemma SettleHandles(s: Service, c: Call, a: Settling)
    requires HandlesOk(s) && Held(s.table.reserved, s.connects) && Apart(s.table)
    ensures HandlesOk(SettleStep(s, c, a))
  {
    if a.PublishEntry? && At(s.connects, c).Pathed? {
      PublishHandles(s, c, a);
    } else {
      var s' := SettleStep(s, c, a);
      assert s'.table.active == s.table.active;
      forall b | b in s'.handles ensures Accounted(s', b) {
        assert Accounted(s, b);
        if id :| Holds(s.table, id, b) {
          assert Holds(s'.table, id, b);
        }
      }
    }
  }

  lemma DisconnectHandles(s: Service, d: nat, a: Disconnecting)
    requires HandlesOk(s)
    ensures HandlesOk(DisconnectStep(s, d, a))
  {
    var s' := DisconnectStep(s, d, a);
    forall b | b in s'.handles ensures Accounted(s', b) {
      assert Accounted(s, b);
      if id :| Holds(s.table, id, b) {
        assert Holds(s'.table, id, b) || s.handles[b].closeCalled;
      }
    }
  }

  lemma EventHandles(s: Service, e: Event)
    requires HandlesOk(s)
    ensures HandlesOk(EventStep(s, e))
  {
    var s' := EventStep(s, e);
    forall b | b in s'.handles ensures Accounted(s', b) {
      assert Accounted(s, b);
      if id :| Holds(s.table, id, b) {
        assert Holds(s'.table, id, b) || s.handles[b].done || b in s'.doomed;
      }
    }
  }

  lemma HandlesKeep(s: Service, a: Action)
    requires HandlesOk(s) && Held(s.table.reserved, s.connects) && Apart(s.table)
    ensures HandlesOk(Do(s, a))
  {
    match a
    case Enter(c, enter) => EnterHandles(s, c, enter);
    case Open(c, opening) => OpenHandles(s, c, opening);
    case Settle(c, settle) => SettleHandles(s, c, settle);
    case Disconnect(d, leave) => DisconnectHandles(s, d, leave);
    case Environment(e) => EventHandles(s, e);
  }

  // ----- path entries -----

  predicate Shows(connects: map<Call, Phase>, c: Call, id: Id)
  {
    c in connects && (connects[c].Pathed? || connects[c].Withdrawing?) && connects[c].id == id
  }

  /** A path entry belongs to an active connection or to someone who will still remove it. */
  ghost predicate Owned(s: Service, id: Id)
  {
    || id in s.table.active
    || (exists c :: Shows(s.connects, c, id))
    || (exists c :: (id, c) in s.removing)
  }

  predicate PathGone(s: Service, l: Leaving)
  {
    (l.ClosesHandle? || l.Peeks? || l.Settles?) && Holds(s.table, l.id, l.token) ==> l.id !in s.paths
  }

  ghost predicate PathsOk(s: Service)
  {
    && (forall id :: id in s.paths ==> Owned(s, id))
    && (forall d :: d in s.disconnects ==> PathGone(s, s.disconnects[d]))
  }

  lemma EnterPaths(s: Service, c: Call, a: Entering)
    requires PathsOk(s)
    ensures PathsOk(EnterStep(s, c, a))
  {
    var s' := EnterStep(s, c, a);
    forall id | id in s'.paths ensures Owned(s', id) {
      assert Owned(s, id);
      if b :| Shows(s.connects, b, id) {
        assert Shows(s'.connects, b, id);
      }
    }
    forall d | d in s'.disconnects ensures PathGone(s', s'.disconnects[d]) {
      assert PathGone(s, s.disconnects[d]);
    }
  }

  lemma OpenPaths(s: Service, c: Call, a: Opening)
    requires PathsOk(s) && Held(s.table.reserved, s.connects) && Apart(s.table)
    ensures PathsOk(OpenStep(s, c, a))
  {
    var s' := OpenStep(s, c, a);
    forall id | id in s'.paths ensures Owned(s', id) {
      if id in s.paths {
        assert Owned(s, id);
        if b :| Shows(s.connects, b, id) {
          assert Shows(s'.connects, b, id);
        }
      } else {
        assert Shows(s'.connects, c, id);
      }
    }
    forall d | d in s'.disconnects ensures PathGone(s', s'.disconnects[d]) {
      assert PathGone(s, s.disconnects[d]);
      if At(s.connects, c).Opened? {
        assert Reserves(s.connects, c, At(s.connects, c).id);
      }
    }
  }

  // A token is used for one entry: only finished Connect calls are active or being disconnected.

  predicate IsFinished(connects: map<Call, Phase>, c: Call) { c in connects && connects[c].Finished? }

  predicate Published(s: Service)
  {
    && (forall id :: id in s.table.active ==> IsFinished(s.connects, s.table.active[id].token))
    && (forall d :: d in s.disconnects && !s.disconnects[d].Left? ==> IsFinished(s.connects, s.disconnects[d].token))
  }

  lemma PublishedKeeps(s: Service, a: Action)
    requires Published(s)
    ensures Published(Do(s, a))
  {
    match a
    case Enter(c, enter) => EnterPublished(s, c, enter);
    case Open(c, opening) => OpenPublished(s, c, opening);
    case Settle(c, settle) => SettlePublished(s, c, settle);
    case Disconnect(d, leave) => DisconnectPublished(s, d, leave);
    case Environment(e) => EventPublished(s, e);
  }

  lemma EnterPublished(s: Service, c: Call, a: Entering)
    requires Published(s)
    ensures Published(EnterStep(s, c, a))
  {
  }

  lemma OpenPublished(s: Service, c: Call, a: Opening)
    requires Published(s)
    ensures Published(OpenStep(s, c, a))
  {
  }

  lemma SettlePublished(s: Service, c: Call, a: Settling)
    requires Published(s)
    ensures Published(SettleStep(s, c, a))
  {
  }

  lemma DisconnectPublished(s: Service, d: nat, a: Disconnecting)
    requires Published(s)
    ensures Published(DisconnectStep(s, d, a))
  {
  }

  lemma EventPublished(s: Service, e: Event)
    requires Published(s)
    ensures Published(EventStep(s, e))
  {
  }

  lemma PublishOwned(s: Service, c: Call, a: Settling, id: Id)
    requires Owned(s, id) && a.PublishEntry? && At(s.connects, c).Pathed?
    ensures Owned(SettleStep(s, c, a), id)
  {
    var s' := SettleStep(s, c, a);
    if b :| Shows(s.connects, b, id) {
      assert Shows(s'.connects, b, id) || id in s'.table.active;
    }
  }

  lemma PublishGone(s: Service, c: Call, a: Settling, l: Leaving)
    requires PathGone(s, l) && a.PublishEntry? && At(s.connects, c).Pathed? && (l.Left? || l.token != c)
    ensures PathGone(SettleStep(s, c, a), l)
  {
  }

  lemma PublishPaths(s: Service, c: Call, a: Settling)
    requires PathsOk(s) && Published(s) && a.PublishEntry? && At(s.connects, c).Pathed?
    ensures PathsOk(SettleStep(s, c, a))
  {
    var s' := SettleStep(s, c, a);
    assert s'.paths == s.paths && s'.disconnects == s.disconnects;
    forall id | id in s'.paths ensures Owned(s', id) {
      PublishOwned(s, c, a, id);
    }
    forall d | d in s'.disconnects ensures PathGone(s', s'.disconnects[d]) {
      PublishGone(s, c, a, s.disconnects[d]);
    }
  }

  lemma SettlePaths(s: Service, c: Call, a: Settling)
    requires PathsOk(s) && Published(s)
    ensures PathsOk(SettleStep(s, c, a))
  {
    if a.PublishEntry? && At(s.connects, c).Pathed? {
      PublishPaths(s, c, a);
    } else {
      var s' := SettleStep(s, c, a);
      assert s'.table.active == s.table.active;
      forall id | id in s'.paths ensures Owned(s', id) {
        assert Owned(s, id);
        if b :| Shows(s.connects, b, id) {
          assert Shows(s'.connects, b, id);
        }
      }
      forall d | d in s'.disconnects ensures PathGone(s', s'.disconnects[d]) {
        assert PathGone(s, s.disconnects[d]);
      }
    }
  }

  lemma DisconnectPaths(s: Service, d: nat, a: Disconnecting)
    requires PathsOk(s)
    ensures PathsOk(DisconnectStep(s, d, a))
  {
    var s' := DisconnectStep(s, d, a);
    forall id | id in s'.paths ensures Owned(s', id) {
      assert Owned(s, id);
    }
    forall e | e in s'.disconnects ensures PathGone(s', s'.disconnects[e]) {
      if e in s.disconnects {
        assert PathGone(s, s.disconnects[e]);
      }
    }
  }

  lemma EventPaths(s: Service, e: Event)
    requires PathsOk(s)
    ensures PathsOk(EventStep(s, e))
  {
    var s' := EventStep(s, e);
    forall id | id in s'.paths ensures Owned(s', id) {
      assert Owned(s, id);
      if c :| (id, c) in s.removing {
        assert (id, c) in s'.removing;
      } else if id in s.table.active {
        assert id in s'.table.active || (id, s.table.active[id].token) in s'.removing;
      }
    }
    forall d | d in s'.disconnects ensures PathGone(s', s'.disconnects[d]) {
      assert PathGone(s, s.disconnects[d]);
    }
  }

  lemma PathsKeep(s: Service, a: Action)
    requires PathsOk(s) && Published(s) && Held(s.table.reserved, s.connects) && Apart(s.table)
    ensures PathsOk(Do(s, a))
  {
    match a
    case Enter(c, enter) => EnterPaths(s, c, enter);
    case Open(c, opening) => OpenPaths(s, c, opening);
    case Settle(c, settle) => SettlePaths(s, c, settle);
    case Disconnect(d, leave) => DisconnectPaths(s, d, leave);
    case Environment(e) => EventPaths(s, e);
  }

  // ----- every run -----

  ghost predicate Inv(s: Service)
  {
    && SlotsOk(s.table, s.connects) && Held(s.table.reserved, s.connects) && Apart(s.table)
    && StreamsOk(s.table) && HandlesOk(s) && Published(s) && PathsOk(s)
  }

  lemma DoKeeps(s: Service, a: Action)
    requires Inv(s)
    ensures Inv(Do(s, a)) && Do(s, a).table.max == s.table.max
  {
    SlotsKeep(s, a);
    IdsKeep(s, a);
    StreamsKeep(s, a);
    HandlesKeep(s, a);
    PublishedKeeps(s, a);
    PathsKeep(s, a);
  }

  lemma {:induction false} RunKeeps(s: Service, schedule: seq<Action>)
    requires Inv(s)
    ensures Inv(Run(s, schedule)) && Run(s, schedule).table.max == s.table.max
    decreases |schedule|
  {
    if schedule != [] {
      DoKeeps(s, schedule[0]);
      RunKeeps(Do(s, schedule[0]), schedule[1..]);
    }
  }

  lemma NewHolds(max: nat)
    ensures Inv(NewService(max))
  {
    var s := NewService(max);
    assert Slots(s.connects) == {};
  }

  /** However Connect, Disconnect, remote close and shutdown interleave, established and opening
      connections together stay within the limit, the counter is exact, and retained streams are
      bounded. */
  lemma LimitIsKept(max: nat, schedule: seq<Action>)
    ensures var s := Run(NewService(max), schedule);
      && |s.table.active| + |Slots(s.connects)| <= max
      && s.table.opening == |Slots(s.connects)|
      && |s.table.streams| <= Limit(max)
  {
    NewHolds(max);
    RunKeeps(NewService(max), schedule);
  }

  /** A reserved ID has exactly one holder and collides with no active or retained connection. */
  lemma IdsAreExclusive(max: nat, schedule: seq<Action>, b: Call, c: Call, id: Id)
    ensures var s := Run(NewService(max), schedule);
      && (Reserves(s.connects, b, id) && Reserves(s.connects, c, id) ==> b == c)
      && (Reserves(s.connects, c, id) ==> id !in s.table.active && id !in s.table.streams)
      && (id in s.table.reserved <==> exists d :: Reserves(s.connects, d, id))
  {
    NewHolds(max);
    RunKeeps(NewService(max), schedule);
  }

  /** No opened handle is dropped on the floor. */
  lemma NoHandleIsLost(max: nat, schedule: seq<Action>, c: Call)
    ensures var s := Run(NewService(max), schedule); c in s.handles ==> Accounted(s, c)
  {
    NewHolds(max);
    RunKeeps(NewService(max), schedule);
  }

  /** Nothing is in progress. */
  predicate Quiet(s: Service)
  {
    && (forall c :: c in s.connects ==> s.connects[c].Finished?)
    && s.removing == {} && s.doomed == {}
  }

  /** After shutdown, once the calls in flight have returned, no path entry and no live handle is
      left and every slot and ID is free. */
  lemma ShutdownIsClean(max: nat, schedule: seq<Action>)
    ensures var s := Run(NewService(max), schedule);
      s.table.closed && Quiet(s) ==>
        && s.paths == {} && s.table.active == map[] && s.table.streams == map[]
        && s.table.opening == 0 && s.table.reserved == {}
        && forall c :: c in s.handles ==> s.handles[c].closeCalled || s.handles[c].done
  {
    NewHolds(max);
    RunKeeps(NewService(max), schedule);
    var s := Run(NewService(max), schedule);
    if s.table.closed && Quiet(s) {
      assert Slots(s.connects) == {};
      assert forall c, id :: !Reserves(s.connects, c, id) && !Shows(s.connects, c, id);
      assert forall id :: id in s.paths ==> Owned(s, id);
      forall c | c in s.handles ensures s.handles[c].closeCalled || s.handles[c].done {
        assert Accounted(s, c);
      }
    }
  }

  // ----- the manager object -----

  lemma StillClosed(streams: map<Id, Retained>, victims: set<Id>)
    ensures ClosedIds(streams - victims) == ClosedIds(streams) - victims
  {
  }

  lemma PruneOne(streams: map<Id, Retained>, victims: set<Id>, id: Id)
    requires victims <= ClosedIds(streams) && id in ClosedIds(streams) - victims
    ensures streams - victims - {id} == streams - (victims + {id})
    ensures |streams - (victims + {id})| == |streams - victims| - 1 == |streams| - |victims + {id}|
  {
    Remaining(streams, victims);
    Remaining(streams, victims + {id});
  }

  predicate NoneFree(t: Table, candidates: seq<Id>, n: nat)
    requires n <= |candidates|
  {
    forall k :: 0 <= k < n ==> !IsFree(t, candidates[k])
  }

  function Min(a: nat, b: nat): nat { if a < b then a else b }

  /** ConnectionService's mutable fields and its critical sections. */
  class Manager {
    const max: nat
    var opening: int
    var active: map<Id, Entry>
    var streams: map<Id, Retained>
    var reserved: set<Id>
    var closed: bool

    ghost function View(): Table
      reads this
    {
      Table(max, opening, active, streams, reserved, closed)
    }

    constructor (max: nat)
      ensures View() == NewService(max).table
    {
      this.max, opening, active, streams, reserved, closed := max, 0, map[], map[], {}, false;
    }

    method ReserveOpening() returns (ok: bool)
      modifies this`opening
      ensures ok == HasRoom(old(View()))
      ensures View() == if ok then old(View()).(opening := old(opening) + 1) else old(View())
    {
      ok := !closed && |active| + opening < max;
      if ok {
        opening := opening + 1;
      }
    }

    /** One attempt of the ID loop; the lock is dropped between attempts. */
    method TryReserveId(id: Id) returns (ok: bool)
      modifies this`reserved
      ensures ok == (!closed && IsFree(old(View()), id))
      ensures View() == if ok then Reserve(old(View()), id) else old(View())
    {
      ok := !closed && id !in active && id !in streams && id !in reserved;
      if ok {
        reserved := reserved + {id};
      }
    }

    /** reserveConnectionID while nobody else takes the lock: the first free ID among the first eight
        candidates, if there is one. */
    method ReserveConnectionId(candidates: seq<Id>) returns (id: Option<Id>)
      modifies this`reserved
      ensures id.None? ==> closed || NoneFree(old(View()), candidates, Min(|candidates|, MAX_ID_ATTEMPTS))
      ensures id.Some? ==>
        !closed && exists k ::
          && 0 <= k < Min(|candidates|, MAX_ID_ATTEMPTS) && NoneFree(old(View()), candidates, k)
          && candidates[k] == id.value && IsFree(old(View()), id.value)
      ensures View() == if id.Some? then Reserve(old(View()), id.value) else old(View())
    {
      id := None;
      for attempt := 0 to Min(|candidates|, MAX_ID_ATTEMPTS)
        invariant id.None? && View() == old(View()) && (closed || NoneFree(View(), candidates, attempt))
      {
        var ok := TryReserveId(candidates[attempt]);
        if ok {
          return Some(candidates[attempt]);
        }
      }
    }

    method ReleaseOpening()
      modifies this`opening
      ensures View() == FreeSlot(old(View()))
    {
      if opening > 0 {
        opening := opening - 1;
      }
    }

    method ReleaseOpeningAndId(id: Id)
      modifies this`opening, this`reserved
      ensures View() == FreeSlotAndId(old(View()), id)
    {
      if opening > 0 {
        opening := opening - 1;
      }
      reserved := reserved - {id};
    }

    /** pruneRetainedStreamsLocked. */
    method PruneRetainedStreams() returns (ghost victims: set<Id>)
      modifies this`streams
      ensures Prunes(old(streams), Limit(max), victims)
      ensures streams == old(streams) - victims
    {
      var limit := Limit(max);
      victims := {};
      while |streams| >= limit
        invariant victims <= ClosedIds(old(streams))
        invariant victims == {} || |streams| + 1 >= limit
        invariant streams == old(streams) - victims
        invariant |streams| == |old(streams)| - |victims|
        decreases |streams|
      {
        var dead := ClosedIds(streams);
        StillClosed(old(streams), victims);
        if dead == {} {
          return;
        }
        var id :| id in dead;
        PruneOne(old(streams), victims, id);
        victims := victims + {id};
        streams := streams - {id};
      }
    }

    /** The publication section of Connect: `published` is false after shutdown. */
    method PublishOpened(id: Id, token: Call, streamable: bool) returns (published: bool, ghost victims: set<Id>)
      modifies this`opening, this`reserved, this`active, this`streams
      ensures published == !closed
      ensures published && streamable ==> Prunes(old(streams), Limit(max), victims)
      ensures View() == Publish(old(View()), id, token, streamable, victims)
    {
      victims := {};
      opening := opening - 1;
      reserved := reserved - {id};
      if closed {
        return false, victims;
      }
      active := active[id := Entry(token, false, false)];
      if streamable {
        victims := PruneRetainedStreams();
        streams := streams[id := Retained(token, false)];
      }
      published := true;
    }

    method BeginDisconnect(id: Id) returns (ok: bool, token: Call)
      modifies this`active
      ensures ok == CanLeave(old(View()), id)
      ensures ok ==> token == old(active)[id].token && View() == MarkClosing(old(View()), id)
      ensures !ok ==> View() == old(View())
    {
      ok, token := id in active && !active[id].closing, 0;
      if ok {
        token := active[id].token;
        active := active[id := active[id].(closing := true)];
      }
    }

    /** The last section of Disconnect, by the outcome of the handle's Close. */
    method SettleDisconnect(id: Id, token: Call, closedOk: bool, doneClosed: bool)
      modifies this`active, this`streams
      ensures View() == if closedOk then Drop(old(View()), id, token) else Retry(old(View()), id, token, doneClosed)
    {
      var mine := id in active && active[id].token == token;
      if closedOk {
        if mine {
          active := active - {id};
        }
        if id in streams && streams[id].token == token {
          streams := streams - {id};
        }
      } else if mine {
        active := active[id := active[id].(closing := false, suppressDone := doneClosed)];
      }
    }

    /** watchRemoteClose after the Done signal: `removed` tells it to remove the path entry. */
    method RemoteClosed(id: Id, token: Call) returns (removed: bool)
      modifies this`active, this`streams
      ensures removed == EndsRemotely(old(View()), id, token)
      ensures View() == RemoteClose(old(View()), id, token)
    {
      removed := false;
      if id in active && active[id].token == token && !active[id].closing {
        if active[id].suppressDone {
          active := active[id := active[id].(suppressDone := false)];
        } else {
          active := active - {id};
          if id in streams && streams[id].token == token {
            streams := streams[id := streams[id].(closed := true)];
          }
          removed := true;
        }
      }
    }

    method ExpireTerminalStream(id: Id, token: Call)
      modifies this`streams
      ensures View() == Expire(old(View()), id, token)
    {
      if id in streams && streams[id].token == token && streams[id].closed {
        streams := streams - {id};
      }
    }

    /** Close: the entries it hands back are the ones it must tear down. */
    method ShutDownAll() returns (entries: map<Id, Entry>)
      modifies this`closed, this`active, this`streams
      ensures old(closed) ==> View() == old(View()) && entries == map[]
      ensures !old(closed) ==> View() == ShutDown(old(View())) && entries == old(active)
    {
      if closed {
        return map[];
      }
      entries := active;
      closed, active, streams := true, map[], map[];
    }
  }
}
