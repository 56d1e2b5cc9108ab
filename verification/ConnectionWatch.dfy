/** When an ended connection gives its slot back: the watcher of an observable handle acts once, and a signal
    that it takes while a Disconnect is in progress, or that a failed Disconnect suppressed, is gone. */
module ConnectionWatch {
  import opened Common
  import opened Connections
  import Machine

  /** An active entry with a Done channel that nobody watches. */
  predicate Unwatched(s: Service, id: Id, c: Call)
  {
    Holds(s.table, id, c) && IsObservable(s, c) && (id, c) !in s.watching
  }

  /** The watcher takes the signal and leaves the entry alone. */
  predicate Swallows(s: Service, a: Action, id: Id, c: Call)
  {
    && a == Environment(Watch(id, c)) && (id, c) in s.watching && DoneClosed(s, c) && Holds(s.table, id, c)
    && (s.table.active[id].closing || s.table.active[id].suppressDone)
  }

  // ----- one step -----

  /** A step of another Connect, or of this one before it was published. */
  predicate Undisturbed(s: Service, s': Service, id: Id, c: Call)
  {
    && (Holds(s.table, id, c) ==> Holds(s'.table, id, c))
    && (IsFinished(s.connects, c) ==>
          && IsFinished(s'.connects, c) && IsObservable(s', c) == IsObservable(s, c)
          && (Holds(s'.table, id, c) ==> Holds(s.table, id, c))
          && ((id, c) in s'.watching <==> (id, c) in s.watching))
    && (!IsFinished(s.connects, c) && Holds(s'.table, id, c) && IsObservable(s', c) ==> (id, c) in s'.watching)
  }

  lemma EnterWatches(s: Service, b: Call, a: Entering, id: Id, c: Call)
    requires Holds(s.table, id, c) ==> IsFinished(s.connects, c)
    ensures Undisturbed(s, EnterStep(s, b, a), id, c)
  {
    var s' := EnterStep(s, b, a);
    assert s'.table.active == s.table.active && s'.watching == s.watching && s'.handles == s.handles;
  }

  lemma OpenWatches(s: Service, b: Call, a: Opening, id: Id, c: Call)
    requires Holds(s.table, id, c) ==> IsFinished(s.connects, c)
    ensures Undisturbed(s, OpenStep(s, b, a), id, c)
  {
    var s' := OpenStep(s, b, a);
    assert s'.table == s.table && s'.watching == s.watching;
  }

  lemma SettleWatches(s: Service, b: Call, a: Settling, id: Id, c: Call)
    requires Holds(s.table, id, c) ==> IsFinished(s.connects, c)
    requires At(s.connects, b).Pathed? ==> At(s.connects, b).id !in s.table.active
    ensures Undisturbed(s, SettleStep(s, b, a), id, c)
  {
    if !a.PublishEntry? {
      var s' := SettleStep(s, b, a);
      assert s'.table.active == s.table.active && s'.watching == s.watching;
      assert IsObservable(s', c) == IsObservable(s, c);
    }
  }

  lemma ConnectWatches(s: Service, a: Action, id: Id, c: Call)
    requires Inv(s) && (a.Enter? || a.Open? || a.Settle?)
    ensures Undisturbed(s, Do(s, a), id, c) && (Holds(s.table, id, c) ==> IsFinished(s.connects, c))
  {
    match a
    case Enter(b, x) => EnterWatches(s, b, x, id, c);
    case Open(b, x) => OpenWatches(s, b, x, id, c);
    case Settle(b, x) =>
      if At(s.connects, b).Pathed? {
        assert Reserves(s.connects, b, At(s.connects, b).id);
      }
      SettleWatches(s, b, x, id, c);
  }

  lemma DisconnectWatches(s: Service, d: nat, a: Disconnecting, id: Id, c: Call)
    requires Inv(s)
    ensures var s' := DisconnectStep(s, d, a);
      && s'.watching == s.watching && IsObservable(s', c) == IsObservable(s, c)
      && (Holds(s'.table, id, c) ==> Holds(s.table, id, c))
  {
  }

  lemma EventWatches(s: Service, e: Event, id: Id, c: Call)
    requires Inv(s)
    ensures var s' := EventStep(s, e);
      && s'.watching <= s.watching && IsObservable(s', c) == IsObservable(s, c)
      && (Holds(s'.table, id, c) ==> Holds(s.table, id, c))
      && (e != Watch(id, c) ==> ((id, c) in s'.watching <==> (id, c) in s.watching))
      && (e == Watch(id, c) && (id, c) in s.watching && DoneClosed(s, c) ==>
            (id, c) !in s'.watching && (Holds(s'.table, id, c) <==> Swallows(s, Environment(e), id, c)))
  {
  }

  lemma WatchStep(s: Service, a: Action, id: Id, c: Call)
    requires Inv(s)
    ensures Unwatched(Do(s, a), id, c) ==> Unwatched(s, id, c) || Swallows(s, a, id, c)
    ensures Swallows(s, a, id, c) ==> Unwatched(Do(s, a), id, c)
    ensures Unwatched(s, id, c) && Holds(Do(s, a).table, id, c) ==> Unwatched(Do(s, a), id, c)
  {
    match a
    case Disconnect(d, leave) => DisconnectWatches(s, d, leave, id, c);
    case Environment(e) => EventWatches(s, e, id, c);
    case _ => ConnectWatches(s, a, id, c);
  }

  /** A token is published once. */
  lemma GoneForGood(s: Service, a: Action, id: Id, c: Call)
    requires Inv(s) && IsFinished(s.connects, c)
    ensures IsFinished(Do(s, a).connects, c) && IsObservable(Do(s, a), c) == IsObservable(s, c)
    ensures Holds(Do(s, a).table, id, c) ==> Holds(s.table, id, c)
  {
    match a
    case Disconnect(d, leave) => DisconnectWatches(s, d, leave, id, c);
    case Environment(e) => EventWatches(s, e, id, c);
    case _ => ConnectWatches(s, a, id, c);
  }

  // ----- every run -----

  function After(max: nat, schedule: seq<Action>, n: nat): Service
    requires n <= |schedule|
  {
    Run(NewService(max), schedule[..n])
  }

  predicate SwallowedAt(max: nat, schedule: seq<Action>, id: Id, c: Call, i: nat)
    requires i < |schedule|
  {
    Swallows(After(max, schedule, i), schedule[i], id, c)
  }

  ghost predicate Swallowed(max: nat, schedule: seq<Action>, id: Id, c: Call, n: nat)
    requires n <= |schedule|
  {
    exists i :: 0 <= i < n && SwallowedAt(max, schedule, id, c, i)
  }

  lemma StepOf(max: nat, schedule: seq<Action>, n: nat)
    requires n < |schedule|
    ensures Inv(After(max, schedule, n)) && After(max, schedule, n + 1) == Do(After(max, schedule, n), schedule[n])
  {
    NewHolds(max);
    RunKeeps(NewService(max), schedule[..n]);
    Machine.Next(Do, NewService(max), schedule, n);
  }

  lemma {:induction false} Prefixes(max: nat, schedule: seq<Action>, id: Id, c: Call, n: nat)
    requires n <= |schedule|
    ensures Swallowed(max, schedule, id, c, n) ==>
      IsFinished(After(max, schedule, n).connects, c) && IsObservable(After(max, schedule, n), c)
    ensures Unwatched(After(max, schedule, n), id, c) <==>
      Holds(After(max, schedule, n).table, id, c) && Swallowed(max, schedule, id, c, n)
    decreases n
  {
    if n > 0 {
      Prefixes(max, schedule, id, c, n - 1);
      StepOf(max, schedule, n - 1);
      OneMore(max, schedule, id, c, n - 1);
      var s := After(max, schedule, n - 1);
      WatchStep(s, schedule[n - 1], id, c);
      if IsFinished(s.connects, c) {
        GoneForGood(s, schedule[n - 1], id, c);
      }
    } else {
      assert schedule[..0] == [];
    }
  }

  lemma OneMore(max: nat, schedule: seq<Action>, id: Id, c: Call, n: nat)
    requires n < |schedule|
    ensures Swallowed(max, schedule, id, c, n + 1) <==>
      Swallowed(max, schedule, id, c, n) || SwallowedAt(max, schedule, id, c, n)
  {
  }

  /** Over every run: an active entry with a Done channel is without a watcher if and only if its one signal
      was taken while a Disconnect was in progress or after a failed one had suppressed it. */
  lemma UnwatchedExactlyWhenSwallowed(max: nat, schedule: seq<Action>, id: Id, c: Call)
    ensures var s := Run(NewService(max), schedule);
      Holds(s.table, id, c) && IsObservable(s, c) ==>
        ((id, c) !in s.watching <==> Swallowed(max, schedule, id, c, |schedule|))
  {
    assert schedule[..|schedule|] == schedule;
    Prefixes(max, schedule, id, c, |schedule|);
  }

  /** Such an entry keeps its slot until a Disconnect closes its handle after all, or until shutdown. */
  lemma OnlyADisconnectFreesTheSlot(max: nat, schedule: seq<Action>, id: Id, c: Call, a: Action)
    ensures var s := Run(NewService(max), schedule);
      Unwatched(s, id, c) && !Holds(Do(s, a).table, id, c) ==>
        || a == Environment(Shutdown)
        || (a.Disconnect? && a.leave.Finish? &&
            LeavingAt(s.disconnects, a.d).Settles? && LeavingAt(s.disconnects, a.d).ok)
  {
    NewHolds(max);
    RunKeeps(NewService(max), schedule);
    var s := Run(NewService(max), schedule);
    if Unwatched(s, id, c) {
      Leaves(s, id, c, a);
    }
  }

  lemma Leaves(s: Service, id: Id, c: Call, a: Action)
    requires Inv(s) && Unwatched(s, id, c)
    ensures !Holds(Do(s, a).table, id, c) ==>
      || a == Environment(Shutdown)
      || (a.Disconnect? && a.leave.Finish? &&
          LeavingAt(s.disconnects, a.d).Settles? && LeavingAt(s.disconnects, a.d).ok)
  {
    match a
    case Disconnect(d, leave) => if !Holds(Do(s, a).table, id, c) { DisconnectLeaves(s, d, leave, id, c); }
    case Environment(e) => if !Holds(Do(s, a).table, id, c) { EventLeaves(s, e, id, c); }
    case _ => ConnectWatches(s, a, id, c);
  }

  lemma DisconnectLeaves(s: Service, d: nat, a: Disconnecting, id: Id, c: Call)
    requires Holds(s.table, id, c) && !Holds(DisconnectStep(s, d, a).table, id, c)
    ensures a.Finish? && LeavingAt(s.disconnects, d).Settles? && LeavingAt(s.disconnects, d).ok
  {
  }

  lemma EventLeaves(s: Service, e: Event, id: Id, c: Call)
    requires Unwatched(s, id, c) && !Holds(EventStep(s, e).table, id, c)
    ensures e.Shutdown?
  {
  }

  // ----- it happens -----

  lemma Before(s: Service, a: Action, tail: seq<Action>) returns (schedule: seq<Action>)
    ensures Run(s, schedule) == Run(Do(s, a), tail)
  {
    schedule := [a] + tail;
    Machine.Before(Do, s, a, tail);
  }

  /** One connection, number 0 under ID 7, fills a service with one slot. */
  function Occupied(): Service
  {
    Service(Table(1, 0, map[7 := Entry(0, false, false)], map[], {}, false), {7}, map[0 := Handle(false, false, true)],
            map[0 := Finished], map[], {(7, 0)}, {}, {})
  }

  /** The handle is open and its path published. */
  function Shown(): Service
  {
    Service(Table(1, 1, map[], map[], {7}, false), {7}, map[0 := Handle(false, false, true)],
            map[0 := Pathed(7)], map[], {}, {}, {})
  }

  /** A slot and an ID are reserved. */
  function Reserved(): Service
  {
    NewService(1).(table := Table(1, 1, map[], map[], {7}, false), connects := map[0 := HasId(7)])
  }

  lemma ReachReserved(tail: seq<Action>) returns (schedule: seq<Action>)
    ensures Run(NewService(1), schedule) == Run(Reserved(), tail)
  {
    var s0 := NewService(1);
    var s1 := Do(s0, Enter(0, ReserveOpening));
    assert s1.connects == map[0 := HasSlot] && s1.table.opening == 1;
    var s2 := Do(s1, Enter(0, ReserveId(7)));
    assert s2.connects == map[0 := HasId(7)] && s2.table.reserved == {7};
    assert s2 == Reserved();
    schedule := Before(s1, Enter(0, ReserveId(7)), tail);
    schedule := Before(s0, Enter(0, ReserveOpening), schedule);
  }

  lemma ReachShown(tail: seq<Action>) returns (schedule: seq<Action>)
    ensures Run(Reserved(), schedule) == Run(Shown(), tail)
  {
    var s3 := Do(Reserved(), Open(0, OpenOk(true)));
    assert s3.connects == map[0 := Opened(7)] && s3.handles == map[0 := Handle(false, false, true)];
    var s4 := Do(s3, Open(0, SetPath(true)));
    assert s4.connects == map[0 := Pathed(7)] && s4.paths == {7};
    assert s4 == Shown();
    schedule := Before(s3, Open(0, SetPath(true)), tail);
    schedule := Before(Reserved(), Open(0, OpenOk(true)), schedule);
  }

  lemma PublishShown()
    ensures Do(Shown(), Settle(0, PublishEntry(false, {}))) == Occupied()
  {
    var s := Do(Shown(), Settle(0, PublishEntry(false, {})));
    assert ClosedIds(Shown().table.streams) == {};
    assert s.connects == map[0 := Finished] && s.table.reserved == {} && s.watching == {(7, 0)};
    assert s.table.active == map[7 := Entry(0, false, false)];
  }

  lemma ReachOccupied(tail: seq<Action>) returns (schedule: seq<Action>)
    ensures Run(NewService(1), schedule) == Run(Occupied(), tail)
  {
    PublishShown();
    schedule := Before(Shown(), Settle(0, PublishEntry(false, {})), tail);
    schedule := ReachShown(schedule);
    schedule := ReachReserved(schedule);
  }

  /** The Done signal has come and gone while a Disconnect is about to close the handle. */
  function Missed(): Service
  {
    var s := Occupied();
    s.(table := s.table.(active := map[7 := Entry(0, true, false)]), paths := {},
       handles := map[0 := Handle(false, true, true)], disconnects := map[0 := ClosesHandle(7, 0)], watching := {})
  }

  lemma ReachMissed(tail: seq<Action>) returns (schedule: seq<Action>)
    ensures Run(Occupied(), schedule) == Run(Missed(), tail)
  {
    var s0 := Occupied();
    var s1 := Do(s0, Disconnect(0, Begin(7)));
    assert s1.table.active == map[7 := Entry(0, true, false)] && s1.disconnects == map[0 := RemovesPath(7, 0)];
    var s2 := Do(s1, Disconnect(0, RemovePathOf));
    assert s2.disconnects == map[0 := ClosesHandle(7, 0)] && s2.paths == {};
    var s3 := Do(s2, Environment(RemoteDone(0)));
    assert s3.handles == map[0 := Handle(false, true, true)];
    var s4 := Do(s3, Environment(Watch(7, 0)));
    assert s4.watching == {} && s4 == Missed();
    schedule := Before(s3, Environment(Watch(7, 0)), tail);
    schedule := Before(s2, Environment(RemoteDone(0)), schedule);
    schedule := Before(s1, Disconnect(0, RemovePathOf), schedule);
    schedule := Before(s0, Disconnect(0, Begin(7)), schedule);
  }

  /** The peer ends the connection while a Disconnect is in progress, the watcher takes the signal, and the
      Disconnect then fails to close the handle: the ended connection holds the only slot, nothing is in
      progress, and no further Connect gets in. */
  lemma EndedConnectionCanKeepItsSlot() returns (schedule: seq<Action>)
    ensures var s := Run(NewService(1), schedule);
      && Unwatched(s, 7, 0) && s.handles[0].done && !s.table.active[7].closing && !HasRoom(s.table)
      && s.disconnects == map[0 := Left] && s.connects == map[0 := Finished]
  {
    var s5 := Do(Missed(), Disconnect(0, CloseHandle(false)));
    assert s5.disconnects == map[0 := Peeks(7, 0)] && s5.handles == map[0 := Handle(true, true, true)];
    var s6 := Do(s5, Disconnect(0, Peek));
    assert s6.disconnects == map[0 := Settles(7, 0, false, true)];
    var s7 := Do(s6, Disconnect(0, Finish));
    assert s7.disconnects == map[0 := Left] && s7.table.active == map[7 := Entry(0, false, true)];
    schedule := Before(s6, Disconnect(0, Finish), []);
    schedule := Before(s5, Disconnect(0, Peek), schedule);
    schedule := Before(Missed(), Disconnect(0, CloseHandle(false)), schedule);
    schedule := ReachMissed(schedule);
    schedule := ReachOccupied(schedule);
  }
}
