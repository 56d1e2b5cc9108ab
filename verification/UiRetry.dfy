/** The UI's retry of a terminal write against the Core's replay table, within one Core process. The UI keeps
    the operation ID of a write whose outcome it does not know and repeats it for five minutes from the first
    attempt; the Core forgets an outcome five minutes after it was recorded. The UI reads its clock when it
    prepares a request, the Core when the request arrives. */
module UiRetry {
  import opened Common
  import I = Idempotency
  import Machine

  const WINDOW: int := 300_000_000_000  // TerminalWriteReplayWindow, in nanoseconds
  const CORE := I.Config(WINDOW, 16384, true)

  /** pendingTerminalWrite */
  datatype Pending = Pending(op: I.OpId, request: I.Request, expiresAt: int)

  /** One operation ID: when the UI made it and for what. */
  datatype Made = Made(at: int, request: I.Request)

  /** `prepared`: when the request of a call was checked against the window. */
  datatype System = System(
    core: I.Service, pending: Option<Pending>, next: I.OpId, made: map<I.OpId, Made>, prepared: map<I.Caller, int>)

  datatype Action =
    | Write(c: I.Caller, request: I.Request)   // a call of WriteTerminal and its first attempt
    | Resend(c: I.Caller, first: I.Caller)     // its second attempt, after recovery, without another check
    | Clear                                    // the outcome is known
    | Core(a: I.Action)                        // anything in the Core but a new request

  function Send(s: System, c: I.Caller, op: I.OpId, request: I.Request, at: int): System
  {
    s.(core := I.Do(CORE, s.core, I.Arrive(c, op, request)), prepared := s.prepared[c := at])
  }

  /** A new operation ID for a new write. */
  function Fresh(s: System, request: I.Request): System
  {
    s.(pending := Some(Pending(s.next, request, s.core.now + WINDOW)), next := s.next + 1,
       made := s.made[s.next := Made(s.core.now, request)])
  }

  function Do(s: System, a: Action): System
  {
    match a
    case Write(c, request) =>
      if c in s.core.clients then s
      else if s.pending.None? then
        Send(Fresh(s, request), c, s.next, request, s.core.now)
      else if s.core.now > s.pending.value.expiresAt || s.pending.value.request != request then s
      else Send(s, c, s.pending.value.op, request, s.core.now)
    case Resend(c, first) =>
      if c in s.core.clients || first !in s.core.clients || first !in s.prepared then s
      else Send(s, c, s.core.clients[first].op, s.core.clients[first].request, s.prepared[first])
    case Clear => s.(pending := None)
    case Core(b) => if b.Arrive? then s else s.(core := I.Do(CORE, s.core, b))
  }

  function Run(s: System, schedule: seq<Action>): System { Machine.Run(Do, s, schedule) }

  function Init(): System { System(I.NewService(), None, 0, map[], map[]) }

  // ----- what every step keeps -----

  /** A request carries an operation ID the UI made for it and was checked within its window. */
  predicate Checked(s: System, c: I.Caller)
    requires c in s.core.clients
  {
    var k := s.core.clients[c];
    && k.op in s.made && k.request == s.made[k.op].request
    && c in s.prepared && s.made[k.op].at <= s.prepared[c] <= s.made[k.op].at + WINDOW && s.prepared[c] <= s.core.now
  }

  predicate Timed(s: System, c: I.Caller)
    requires c in s.core.calls
  {
    var k := s.core.calls[c];
    && k.op in s.made && k.request == s.made[k.op].request && s.made[k.op].at <= k.start <= s.core.now
    && (k.end.Ended? ==> k.start <= k.end.at <= s.core.now)
  }

  predicate Requests(s: System)
  {
    && (forall op :: op in s.made ==> op < s.next)
    && (forall c :: c in s.core.clients ==> Checked(s, c))
    && (s.pending.Some? ==>
          var q := s.pending.value;
          q.op in s.made && q.request == s.made[q.op].request && q.expiresAt == s.made[q.op].at + WINDOW &&
          s.made[q.op].at <= s.core.now)
  }

  predicate Executions(s: System) { forall c :: c in s.core.calls ==> Timed(s, c) }

  predicate Inv(s: System) { I.Inv(CORE, s.core) && Requests(s) && Executions(s) }

  /** What a step of the Core leaves of a request. */
  lemma CoreRequests(s: I.Service, a: I.Action, c: I.Caller)
    requires !a.Arrive?
    ensures var s' := I.Do(CORE, s, a);
      && s'.clients.Keys == s.clients.Keys && s.now <= s'.now
      && (c in s.clients ==> s'.clients[c].op == s.clients[c].op && s'.clients[c].request == s.clients[c].request)
  {
  }

  /** How an execution in `calls'` came about. */
  predicate Follows(s: I.Service, calls': I.Calls, c: I.Caller)
    requires c in calls'
  {
    var k := calls'[c];
    if c in s.calls then
      && k.op == s.calls[c].op && k.request == s.calls[c].request && k.start == s.calls[c].start
      && (k.end == s.calls[c].end || (k.end.Ended? && k.end.at == s.now))
    else c in s.clients && k == I.Inner(s.clients[c].op, s.clients[c].request, s.now, I.Running)
  }

  lemma StartExecutions(s: I.Service, b: I.Caller, c: I.Caller)
    requires I.IsAt(s, b, I.Ready) && b !in s.calls && c in I.StartStep(CORE, s, b).calls
    ensures Follows(s, I.StartStep(CORE, s, b).calls, c)
  {
  }

  lemma FinishExecutions(s: I.Service, b: I.Caller, r: I.Result, c: I.Caller)
    requires I.IsAt(s, b, I.Leading) && b in s.calls && c in I.FinishStep(CORE, s, b, r).calls
    ensures Follows(s, I.FinishStep(CORE, s, b, r).calls, c)
  {
  }

  lemma CoreExecutions(s: I.Service, a: I.Action, c: I.Caller)
    requires I.Inv(CORE, s) && !a.Arrive? && c in I.Do(CORE, s, a).calls
    ensures Follows(s, I.Do(CORE, s, a).calls, c)
  {
    match a
    case Start(b) =>
      if I.IsAt(s, b, I.Ready) {
        assert I.ClientOk(s.clients[b], b, s.calls);
        StartExecutions(s, b, c);
      }
    case Finish(b, r) => if I.IsAt(s, b, I.Leading) && b in s.calls { FinishExecutions(s, b, r, c); }
    case Arrive(_, _, _) =>
    case _ => assert I.Do(CORE, s, a).calls == s.calls;
  }

  lemma CoreKeeps(s: System, b: I.Action)
    requires Inv(s) && !b.Arrive?
    ensures Inv(s.(core := I.Do(CORE, s.core, b)))
  {
    var s' := s.(core := I.Do(CORE, s.core, b));
    I.DoKeeps(CORE, s.core, b);
    CoreRequests(s.core, b, 0);
    forall c | c in s'.core.clients ensures Checked(s', c) {
      CoreRequests(s.core, b, c);
      assert Checked(s, c);
    }
    forall c | c in s'.core.calls ensures Timed(s', c) {
      CoreExecutions(s.core, b, c);
      if c in s.core.calls {
        assert Timed(s, c);
      } else {
        assert Checked(s, c);
      }
    }
  }

  lemma SendKeeps(s: System, c: I.Caller, op: I.OpId, request: I.Request, at: int)
    requires Inv(s) && c !in s.core.clients && op in s.made && request == s.made[op].request
    requires s.made[op].at <= at <= s.made[op].at + WINDOW && at <= s.core.now
    ensures Inv(Send(s, c, op, request, at))
  {
    var s' := Send(s, c, op, request, at);
    I.DoKeeps(CORE, s.core, I.Arrive(c, op, request));
    forall b | b in s'.core.clients ensures Checked(s', b) {
      if b != c {
        assert Checked(s, b);
      }
    }
    forall b | b in s'.core.calls ensures Timed(s', b) {
      assert Timed(s, b);
    }
  }

  lemma MakeKeeps(s: System, request: I.Request)
    requires Inv(s)
    ensures Inv(Fresh(s, request))
  {
    var s' := Fresh(s, request);
    forall c | c in s'.core.clients ensures Checked(s', c) {
      assert Checked(s, c);
    }
    forall c | c in s'.core.calls ensures Timed(s', c) {
      assert Timed(s, c);
    }
  }

  lemma WriteKeeps(s: System, c: I.Caller, request: I.Request)
    requires Inv(s) && c !in s.core.clients
    ensures Inv(Do(s, Write(c, request)))
  {
    if s.pending.None? {
      MakeKeeps(s, request);
      SendKeeps(Fresh(s, request), c, s.next, request, s.core.now);
    } else if s.core.now <= s.pending.value.expiresAt && s.pending.value.request == request {
      SendKeeps(s, c, s.pending.value.op, request, s.core.now);
    }
  }

  lemma DoKeeps(s: System, a: Action)
    requires Inv(s)
    ensures Inv(Do(s, a))
  {
    match a
    case Write(c, request) => if c !in s.core.clients { WriteKeeps(s, c, request); }
    case Resend(c, first) =>
      if c !in s.core.clients && first in s.core.clients {
        assert Checked(s, first);
        SendKeeps(s, c, s.core.clients[first].op, s.core.clients[first].request, s.prepared[first]);
      }
    case Clear =>
    case Core(b) => if !b.Arrive? { CoreKeeps(s, b); }
  }

  lemma Reachable(schedule: seq<Action>)
    ensures Inv(Run(Init(), schedule))
  {
    forall s, a | Inv(s) ensures Inv(Do(s, a)) {
      DoKeeps(s, a);
    }
    Machine.RunKeeps(Do, Inv, Init(), schedule);
  }

  // ----- what the two windows promise together -----

  /** No write is executed a second time before the UI's window for it has ended, however often it is retried
      and however long the requests travel; and every request of it was prepared within that window. So a
      second execution always is a request that was under way when the window ended. */
  lemma NoSecondWriteBeforeExpiry(schedule: seq<Action>, i: nat, j: nat)
    ensures var s := Run(Init(), schedule);
      var order, calls := s.core.order, s.core.calls;
      i < j < |order| && order[i] in calls && order[j] in calls && calls[order[i]].op == calls[order[j]].op ==>
        var first, second := calls[order[i]], calls[order[j]];
        && first.op in s.made && order[j] in s.prepared && first.end.Ended? && first.request == second.request
        && s.prepared[order[j]] <= s.made[first.op].at + WINDOW <= first.end.at + WINDOW <= second.start
  {
    Reachable(schedule);
    var s := Run(Init(), schedule);
    var order, calls := s.core.order, s.core.calls;
    if i < j < |order| && order[i] in calls && order[j] in calls && calls[order[i]].op == calls[order[j]].op {
      assert Timed(s, order[i]) && Timed(s, order[j]);
      assert I.Spaced(CORE, calls[order[i]], calls[order[j]]);
      assert order[j] in s.core.clients && Checked(s, order[j]);
      assert I.ClientOk(s.core.clients[order[j]], order[j], calls);
    }
  }

  lemma StartOutcome(s: I.Service, c: I.Caller, first: I.Caller)
    requires I.IsAt(s, c, I.Ready) && I.IsCurrent(s.table, s.clients[c].op, first) && first in s.table.records
    requires s.table.records[first].Completed? && s.table.records[first].request == s.clients[c].request
    ensures var phase := I.Do(CORE, s, I.Start(c)).clients[c].phase;
      var stale := s.now - s.table.records[first].at >= WINDOW;
      && (phase.Leading? <==> stale && |I.Pruned(CORE, s.table, s.now).ops| < CORE.maxEntries)
      && (!stale ==> phase == I.Waiting(first))
  {
  }

  /** When a request of an operation whose outcome is recorded reaches the Core, it is executed again if and
      only if the record is five minutes old and the table has room; otherwise it shares the record. */
  lemma ExecutedAgainExactlyWhenForgotten(schedule: seq<Action>, c: I.Caller, first: I.Caller)
    ensures var s := Run(Init(), schedule);
      I.IsAt(s.core, c, I.Ready) && first in s.core.calls && s.core.calls[first].end.Ended? &&
      I.IsCurrent(s.core.table, s.core.clients[c].op, first) ==>
        var phase := I.Do(CORE, s.core, I.Start(c)).clients[c].phase;
        var stale := s.core.now - s.core.calls[first].end.at >= WINDOW;
        && (phase.Leading? <==> stale && |I.Pruned(CORE, s.core.table, s.core.now).ops| < CORE.maxEntries)
        && (!stale ==> phase == I.Waiting(first))
  {
    Reachable(schedule);
    var s := Run(Init(), schedule);
    if I.IsAt(s.core, c, I.Ready) && first in s.core.calls && s.core.calls[first].end.Ended? &&
       I.IsCurrent(s.core.table, s.core.clients[c].op, first) {
      assert I.Backed(CORE, s.core.table, s.core.calls, s.core.clients[c].op);
      assert Checked(s, c) && Timed(s, first);
      StartOutcome(s.core, c, first);
    }
  }

  // ----- and a retry inside the window can be executed again -----

  lemma Before(s: System, a: Action, tail: seq<Action>) returns (schedule: seq<Action>)
    ensures Run(s, schedule) == Run(Do(s, a), tail)
  {
    schedule := [a] + tail;
    Machine.Before(Do, s, a, tail);
  }

  /** The write was executed at once; the UI has not learned that. */
  function Executed(now: int): System
  {
    System(I.Service(now, I.Table(map[0 := 0], map[0 := I.Completed(7, 0, I.Value(1))]), {0},
                     map[0 := I.Client(0, 7, I.Returned(I.Own(I.Value(1))))],
                     map[0 := I.Inner(0, 7, 0, I.Ended(0, I.Value(1)))], [0]),
           Some(Pending(0, 7, WINDOW)), 1, map[0 := Made(0, 7)], map[0 := 0])
  }

  /** The request has arrived; `phase` is where it is in the Core. */
  function Arrived(phase: I.Phase, table: I.Table, calls: I.Calls, order: seq<I.Caller>): System
  {
    Executed(0).(core := I.Service(0, table, {}, map[0 := I.Client(0, 7, phase)], calls, order))
  }

  const SENT := Arrived(I.Ready, I.Table(map[], map[]), map[], [])
  const RUNNING := Arrived(I.Leading, I.Table(map[0 := 0], map[0 := I.Pending(7)]),
                           map[0 := I.Inner(0, 7, 0, I.Running)], [0])

  lemma FirstSent()
    ensures Do(Init(), Write(0, 7)) == SENT
  {
    var s := Do(Init(), Write(0, 7));
    assert s.core.clients == map[0 := I.Client(0, 7, I.Ready)] && s.made == map[0 := Made(0, 7)];
    assert s.prepared == map[0 := 0];
  }

  lemma FirstStarts()
    ensures Do(SENT, Core(I.Start(0))) == RUNNING
  {
    var s := Do(SENT, Core(I.Start(0)));
    assert I.Pruned(CORE, SENT.core.table, 0) == SENT.core.table;
    assert s.core.clients == map[0 := I.Client(0, 7, I.Leading)] && s.core.order == [0];
    assert s.core.table == I.Table(map[0 := 0], map[0 := I.Pending(7)]);
    assert s.core.calls == map[0 := I.Inner(0, 7, 0, I.Running)];
  }

  lemma FirstEnds()
    ensures Do(RUNNING, Core(I.Finish(0, I.Value(1)))) == Executed(0)
  {
    var s := Do(RUNNING, Core(I.Finish(0, I.Value(1))));
    assert s.core.table.records == map[0 := I.Completed(7, 0, I.Value(1))];
    assert s.core.clients == Executed(0).core.clients && s.core.calls == Executed(0).core.calls;
  }

  lemma ReachExecuted(tail: seq<Action>) returns (schedule: seq<Action>)
    ensures Run(Init(), schedule) == Run(Executed(0), tail)
  {
    FirstSent();
    FirstStarts();
    FirstEnds();
    schedule := Before(RUNNING, Core(I.Finish(0, I.Value(1))), tail);
    schedule := Before(SENT, Core(I.Start(0)), schedule);
    schedule := Before(Init(), Write(0, 7), schedule);
  }

  /** The answer to the first attempt is lost. The user repeats the write a nanosecond before the window ends;
      the request reaches the Core a nanosecond later and the write is executed a second time. */
  lemma RetryInWindowCanExecuteTwice() returns (schedule: seq<Action>)
    ensures var s := Run(Init(), schedule);
      && s.core.order == [0, 1] && 0 in s.core.calls && 1 in s.core.calls
      && s.core.calls[0].op == s.core.calls[1].op == 0 && s.core.calls[0].request == s.core.calls[1].request
      && 0 in s.made && 1 in s.prepared && s.prepared[1] < s.made[0].at + WINDOW
  {
    var s4 := Do(Executed(0), Core(I.Tick((WINDOW - 1) as nat)));
    assert s4 == Executed(WINDOW - 1);
    var s5 := Do(s4, Write(1, 7));
    assert s5.core.clients == s4.core.clients[1 := I.Client(0, 7, I.Ready)];
    assert s5.prepared == map[0 := 0, 1 := WINDOW - 1];
    var s6 := Do(s5, Core(I.Tick(1)));
    assert s6.core.now == WINDOW && s6.core.table == s4.core.table;
    assert I.Pruned(CORE, s6.core.table, WINDOW).ops == map[];
    var s7 := Do(s6, Core(I.Start(1)));
    assert s7.core.order == [0, 1] && s7.core.calls[1] == I.Inner(0, 7, WINDOW, I.Running);
    schedule := Before(s6, Core(I.Start(1)), []);
    schedule := Before(s5, Core(I.Tick(1)), schedule);
    schedule := Before(s4, Write(1, 7), schedule);
    schedule := Before(Executed(0), Core(I.Tick((WINDOW - 1) as nat)), schedule);
    schedule := ReachExecuted(schedule);
  }
}
