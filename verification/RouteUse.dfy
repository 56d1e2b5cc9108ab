/** One signed route authorization end to end: verification, consumption in the file store and the dial,
    each reading the clock on its own, by any number of sessions, over crashes and restarts. */
module RouteUse {
  import opened Common
  import Mesh
  import Replay
  import RouteAuth

  /** What stays fixed: the verifier's key ID, the signature scheme and the router. */
  datatype Router = Router(keyId: Mesh.Str, verifies: (Mesh.Str, Mesh.Str) -> bool, id: Mesh.Str)

  function Text(s: Mesh.Str): string { seq(|s|, i requires 0 <= i < |s| => s[i] as char) }

  /** One forwarding attempt; `k` is its place in the list of successful consumptions. */
  datatype Attempt =
    | Verified(a: RouteAuth.Authorization, r: Mesh.Route, verifiedAt: int)
    | Accepted(a: RouteAuth.Authorization, r: Mesh.Route, verifiedAt: int, consumedAt: int, k: nat)
    | Dialed(a: RouteAuth.Authorization, r: Mesh.Route, verifiedAt: int, consumedAt: int, k: nat, dialedAt: int)
    | Dropped
  {
    predicate Holds() { Accepted? || Dialed? }
  }

  datatype System = System(store: Replay.Store, attempts: map<nat, Attempt>)

  datatype Action =
    | Tick(nanos: nat)
    | Start
    | Crash
    | Verify(id: nat, a: RouteAuth.Authorization, r: Mesh.Route)
    | Consume(id: nat, save: Replay.Save)
    | CrashWhileConsuming(id: nat, save: Replay.Save)
    | Dial(id: nat)

  /** A crash ends every attempt that has not dialed yet. */
  function Survivors(attempts: map<nat, Attempt>): map<nat, Attempt>
  {
    map id | id in attempts :: if attempts[id].Dialed? then attempts[id] else Dropped
  }

  function StoreUse(v: Attempt, save: Replay.Save): Replay.Action
    requires v.Verified?
  {
    Replay.Use(Text(v.a.claims.jti), v.a.claims.expiresMs, save)
  }

  function ConsumeStep(s: System, id: nat, save: Replay.Save): System
    requires id in s.attempts && s.attempts[id].Verified?
  {
    var v := s.attempts[id];
    var store := Replay.Do(s.store, StoreUse(v, save));
    var next := if |store.log| > |s.store.log| then Accepted(v.a, v.r, v.verifiedAt, s.store.clock, |s.store.log|)
      else Dropped;
    System(store, s.attempts[id := next])
  }

  /** The route's context ends at the route's own expiry. */
  function DialStep(s: System, id: nat): System
    requires id in s.attempts && s.attempts[id].Accepted?
  {
    var v := s.attempts[id];
    var next :=
      if s.store.clock < v.r.expiresAt then Dialed(v.a, v.r, v.verifiedAt, v.consumedAt, v.k, s.store.clock)
      else Dropped;
    s.(attempts := s.attempts[id := next])
  }

  function Do(x: Router, s: System, a: Action): System
  {
    match a
    case Tick(nanos) => s.(store := Replay.Do(s.store, Replay.Tick(nanos)))
    case Start => s.(store := Replay.Do(s.store, Replay.Start))
    case Crash => System(Replay.Do(s.store, Replay.Crash), Survivors(s.attempts))
    case Verify(id, a, r) =>
      if id in s.attempts || !RouteAuth.Verify(x.keyId, x.verifies, a, r, x.id, s.store.clock).Authorized? then s
      else s.(attempts := s.attempts[id := Verified(a, r, s.store.clock)])
    case Consume(id, save) => if id in s.attempts && s.attempts[id].Verified? then ConsumeStep(s, id, save) else s
    case CrashWhileConsuming(id, save) =>
      if id in s.attempts && s.attempts[id].Verified? then
        var v := s.attempts[id];
        System(Replay.Do(s.store, Replay.CrashWhileSaving(Text(v.a.claims.jti), v.a.claims.expiresMs, save)),
               Survivors(s.attempts))
      else s
    case Dial(id) => if id in s.attempts && s.attempts[id].Accepted? then DialStep(s, id) else s
  }

  function Run(x: Router, s: System, schedule: seq<Action>): System
    decreases |schedule|
  {
    if schedule == [] then s else Run(x, Do(x, s, schedule[0]), schedule[1..])
  }

  function Init(clock: int): System { System(Replay.Init(clock), map[]) }

  // ----- the invariant -----

  predicate WasVerified(x: Router, v: Attempt)
    requires !v.Dropped?
  {
    RouteAuth.Verify(x.keyId, x.verifies, v.a, v.r, x.id, v.verifiedAt).Authorized?
  }

  /** The times of one attempt against the clock and the list of consumptions. */
  predicate Timed(clock: int, log: seq<Replay.Success>, v: Attempt)
  {
    && (!v.Dropped? ==> v.verifiedAt <= clock)
    && (v.Holds() ==>
          && v.k < |log| && v.verifiedAt <= v.consumedAt <= clock
          && log[v.k] == Replay.Success(Text(v.a.claims.jti), v.a.claims.expiresMs, v.consumedAt)
          && Replay.ValidJti(log[v.k].jti) && log[v.k].expiry > 0)
    && (v.Dialed? ==> v.consumedAt <= v.dialedAt < v.r.expiresAt)
  }

  /** Two attempts hold two different consumptions. */
  predicate Distinct(attempts: map<nat, Attempt>)
  {
    forall i, j :: i in attempts && j in attempts && i != j && attempts[i].Holds() && attempts[j].Holds() ==>
      attempts[i].k != attempts[j].k
  }

  predicate AllVerified(x: Router, attempts: map<nat, Attempt>)
  {
    forall id :: id in attempts && !attempts[id].Dropped? ==> WasVerified(x, attempts[id])
  }

  predicate AllTimed(s: System)
  {
    && Replay.Inv(s.store)
    && (forall id :: id in s.attempts ==> Timed(s.store.clock, s.store.log, s.attempts[id]))
    && Distinct(s.attempts)
  }

  predicate Inv(x: Router, s: System) { AllTimed(s) && AllVerified(x, s.attempts) }

  lemma StoreGrows(s: Replay.Store, a: Replay.Action)
    ensures var s' := Replay.Do(s, a);
      && s.log <= s'.log && s.clock <= s'.clock && |s'.log| <= |s.log| + 1
      && (|s'.log| > |s.log| ==>
            a.Use? && s'.log == s.log + [Replay.Success(a.jti, a.expiry, s.clock)] && s'.clock == s.clock &&
            Replay.ValidJti(a.jti) && a.expiry > 0)
  {
  }

  lemma StillTimed(clock: int, log: seq<Replay.Success>, v: Attempt, clock': int, log': seq<Replay.Success>)
    requires Timed(clock, log, v) && clock <= clock' && log <= log'
    ensures Timed(clock', log', v)
  {
    if v.Holds() {
      assert log'[v.k] == log[v.k];
    }
  }

  lemma ConsumeTimed(s: System, id: nat, save: Replay.Save)
    requires AllTimed(s) && id in s.attempts && s.attempts[id].Verified?
    ensures AllTimed(ConsumeStep(s, id, save))
  {
    var a := StoreUse(s.attempts[id], save);
    StoreGrows(s.store, a);
    Replay.DoKeeps(s.store, a);
    var s' := ConsumeStep(s, id, save);
    assert s'.store == Replay.Do(s.store, a);
    forall k | k in s'.attempts ensures Timed(s'.store.clock, s'.store.log, s'.attempts[k]) {
      if k != id {
        StillTimed(s.store.clock, s.store.log, s.attempts[k], s'.store.clock, s'.store.log);
      }
    }
  }

  lemma StoreTimed(s: System, a: Replay.Action, attempts: map<nat, Attempt>)
    requires AllTimed(s) && (attempts == s.attempts || attempts == Survivors(s.attempts))
    ensures AllTimed(System(Replay.Do(s.store, a), attempts))
  {
    StoreGrows(s.store, a);
    Replay.DoKeeps(s.store, a);
    var store := Replay.Do(s.store, a);
    forall k | k in attempts ensures Timed(store.clock, store.log, attempts[k]) {
      StillTimed(s.store.clock, s.store.log, s.attempts[k], store.clock, store.log);
    }
  }

  lemma DoTimed(x: Router, s: System, a: Action)
    requires AllTimed(s)
    ensures AllTimed(Do(x, s, a))
  {
    match a
    case Tick(nanos) => StoreTimed(s, Replay.Tick(nanos), s.attempts);
    case Start => StoreTimed(s, Replay.Start, s.attempts);
    case Crash => StoreTimed(s, Replay.Crash, Survivors(s.attempts));
    case Consume(id, save) => if id in s.attempts && s.attempts[id].Verified? { ConsumeTimed(s, id, save); }
    case CrashWhileConsuming(id, save) =>
      if id in s.attempts && s.attempts[id].Verified? {
        var v := s.attempts[id];
        var crash := Replay.CrashWhileSaving(Text(v.a.claims.jti), v.a.claims.expiresMs, save);
        StoreTimed(s, crash, Survivors(s.attempts));
      }
    case Verify(id, au, r) => if Do(x, s, a) != s { OneTimed(s, id, Verified(au, r, s.store.clock)); }
    case Dial(id) =>
      if id in s.attempts && s.attempts[id].Accepted? {
        assert Timed(s.store.clock, s.store.log, s.attempts[id]);
        OneTimed(s, id, DialStep(s, id).attempts[id]);
      }
  }

  lemma OneTimed(s: System, id: nat, v: Attempt)
    requires AllTimed(s) && Timed(s.store.clock, s.store.log, v)
    requires v.Holds() ==> id in s.attempts && s.attempts[id].Holds() && s.attempts[id].k == v.k
    ensures AllTimed(s.(attempts := s.attempts[id := v]))
  {
  }

  lemma DoVerified(x: Router, s: System, a: Action)
    requires AllVerified(x, s.attempts)
    ensures AllVerified(x, Do(x, s, a).attempts)
  {
    if (a.Consume? || a.Dial?) && a.id in s.attempts && !s.attempts[a.id].Dropped? {
      assert WasVerified(x, s.attempts[a.id]);
    }
  }

  lemma {:induction false} RunKeeps(x: Router, s: System, schedule: seq<Action>)
    requires Inv(x, s)
    ensures Inv(x, Run(x, s, schedule))
    decreases |schedule|
  {
    if schedule != [] {
      DoTimed(x, s, schedule[0]);
      DoVerified(x, s, schedule[0]);
      RunKeeps(x, Do(x, s, schedule[0]), schedule[1..]);
    }
  }

  // ----- the promises -----

  lemma Lifetime(x: Router, v: Attempt)
    requires !v.Dropped? && WasVerified(x, v)
    ensures v.verifiedAt < v.a.claims.expiresMs * NANOS_PER_MILLI
    ensures v.a.claims.expiresMs * NANOS_PER_MILLI <= v.r.expiresAt < (v.a.claims.expiresMs + 1) * NANOS_PER_MILLI
  {
  }

  predicate SameUse(s: System, i: nat, j: nat)
  {
    && i in s.attempts && j in s.attempts && s.attempts[i].Holds() && s.attempts[j].Holds()
    && s.attempts[i].k < s.attempts[j].k && s.attempts[i].a.claims == s.attempts[j].a.claims
  }

  lemma TwiceTest(x: Router, s: System, i: nat, j: nat)
    requires Inv(x, s) && SameUse(s, i, j)
    ensures s.attempts[j].verifiedAt < s.attempts[j].a.claims.expiresMs * NANOS_PER_MILLI <= s.attempts[j].consumedAt
    ensures s.attempts[j].Dialed? ==> s.attempts[j].consumedAt <= s.attempts[j].dialedAt < s.attempts[j].r.expiresAt
  {
    var log := s.store.log;
    assert Timed(s.store.clock, log, s.attempts[i]) && Timed(s.store.clock, log, s.attempts[j]);
    assert log[s.attempts[i].k].jti == log[s.attempts[j].k].jti;
    Lifetime(x, s.attempts[j]);
  }

  /** The same claims are accepted a second time only by an attempt that was verified before the expiry
      and consumed at or after it; and they are dialed a second time only in what is left of the last
      millisecond of the route. */
  lemma UsedTwiceOnlyAroundExpiry(x: Router, clock: int, schedule: seq<Action>, i: nat, j: nat)
    ensures var s := Run(x, Init(clock), schedule);
      SameUse(s, i, j) ==>
        var v, expiry := s.attempts[j], s.attempts[j].a.claims.expiresMs * NANOS_PER_MILLI;
        && v.verifiedAt < expiry <= v.consumedAt
        && (v.Dialed? ==> expiry <= v.consumedAt <= v.dialedAt < v.r.expiresAt < expiry + NANOS_PER_MILLI)
        && (v.r.expiresAt % NANOS_PER_MILLI == 0 ==> !v.Dialed?)
  {
    RunKeeps(x, Init(clock), schedule);
    var s := Run(x, Init(clock), schedule);
    if SameUse(s, i, j) {
      TwiceTest(x, s, i, j);
      Lifetime(x, s.attempts[j]);
    }
  }

  /** Exactly when the store grants an authorization it has granted before: the file has the room, and
      the store's own clock, read after the verifier's, has reached the expiry. */
  lemma GrantedAgainExactlyWhenExpired(x: Router, clock: int, schedule: seq<Action>, i: nat, save: Replay.Save)
    ensures var s := Run(x, Init(clock), schedule);
      i in s.attempts && s.attempts[i].Holds() && s.store.mem.Some? ==>
        var c := s.attempts[i].a.claims;
        var mem, jti := s.store.mem.value, Text(c.jti);
        AfterGrant(s.store, c, save) <==>
          && s.store.clock >= c.expiresMs * NANOS_PER_MILLI
          && (jti in mem ==> !Replay.Unexpired(mem[jti], s.store.clock))
          && 0 < save.size <= Replay.MAX_STORE_SIZE && save.renamed && save.finished
  {
    RunKeeps(x, Init(clock), schedule);
    var s := Run(x, Init(clock), schedule);
    if i in s.attempts && s.attempts[i].Holds() && s.store.mem.Some? {
      GrantTest(s, i, save);
    }
  }

  predicate AfterGrant(store: Replay.Store, c: RouteAuth.Claims, save: Replay.Save)
    requires store.mem.Some?
  {
    Replay.AfterConsume(store.mem.value, store.disk, Text(c.jti), c.expiresMs, store.clock, save).2.Ok?
  }

  lemma GrantTest(s: System, i: nat, save: Replay.Save)
    requires AllTimed(s) && i in s.attempts && s.attempts[i].Holds() && s.store.mem.Some?
    ensures var c := s.attempts[i].a.claims;
      var mem, jti := s.store.mem.value, Text(c.jti);
      AfterGrant(s.store, c, save) <==>
        && s.store.clock >= c.expiresMs * NANOS_PER_MILLI
        && (jti in mem ==> !Replay.Unexpired(mem[jti], s.store.clock))
        && 0 < save.size <= Replay.MAX_STORE_SIZE && save.renamed && save.finished
  {
    var v := s.attempts[i];
    assert Timed(s.store.clock, s.store.log, v);
    assert s.store.log[v.k].jti == Text(v.a.claims.jti);
  }

  // ----- a second dial does happen -----

  const SAVED := Replay.Save(1, true, true)

  lemma Before(x: Router, s: System, a: Action, tail: seq<Action>) returns (schedule: seq<Action>)
    ensures Run(x, s, schedule) == Run(x, Do(x, s, a), tail)
  {
    schedule := [a] + tail;
    assert schedule[1..] == tail;
  }

  /** The first of two verified sessions has consumed the capability. */
  function FirstAccepted(a: RouteAuth.Authorization, r: Mesh.Route, at: int): System
  {
    var jti, expiry := Text(a.claims.jti), a.claims.expiresMs;
    System(Replay.Store(Replay.File(Replay.VERSION, map[jti := expiry], 1), Some(map[jti := expiry]), at,
                        [Replay.Success(jti, expiry, at)]),
           map[0 := Accepted(a, r, at, at, 0), 1 := Verified(a, r, at)])
  }

  lemma ReachFirstAccepted(x: Router, a: RouteAuth.Authorization, r: Mesh.Route, at: int, tail: seq<Action>)
    returns (schedule: seq<Action>)
    requires RouteAuth.Verify(x.keyId, x.verifies, a, r, x.id, at).Authorized?
    requires Replay.ValidJti(Text(a.claims.jti))
    ensures Run(x, Init(at), schedule) == Run(x, FirstAccepted(a, r, at), tail)
  {
    var s0 := Do(x, Init(at), Start);
    assert s0.store == Replay.Store(Replay.Missing, Some(map[]), at, []);
    var s1 := Do(x, s0, Verify(0, a, r));
    var s2 := Do(x, s1, Verify(1, a, r));
    assert s2.attempts == map[0 := Verified(a, r, at), 1 := Verified(a, r, at)];
    assert Replay.Prune(map[], at) == map[];
    var s3 := Do(x, s2, Consume(0, SAVED));
    assert s3.store == FirstAccepted(a, r, at).store && s3.attempts == FirstAccepted(a, r, at).attempts;
    schedule := Before(x, s2, Consume(0, SAVED), tail);
    schedule := Before(x, s1, Verify(1, a, r), schedule);
    schedule := Before(x, s0, Verify(0, a, r), schedule);
    schedule := Before(x, Init(at), Start, schedule);
  }

  /** Two sessions verify one capability in its last moments; the first consumes it in time, the second
      once the store has forgotten it, and the route, whose expiry carries a fraction of a millisecond,
      is still open: both dial. */
  lemma DialedTwice(x: Router, a: RouteAuth.Authorization, r: Mesh.Route, at: int) returns (schedule: seq<Action>)
    requires RouteAuth.Verify(x.keyId, x.verifies, a, r, x.id, at).Authorized?
    requires Replay.ValidJti(Text(a.claims.jti)) && a.claims.expiresMs * NANOS_PER_MILLI < r.expiresAt
    ensures var s := Run(x, Init(at), schedule);
      0 in s.attempts && 1 in s.attempts && s.attempts[0].Dialed? && s.attempts[1].Dialed? &&
      s.attempts[0].a == s.attempts[1].a == a
  {
    Lifetime(x, Verified(a, r, at));
    schedule := Before(x, AtExpiry(a, r, at), Consume(1, SAVED), [Dial(1)]);
    SecondDials(x, a, r, at);
    schedule := ReachExpiry(x, a, r, at, schedule);
    schedule := ReachFirstAccepted(x, a, r, at, schedule);
  }

  /** The first session has dialed and the expiry has come. */
  function AtExpiry(a: RouteAuth.Authorization, r: Mesh.Route, at: int): System
  {
    var s := FirstAccepted(a, r, at);
    System(s.store.(clock := a.claims.expiresMs * NANOS_PER_MILLI), s.attempts[0 := Dialed(a, r, at, at, 0, at)])
  }

  lemma ReachExpiry(x: Router, a: RouteAuth.Authorization, r: Mesh.Route, at: int, tail: seq<Action>)
    returns (schedule: seq<Action>)
    requires at <= a.claims.expiresMs * NANOS_PER_MILLI && at < r.expiresAt
    ensures Run(x, FirstAccepted(a, r, at), schedule) == Run(x, AtExpiry(a, r, at), tail)
  {
    var s := Do(x, FirstAccepted(a, r, at), Dial(0));
    var wait := Tick(a.claims.expiresMs * NANOS_PER_MILLI - at);
    assert Do(x, s, wait) == AtExpiry(a, r, at);
    schedule := Before(x, s, wait, tail);
    schedule := Before(x, FirstAccepted(a, r, at), Dial(0), schedule);
  }

  lemma SecondDials(x: Router, a: RouteAuth.Authorization, r: Mesh.Route, at: int)
    requires Replay.ValidJti(Text(a.claims.jti)) && a.claims.expiresMs > 0
    requires a.claims.expiresMs * NANOS_PER_MILLI < r.expiresAt
    ensures var s := Run(x, Do(x, AtExpiry(a, r, at), Consume(1, SAVED)), [Dial(1)]);
      0 in s.attempts && 1 in s.attempts && s.attempts[0].Dialed? && s.attempts[1].Dialed? &&
      s.attempts[0].a == s.attempts[1].a == a
  {
    var s, jti := AtExpiry(a, r, at), Text(a.claims.jti);
    assert Replay.Prune(map[jti := a.claims.expiresMs], s.store.clock) == map[];
    var s' := Do(x, s, Consume(1, SAVED));
    assert s'.attempts[1] == Accepted(a, r, at, s.store.clock, 1);
    assert Run(x, s', [Dial(1)]) == Run(x, Do(x, s', Dial(1)), []);
  }

  // ----- such an authorization exists -----

  const EXPIRES_MS: int := 1000

  function SampleRoute(expiresAt: int): Mesh.Route
  {
    Mesh.Route([73], [65], [67], [Mesh.Hop([65], [82], [84], 0), Mesh.Hop([82], [67], [84], 0)], expiresAt)
  }

  function SampleJti(): Mesh.Str { seq(22, i => 65) }

  function Sample(): RouteAuth.Authorization
  {
    RouteAuth.Authorization([75],
      RouteAuth.Claims(RouteAuth.VERSION, RouteAuth.ISSUER, RouteAuth.AUDIENCE, RouteAuth.PERMISSION, SampleJti(), [82],
                       SampleRoute(EXPIRES_MS * NANOS_PER_MILLI), 500, EXPIRES_MS),
      [])
  }

  /** The router that knows this one authorization and no other. */
  function SampleRouter(): Router
  {
    Router([75], (m: Mesh.Str, s: Mesh.Str) => m == RouteAuth.Message(Sample()), [82])
  }

  lemma {:induction false} AllLetters(s: Mesh.Str)
    requires forall i :: 0 <= i < |s| ==> s[i] == 65
    ensures RouteAuth.Letters(s) == |s|
  {
    if s != [] {
      AllLetters(s[1..]);
    }
  }

  lemma SampleRouteIsValid(expiresAt: int, now: int)
    requires now < expiresAt && expiresAt != Mesh.ZERO_TIME
    ensures Mesh.ValidRoute(SampleRoute(expiresAt), now)
  {
    var r := SampleRoute(expiresAt);
    assert Mesh.Node(r, 0) == [65] && Mesh.Node(r, 1) == [82] && Mesh.Node(r, 2) == [67];
    assert Mesh.GoodHop(r, 0) && Mesh.GoodHop(r, 1);
  }

  lemma SampleJtiDecodes()
    ensures RouteAuth.DecodesTo16(SampleJti())
  {
    AllLetters(SampleJti());
  }

  lemma LetterIsNotBlank(b: nat)
    requires 0x21 <= b < 0x80
    ensures !Mesh.Blank([b])
  {
  }

  /** Syntax, clause by clause. */
  lemma WellFormed(a: RouteAuth.Authorization)
    requires |a.keyId| == 1 && 0x21 <= a.keyId[0] < 0x80 && |a.claims.router| == 1 && 0x21 <= a.claims.router[0] < 0x80
    requires var c := a.claims;
      && c.version == RouteAuth.VERSION && c.issuer == RouteAuth.ISSUER && c.audience == RouteAuth.AUDIENCE
      && c.permission == RouteAuth.PERMISSION && RouteAuth.TimesFit(c) && RouteAuth.DecodesTo16(c.jti)
      && c.expiresMs - c.issuedAtMs <= RouteAuth.MAX_LIFETIME_MS
      && c.route == SampleRoute(c.expiresMs * NANOS_PER_MILLI) && c.router == [82]
    requires a.claims.expiresMs > 1
    ensures RouteAuth.Syntax(a)
  {
    LetterIsNotBlank(a.keyId[0]);
    LetterIsNotBlank(82);
    assert a.keyId == [a.keyId[0]];
    var c := a.claims;
    SampleRouteIsValid(c.expiresMs * NANOS_PER_MILLI, c.expiresMs * NANOS_PER_MILLI - NANOS_PER_MILLI);
  }

  lemma SampleIsEncodable()
    ensures RouteAuth.Encodable(Sample())
  {
    SampleJtiDecodes();
    WellFormed(Sample());
    RouteAuth.ShortIsEncodable(Sample());
  }

  lemma SampleBinds(r: Mesh.Route)
    requires r == SampleRoute(EXPIRES_MS * NANOS_PER_MILLI + 1)
    ensures RouteAuth.Binds(Sample().claims, r, [82])
  {
  }

  lemma SampleIsAuthorized(a: RouteAuth.Authorization, verifies: (Mesh.Str, Mesh.Str) -> bool, r: Mesh.Route)
    requires RouteAuth.Encodable(a) && verifies(RouteAuth.Message(a), a.signature) && a.keyId == [75]
    requires a.claims.issuedAtMs == 500 && a.claims.expiresMs == EXPIRES_MS && RouteAuth.Binds(a.claims, r, [82])
    requires r == SampleRoute(EXPIRES_MS * NANOS_PER_MILLI + 1)
    ensures RouteAuth.Verify([75], verifies, a, r, [82], 500 * NANOS_PER_MILLI).Authorized?
  {
    LetterIsNotBlank(75);
    SampleRouteIsValid(r.expiresAt, 500 * NANOS_PER_MILLI);
  }

  lemma SampleJtiIsValid()
    ensures Replay.ValidJti(Text(SampleJti()))
  {
  }

  /** A router whose scheme verifies one authorization, whose route lives a nanosecond longer than the
      authorization, dials on it twice. */
  lemma SampleIsDialedTwice() returns (schedule: seq<Action>)
    ensures var s := Run(SampleRouter(), Init(500 * NANOS_PER_MILLI), schedule);
      && 0 in s.attempts && 1 in s.attempts && s.attempts[0].Dialed? && s.attempts[1].Dialed?
      && s.attempts[0].a == s.attempts[1].a == Sample()
  {
    var r := SampleRoute(EXPIRES_MS * NANOS_PER_MILLI + 1);
    SampleIsEncodable();
    SampleBinds(r);
    SampleIsAuthorized(Sample(), SampleRouter().verifies, r);
    SampleJtiIsValid();
    schedule := DialedTwice(SampleRouter(), Sample(), r, 500 * NANOS_PER_MILLI);
  }
}
