/** The router's admission slots and counters over concurrent routed sessions and policy changes.
    Each step of a session is one critical section or one outside call of prepareForward. */
module Forwarder {
  import opened Mesh

  datatype Policy = Policy(enabled: bool, publicRouting: bool, maxSessions: int, maxBandwidth: int, lanOnly: bool)
  {
    predicate Valid() { maxSessions >= 0 && maxBandwidth >= 0 && (publicRouting ==> enabled) }
  }

  /** saturatingAddUint64 */
  function SatAdd(a: nat, b: nat): (r: nat)
    requires a <= MAX_UINT64 && b <= MAX_UINT64
    ensures r == if a + b > MAX_UINT64 then MAX_UINT64 else a + b
  {
    if MAX_UINT64 - a < b then MAX_UINT64 else a + b
  }

  /** The bytes one session counts for: both directions, negative counts ignored. */
  function Counted(toDestination: int, toSource: int): nat
  {
    (if toDestination > 0 then toDestination else 0) + (if toSource > 0 then toSource else 0)
  }

  function Saturated(total: nat): nat { if total > MAX_UINT64 then MAX_UINT64 else total }

  // ----- one session -----

  datatype Phase =
    | Arrived
    | Checked(policy: Policy)      // policy snapshot taken, route and links checked against it
    | Admitted                     // holds a slot, not yet authorized
    | Authorized                   // may dial
    | Dialed                       // destination link verified
    | Forwarding
    | Counting                     // copying ended and was recorded, slot not yet released
    | Ended

  predicate HoldsSlot(p: Phase) { p.Admitted? || p.Authorized? || p.Dialed? || p.Forwarding? || p.Counting? }

  /** Counters as in Forwarder. The remaining fields record history: `dialed` lists the sessions for
      which DialNext was called, `authorized` those whose authorization had succeeded, `admissions`
      the active count after each admission with that session's limit, and `recorded` the byte counts. */
  datatype Router = Router(
    policy: Policy, active: int, bytesForwarded: nat, sessionsForwarded: nat,
    sessions: map<nat, Phase>,
    authorized: set<nat>, dialed: set<nat>, admissions: seq<(int, int)>, recorded: seq<nat>)

  datatype Action =
    | SetPolicy(policy: Policy)
    | Arrive(id: nat)
    | Snapshot(id: nat, checksPass: bool, overLan: bool)
    | Acquire(id: nat)
    | Authorize(id: nat, ok: bool)
    | Dial(id: nat, ok: bool, contextOk: bool)
    | Answer(id: nat, ok: bool)                       // the route-open acceptance is written
    | Finish(id: nat, toDestination: int, toSource: int)
    | Release(id: nat)

  function PhaseOf(r: Router, id: nat): Phase { if id in r.sessions then r.sessions[id] else Ended }

  function Move(r: Router, id: nat, p: Phase): Router { r.(sessions := r.sessions[id := p]) }

  /** A failure after admission: release the slot, end the session. */
  function Drop(r: Router, id: nat): Router { Move(r.(active := r.active - 1), id, Ended) }

  function Do(r: Router, a: Action): Router
  {
    match a
    case SetPolicy(p) => if p.Valid() then r.(policy := p) else r
    case Arrive(id) => if id in r.sessions then r else Move(r, id, Arrived)
    case Snapshot(id, checksPass, overLan) =>
      if !PhaseOf(r, id).Arrived? then r
      else if !r.policy.Valid() || !r.policy.enabled || !checksPass ||
              (r.policy.lanOnly && !overLan) then Move(r, id, Ended)
      else Move(r, id, Checked(r.policy))
    case Acquire(id) =>
      if !PhaseOf(r, id).Checked? then r
      else
        var limit := PhaseOf(r, id).policy.maxSessions;
        if limit > 0 && r.active >= limit then Move(r, id, Ended)
        else Move(r.(active := r.active + 1, admissions := r.admissions + [(r.active + 1, limit)]), id, Admitted)
    case Authorize(id, ok) =>
      if !PhaseOf(r, id).Admitted? then r
      else if ok then Move(r.(authorized := r.authorized + {id}), id, Authorized)
      else Drop(r, id)
    case Dial(id, ok, contextOk) =>
      if !PhaseOf(r, id).Authorized? then r
      else if !contextOk then Drop(r, id)
      else
        var r' := r.(dialed := r.dialed + {id});
        if ok then Move(r', id, Dialed) else Drop(r', id)
    case Answer(id, ok) =>
      if !PhaseOf(r, id).Dialed? then r
      else if !ok then Drop(r, id)
      else Move(r.(sessionsForwarded := if r.sessionsForwarded < MAX_UINT64 then r.sessionsForwarded + 1
                                   else r.sessionsForwarded), id, Forwarding)
    case Finish(id, d, s) =>
      if !PhaseOf(r, id).Forwarding? then r
      else
        var bytes := SatAdd(Saturated(if d > 0 then d else 0), Saturated(if s > 0 then s else 0));
        Move(r.(bytesForwarded := SatAdd(Saturated(r.bytesForwarded), bytes),
                recorded := r.recorded + [Counted(d, s)]), id, Counting)
    case Release(id) => if PhaseOf(r, id).Counting? then Drop(r, id) else r
  }

  function Run(r: Router, schedule: seq<Action>): Router
    decreases |schedule|
  {
    if schedule == [] then r else Run(Do(r, schedule[0]), schedule[1..])
  }

  function NewRouter(p: Policy): Router { Router(p, 0, 0, 0, map[], {}, {}, [], []) }

  // ----- invariant -----

  function Holders(sessions: map<nat, Phase>): set<nat>
  {
    set id | id in sessions && HoldsSlot(sessions[id])
  }

  function Sum(s: seq<nat>): nat { if s == [] then 0 else Sum(s[..|s| - 1]) + s[|s| - 1] }

  predicate Past(p: Phase) { p.Authorized? || p.Dialed? || p.Forwarding? || p.Counting? }

  predicate SlotsExact(r: Router) { r.active == |Holders(r.sessions)| }

  predicate BytesExact(r: Router)
  {
    r.bytesForwarded == Saturated(Sum(r.recorded)) && r.sessionsForwarded <= MAX_UINT64
  }

  predicate OrderOk(r: Router)
  {
    && r.dialed <= r.authorized
    && (forall id :: id in r.sessions && Past(r.sessions[id]) ==> id in r.authorized)
    && (forall i :: 0 <= i < |r.admissions| ==> r.admissions[i].1 > 0 ==> r.admissions[i].0 <= r.admissions[i].1)
  }

  predicate Inv(r: Router) { SlotsExact(r) && BytesExact(r) && OrderOk(r) }

  lemma MoveHolders(r: Router, id: nat, p: Phase)
    ensures Holders(Move(r, id, p).sessions) ==
      if HoldsSlot(p) then Holders(r.sessions) + {id} else Holders(r.sessions) - {id}
    ensures |Holders(Move(r, id, p).sessions)| ==
      |Holders(r.sessions)| + (if HoldsSlot(p) then 1 else 0) - (if HoldsSlot(PhaseOf(r, id)) then 1 else 0)
  {
    var h := Holders(r.sessions);
    assert Holders(Move(r, id, p).sessions) == if HoldsSlot(p) then h + {id} else h - {id};
    assert id in h <==> HoldsSlot(PhaseOf(r, id));
    assert |h + {id}| == |h| + if id in h then 0 else 1;
  }

  function SlotOf(p: Phase): int { if HoldsSlot(p) then 1 else 0 }

  /** A step moves at most one session, and the counter follows that session's slot. */
  lemma CounterFollows(r: Router, a: Action)
    requires !a.SetPolicy?
    ensures var r' := Do(r, a);
      r' == r ||
      (r'.sessions == r.sessions[a.id := PhaseOf(r', a.id)] &&
       r'.active - r.active == SlotOf(PhaseOf(r', a.id)) - SlotOf(PhaseOf(r, a.id)))
  {
  }

  lemma SlotsKeep(r: Router, a: Action)
    requires SlotsExact(r)
    ensures SlotsExact(Do(r, a))
  {
    if !a.SetPolicy? {
      CounterFollows(r, a);
      MoveHolders(r, a.id, PhaseOf(Do(r, a), a.id));
    }
  }

  lemma BytesKeep(r: Router, a: Action)
    requires BytesExact(r)
    ensures BytesExact(Do(r, a))
  {
    if a.Finish? {
      var s := r.recorded + [Counted(a.toDestination, a.toSource)];
      assert s[..|s| - 1] == r.recorded;
    }
  }

  lemma OrderKeeps(r: Router, a: Action)
    requires OrderOk(r)
    ensures OrderOk(Do(r, a))
  {
  }

  lemma {:induction false} RunKeeps(r: Router, schedule: seq<Action>)
    requires Inv(r)
    ensures Inv(Run(r, schedule))
    decreases |schedule|
  {
    if schedule != [] {
      SlotsKeep(r, schedule[0]);
      BytesKeep(r, schedule[0]);
      OrderKeeps(r, schedule[0]);
      RunKeeps(Do(r, schedule[0]), schedule[1..]);
    }
  }

  // ----- the promises, over every interleaving of sessions and policy changes -----

  /** `active` is exactly the number of sessions between admission and release, so every failure path
      releases exactly once; every admission respected the limit of its own policy snapshot; DialNext
      runs only for sessions whose authorization succeeded; and `bytesForwarded` is the true total,
      capped at 2^64 - 1. */
  lemma AdmissionIsExact(p: Policy, schedule: seq<Action>)
    ensures var r := Run(NewRouter(p), schedule);
      && r.active == |Holders(r.sessions)|
      && r.dialed <= r.authorized
      && (forall i :: 0 <= i < |r.admissions| && r.admissions[i].1 > 0 ==> r.admissions[i].0 <= r.admissions[i].1)
      && r.bytesForwarded == Saturated(Sum(r.recorded))
  {
    assert Holders(NewRouter(p).sessions) == {};
    RunKeeps(NewRouter(p), schedule);
  }

  /** When every session has ended, every slot has been returned. */
  lemma NoSlotLeaks(p: Policy, schedule: seq<Action>)
    ensures var r := Run(NewRouter(p), schedule);
      (forall id :: id in r.sessions ==> r.sessions[id].Ended?) ==> r.active == 0
  {
    AdmissionIsExact(p, schedule);
    var r := Run(NewRouter(p), schedule);
    if forall id :: id in r.sessions ==> r.sessions[id].Ended? {
      assert Holders(r.sessions) == {};
    }
  }

  /** Two routers whose sessions recorded the same byte counts show the same total, in whatever order the
      sessions ended and whatever else happened: saturation loses nothing that order could bring back. */
  lemma TotalIsOrderFree(p: Policy, q: Policy, first: seq<Action>, second: seq<Action>)
    ensures var r, s := Run(NewRouter(p), first), Run(NewRouter(q), second);
      multiset(r.recorded) == multiset(s.recorded) ==> r.bytesForwarded == s.bytesForwarded
  {
    AdmissionIsExact(p, first);
    AdmissionIsExact(q, second);
    var r, s := Run(NewRouter(p), first), Run(NewRouter(q), second);
    if multiset(r.recorded) == multiset(s.recorded) {
      SumIsOrderFree(r.recorded, s.recorded);
    }
  }

  lemma {:induction false} SumIsOrderFree(s: seq<nat>, t: seq<nat>)
    requires multiset(s) == multiset(t)
    ensures Sum(s) == Sum(t)
    decreases |s|
  {
    if s == [] {
      assert |t| == |multiset(t)| == |multiset(s)|;
    } else {
      var x, init := s[|s| - 1], s[..|s| - 1];
      assert s == init + [x];
      assert x in multiset(t);
      var k :| 0 <= k < |t| && t[k] == x;
      var rest := t[..k] + t[k + 1..];
      RemoveAt(t, k);
      RemoveAt(s, |s| - 1);
      assert s[..|s| - 1] + s[|s|..] == init;
      SumIsOrderFree(init, rest);
      SumRemove(t, k);
    }
  }

  lemma RemoveAt(t: seq<nat>, k: nat)
    requires k < |t|
    ensures multiset(t[..k] + t[k + 1..]) == multiset(t) - multiset{t[k]}
  {
    assert t == t[..k] + [t[k]] + t[k + 1..];
    assert multiset(t) == multiset(t[..k]) + multiset{t[k]} + multiset(t[k + 1..]);
  }

  lemma {:induction false} SumRemove(t: seq<nat>, k: nat)
    requires k < |t|
    ensures Sum(t) == Sum(t[..k] + t[k + 1..]) + t[k]
    decreases |t|
  {
    var last := |t| - 1;
    if k == last {
      assert t[..k] + t[k + 1..] == t[..last];
    } else {
      var u := t[..k] + t[k + 1..];
      assert u[..|u| - 1] == t[..last][..k] + t[..last][k + 1..];
      assert u[|u| - 1] == t[last];
      SumRemove(t[..last], k);
    }
  }

  // ----- the object of forwarder.go -----

  /** What the outside world answers while one route is prepared. */
  datatype Setup = Setup(checksPass: bool, overLan: bool, authorizes: bool, contextOk: bool, dials: bool)

  /** Everything that must hold before DialNext is called, the authorizer's consent included. */
  predicate MayDial(p: Policy, active: int, x: Setup)
  {
    && p.Valid() && p.enabled && x.checksPass && (p.lanOnly ==> x.overLan)
    && (p.maxSessions <= 0 || active < p.maxSessions)
    && x.authorizes && x.contextOk
  }

  class ForwarderObject {
    var policy: Policy
    var active: int
    var bytesForwarded: nat
    var sessionsForwarded: nat

    constructor (p: Policy)
      ensures policy == p && active == 0 && bytesForwarded == 0 && sessionsForwarded == 0
    {
      policy, active, bytesForwarded, sessionsForwarded := p, 0, 0, 0;
    }

    method ReplacePolicy(p: Policy) returns (ok: bool)
      modifies this`policy
      ensures ok <==> p.Valid()
      ensures policy == if ok then p else old(policy)
    {
      ok := p.Valid();
      if ok {
        policy := p;
      }
    }

    method AcquireSession(maxSessions: int) returns (ok: bool)
      modifies this`active
      ensures ok <==> maxSessions <= 0 || old(active) < maxSessions
      ensures active == old(active) + (if ok then 1 else 0)
      ensures ok && maxSessions > 0 ==> active <= maxSessions
    {
      if maxSessions > 0 && active >= maxSessions {
        return false;
      }
      active := active + 1;
      return true;
    }

    method ReleaseSession()
      modifies this`active
      ensures active == old(active) - 1
    {
      active := active - 1;
    }

    method BeginForwarding()
      requires sessionsForwarded <= MAX_UINT64
      modifies this`sessionsForwarded
      ensures sessionsForwarded == Saturated(old(sessionsForwarded) + 1)
    {
      if sessionsForwarded != MAX_UINT64 {
        sessionsForwarded := sessionsForwarded + 1;
      }
    }

    method RecordForwardResult(toDestination: int, toSource: int)
      requires bytesForwarded <= MAX_UINT64 && toDestination <= MAX_UINT64 && toSource <= MAX_UINT64
      modifies this`bytesForwarded
      ensures bytesForwarded == Saturated(old(bytesForwarded) + Counted(toDestination, toSource))
    {
      var bytes := 0;
      if toDestination > 0 {
        bytes := toDestination;
      }
      if toSource > 0 {
        bytes := SatAdd(bytes, toSource);
      }
      bytesForwarded := SatAdd(bytesForwarded, bytes);
    }

    /** prepareForward: the caller owns a slot exactly when it succeeds, whatever fails on the way, and
        the destination is dialed only after the authorizer agreed. */
    method PrepareForward(x: Setup) returns (ok: bool, dialed: bool)
      modifies this`active
      ensures active == old(active) + (if ok then 1 else 0)
      ensures dialed <==> MayDial(policy, old(active), x)
      ensures ok <==> dialed && x.dials
      ensures ok && policy.maxSessions > 0 ==> active <= policy.maxSessions
    {
      ok, dialed := false, false;
      var snapshot := policy;
      if !snapshot.Valid() || !snapshot.enabled || !x.checksPass {
        return;
      }
      if snapshot.lanOnly && !x.overLan {
        return;
      }
      var acquired := AcquireSession(snapshot.maxSessions);
      if !acquired {
        return;
      }
      if !x.authorizes {
        ReleaseSession();
        return;
      }
      if !x.contextOk {
        ReleaseSession();
        return;
      }
      dialed := true;
      if !x.dials {
        ReleaseSession();
        return;
      }
      ok := true;
    }
  }
}
