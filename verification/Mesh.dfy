/** Routes of the mesh: structural validation, saturating cost and the lowest-cost planner. Strings
    are byte sequences as in Go; times are nanoseconds since 1970. */
module Mesh {
  import Common
  import opened Protocol

  type Str = seq<Byte>

  const MAX_HOPS: nat := 8
  const MAX_UINT64: nat := Common.UINT64 - 1
  const ZERO_TIME: int := -62_135_596_800_000_000_000  // Go's zero time.Time

  datatype Hop = Hop(from: Str, to: Str, transport: Str, cost: nat)

  datatype Route = Route(id: Str, source: Str, destination: Str, hops: seq<Hop>, expiresAt: int)

  // ----- blank strings -----

  /** unicode.IsSpace */
  predicate IsSpace(c: nat)
  {
    || 9 <= c <= 13 || c == 0x20 || c == 0x85 || c == 0xA0 || c == 0x1680 || 0x2000 <= c <= 0x200A
    || c == 0x2028 || c == 0x2029 || c == 0x202F || c == 0x205F || c == 0x3000
  }

  /** The UTF-8 encoding of a character of the basic plane. */
  function Utf8(c: nat): Str
    requires c < 0x1_0000
  {
    if c < 0x80 then [c]
    else if c < 0x800 then [0xC0 + c / 64, 0x80 + c % 64]
    else [0xE0 + c / 4096, 0x80 + c / 64 % 64, 0x80 + c % 64]
  }

  /** How many bytes the white-space character in front of `s` takes, 0 if there is none. */
  function SpaceLength(s: Str): (n: nat)
    ensures n <= |s|
  {
    if s == [] then 0
    else if s[0] == 0x20 || 9 <= s[0] <= 13 then 1
    else if |s| >= 2 && s[0] == 0xC2 && (s[1] == 0x85 || s[1] == 0xA0) then 2
    else if |s| < 3 then 0
    else if s[0] == 0xE1 && s[1] == 0x9A && s[2] == 0x80 then 3
    else if s[0] == 0xE2 && s[1] == 0x80 && (0x80 <= s[2] <= 0x8A || s[2] in [0xA8, 0xA9, 0xAF]) then 3
    else if s[0] == 0xE2 && s[1] == 0x81 && s[2] == 0x9F then 3
    else if s[0] == 0xE3 && s[1] == 0x80 && s[2] == 0x80 then 3
    else 0
  }

  /** strings.TrimSpace(s) == "": one white-space character after the other, to the end. */
  predicate Blank(s: Str)
    decreases |s|
  {
    s == [] || (SpaceLength(s) > 0 && Blank(s[SpaceLength(s)..]))
  }

  predicate AllSpaces(cs: seq<nat>) { forall i :: 0 <= i < |cs| ==> IsSpace(cs[i]) }

  function Utf8All(cs: seq<nat>): Str
    requires AllSpaces(cs)
  {
    if cs == [] then [] else Utf8(cs[0]) + Utf8All(cs[1..])
  }

  /** The character in front of a string that starts with white space. */
  function SpaceAt(s: Str): nat
    requires SpaceLength(s) > 0
  {
    match SpaceLength(s)
    case 1 => s[0]
    case 2 => s[1]
    case _ =>
      var a: int, b: int, c: int := s[0], s[1], s[2];
      (a - 0xE0) * 4096 + (b - 0x80) * 64 + (c - 0x80)
  }

  lemma SpaceInFront(s: Str) returns (c: nat)
    requires SpaceLength(s) > 0
    ensures IsSpace(c) && |Utf8(c)| == SpaceLength(s) && s == Utf8(c) + s[|Utf8(c)|..]
  {
    c := SpaceAt(s);
    assert s[..SpaceLength(s)] == Utf8(c);
  }

  lemma OneMoreSpace(c: nat, rest: seq<nat>)
    requires IsSpace(c) && AllSpaces(rest)
    ensures AllSpaces([c] + rest) && Utf8All([c] + rest) == Utf8(c) + Utf8All(rest)
  {
    assert ([c] + rest)[1..] == rest;
  }

  lemma SpaceIsFound(c: nat, rest: Str)
    requires IsSpace(c)
    ensures SpaceLength(Utf8(c) + rest) == |Utf8(c)| > 0
  {
  }

  lemma {:induction false} SpacesAreBlank(cs: seq<nat>)
    requires AllSpaces(cs)
    ensures Blank(Utf8All(cs))
  {
    if cs != [] {
      SpaceIsFound(cs[0], Utf8All(cs[1..]));
      SpacesAreBlank(cs[1..]);
      assert Utf8All(cs)[|Utf8(cs[0])|..] == Utf8All(cs[1..]);
    }
  }

  lemma {:induction false} BlankIsSpaces(s: Str) returns (cs: seq<nat>)
    requires Blank(s)
    ensures AllSpaces(cs) && s == Utf8All(cs)
    decreases |s|
  {
    cs := [];
    if s != [] {
      var c := SpaceInFront(s);
      var rest := BlankIsSpaces(s[|Utf8(c)|..]);
      OneMoreSpace(c, rest);
      cs := [c] + rest;
    }
  }

  /** A string is blank exactly when it spells white-space characters in UTF-8. */
  lemma BlankExactly(s: Str)
    ensures Blank(s) <==> exists cs :: AllSpaces(cs) && s == Utf8All(cs)
  {
    if Blank(s) {
      var cs := BlankIsSpaces(s);
    }
    if cs :| AllSpaces(cs) && s == Utf8All(cs) {
      SpacesAreBlank(cs);
    }
  }

  // ----- what a valid route is -----

  /** The devices of the path: the source, then the far end of every hop. */
  function Node(r: Route, i: nat): Str
    requires i <= |r.hops|
  {
    if i == 0 then r.source else r.hops[i - 1].to
  }

  /** Hop `i` names devices and a transport, leaves the device reached so far and visits a new one. */
  predicate GoodHop(r: Route, i: nat)
    requires i < |r.hops|
  {
    && !Blank(r.hops[i].from) && !Blank(r.hops[i].to) && !Blank(r.hops[i].transport)
    && r.hops[i].from == Node(r, i)
    && forall k :: 0 <= k <= i ==> Node(r, k) != r.hops[i].to
  }

  predicate HeaderOk(r: Route, now: int)
  {
    && !Blank(r.id) && !Blank(r.source) && !Blank(r.destination) && r.source != r.destination
    && 1 <= |r.hops| <= MAX_HOPS && r.expiresAt != ZERO_TIME && now < r.expiresAt
  }

  predicate ValidRoute(r: Route, now: int)
  {
    && HeaderOk(r, now)
    && (forall i :: 0 <= i < |r.hops| ==> GoodHop(r, i))
    && Node(r, |r.hops|) == r.destination
  }

  /** A valid route is a simple path from its source to its destination. */
  lemma ValidRouteIsSimplePath(r: Route, now: int)
    requires ValidRoute(r, now)
    ensures r.hops[0].from == r.source && r.hops[|r.hops| - 1].to == r.destination
    ensures forall i :: 0 < i < |r.hops| ==> r.hops[i].from == r.hops[i - 1].to
    ensures forall i, j :: 0 <= i < j <= |r.hops| ==> Node(r, i) != Node(r, j)
  {
    forall i | 0 <= i < |r.hops| ensures r.hops[i].from == Node(r, i) {
      assert GoodHop(r, i);
    }
    forall i, j | 0 <= i < j <= |r.hops| ensures Node(r, i) != Node(r, j) {
      assert GoodHop(r, j - 1);
    }
  }

  datatype RouteError = BadHeader | BadHop(index: nat) | WrongEnd
  datatype Verdict = Valid | Invalid(error: RouteError)

  /** Route.Validate: accepts exactly the valid routes and reports the first hop that breaks one. */
  method Validate(r: Route, now: int) returns (v: Verdict)
    ensures v.Valid? <==> ValidRoute(r, now)
    ensures v == Invalid(BadHeader) <==> !HeaderOk(r, now)
    ensures v.Invalid? && v.error.BadHop? ==>
      v.error.index < |r.hops| && !GoodHop(r, v.error.index) && forall k :: 0 <= k < v.error.index ==> GoodHop(r, k)
  {
    if Blank(r.id) || Blank(r.source) || Blank(r.destination) || r.source == r.destination {
      return Invalid(BadHeader);
    }
    if |r.hops| == 0 || |r.hops| > MAX_HOPS || r.expiresAt == ZERO_TIME || now >= r.expiresAt {
      return Invalid(BadHeader);
    }
    var expectedFrom := r.source;
    var visited := {r.source};
    for i := 0 to |r.hops|
      invariant expectedFrom == Node(r, i)
      invariant forall s :: s in visited <==> exists k :: 0 <= k <= i && Node(r, k) == s
      invariant forall k :: 0 <= k < i ==> GoodHop(r, k)
    {
      var hop := r.hops[i];
      if Blank(hop.from) || Blank(hop.to) || Blank(hop.transport) {
        assert !GoodHop(r, i);
        return Invalid(BadHop(i));
      }
      if hop.from != expectedFrom {
        assert !GoodHop(r, i);
        return Invalid(BadHop(i));
      }
      if hop.from == hop.to {
        assert Node(r, i) == hop.to && !GoodHop(r, i);
        return Invalid(BadHop(i));
      }
      if hop.to in visited {
        assert !GoodHop(r, i);
        return Invalid(BadHop(i));
      }
      assert GoodHop(r, i) by {
        forall k | 0 <= k <= i ensures Node(r, k) != hop.to {
          assert Node(r, k) in visited;
        }
      }
      visited := visited + {hop.to};
      expectedFrom := hop.to;
      assert Node(r, i + 1) == hop.to;
    }
    if expectedFrom != r.destination {
      return Invalid(WrongEnd);
    }
    return Valid;
  }

  // ----- cost -----

  function TotalCost(hops: seq<Hop>): nat
  {
    if hops == [] then 0 else TotalCost(hops[..|hops| - 1]) + hops[|hops| - 1].cost
  }

  /** The true sum, capped at 2^64 - 1. */
  function Cost(hops: seq<Hop>): nat { Min(TotalCost(hops), MAX_UINT64) }

  predicate CostsFit(hops: seq<Hop>) { forall i :: 0 <= i < |hops| ==> hops[i].cost <= MAX_UINT64 }

  lemma {:induction false} TotalCostMonotone(hops: seq<Hop>, n: nat)
    requires n <= |hops|
    ensures TotalCost(hops[..n]) <= TotalCost(hops)
    decreases |hops|
  {
    if n < |hops| {
      TotalCostMonotone(hops[..|hops| - 1], n);
      assert hops[..|hops| - 1][..n] == hops[..n];
    } else {
      assert hops[..n] == hops;
    }
  }

  /** Route.Cost with uint64 addition: a sum that wraps is caught by becoming smaller. */
  method RouteCost(hops: seq<Hop>) returns (total: nat)
    requires CostsFit(hops)
    ensures total == Cost(hops)
  {
    total := 0;
    for i := 0 to |hops|
      invariant total == TotalCost(hops[..i]) <= MAX_UINT64
    {
      var next := (total + hops[i].cost) % (MAX_UINT64 + 1);
      assert hops[..i + 1][..i] == hops[..i];
      if next < total {
        TotalCostMonotone(hops, i + 1);
        return MAX_UINT64;
      }
      total := next;
    }
    assert hops[..|hops|] == hops;
  }

  // ----- planning -----

  datatype Request = Request(source: Str, destination: Str, candidates: seq<Route>, now: int)

  predicate Eligible(q: Request, k: nat)
    requires k < |q.candidates|
  {
    var c := q.candidates[k];
    c.source == q.source && c.destination == q.destination && ValidRoute(c, q.now)
  }

  /** Lexicographic order by cost, then by number of hops. */
  predicate Better(a: Route, b: Route)
  {
    Cost(a.hops) < Cost(b.hops) || (Cost(a.hops) == Cost(b.hops) && |a.hops| < |b.hops|)
  }

  /** Candidate `k` wins among the first `n`: nothing eligible is better, nothing earlier is as good. */
  predicate Wins(q: Request, k: nat, n: nat)
    requires k < n <= |q.candidates|
  {
    && Eligible(q, k)
    && (forall j :: 0 <= j < n && Eligible(q, j) ==> !Better(q.candidates[j], q.candidates[k]))
    && (forall j :: 0 <= j < k && Eligible(q, j) ==> Better(q.candidates[k], q.candidates[j]))
  }

  datatype Plan = Best(route: Route, index: nat) | NoRoute | BadRequest | Cancelled

  /** LowestCostPlanner.Plan; `cancelled(k)` is what the k-th look at the context returns. */
  method PlanRoute(q: Request, cancelled: nat -> bool) returns (p: Plan)
    requires forall k :: 0 <= k < |q.candidates| ==> CostsFit(q.candidates[k].hops)
    ensures p.Best? ==>
      p.index < |q.candidates| && p.route == q.candidates[p.index] && Wins(q, p.index, |q.candidates|)
    ensures p.NoRoute? ==> forall k :: 0 <= k < |q.candidates| ==> !Eligible(q, k)
    ensures p.BadRequest? <==> !cancelled(0) && (Blank(q.source) || Blank(q.destination) || q.now == ZERO_TIME)
    ensures p.Cancelled? <==> cancelled(0) || (!p.BadRequest? && exists k :: 1 <= k <= |q.candidates| && cancelled(k))
  {
    if cancelled(0) {
      return Cancelled;
    }
    if Blank(q.source) || Blank(q.destination) || q.now == ZERO_TIME {
      return BadRequest;
    }
    var best := -1;
    var bestCost := 0;
    for i := 0 to |q.candidates|
      invariant -1 <= best < i
      invariant best == -1 ==> forall k :: 0 <= k < i ==> !Eligible(q, k)
      invariant best >= 0 ==> Wins(q, best, i) && bestCost == Cost(q.candidates[best].hops)
      invariant forall k :: 1 <= k <= i ==> !cancelled(k)
    {
      if cancelled(i + 1) {
        return Cancelled;
      }
      var c := q.candidates[i];
      if c.source == q.source && c.destination == q.destination {
        var v := Validate(c, q.now);
        if v.Valid? {
          var cost := RouteCost(c.hops);
          if best == -1 || cost < bestCost || (cost == bestCost && |c.hops| < |q.candidates[best].hops|) {
            best := i;
            bestCost := cost;
          }
        }
      }
    }
    if best == -1 {
      return NoRoute;
    }
    return Best(q.candidates[best], best);
  }
}
