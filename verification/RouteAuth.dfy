/** Signed single-use route authorizations: syntax, the canonical signed message, exact route binding
    and verification. The signature scheme is any relation `verifies` between messages and signatures. */
module RouteAuth {
  import opened BigEndian
  import opened Common
  import opened Mesh
  import opened Protocol

  const INT64_MAX: int := 0x7FFF_FFFF_FFFF_FFFF
  const MAX_LIFETIME_MS: int := 120_000
  const MAX_KEY_ID: nat := 128

  function Ascii(s: string): Str { seq(|s|, i requires 0 <= i < |s| => (s[i] as int) % 256) }

  const VERSION: int := 1
  const ISSUER: Str := Ascii("wedecent-control-plane")
  const AUDIENCE: Str := Ascii("wedecent-mesh-router")
  const PERMISSION: Str := Ascii("mesh.forward")
  const DOMAIN: Str := Ascii("wedecent-mesh-forward-v1")

  datatype Claims = Claims(
    version: int, issuer: Str, audience: Str, permission: Str, jti: Str, router: Str,
    route: Route, issuedAtMs: int, expiresMs: int)

  datatype Authorization = Authorization(keyId: Str, claims: Claims, signature: Str)

  /** Time.UnixMilli */
  function Millis(t: int): int { t / NANOS_PER_MILLI }

  /** base64.RawURLEncoding.DecodeString yields 16 bytes: 22 alphabet characters, CR and LF ignored. */
  predicate Alphabet(b: Byte)
  {
    65 <= b <= 90 || 97 <= b <= 122 || 48 <= b <= 57 || b == 45 || b == 95
  }

  function Letters(s: Str): nat
  {
    if s == [] then 0 else (if s[0] == 10 || s[0] == 13 then 0 else 1) + Letters(s[1..])
  }

  predicate DecodesTo16(s: Str)
  {
    Letters(s) == 22 && forall i :: 0 <= i < |s| ==> s[i] == 10 || s[i] == 13 || Alphabet(s[i])
  }

  /** Timestamps are int64 milliseconds. */
  predicate TimesFit(c: Claims) { 0 < c.issuedAtMs < c.expiresMs <= INT64_MAX }

  /** validateRouteAuthorizationSyntax */
  predicate Syntax(a: Authorization)
  {
    var c := a.claims;
    && !Blank(a.keyId) && |a.keyId| <= MAX_KEY_ID && 9 !in a.keyId && 10 !in a.keyId && 13 !in a.keyId
    && c.version == VERSION && c.issuer == ISSUER && c.audience == AUDIENCE && c.permission == PERMISSION
    && !Blank(c.router) && TimesFit(c)
    && DecodesTo16(c.jti)
    && ValidRoute(c.route, c.expiresMs * NANOS_PER_MILLI - NANOS_PER_MILLI)
    && |c.route.hops| == 2 && CostsFit(c.route.hops)
    && c.route.hops[0].from == c.route.source && c.route.hops[0].to == c.router
    && c.route.hops[1].from == c.router && c.route.hops[1].to == c.route.destination
    && c.route.expiresAt == c.expiresMs * NANOS_PER_MILLI
    && c.expiresMs - c.issuedAtMs <= MAX_LIFETIME_MS
  }

  // ----- the signed message -----

  /** One field of the message: a length-prefixed string or a fixed-width integer. */
  datatype Field = Text(s: Str) | Word(w: nat) | Long(l: nat)

  predicate Fits(f: Field)
  {
    match f
    case Text(s) => |s| < UINT32
    case Word(w) => w < UINT32
    case Long(l) => l < UINT64
  }

  function EncodeField(f: Field): Str
  {
    match f
    case Text(s) => Put32(|s|) + s
    case Word(w) => Put32(w)
    case Long(l) => Put32(l / UINT32) + Put32(l % UINT32)
  }

  function Encode(fs: seq<Field>): Str
  {
    if fs == [] then [] else EncodeField(fs[0]) + Encode(fs[1..])
  }

  predicate SameShape(a: Field, b: Field)
  {
    (a.Text? <==> b.Text?) && (a.Word? <==> b.Word?) && (a.Long? <==> b.Long?)
  }

  lemma Put32Injective(a: nat, b: nat)
    requires a < UINT32 && b < UINT32 && Put32(a) == Put32(b)
    ensures a == b
  {
    GetPut(a);
    GetPut(b);
  }

  /** No content can move a field boundary: the first field and the rest are both determined. */
  lemma FieldIsPrefixFree(a: Field, b: Field, x: Str, y: Str)
    requires Fits(a) && Fits(b) && SameShape(a, b)
    requires EncodeField(a) + x == EncodeField(b) + y
    ensures a == b && x == y
  {
    var p, q := EncodeField(a) + x, EncodeField(b) + y;
    assert p[..4] == q[..4];
    match a
    case Text(s) =>
      assert p[..4] == Put32(|s|) && q[..4] == Put32(|b.s|);
      Put32Injective(|s|, |b.s|);
      assert s == p[4..4 + |s|] && b.s == q[4..4 + |s|];
      assert x == p[4 + |s|..] && y == q[4 + |s|..];
    case Word(w) =>
      assert p[..4] == Put32(w) && q[..4] == Put32(b.w);
      Put32Injective(w, b.w);
      assert x == p[4..] && y == q[4..];
    case Long(l) =>
      assert p[..4] == Put32(l / UINT32) && q[..4] == Put32(b.l / UINT32);
      assert p[4..8] == Put32(l % UINT32) && q[4..8] == Put32(b.l % UINT32);
      Put32Injective(l / UINT32, b.l / UINT32);
      Put32Injective(l % UINT32, b.l % UINT32);
      assert x == p[8..] && y == q[8..];
  }

  /** Encoding is injective on every list of fields of one shape. */
  lemma {:induction false} EncodeInjective(fs: seq<Field>, gs: seq<Field>)
    requires |fs| == |gs|
    requires forall i :: 0 <= i < |fs| ==> Fits(fs[i]) && Fits(gs[i]) && SameShape(fs[i], gs[i])
    requires Encode(fs) == Encode(gs)
    ensures fs == gs
    decreases |fs|
  {
    if fs != [] {
      FieldIsPrefixFree(fs[0], gs[0], Encode(fs[1..]), Encode(gs[1..]));
      EncodeInjective(fs[1..], gs[1..]);
    }
  }

  /** The fields of the message before the hops, in order. */
  function Header(a: Authorization): seq<Field>
  {
    var c := a.claims;
    [Text(DOMAIN), Word(Unsigned(c.version, UINT32)),
     Text(a.keyId), Text(c.issuer), Text(c.audience), Text(c.permission), Text(c.jti), Text(c.router),
     Text(c.route.id), Text(c.route.source), Text(c.route.destination),
     Long(Unsigned(c.issuedAtMs, UINT64)), Long(Unsigned(c.expiresMs, UINT64)),
     Long(Unsigned(Millis(c.route.expiresAt), UINT64)), Word(|c.route.hops| % UINT32)]
  }

  function HopFields(h: Hop): seq<Field> { [Text(h.from), Text(h.to), Text(h.transport), Long(h.cost % UINT64)] }

  function AllHopFields(hops: seq<Hop>): seq<Field>
  {
    if hops == [] then [] else AllHopFields(hops[..|hops| - 1]) + HopFields(hops[|hops| - 1])
  }

  /** Go's conversion to an unsigned integer of the given size. */
  function Unsigned(v: int, size: nat): nat
    requires size > 0
  {
    v % size
  }

  function Fields(a: Authorization): seq<Field> { Header(a) + AllHopFields(a.claims.route.hops) }

  predicate Encodable(a: Authorization)
  {
    Syntax(a) && forall i :: 0 <= i < |Fields(a)| ==> Fits(Fields(a)[i])
  }

  /** routeAuthorizationMessage, as a value. */
  function Message(a: Authorization): Str { Encode(Fields(a)) }

  lemma TwoHopFields(hops: seq<Hop>)
    requires |hops| == 2
    ensures AllHopFields(hops) == HopFields(hops[0]) + HopFields(hops[1])
  {
    assert hops[..1][..0] == [];
    assert AllHopFields(hops[..1]) == AllHopFields([]) + HopFields(hops[0]);
  }

  lemma FieldsAt(a: Authorization)
    requires Syntax(a)
    ensures |Fields(a)| == 23
    ensures Fields(a)[..15] == Header(a)
    ensures Fields(a)[15..19] == HopFields(a.claims.route.hops[0])
    ensures Fields(a)[19..] == HopFields(a.claims.route.hops[1])
  {
    TwoHopFields(a.claims.route.hops);
  }

  lemma SameShapes(a: Authorization, b: Authorization, i: nat)
    requires Syntax(a) && Syntax(b) && i < 23
    ensures |Fields(a)| == |Fields(b)| == 23 && SameShape(Fields(a)[i], Fields(b)[i])
  {
    FieldsAt(a);
    FieldsAt(b);
    if i < 15 {
      assert Fields(a)[i] == Fields(a)[..15][i] && Fields(b)[i] == Fields(b)[..15][i];
    } else if i < 19 {
      assert Fields(a)[i] == Fields(a)[15..19][i - 15] && Fields(b)[i] == Fields(b)[15..19][i - 15];
    } else {
      assert Fields(a)[i] == Fields(a)[19..][i - 19] && Fields(b)[i] == Fields(b)[19..][i - 19];
    }
  }

  lemma HopFieldsInjective(g: Hop, h: Hop)
    requires g.cost <= MAX_UINT64 && h.cost <= MAX_UINT64 && HopFields(g) == HopFields(h)
    ensures g == h
  {
    assert HopFields(g)[0] == HopFields(h)[0] && HopFields(g)[1] == HopFields(h)[1];
    assert HopFields(g)[2] == HopFields(h)[2] && HopFields(g)[3] == HopFields(h)[3];
  }

  lemma HeaderInjective(a: Authorization, b: Authorization)
    requires TimesFit(a.claims) && TimesFit(b.claims) && Header(a) == Header(b)
    ensures a.keyId == b.keyId && a.claims.jti == b.claims.jti && a.claims.router == b.claims.router
    ensures a.claims.route.id == b.claims.route.id && a.claims.route.source == b.claims.route.source
    ensures a.claims.route.destination == b.claims.route.destination
    ensures a.claims.issuedAtMs == b.claims.issuedAtMs && a.claims.expiresMs == b.claims.expiresMs
  {
    assert Header(a)[2] == Header(b)[2] && Header(a)[6] == Header(b)[6] && Header(a)[7] == Header(b)[7];
    assert Header(a)[8] == Header(b)[8] && Header(a)[9] == Header(b)[9] && Header(a)[10] == Header(b)[10];
    assert Header(a)[11] == Header(b)[11] && Header(a)[12] == Header(b)[12];
  }

  /** Two well-formed authorizations with the same signed bytes are the same capability: same key ID
      and same claims, route, hops, costs and times included. */
  lemma MessageInjective(a: Authorization, b: Authorization)
    requires Encodable(a) && Encodable(b) && Message(a) == Message(b)
    ensures a.keyId == b.keyId && a.claims == b.claims
  {
    FieldsAt(a);
    FieldsAt(b);
    forall i | 0 <= i < 23 ensures SameShape(Fields(a)[i], Fields(b)[i]) {
      SameShapes(a, b, i);
    }
    EncodeInjective(Fields(a), Fields(b));
    HeaderInjective(a, b);
    HopFieldsInjective(a.claims.route.hops[0], b.claims.route.hops[0]);
    HopFieldsInjective(a.claims.route.hops[1], b.claims.route.hops[1]);
    assert a.claims.route.hops == [a.claims.route.hops[0], a.claims.route.hops[1]];
    assert b.claims.route.hops == [b.claims.route.hops[0], b.claims.route.hops[1]];
  }

  // ----- writing the message -----

  datatype Buffer = Bytes(b: Str) | Unencodable

  lemma {:induction false} EncodeConcat(fs: seq<Field>, gs: seq<Field>)
    ensures Encode(fs + gs) == Encode(fs) + Encode(gs)
    decreases |fs|
  {
    if fs == [] {
      assert fs + gs == gs;
    } else {
      assert (fs + gs)[1..] == fs[1..] + gs;
      EncodeConcat(fs[1..], gs);
    }
  }

  /** writeRouteAuthorizationString and the integer writers: one field appended to the buffer. */
  method WriteField(b: Str, f: Field, ghost done: seq<Field>) returns (r: Buffer)
    requires b == Encode(done) && (f.Text? || Fits(f))
    ensures r.Unencodable? <==> !Fits(f)
    ensures r.Bytes? ==> r.b == Encode(done + [f])
  {
    EncodeConcat(done, [f]);
    assert Encode([f]) == EncodeField(f) + Encode([]);
    match f
    case Text(s) =>
      if |s| >= UINT32 {
        return Unencodable;
      }
      return Bytes(b + (Put32(|s|) + s));
    case Word(w) => return Bytes(b + Put32(w));
    case Long(l) => return Bytes(b + (Put32(l / UINT32) + Put32(l % UINT32)));
  }

  lemma NumbersFit(a: Authorization, i: nat)
    requires Syntax(a) && i < |Fields(a)|
    ensures Fields(a)[i].Text? || Fits(Fields(a)[i])
  {
    FieldsAt(a);
    if i < 15 {
      assert Fields(a)[i] == Fields(a)[..15][i];
    } else if i < 19 {
      assert Fields(a)[i] == Fields(a)[15..19][i - 15];
    } else {
      assert Fields(a)[i] == Fields(a)[19..][i - 19];
    }
  }

  predicate Short(s: Str) { |s| < UINT32 }

  predicate ShortHop(h: Hop) { Short(h.from) && Short(h.to) && Short(h.transport) }

  /** Only a string of 4 GiB keeps a well-formed authorization from being encoded. */
  lemma ShortIsEncodable(a: Authorization)
    requires Syntax(a) && Short(a.claims.jti) && Short(a.claims.router) && Short(a.claims.route.id)
    requires ShortHop(a.claims.route.hops[0]) && ShortHop(a.claims.route.hops[1])
    ensures Encodable(a)
  {
    FieldsAt(a);
    forall i | 0 <= i < |Fields(a)| ensures Fits(Fields(a)[i]) {
      NumbersFit(a, i);
      ShortTexts(a, i);
    }
  }

  lemma ShortTexts(a: Authorization, i: nat)
    requires Syntax(a) && Short(a.claims.jti) && Short(a.claims.router) && Short(a.claims.route.id)
    requires ShortHop(a.claims.route.hops[0]) && ShortHop(a.claims.route.hops[1]) && i < |Fields(a)|
    ensures Fields(a)[i].Text? ==> Short(Fields(a)[i].s)
  {
    FieldsAt(a);
    if i < 15 {
      assert Fields(a)[i] == Header(a)[i];
    } else if i < 19 {
      assert Fields(a)[i] == Fields(a)[15..19][i - 15];
    } else {
      assert Fields(a)[i] == Fields(a)[19..][i - 19];
    }
  }

  predicate AllFit(fs: seq<Field>) { forall i :: 0 <= i < |fs| ==> Fits(fs[i]) }

  /** Fields appended one by one, stopping at the first string that is too long. */
  method WriteFields(fs: seq<Field>) returns (r: Buffer)
    requires forall i :: 0 <= i < |fs| ==> fs[i].Text? || Fits(fs[i])
    ensures r.Bytes? <==> AllFit(fs)
    ensures r.Bytes? ==> r.b == Encode(fs)
  {
    var b: Str := [];
    for i := 0 to |fs|
      invariant AllFit(fs[..i]) && b == Encode(fs[..i])
    {
      r := WriteField(b, fs[i], fs[..i]);
      assert fs[..i + 1] == fs[..i] + [fs[i]];
      if r.Unencodable? {
        return;
      }
      b := r.b;
    }
    assert fs[..|fs|] == fs;
    r := Bytes(b);
  }

  /** routeAuthorizationMessage: an error exactly for what cannot be encoded, else the message. */
  method BuildMessage(a: Authorization) returns (r: Buffer)
    ensures r.Bytes? <==> Encodable(a)
    ensures r.Bytes? ==> r.b == Message(a)
  {
    if !Syntax(a) {
      return Unencodable;
    }
    var fs := Fields(a);
    forall i | 0 <= i < |fs| ensures fs[i].Text? || Fits(fs[i]) {
      NumbersFit(a, i);
    }
    r := WriteFields(fs);
  }

  // ----- verification -----

  datatype Decision = Authorized | BadKey | BadSyntax | BadSignature | NotYetValid | Expired | Mismatch

  /** authorizationMatchesRoute: every field equal, expiries compared in milliseconds. */
  predicate Binds(c: Claims, r: Route, router: Str)
  {
    && c.router == router && c.route.id == r.id && c.route.source == r.source
    && c.route.destination == r.destination && c.route.hops == r.hops
    && Millis(c.route.expiresAt) == Millis(r.expiresAt)
  }

  method MatchesRoute(c: Claims, r: Route, router: Str) returns (ok: bool)
    ensures ok <==> Binds(c, r, router)
  {
    if c.router != router || c.route.id != r.id || c.route.source != r.source || c.route.destination != r.destination {
      return false;
    }
    if Millis(c.route.expiresAt) != Millis(r.expiresAt) || |c.route.hops| != |r.hops| {
      return false;
    }
    for i := 0 to |r.hops|
      invariant forall k :: 0 <= k < i ==> c.route.hops[k] == r.hops[k]
    {
      var want, got := c.route.hops[i], r.hops[i];
      if want.from != got.from || want.to != got.to || want.transport != got.transport || want.cost != got.cost {
        return false;
      }
    }
    return true;
  }

  /** VerifyAndConsume up to the replay store, with the verifier's trimmed key ID. */
  function Verify(keyId: Str, verifies: (Str, Str) -> bool, a: Authorization, r: Route, router: Str, now: int): Decision
  {
    var nowMs := Millis(now);
    if Blank(keyId) then BadKey
    else if !Syntax(a) then BadSyntax
    else if a.keyId != keyId || !Encodable(a) || !verifies(Message(a), a.signature) then BadSignature
    else if a.claims.issuedAtMs > nowMs then NotYetValid
    else if a.claims.expiresMs <= nowMs then Expired
    else if !ValidRoute(r, now) || !Binds(a.claims, r, router) then Mismatch
    else Authorized
  }

  /** If only messages of issued authorizations verify, then an accepted route is one that was signed:
      the same router, ID, ends and hops, and the same expiry to the millisecond, used within its
      lifetime of at most two minutes. */
  lemma AcceptedRouteWasSigned(keyId: Str, verifies: (Str, Str) -> bool, issued: set<Authorization>,
                               a: Authorization, r: Route, router: Str, now: int)
    requires forall m, s :: verifies(m, s) ==> exists b :: b in issued && Encodable(b) && Message(b) == m
    requires Verify(keyId, verifies, a, r, router, now).Authorized?
    ensures exists b :: b in issued && b.keyId == keyId && b.claims == a.claims && Binds(b.claims, r, router)
    ensures a.claims.issuedAtMs <= Millis(now) < a.claims.expiresMs <= a.claims.issuedAtMs + MAX_LIFETIME_MS
    ensures r.hops[0].to == router && r.hops[1].from == router && |r.hops| == 2
  {
    assert verifies(Message(a), a.signature);
    var b :| b in issued && Encodable(b) && Message(b) == Message(a);
    MessageInjective(a, b);
  }

  /** Re-encoding cannot mint a second use: accepted authorizations with the same signed bytes present
      the same JTI and expiry to the replay store. */
  lemma SameBytesSameUse(keyId: Str, verifies: (Str, Str) -> bool, a: Authorization, b: Authorization,
                         r: Route, q: Route, router: Str, now: int, later: int)
    requires Verify(keyId, verifies, a, r, router, now).Authorized? &&
      Verify(keyId, verifies, b, q, router, later).Authorized?
    requires Message(a) == Message(b)
    ensures a.claims.jti == b.claims.jti && a.claims.expiresMs == b.claims.expiresMs && r.hops == q.hops
  {
    MessageInjective(a, b);
  }
}
