/** Identifier validation, record ids and storage keys of the durable handoff. */
module HandoffKeys {
  import opened Strings

  type Digest = d: seq<Byte> | |d| == 32 witness seq(32, _ => 0)

  /** SHA-256. */
  type Hasher = seq<Byte> -> Digest

  datatype Kind = Artifact | Memory
  datatype Classification = PublicDerived | TenantConfidential | UserPrivate
  datatype Retention = Temporary30d | UserManaged

  datatype Identity = Identity(runId: Text, tenantId: Text, userId: Text)

  const NUL: CodeUnit := 0
  const SLASH: CodeUnit := 0x2F

  function KindText(k: Kind): Text { Ascii(match k case Artifact => "artifact" case Memory => "memory") }

  function ClassificationText(c: Classification): Text {
    Ascii(match c
          case PublicDerived => "public_derived"
          case TenantConfidential => "tenant_confidential"
          case UserPrivate => "user_private")
  }

  function RetentionText(r: Retention): Text {
    Ascii(match r case Temporary30d => "temporary_30d" case UserManaged => "user_managed")
  }

  // ---- Validation ----

  predicate IsSegmentUnit(u: int) { IsUpper(u) || IsLower(u) || IsDigit(u) || u == 0x2E || u == 0x5F || u == 0x2D }

  predicate IsSafeSegment(s: Text) {
    1 <= |s| <= 128 && (forall i :: 0 <= i < |s| ==> IsSegmentUnit(s[i])) && s != [0x2E] && s != [0x2E, 0x2E]
  }

  predicate IsControl(u: int) { u < 0x20 || u == 0x7F }

  predicate IsOpaqueText(s: Text) {
    1 <= |s| <= 256 && !IsSpace(s[0]) && !IsSpace(s[|s| - 1]) && forall i :: 0 <= i < |s| ==> !IsControl(s[i])
  }

  predicate FitsPattern(s: Text, pattern: string) {
    && |s| == |pattern|
    && forall i :: 0 <= i < |s| ==> if pattern[i] == 'd' then IsDigit(s[i]) else s[i] == UnitOf(pattern[i])
  }

  predicate IsIsoShape(s: Text) {
    FitsPattern(s, "dddd-dd-ddTdd:dd:ddZ") || FitsPattern(s, "dddd-dd-ddTdd:dd:dd.dddZ")
  }

  predicate IsMediaUnit(u: int) {
    || IsLower(u) || IsDigit(u) || u == 0x21 || u == 0x23 || u == 0x24 || u == 0x26
    || u == 0x5E || u == 0x5F || u == 0x2E || u == 0x2B || u == 0x2D
  }

  predicate IsMediaToken(s: Text) {
    1 <= |s| <= 127 && (IsLower(s[0]) || IsDigit(s[0])) && forall i :: 0 <= i < |s| ==> IsMediaUnit(s[i])
  }

  predicate IsContentType(s: Text) {
    |s| <= 255 && exists k :: 0 <= k < |s| && s[k] == SLASH && IsMediaToken(s[..k]) && IsMediaToken(s[k + 1..])
  }

  /** Printable ASCII: what the ids, media types and ISO instants consist of. */
  predicate Plain(s: Text) { forall i :: 0 <= i < |s| ==> 0x20 < s[i] < 0x7F }

  /** What toISOString gives; years beyond four digits are signed. */
  predicate IsIsoInstant(s: Text) {
    || FitsPattern(s, "dddd-dd-ddTdd:dd:dd.dddZ")
    || FitsPattern(s, "+dddddd-dd-ddTdd:dd:dd.dddZ")
    || FitsPattern(s, "-dddddd-dd-ddTdd:dd:dd.dddZ")
  }

  /** The first instant of the clock. */
  function Epoch(): (s: Text)
    ensures IsIsoInstant(s)
  {
    Ascii("1970-01-01T00:00:00.000Z")
  }

  type IsoText = s: Text | IsIsoInstant(s) witness Epoch()

  /** A safe segment: up to 128 letters, digits, dots, underscores and hyphens, and no relative path. */
  lemma SegmentsExact(s: Text)
    ensures IsSafeSegment(s) <==>
              && 1 <= |s| <= 128 && s != Ascii(".") && s != Ascii("..")
              && forall i :: 0 <= i < |s| ==>
                   || UnitOf('A') <= s[i] <= UnitOf('Z') || UnitOf('a') <= s[i] <= UnitOf('z')
                   || UnitOf('0') <= s[i] <= UnitOf('9') || s[i] in Ascii("._-")
  {
    assert Ascii(".") == [0x2E] && Ascii("..") == [0x2E, 0x2E] && Ascii("._-") == [0x2E, 0x5F, 0x2D];
  }

  /** The characters of a media type's two tokens. */
  lemma MediaUnitsExact(u: int)
    ensures IsMediaUnit(u) <==> IsLower(u) || IsDigit(u) || u in Ascii("!#$&^_.+-")
  {
    assert Ascii("!#$&^_.+-") == [0x21, 0x23, 0x24, 0x26, 0x5E, 0x5F, 0x2E, 0x2B, 0x2D];
  }

  lemma PatternPlain(s: Text, pattern: string)
    requires FitsPattern(s, pattern) && forall i :: 0 <= i < |pattern| ==> 0x20 as char < pattern[i] < 0x7F as char
    ensures Plain(s)
  {
  }

  lemma InstantPlain(s: Text)
    requires IsIsoInstant(s)
    ensures Plain(s)
  {
    hide FitsPattern, Plain;
    if FitsPattern(s, "dddd-dd-ddTdd:dd:dd.dddZ") {
      PatternPlain(s, "dddd-dd-ddTdd:dd:dd.dddZ");
    } else if FitsPattern(s, "+dddddd-dd-ddTdd:dd:dd.dddZ") {
      PatternPlain(s, "+dddddd-dd-ddTdd:dd:dd.dddZ");
    } else {
      PatternPlain(s, "-dddddd-dd-ddTdd:dd:dd.dddZ");
    }
  }

  lemma ValidatedIsPlain(s: Text)
    ensures IsSafeSegment(s) ==> Plain(s) && SLASH !in s
    ensures IsContentType(s) ==> Plain(s)
    ensures IsOpaqueText(s) ==> NUL !in s
    ensures Plain(s) ==> NUL !in s && WellFormed(s)
  {
    if IsContentType(s) {
      var k :| 0 <= k < |s| && s[k] == SLASH && IsMediaToken(s[..k]) && IsMediaToken(s[k + 1..]);
      forall i | 0 <= i < |s| ensures 0x20 < s[i] < 0x7F {
        if i < k { assert IsMediaUnit(s[..k][i]); }
        if i > k { assert IsMediaUnit(s[k + 1..][i - k - 1]); }
      }
    }
    if Plain(s) { EncodeAscii(s); }
  }

  // ---- Digests ----

  function HexDigit(n: int): CodeUnit
    requires 0 <= n < 16
  {
    if n < 10 then 0x30 + n else 0x61 + n - 10
  }

  function Hex(bytes: seq<Byte>): (t: Text)
    ensures |t| == 2 * |bytes|
    ensures forall i :: 0 <= i < |t| ==> IsDigit(t[i]) || IsLower(t[i])
  {
    if bytes == [] then [] else [HexDigit(bytes[0] / 16), HexDigit(bytes[0] % 16)] + Hex(bytes[1..])
  }

  lemma {:induction false} HexInjective(a: seq<Byte>, b: seq<Byte>)
    requires Hex(a) == Hex(b)
    ensures a == b
  {
    assert |a| == |b|;
    if a != [] {
      assert Hex(a)[0] == HexDigit(a[0] / 16) && Hex(a)[1] == HexDigit(a[0] % 16);
      assert Hex(b)[0] == HexDigit(b[0] / 16) && Hex(b)[1] == HexDigit(b[0] % 16);
      assert Hex(a[1..]) == Hex(a)[2..] == Hex(b)[2..] == Hex(b[1..]);
      HexInjective(a[1..], b[1..]);
      assert a == [a[0]] + a[1..] && b == [b[0]] + b[1..];
    }
  }

  function HashText(d: Digest): Text { Ascii("sha256:") + Hex(d) }

  // ---- Splitting at separators ----

  lemma SplitAt(separator: int, a: seq<int>, x: seq<int>, b: seq<int>, y: seq<int>)
    requires separator !in a && separator !in b
    requires a + [separator] + x == b + [separator] + y
    ensures a == b && x == y
  {
    var u, v := a + [separator] + x, b + [separator] + y;
    assert u[|a|] == separator && v[|b|] == separator;
    assert forall i :: 0 <= i < |a| ==> u[i] == a[i];
    assert forall i :: 0 <= i < |b| ==> v[i] == b[i];
    assert |a| == |b|;
    assert a == u[..|a|] && b == v[..|b|] && x == u[|a| + 1..] && y == v[|b| + 1..];
  }

  function Join(parts: seq<Text>): Text
    requires parts != []
  {
    if |parts| == 1 then parts[0] else parts[0] + [NUL] + Join(parts[1..])
  }

  ghost predicate NulFree(parts: seq<Text>) { forall i :: 0 <= i < |parts| ==> NUL !in parts[i] }

  /** Two joined texts have the same bytes exactly when their parts do, one by one. */
  lemma {:induction false} JoinSplits(a: seq<Text>, b: seq<Text>)
    requires |a| == |b| && a != [] && NulFree(a) && NulFree(b)
    ensures Encode(Join(a)) == Encode(Join(b)) <==> forall i :: 0 <= i < |a| ==> Encode(a[i]) == Encode(b[i])
    decreases |a|
  {
    hide Encode;
    if |a| > 1 {
      JoinSplits(a[1..], b[1..]);
      EncodeAtSeparator(a[0], NUL, Join(a[1..]));
      EncodeAtSeparator(b[0], NUL, Join(b[1..]));
      EncodeKeepsOut(a[0], NUL);
      EncodeKeepsOut(b[0], NUL);
      if Encode(Join(a)) == Encode(Join(b)) {
        SplitAt(NUL, Encode(a[0]), Encode(Join(a[1..])), Encode(b[0]), Encode(Join(b[1..])));
      }
      assert forall i :: 0 < i < |a| ==> a[i] == a[1..][i - 1] && b[i] == b[1..][i - 1];
      assert forall i :: 0 <= i < |a[1..]| ==> a[1..][i] == a[i + 1] && b[1..][i] == b[i + 1];
    }
  }

  // ---- Record ids ----

  /** The parts of a record's identity, in the order they are joined. */
  datatype Parts = Parts(
    identity: Identity,
    candidateId: Text,
    kind: Kind,
    classification: Classification,
    contentType: Text,
    retention: Retention,
    decisionId: Text,
    createdAt: IsoText,
    content: Digest)

  function PartTexts(p: Parts): (texts: seq<Text>)
    ensures |texts| == 11
  {
    [p.identity.tenantId, p.identity.userId, p.identity.runId, p.candidateId, KindText(p.kind),
     ClassificationText(p.classification), p.contentType, RetentionText(p.retention), p.decisionId,
     p.createdAt, HashText(p.content)]
  }

  function Preimage(p: Parts): seq<Byte> { Encode(Join(PartTexts(p))) }

  function RecordId(sha: Hasher, p: Parts): Text { Ascii("handoff_") + Hex(sha(Preimage(p))) }

  predicate Validated(p: Parts) {
    && IsSafeSegment(p.identity.tenantId) && IsSafeSegment(p.identity.userId) && IsSafeSegment(p.identity.runId)
    && IsSafeSegment(p.candidateId) && IsContentType(p.contentType) && IsOpaqueText(p.decisionId)
  }

  lemma HashTextPlain(d: Digest)
    ensures Plain(HashText(d))
  {
    hide Hex;
    assert Plain(Ascii("sha256:"));
  }

  lemma LiteralPlain(s: string)
    requires forall i :: 0 <= i < |s| ==> 0x20 as char < s[i] < 0x7F as char
    ensures Plain(Ascii(s))
  {
  }

  lemma KindPlain(k: Kind)
    ensures Plain(KindText(k))
  {
    hide UnitOf, Plain, Ascii;
    match k { case Artifact => LiteralPlain("artifact"); case Memory => LiteralPlain("memory"); }
  }

  lemma ClassificationPlain(c: Classification)
    ensures Plain(ClassificationText(c))
  {
    hide UnitOf, Plain, Ascii;
    match c {
      case PublicDerived => LiteralPlain("public_derived");
      case TenantConfidential => LiteralPlain("tenant_confidential");
      case UserPrivate => LiteralPlain("user_private");
    }
  }

  lemma RetentionPlain(r: Retention)
    ensures Plain(RetentionText(r))
  {
    hide UnitOf, Plain, Ascii;
    match r {
      case Temporary30d => LiteralPlain("temporary_30d");
      case UserManaged => LiteralPlain("user_managed");
    }
  }

  lemma NamesDiffer(p: Parts, q: Parts)
    ensures KindText(p.kind) == KindText(q.kind) <==> p.kind == q.kind
    ensures ClassificationText(p.classification) == ClassificationText(q.classification)
            <==> p.classification == q.classification
    ensures RetentionText(p.retention) == RetentionText(q.retention) <==> p.retention == q.retention
  {
    assert |KindText(p.kind)| == (if p.kind.Artifact? then 8 else 6);
    assert |KindText(q.kind)| == (if q.kind.Artifact? then 8 else 6);
    assert |RetentionText(p.retention)| == (if p.retention.Temporary30d? then 13 else 12);
    assert |RetentionText(q.retention)| == (if q.retention.Temporary30d? then 13 else 12);
    assert |ClassificationText(p.classification)|
           == (match p.classification case PublicDerived => 14 case TenantConfidential => 19 case UserPrivate => 12);
    assert |ClassificationText(q.classification)|
           == (match q.classification case PublicDerived => 14 case TenantConfidential => 19 case UserPrivate => 12);
  }

  lemma PartsPlain(p: Parts)
    requires Validated(p)
    ensures forall i :: 0 <= i < 11 && i != 8 ==> Plain(PartTexts(p)[i])
  {
    ValidatedIsPlain(p.identity.tenantId);
    ValidatedIsPlain(p.identity.userId);
    ValidatedIsPlain(p.identity.runId);
    ValidatedIsPlain(p.candidateId);
    ValidatedIsPlain(p.contentType);
    InstantPlain(p.createdAt);
    HashTextPlain(p.content);
    KindPlain(p.kind);
    ClassificationPlain(p.classification);
    RetentionPlain(p.retention);
    hide Plain, IsSafeSegment, IsContentType, IsOpaqueText, IsIsoInstant, KindText, ClassificationText, RetentionText,
      HashText;
  }

  lemma PartsNulFree(p: Parts)
    requires Validated(p)
    ensures NulFree(PartTexts(p))
    ensures forall i :: 0 <= i < 11 && i != 8 ==> Plain(PartTexts(p)[i])
  {
    PartsPlain(p);
    ValidatedIsPlain(p.decisionId);
    var t := PartTexts(p);
    assert t[8] == p.decisionId && NUL !in t[8];
    hide Plain, Validated, PartTexts;
    forall i | 0 <= i < 11 ensures NUL !in t[i] {
      if i != 8 { PlainHasNoNul(t[i]); }
    }
  }

  lemma PlainHasNoNul(s: Text)
    ensures Plain(s) ==> NUL !in s && WellFormed(s)
  {
    ValidatedIsPlain(s);
  }

  /** The texts determine the parts. */
  lemma PartsFromTexts(p: Parts, q: Parts)
    ensures q == p.(decisionId := q.decisionId)
            <==> forall i :: 0 <= i < 11 && i != 8 ==> PartTexts(p)[i] == PartTexts(q)[i]
  {
    NamesDiffer(p, q);
    HashTextInjective(p.content, q.content);
    hide KindText, ClassificationText, RetentionText, HashText;
    var a, b := PartTexts(p), PartTexts(q);
    if forall i :: 0 <= i < 11 && i != 8 ==> a[i] == b[i] {
      assert a[0] == b[0] && a[1] == b[1] && a[2] == b[2] && a[3] == b[3] && a[4] == b[4] && a[5] == b[5]
             && a[6] == b[6] && a[7] == b[7] && a[9] == b[9] && a[10] == b[10];
    }
  }

  /** Validated parts have the same id preimage exactly when all of them are equal, except that decision
      ids are compared by their UTF-8 bytes. */
  lemma PreimageExact(p: Parts, q: Parts)
    requires Validated(p) && Validated(q)
    ensures Preimage(p) == Preimage(q) <==>
              q == p.(decisionId := q.decisionId) && Encode(p.decisionId) == Encode(q.decisionId)
  {
    var a, b := PartTexts(p), PartTexts(q);
    assert a[8] == p.decisionId && b[8] == q.decisionId;
    PartsNulFree(p);
    PartsNulFree(q);
    PartsFromTexts(p, q);
    hide Validated, PartTexts, Join, Encode, Plain, NulFree;
    JoinSplits(a, b);
    forall i | 0 <= i < 11 && i != 8 ensures Encode(a[i]) == Encode(b[i]) <==> a[i] == b[i] {
      PlainEncode(a[i], b[i]);
    }
  }

  lemma PlainEncode(a: Text, b: Text)
    requires Plain(a) && Plain(b)
    ensures Encode(a) == Encode(b) <==> a == b
  {
    PlainHasNoNul(a);
    PlainHasNoNul(b);
    if Encode(a) == Encode(b) { EncodeInjective(a, b); }
  }

  lemma HashTextInjective(d: Digest, e: Digest)
    ensures HashText(d) == HashText(e) <==> d == e
  {
    if HashText(d) == HashText(e) {
      assert HashText(d)[7..] == Hex(d) && HashText(e)[7..] == Hex(e);
      HexInjective(d, e);
    }
  }

  /** Well-formed decision ids: the preimage determines all parts. */
  lemma PreimageInjective(p: Parts, q: Parts)
    requires Validated(p) && Validated(q) && WellFormed(p.decisionId) && WellFormed(q.decisionId)
    requires Preimage(p) == Preimage(q)
    ensures p == q
  {
    PreimageExact(p, q);
    EncodeInjective(p.decisionId, q.decisionId);
  }

  /** Without that, it does not: validation admits lone surrogates, which encode alike. */
  lemma SurrogatesCollide(p: Parts)
    requires Validated(p)
    ensures var a, b := p.(decisionId := [0xD800]), p.(decisionId := [0xD801]);
            Validated(a) && Validated(b) && a != b && Preimage(a) == Preimage(b)
  {
    var a, b := p.(decisionId := [0xD800]), p.(decisionId := [0xD801]);
    assert Scalars([0xD800]) == [REPLACEMENT] + Scalars([]) && Scalars([0xD801]) == [REPLACEMENT] + Scalars([]);
    hide IsSafeSegment, IsContentType;
    PreimageExact(a, b);
  }

  /** Record ids agree only when the preimages agree or SHA-256 collides on them. */
  lemma RecordIdExact(sha: Hasher, p: Parts, q: Parts)
    ensures RecordId(sha, p) == RecordId(sha, q) <==> sha(Preimage(p)) == sha(Preimage(q))
  {
    hide Preimage;
    if RecordId(sha, p) == RecordId(sha, q) {
      assert RecordId(sha, p)[8..] == Hex(sha(Preimage(p))) && RecordId(sha, q)[8..] == Hex(sha(Preimage(q)));
      HexInjective(sha(Preimage(p)), sha(Preimage(q)));
    }
  }

  // ---- Storage keys ----

  function RootPrefix(): Text { Ascii("agent-handoff/v0/") }

  function TenantPrefix(tenantId: Text): Text { RootPrefix() + tenantId + [SLASH] }

  function RunPrefix(who: Identity): Text {
    TenantPrefix(who.tenantId) + who.userId + [SLASH] + who.runId + [SLASH]
  }

  function StorageKey(who: Identity, kind: Kind, id: Text, content: Digest): Text {
    RunPrefix(who) + KindText(kind) + [SLASH] + id + Ascii("-") + Hex(content)
  }

  predicate SlashFree(who: Identity) { SLASH !in who.tenantId && SLASH !in who.userId && SLASH !in who.runId }

  lemma KeyAfterRoot(who: Identity, rest: Text)
    ensures RunPrefix(who) + rest
            == RootPrefix() + (who.tenantId + [SLASH] + (who.userId + [SLASH] + (who.runId + [SLASH] + rest)))
  {
  }

  lemma CancelRoot(a: Text, b: Text)
    requires RootPrefix() + a == RootPrefix() + b
    ensures a == b
  {
    var n := |RootPrefix()|;
    assert a == (RootPrefix() + a)[n..] && b == (RootPrefix() + b)[n..];
  }

  /** What follows the owner's prefix decides a key, and the prefix decides the owner. */
  lemma OwnerSplits(a: Identity, x: Text, b: Identity, y: Text)
    requires SlashFree(a) && SlashFree(b) && RunPrefix(a) + x == RunPrefix(b) + y
    ensures a == b && x == y
  {
    KeyAfterRoot(a, x);
    KeyAfterRoot(b, y);
    hide RunPrefix, RootPrefix;
    var a1, b1 := a.runId + [SLASH] + x, b.runId + [SLASH] + y;
    var a2, b2 := a.userId + [SLASH] + a1, b.userId + [SLASH] + b1;
    CancelRoot(a.tenantId + [SLASH] + a2, b.tenantId + [SLASH] + b2);
    SplitAt(SLASH, a.tenantId, a2, b.tenantId, b2);
    SplitAt(SLASH, a.userId, a1, b.userId, b1);
    SplitAt(SLASH, a.runId, x, b.runId, y);
  }

  /** The part of a key behind its kind. */
  function KeyTail(id: Text, content: Digest): Text { id + Ascii("-") + Hex(content) }

  lemma KeyShape(who: Identity, kind: Kind, id: Text, content: Digest)
    ensures StorageKey(who, kind, id, content) == RunPrefix(who) + (KindText(kind) + [SLASH] + KeyTail(id, content))
  {
    hide RunPrefix, KindText, Hex, Ascii;
    var x, y, z := RunPrefix(who) + KindText(kind) + [SLASH], id, Ascii("-") + Hex(content);
    assert StorageKey(who, kind, id, content) == x + y + z;
  }

  lemma KeyTailInjective(id: Text, d: Digest, jd: Text, e: Digest)
    requires |id| == |jd| && KeyTail(id, d) == KeyTail(jd, e)
    ensures id == jd && d == e
  {
    hide Hex;
    var x, y := KeyTail(id, d), KeyTail(jd, e);
    assert id == x[..|id|] && jd == y[..|id|] && Hex(d) == x[|id| + 1..] && Hex(e) == y[|id| + 1..];
    HexInjective(d, e);
  }

  /** Storage keys are injective in everything they are made of; ids are those `RecordId` makes. */
  lemma StorageKeyInjective(a: Identity, k: Kind, id: Text, d: Digest, b: Identity, l: Kind, jd: Text, e: Digest)
    requires SlashFree(a) && SlashFree(b) && |id| == |jd|
    ensures StorageKey(a, k, id, d) == StorageKey(b, l, jd, e) <==> a == b && k == l && id == jd && d == e
  {
    if StorageKey(a, k, id, d) == StorageKey(b, l, jd, e) {
      KindsSlashFree(k, l);
      KeyShape(a, k, id, d);
      KeyShape(b, l, jd, e);
      hide RunPrefix, KindText, KeyTail, StorageKey;
      OwnerSplits(a, KindText(k) + [SLASH] + KeyTail(id, d), b, KindText(l) + [SLASH] + KeyTail(jd, e));
      SplitAt(SLASH, KindText(k), KeyTail(id, d), KindText(l), KeyTail(jd, e));
      KeyTailInjective(id, d, jd, e);
    }
  }

  lemma KindsSlashFree(k: Kind, l: Kind)
    ensures SLASH !in KindText(k) && (KindText(k) == KindText(l) ==> k == l)
  {
    assert |KindText(k)| == (if k.Artifact? then 8 else 6) && |KindText(l)| == (if l.Artifact? then 8 else 6);
  }

  /** No tenant's key carries another tenant's prefix. */
  lemma NoCrossTenantPrefix(who: Identity, kind: Kind, id: Text, content: Digest, other: Text)
    requires SLASH !in who.tenantId && SLASH !in other
    ensures StartsWith(StorageKey(who, kind, id, content), TenantPrefix(other)) <==> other == who.tenantId
  {
    var key := StorageKey(who, kind, id, content);
    var n := |TenantPrefix(other)|;
    hide KindText, Hex, RootPrefix;
    var rest := who.userId + [SLASH] + who.runId + [SLASH] + KindText(kind) + [SLASH] + id + Ascii("-") + Hex(content);
    assert key == RootPrefix() + (who.tenantId + [SLASH] + rest);
    if StartsWith(key, TenantPrefix(other)) {
      assert key == TenantPrefix(other) + key[n..];
      assert key == RootPrefix() + (other + [SLASH] + key[n..]);
      CancelRoot(who.tenantId + [SLASH] + rest, other + [SLASH] + key[n..]);
      SplitAt(SLASH, who.tenantId, rest, other, key[n..]);
    }
    assert TenantPrefix(who.tenantId) + rest == key;
  }

  lemma KeyInRun(who: Identity, kind: Kind, id: Text, content: Digest)
    ensures StartsWith(StorageKey(who, kind, id, content), RunPrefix(who))
  {
    KeyShape(who, kind, id, content);
    hide RunPrefix, StorageKey;
  }

  /** Distinct candidates of a run never share a storage key, unless SHA-256 collides on their preimages. */
  lemma DistinctCandidatesDistinctKeys(sha: Hasher, p: Parts, q: Parts)
    requires Validated(p) && Validated(q) && p.identity == q.identity && p.candidateId != q.candidateId
    requires StorageKey(p.identity, p.kind, RecordId(sha, p), p.content)
             == StorageKey(q.identity, q.kind, RecordId(sha, q), q.content)
    ensures Preimage(p) != Preimage(q) && sha(Preimage(p)) == sha(Preimage(q))
  {
    ValidatedIsPlain(p.identity.tenantId);
    ValidatedIsPlain(p.identity.userId);
    ValidatedIsPlain(p.identity.runId);
    hide IsSafeSegment, IsContentType, IsOpaqueText;
    PreimageExact(p, q);
    hide Preimage, StorageKey;
    StorageKeyInjective(p.identity, p.kind, RecordId(sha, p), p.content, q.identity, q.kind, RecordId(sha, q),
                        q.content);
    RecordIdExact(sha, p, q);
  }
}
