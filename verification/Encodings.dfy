/** Every string the program builds to name something in another system: UUID
    text, Qdrant point ids and collection names, object keys, file suffixes. */
module Encodings {
  import opened Text

  /** A UUID as its 32 hexadecimal digits. */
  type Uuid = u: seq<nat> | |u| == 32 && (forall i :: 0 <= i < |u| ==> u[i] < 16)
    witness seq(32, i => 0)

  const HEX := "0123456789abcdef"

  /** How many hyphens stand before digit `k` of the 8-4-4-4-12 form. */
  function Hyphens(k: nat): nat {
    if k < 8 then 0 else if k < 12 then 1 else if k < 16 then 2 else if k < 20 then 3 else 4
  }

  /** `str(u)`: the 8-4-4-4-12 form. */
  function UuidText(u: Uuid): (t: string)
    ensures |t| == 36
    ensures forall i :: 0 <= i < |t| ==> t[i] == '-' || t[i] in HEX
    ensures forall k :: 0 <= k < 32 ==> t[k + Hyphens(k)] == HEX[u[k]]
  {
    seq(36, i requires 0 <= i < 36 =>
      if i == 8 || i == 13 || i == 18 || i == 23 then '-'
      else HEX[u[i - (if i < 8 then 0 else if i < 13 then 1 else if i < 18 then 2 else if i < 23 then 3 else 4)]])
  }

  lemma {:induction false} HexInjective(x: nat, y: nat)
    requires x < 16 && y < 16 && HEX[x] == HEX[y]
    ensures x == y
  {
  }

  lemma {:induction false} DigitsAgree(a: Uuid, b: Uuid, k: nat)
    requires UuidText(a) == UuidText(b) && k < 32
    ensures a[k] == b[k]
  {
    assert UuidText(a)[k + Hyphens(k)] == HEX[a[k]];
    assert UuidText(b)[k + Hyphens(k)] == HEX[b[k]];
    HexInjective(a[k], b[k]);
  }

  lemma {:induction false} UuidTextInjective(a: Uuid, b: Uuid)
    requires UuidText(a) == UuidText(b)
    ensures a == b
  {
    forall k | 0 <= k < 32
      ensures a[k] == b[k]
    {
      DigitsAgree(a, b, k);
    }
  }

  const DIGITS := "0123456789"

  /** `str(n)` for n >= 0. */
  function Decimal(n: nat): (t: string)
    ensures |t| > 0
    ensures forall i :: 0 <= i < |t| ==> t[i] in DIGITS
  {
    if n < 10 then [DIGITS[n]] else Decimal(n / 10) + [DIGITS[n % 10]]
  }

  function DigitValue(c: char): nat {
    if '0' <= c <= '9' then c as int - '0' as int else 0
  }

  /** `int(t)` on decimal digits. */
  function DecimalValue(t: string): nat {
    if t == "" then 0 else DecimalValue(t[..|t| - 1]) * 10 + DigitValue(t[|t| - 1])
  }

  lemma {:induction false} DecimalRoundTrip(n: nat)
    ensures DecimalValue(Decimal(n)) == n
  {
    var t := Decimal(n);
    if n < 10 {
      assert t[..0] == "";
      assert DigitValue(DIGITS[n]) == n;
    } else {
      DecimalRoundTrip(n / 10);
      assert t[..|t| - 1] == Decimal(n / 10);
      assert DigitValue(DIGITS[n % 10]) == n % 10;
    }
  }

  /** A string is cut in only one way at its last separator. */
  lemma {:induction false} CutAtLast(a1: string, b1: string, a2: string, b2: string, c: char)
    requires a1 + [c] + b1 == a2 + [c] + b2
    requires c !in b1 && c !in b2
    ensures a1 == a2 && b1 == b2
  {
    var s := a1 + [c] + b1;
    var n := |s| - 1;
    assert s[n] == if b1 == "" then c else b1[|b1| - 1];
    assert s[n] == if b2 == "" then c else b2[|b2| - 1];
    if b1 != "" {
      assert a1 + [c] + b1[..|b1| - 1] == s[..n] == a2 + [c] + b2[..|b2| - 1];
      CutAtLast(a1, b1[..|b1| - 1], a2, b2[..|b2| - 1], c);
    } else {
      assert s[..n] == a1 && s[..n] == a2;
    }
  }

  /** The name that `_point_id` hashes. The hash itself is taken to be injective,
      so this string stands for the point id throughout. */
  function PointId(sourceType: string, sourceId: Uuid, chunkIndex: nat): string {
    sourceType + ":" + UuidText(sourceId) + ":" + Decimal(chunkIndex)
  }

  /** Distinct chunk positions never share a point id, whatever the source type contains. */
  lemma {:induction false} PointIdInjective(t1: string, s1: Uuid, i1: nat, t2: string, s2: Uuid, i2: nat)
    requires PointId(t1, s1, i1) == PointId(t2, s2, i2)
    ensures t1 == t2 && s1 == s2 && i1 == i2
  {
    CutAtLast(t1 + ":" + UuidText(s1), Decimal(i1), t2 + ":" + UuidText(s2), Decimal(i2), ':');
    CutAtLast(t1, UuidText(s1), t2, UuidText(s2), ':');
    UuidTextInjective(s1, s2);
    DecimalRoundTrip(i1);
    DecimalRoundTrip(i2);
  }

  const COLLECTION_PREFIX := "resumechunks_"

  /** `collection_name_for_org` */
  function CollectionName(org: Uuid): string {
    COLLECTION_PREFIX + UuidText(org)
  }

  lemma {:induction false} CollectionNameInjective(a: Uuid, b: Uuid)
    ensures CollectionName(a) == CollectionName(b) <==> a == b
  {
    if CollectionName(a) == CollectionName(b) {
      assert CollectionName(a)[|COLLECTION_PREFIX|..] == UuidText(a);
      assert CollectionName(b)[|COLLECTION_PREFIX|..] == UuidText(b);
      UuidTextInjective(a, b);
    }
  }

  /** The part of an object key that belongs to the organization. */
  function OrgPrefix(org: Uuid): (p: string)
    ensures |p| == 37
  {
    UuidText(org) + "/"
  }

  /** The part of an object key in front of the file name. */
  function KeyPrefix(org: Uuid, resumeId: Uuid): (p: string)
    ensures |p| == 74
  {
    OrgPrefix(org) + UuidText(resumeId) + "/"
  }

  /** `object_key_for_resume` */
  function ObjectKey(org: Uuid, resumeId: Uuid, filename: string): string {
    KeyPrefix(org, resumeId) + filename
  }

  lemma {:induction false} OrgPrefixesDisjoint(a: Uuid, b: Uuid, key: string)
    requires OrgPrefix(a) <= key && OrgPrefix(b) <= key
    ensures a == b
  {
    assert key[..36] == OrgPrefix(a)[..36] == UuidText(a);
    assert key[..36] == OrgPrefix(b)[..36] == UuidText(b);
    UuidTextInjective(a, b);
  }

  lemma {:induction false} KeyPrefixesDisjoint(a: Uuid, r: Uuid, b: Uuid, q: Uuid, key: string)
    requires KeyPrefix(a, r) <= key && KeyPrefix(b, q) <= key
    ensures a == b && r == q
  {
    assert key[..37] == KeyPrefix(a, r)[..37] == OrgPrefix(a);
    assert key[..37] == KeyPrefix(b, q)[..37] == OrgPrefix(b);
    OrgPrefixesDisjoint(a, b, key);
    assert key[37..73] == KeyPrefix(a, r)[37..73] == UuidText(r);
    assert key[37..73] == KeyPrefix(b, q)[37..73] == UuidText(q);
    UuidTextInjective(r, q);
  }

  /** No two uploads share a key unless organization, resume and file name all agree. */
  lemma {:induction false} ObjectKeyInjective(a: Uuid, r: Uuid, f: string, b: Uuid, q: Uuid, g: string)
    requires ObjectKey(a, r, f) == ObjectKey(b, q, g)
    ensures a == b && r == q && f == g
  {
    KeyPrefixesDisjoint(a, r, b, q, ObjectKey(a, r, f));
    assert ObjectKey(a, r, f)[74..] == f && ObjectKey(b, q, g)[74..] == g;
  }

  /** `t.rsplit(".", 1)[-1]` */
  function AfterLastDot(t: string): string {
    if t == "" || t[|t| - 1] == '.' then "" else AfterLastDot(t[..|t| - 1]) + [t[|t| - 1]]
  }

  /** The suffix on which `extract_text` dispatches. */
  function Suffix(filename: string): string {
    if '.' in filename then Lower(AfterLastDot(filename)) else ""
  }

  /** What follows the last dot: no dot, and preceded by one. */
  lemma {:induction false} AfterLastDotSpec(t: string)
    requires '.' in t
    ensures '.' !in AfterLastDot(t)
    ensures exists a: string :: t == a + "." + AfterLastDot(t)
  {
    var n := |t| - 1;
    if t[n] == '.' {
      assert t == t[..n] + "." + AfterLastDot(t);
    } else {
      assert t == t[..n] + [t[n]];
      AfterLastDotSpec(t[..n]);
      var a: string :| t[..n] == a + "." + AfterLastDot(t[..n]);
      assert t == a + "." + AfterLastDot(t);
    }
  }

  /** What follows the last dot does not depend on what precedes it. */
  lemma {:induction false} AfterLastDotOfTail(p: string, t: string)
    requires '.' in t
    ensures AfterLastDot(p + t) == AfterLastDot(t)
  {
    var n := |t| - 1;
    assert (p + t)[|p + t| - 1] == t[n];
    if t[n] != '.' {
      assert (p + t)[..|p + t| - 1] == p + t[..n];
      assert t == t[..n] + [t[n]];
      AfterLastDotOfTail(p, t[..n]);
    }
  }

  lemma {:induction false} AfterLastDotIs(name: string, extension: string)
    requires '.' !in extension
    ensures AfterLastDot(name + "." + extension) == extension
  {
    var t, n := name + "." + extension, |extension|;
    if n > 0 {
      AfterLastDotIs(name, extension[..n - 1]);
      assert t[..|t| - 1] == name + "." + extension[..n - 1];
      assert extension == extension[..n - 1] + [extension[n - 1]];
    }
  }

  /** The extension is what a name ends with after its last dot, in lower case. */
  lemma {:induction false} SuffixExactly(name: string, extension: string)
    requires '.' !in extension
    ensures Suffix(name + "." + extension) == Lower(extension)
  {
    AfterLastDotIs(name, extension);
    assert (name + "." + extension)[|name|] == '.';
  }

  lemma {:induction false} NoDotInPrefix(org: Uuid, resumeId: Uuid)
    ensures '.' !in KeyPrefix(org, resumeId)
  {
  }

  lemma {:induction false} SuffixOfTail(p: string, t: string)
    requires '.' !in p
    ensures Suffix(p + t) == Suffix(t)
  {
    if '.' in t {
      AfterLastDotOfTail(p, t);
    }
  }

  /** `extract_text` is called with the whole object key, yet dispatches as if on
      the submitted file name: for every file name, dots and slashes included. */
  lemma {:induction false} SuffixOfObjectKey(org: Uuid, resumeId: Uuid, filename: string)
    ensures Suffix(ObjectKey(org, resumeId, filename)) == Suffix(filename)
  {
    var p := KeyPrefix(org, resumeId);
    NoDotInPrefix(org, resumeId);
    SuffixOfTail(p, filename);
    assert ObjectKey(org, resumeId, filename) == p + filename;
  }
}
