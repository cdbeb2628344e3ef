/** The deterministic resume scorer. */
module ResumeFit {
  import opened Basics
  import opened Text

  /** An element of a JSON list: only strings are looked at. */
  datatype Json = JText(text: string) | JOther

  /** `resumes.parsed_data`. `hasKeys` is false for the empty object, which Python
      treats as missing; an absent list and a JSON null are both `None`. */
  datatype ParsedData = ParsedData(skills: Option<seq<Json>>, workHistory: Option<seq<Json>>, hasKeys: bool)

  datatype Flag = NoWorkHistoryExtracted | NoSkillsExtracted

  datatype Score = Score(ratio: real, matched: seq<string>, missing: seq<string>, roles: nat, flags: seq<Flag>)

  function OrEmpty(items: Option<seq<Json>>): seq<Json> {
    match items
    case Some(s) => s
    case None => []
  }

  // ----- skill sets -----

  /** `s.strip().lower()` */
  function Normalise(s: string): string {
    Lower(Strip(s))
  }

  function SkillSet(items: seq<Json>): set<string> {
    set i | 0 <= i < |items| && items[i].JText? :: Normalise(items[i].text)
  }

  lemma {:induction false} SkipPadding(left: string, s: string)
    requires AllSpace(left)
    ensures SkipSpaces(left + s) == SkipSpaces(s)
  {
    if left != "" {
      assert (left + s)[1..] == left[1..] + s;
      SkipPadding(left[1..], s);
    } else {
      assert left + s == s;
    }
  }

  lemma {:induction false} DropPadding(s: string, right: string)
    requires AllSpace(right)
    ensures DropTrailing(s + right) == DropTrailing(s)
  {
    if right != "" {
      assert (s + right)[..|s + right| - 1] == s + right[..|right| - 1];
      DropPadding(s, right[..|right| - 1]);
    } else {
      assert s + right == s;
    }
  }

  lemma {:induction false} SkipKeepsTail(s: string, right: string)
    requires !AllSpace(s)
    ensures SkipSpaces(s + right) == SkipSpaces(s) + right
  {
    if IsSpace(s[0]) {
      assert (s + right)[1..] == s[1..] + right;
      assert !AllSpace(s[1..]) by {
        var i :| 0 <= i < |s| && !IsSpace(s[i]);
        assert !IsSpace(s[1..][i - 1]);
      }
      SkipKeepsTail(s[1..], right);
    }
  }

  lemma {:induction false} StripPadding(left: string, s: string, right: string)
    requires AllSpace(left) && AllSpace(right)
    ensures Strip(left + s + right) == Strip(s)
  {
    assert left + s + right == left + (s + right);
    SkipPadding(left, s + right);
    if AllSpace(s) {
      SkipPadding(s, right);
      SkipPadding(s, "");
      SkipPadding(right, "");
      assert s + "" == s && right + "" == right;
    } else {
      SkipKeepsTail(s, right);
      DropPadding(SkipSpaces(s), right);
    }
  }

  lemma {:induction false} SkipUpper(s: string)
    ensures SkipSpaces(Upper(s)) == Upper(SkipSpaces(s))
  {
    if s != "" && IsSpace(s[0]) {
      assert Upper(s)[1..] == Upper(s[1..]);
      SkipUpper(s[1..]);
    }
  }

  lemma {:induction false} DropUpper(s: string)
    ensures DropTrailing(Upper(s)) == Upper(DropTrailing(s))
  {
    if s != "" && IsSpace(s[|s| - 1]) {
      assert Upper(s)[..|s| - 1] == Upper(s[..|s| - 1]);
      DropUpper(s[..|s| - 1]);
    }
  }

  lemma LowerUpperChar(c: char)
    ensures LowerChar(UpperChar(c)) == LowerChar(c)
  {
  }

  lemma {:induction false} LowerUpper(s: string)
    ensures Lower(Upper(s)) == Lower(s)
  {
    forall i | 0 <= i < |s|
      ensures Lower(Upper(s))[i] == Lower(s)[i]
    {
      LowerUpperChar(s[i]);
    }
  }

  /** Padding and letter case do not change what a skill counts as. */
  lemma {:induction false} NormaliseIgnoresPaddingAndCase(left: string, s: string, right: string)
    requires AllSpace(left) && AllSpace(right)
    ensures Normalise(left + s + right) == Normalise(s)
    ensures Normalise(Upper(s)) == Normalise(s)
  {
    StripPadding(left, s, right);
    SkipUpper(s);
    DropUpper(SkipSpaces(s));
    LowerUpper(Strip(s));
  }

  // ----- sorting -----

  /** Python's order on strings: by code point, a proper prefix first. */
  predicate Less(a: string, b: string) {
    b != "" && (a == "" || a[0] < b[0] || (a[0] == b[0] && Less(a[1..], b[1..])))
  }

  lemma {:induction false} LessTransitive(a: string, b: string, c: string)
    ensures Less(a, b) && Less(b, c) ==> Less(a, c)
    ensures !Less(a, a)
  {
    if a != "" {
      LessTransitive(a[1..], if b == "" then "" else b[1..], if c == "" then "" else c[1..]);
    }
  }

  lemma {:induction false} LessTotal(a: string, b: string)
    ensures a == b || Less(a, b) || Less(b, a)
  {
    if a != "" && b != "" && a[0] == b[0] {
      LessTotal(a[1..], b[1..]);
      assert a == [a[0]] + a[1..] && b == [b[0]] + b[1..];
    }
  }

  /** Sorted without duplicates. */
  ghost predicate StrictlySorted(s: seq<string>) {
    forall i, j :: 0 <= i < j < |s| ==> Less(s[i], s[j])
  }

  function Elements(s: seq<string>): set<string> {
    set i | 0 <= i < |s| :: s[i]
  }

  predicate IsLeast(m: string, s: set<string>) {
    m in s && forall x :: x in s && x != m ==> Less(m, x)
  }

  lemma {:induction false} LeastExists(s: set<string>) returns (m: string)
    requires s != {}
    ensures IsLeast(m, s)
  {
    var x :| x in s;
    if s == {x} {
      m := x;
    } else {
      var r := LeastExists(s - {x});
      LessTotal(x, r);
      m := if Less(x, r) then x else r;
      forall y | y in s && y != m
        ensures Less(m, y)
      {
        LessTransitive(m, r, y);
      }
    }
  }

  lemma {:induction false} PrependLeast(m: string, s: set<string>, rest: seq<string>)
    requires IsLeast(m, s) && Elements(rest) == s - {m} && StrictlySorted(rest)
    ensures Elements([m] + rest) == s
    ensures StrictlySorted([m] + rest)
  {
    var r := [m] + rest;
    forall i | 0 <= i < |rest|
      ensures Less(m, rest[i])
    {
      assert rest[i] in Elements(rest);
    }
    forall x | x in s
      ensures x in Elements(r)
    {
      if x == m {
        assert r[0] == m;
      } else {
        assert x in Elements(rest);
        var i :| 0 <= i < |rest| && rest[i] == x;
        assert r[i + 1] == x;
      }
    }
    forall x | x in Elements(r)
      ensures x in s
    {
      var i :| 0 <= i < |r| && r[i] == x;
      assert i > 0 ==> rest[i - 1] in Elements(rest);
    }
  }

  lemma {:induction false} LeastIsUnique(s: set<string>)
    requires s != {}
    ensures exists m :: IsLeast(m, s) && m in s
    ensures forall m, n :: IsLeast(m, s) && IsLeast(n, s) ==> m == n
  {
    var m := LeastExists(s);
    forall n | IsLeast(n, s)
      ensures n == m
    {
      LessTransitive(m, n, m);
    }
  }

  function LeastOf(s: set<string>): (m: string)
    requires s != {}
    ensures IsLeast(m, s)
  {
    LeastIsUnique(s);
    var m :| IsLeast(m, s) && m in s;
    m
  }

  /** `sorted(s)` */
  function SortedStrings(s: set<string>): (r: seq<string>)
    ensures Elements(r) == s
    ensures StrictlySorted(r)
    ensures |r| == |s|
    decreases |s|
  {
    if s == {} then [] else
      var m := LeastOf(s);
      var rest := SortedStrings(s - {m});
      PrependLeast(m, s, rest);
      [m] + rest
  }

  lemma {:induction false} DropFirst(a: seq<string>)
    requires a != [] && StrictlySorted(a)
    ensures StrictlySorted(a[1..])
    ensures Elements(a[1..]) == Elements(a) - {a[0]}
  {
    LessTransitive(a[0], a[0], a[0]);
    forall x | x in Elements(a) - {a[0]}
      ensures x in Elements(a[1..])
    {
      var i :| 0 <= i < |a| && a[i] == x;
      assert a[1..][i - 1] == x;
    }
    forall x | x in Elements(a[1..])
      ensures x in Elements(a) - {a[0]}
    {
      var i :| 0 <= i < |a[1..]| && a[1..][i] == x;
      assert a[i + 1] == x && Less(a[0], a[i + 1]);
    }
  }

  /** There is only one sorted, duplicate-free list of given elements, so the order in
      which a Python set happens to be iterated cannot show in a score. */
  lemma {:induction false} SortedIsUnique(a: seq<string>, b: seq<string>)
    requires StrictlySorted(a) && StrictlySorted(b) && Elements(a) == Elements(b)
    ensures a == b
  {
    assert a != [] ==> a[0] in Elements(a);
    assert b != [] ==> b[0] in Elements(b);
    if a != [] {
      assert a[0] in Elements(b) && b[0] in Elements(a);
      var j :| 0 <= j < |b| && b[j] == a[0];
      var i :| 0 <= i < |a| && a[i] == b[0];
      LessTransitive(a[0], b[0], a[0]);
      assert a[0] == b[0];
      DropFirst(a);
      DropFirst(b);
      SortedIsUnique(a[1..], b[1..]);
      assert a == [a[0]] + a[1..] && b == [b[0]] + b[1..];
    }
  }

  // ----- rounding -----

  /** Round half to even. Python rounds the binary quotient, which on an exact decimal tie
      may lie on either side; what holds of either choice is proved at the end. */
  function RoundHalfEven(x: real): int {
    var f := x.Floor;
    var d := x - f as real;
    if d < 0.5 then f else if d > 0.5 then f + 1 else if f % 2 == 0 then f else f + 1
  }

  /** `round(x, 4)` */
  function Round4(x: real): real {
    RoundHalfEven(x * 10000.0) as real / 10000.0
  }

  lemma {:induction false} RoundMonotone(x: real, y: real)
    requires x <= y
    ensures Round4(x) <= Round4(y)
  {
    var a, b := x * 10000.0, y * 10000.0;
    assert a.Floor <= b.Floor;
  }

  lemma {:induction false} RoundNear(x: real)
    ensures -1.0 <= 20000.0 * (Round4(x) - x) <= 1.0
  {
    var a := x * 10000.0;
    assert -0.5 <= RoundHalfEven(a) as real - a <= 0.5;
  }

  // ----- the score -----

  function ExactRatio(matched: nat, required: nat): real
    requires matched <= required
  {
    if required == 0 then 1.0 else matched as real / required as real
  }

  /** The part of the score that comes from the two skill sets. */
  datatype Fit = Fit(ratio: real, matched: seq<string>, missing: seq<string>)

  lemma {:induction false} SubsetSize(a: set<string>, b: set<string>)
    requires a <= b
    ensures |a| <= |b|
    ensures |a| == |b| ==> a == b
  {
    assert b == a + (b - a);
  }

  function FitOf(have: set<string>, want: set<string>): Fit {
    SubsetSize(have * want, want);
    Fit(Round4(ExactRatio(|have * want|, |want|)), SortedStrings(have * want), SortedStrings(want - have))
  }

  function FlagsOf(noHistory: bool, noSkills: bool): seq<Flag> {
    (if noHistory then [NoWorkHistoryExtracted] else []) + (if noSkills then [NoSkillsExtracted] else [])
  }

  lemma {:induction false} FlagsIff(noHistory: bool, noSkills: bool)
    ensures NoWorkHistoryExtracted in FlagsOf(noHistory, noSkills) <==> noHistory
    ensures NoSkillsExtracted in FlagsOf(noHistory, noSkills) <==> noSkills
  {
  }

  /** `score_resume_fit` */
  function ScoreResumeFit(parsed: ParsedData, required: seq<Json>): Score {
    var fit := FitOf(SkillSet(OrEmpty(parsed.skills)), SkillSet(required));
    Score(
      fit.ratio, fit.matched, fit.missing, |OrEmpty(parsed.workHistory)|,
      FlagsOf(OrEmpty(parsed.workHistory) == [], OrEmpty(parsed.skills) == []))
  }

  lemma {:induction false} FitPartition(have: set<string>, want: set<string>)
    ensures
      var s := FitOf(have, want);
      && StrictlySorted(s.matched) && StrictlySorted(s.missing)
      && Elements(s.matched) == have * want && Elements(s.missing) == want - have
      && |s.matched| == |have * want| && |s.missing| == |want - have|
      && |s.matched| + |s.missing| == |want|
  {
    assert want == have * want + (want - have);
  }

  /** Matched and missing split the required skills, each sorted and duplicate-free. */
  lemma {:induction false} MatchedAndMissingPartition(parsed: ParsedData, required: seq<Json>)
    ensures
      var s := ScoreResumeFit(parsed, required);
      && StrictlySorted(s.matched) && StrictlySorted(s.missing)
      && Elements(s.matched) == SkillSet(OrEmpty(parsed.skills)) * SkillSet(required)
      && Elements(s.missing) == SkillSet(required) - SkillSet(OrEmpty(parsed.skills))
      && |s.matched| + |s.missing| == |SkillSet(required)|
  {
    FitPartition(SkillSet(OrEmpty(parsed.skills)), SkillSet(required));
  }

  lemma {:induction false} FitOfNothing(want: set<string>)
    ensures FitOf({}, want).matched == [] && Elements(FitOf({}, want).missing) == want
  {
    FitPartition({}, want);
    assert {} * want == {} && want - {} == want;
  }

  /** The flags explain an empty score: no roles are listed exactly if the work history is
      flagged, and a resume flagged for its skills misses everything that is required. */
  lemma {:induction false} FlagsExplainScore(parsed: ParsedData, required: seq<Json>)
    ensures
      var s := ScoreResumeFit(parsed, required);
      && (NoWorkHistoryExtracted in s.flags <==> s.roles == 0)
      && (NoSkillsExtracted in s.flags ==> s.matched == [] && Elements(s.missing) == SkillSet(required))
  {
    FlagsIff(OrEmpty(parsed.workHistory) == [], OrEmpty(parsed.skills) == []);
    if OrEmpty(parsed.skills) == [] {
      assert SkillSet([]) == {};
      FitOfNothing(SkillSet(required));
    }
  }

  /** Every skill of `a` occurs in `b`, up to padding and letter case. */
  ghost predicate SkillsWithin(a: seq<Json>, b: seq<Json>) {
    forall i :: 0 <= i < |a| && a[i].JText? ==>
      exists j :: 0 <= j < |b| && b[j].JText? && Normalise(b[j].text) == Normalise(a[i].text)
  }

  ghost predicate SameSkills(a: seq<Json>, b: seq<Json>) {
    SkillsWithin(a, b) && SkillsWithin(b, a)
  }

  lemma {:induction false} SkillSetIncluded(a: seq<Json>, b: seq<Json>)
    requires SkillsWithin(a, b)
    ensures SkillSet(a) <= SkillSet(b)
  {
    forall s | s in SkillSet(a)
      ensures s in SkillSet(b)
    {
      var i :| 0 <= i < |a| && a[i].JText? && Normalise(a[i].text) == s;
      var j :| 0 <= j < |b| && b[j].JText? && Normalise(b[j].text) == Normalise(a[i].text);
    }
  }

  lemma {:induction false} SameSkillSet(a: seq<Json>, b: seq<Json>)
    requires SameSkills(a, b)
    ensures SkillSet(a) == SkillSet(b)
  {
    SkillSetIncluded(a, b);
    SkillSetIncluded(b, a);
  }

  /** Only which skills occur matters: order, case, padding and repeats in either list
      leave ratio, matched and missing as they were. */
  lemma {:induction false} ScoreDependsOnSkillSets(p: ParsedData, r: seq<Json>, q: ParsedData, t: seq<Json>)
    requires SameSkills(OrEmpty(p.skills), OrEmpty(q.skills)) && SameSkills(r, t)
    ensures
      var a, b := ScoreResumeFit(p, r), ScoreResumeFit(q, t);
      a.ratio == b.ratio && a.matched == b.matched && a.missing == b.missing
  {
    SameSkillSet(OrEmpty(p.skills), OrEmpty(q.skills));
    SameSkillSet(r, t);
  }

  lemma DivMul(a: real, d: real)
    requires d > 0.0
    ensures (a / d) * d == a
  {
  }

  /** Two quotients over a positive `d` compare as their numerators do. */
  lemma {:induction false} Scaled(x: real, y: real, d: real, a: real, b: real)
    requires d > 0.0 && x * d == a && y * d == b
    ensures x <= y <==> a <= b
  {
    assert b - a == (y - x) * d;
  }

  lemma {:induction false} RatioMonotone(m: nat, k: nat, n: nat)
    requires m <= k <= n
    ensures 0.0 <= ExactRatio(m, n) <= ExactRatio(k, n) <= 1.0
  {
    if n > 0 {
      var d := n as real;
      DivMul(m as real, d);
      DivMul(k as real, d);
      Scaled(0.0, ExactRatio(m, n), d, 0.0, m as real);
      Scaled(ExactRatio(m, n), ExactRatio(k, n), d, m as real, k as real);
      Scaled(ExactRatio(k, n), 1.0, d, k as real, d);
    }
  }

  lemma {:induction false} FitMonotone(have: set<string>, more: set<string>, want: set<string>)
    requires have <= more
    ensures FitOf(have, want).ratio <= FitOf(more, want).ratio
  {
    SubsetSize(have * want, more * want);
    SubsetSize(more * want, want);
    RatioMonotone(|have * want|, |more * want|, |want|);
    RoundMonotone(ExactRatio(|have * want|, |want|), ExactRatio(|more * want|, |want|));
  }

  /** More skills on the resume never lose a match or lower the ratio. */
  lemma {:induction false} MoreSkillsNeverHurt(p: ParsedData, q: ParsedData, required: seq<Json>)
    requires SkillSet(OrEmpty(p.skills)) <= SkillSet(OrEmpty(q.skills))
    ensures
      var a, b := ScoreResumeFit(p, required), ScoreResumeFit(q, required);
      && Elements(a.matched) <= Elements(b.matched)
      && Elements(b.missing) <= Elements(a.missing)
      && a.ratio <= b.ratio
  {
    FitMonotone(SkillSet(OrEmpty(p.skills)), SkillSet(OrEmpty(q.skills)), SkillSet(required));
  }

  /** In [0, 1] and within half a unit of the fourth decimal place of the exact ratio. */
  ghost predicate RatioSound(ratio: real, matched: nat, required: nat)
    requires matched <= required
  {
    0.0 <= ratio <= 1.0 && -1.0 <= 20000.0 * (ratio - ExactRatio(matched, required)) <= 1.0
  }

  lemma {:induction false} RoundedRatioBounds(m: nat, n: nat)
    requires m <= n
    ensures RatioSound(Round4(ExactRatio(m, n)), m, n)
  {
    RatioMonotone(m, n, n);
    var x := ExactRatio(m, n);
    RoundNear(x);
    RoundMonotone(0.0, x);
    RoundMonotone(x, 1.0);
    assert Round4(0.0) == 0.0 && Round4(1.0) == 1.0;
  }

  lemma {:induction false} RoundsToOne(x: real)
    requires x <= 1.0
    ensures Round4(x) == 1.0 <==> 20000.0 * (1.0 - x) <= 1.0
  {
    var y := x * 10000.0;
    assert Round4(x) == 1.0 <==> RoundHalfEven(y) == 10000;
    assert RoundHalfEven(y) == 10000 <==> y >= 9999.5;
  }

  lemma Distribute(x: real, d: real)
    ensures 20000.0 * (1.0 - x) * d == 20000.0 * (d - x * d)
  {
  }

  lemma {:induction false} MissingShare(m: nat, k: nat)
    requires m + k > 0
    ensures 20000.0 * (1.0 - ExactRatio(m, m + k)) <= 1.0 <==> 20000 * k <= m + k
  {
    var d := (m + k) as real;
    var miss := 1.0 - ExactRatio(m, m + k);
    DivMul(m as real, d);
    Distribute(ExactRatio(m, m + k), d);
    Scaled(20000.0 * miss, 1.0, d, 20000.0 * k as real, d);
  }

  /** A reported ratio against the two lists reported with it. */
  ghost predicate RatioFits(ratio: real, matched: seq<string>, missing: seq<string>) {
    RatioSound(ratio, |matched|, |matched| + |missing|)
  }

  lemma {:induction false} FitBounds(have: set<string>, want: set<string>)
    ensures RatioFits(FitOf(have, want).ratio, FitOf(have, want).matched, FitOf(have, want).missing)
  {
    FitPartition(have, want);
    SubsetSize(have * want, want);
    RoundedRatioBounds(|have * want|, |want|);
  }

  /** The reported ratio is in range and correctly rounded, for all inputs. */
  lemma {:induction false} RatioBounds(parsed: ParsedData, required: seq<Json>)
    ensures
      var s := ScoreResumeFit(parsed, required);
      RatioFits(s.ratio, s.matched, s.missing)
  {
    FitBounds(SkillSet(OrEmpty(parsed.skills)), SkillSet(required));
  }

  lemma {:induction false} FullFitIff(have: set<string>, want: set<string>)
    ensures FitOf(have, want).ratio == 1.0 <==> 20000 * |want - have| <= |want|
  {
    FitPartition(have, want);
    SubsetSize(have * want, want);
    var m, k := |have * want|, |want - have|;
    RatioMonotone(m, m + k, m + k);
    RoundsToOne(ExactRatio(m, m + k));
    if m + k > 0 {
      MissingShare(m, k);
    }
  }

  /** A reported 1.0 does not always mean that nothing is missing: it means that at most
      one required skill in 20000 is. Below 20000 required skills the two agree. */
  lemma {:induction false} FullRatioIff(parsed: ParsedData, required: seq<Json>)
    ensures
      var s := ScoreResumeFit(parsed, required);
      && (s.ratio == 1.0 <==> 20000 * |s.missing| <= |SkillSet(required)|)
      && (|SkillSet(required)| < 20000 ==> (s.ratio == 1.0 <==> s.missing == []))
  {
    FitPartition(SkillSet(OrEmpty(parsed.skills)), SkillSet(required));
    FullFitIff(SkillSet(OrEmpty(parsed.skills)), SkillSet(required));
  }

  // ----- either choice at a tie -----

  /** A nearest integer; on a tie there are two. */
  predicate Nearest(r: int, x: real) {
    -0.5 <= r as real - x <= 0.5
  }

  lemma {:induction false} NearestMonotone(x: real, y: real, r: int, q: int)
    requires Nearest(r, x) && Nearest(q, y) && x < y
    ensures r <= q
  {
  }

  /** Rounding half to even is one of the choices. */
  lemma {:induction false} HalfEvenIsNearest(x: real)
    ensures Nearest(RoundHalfEven(x), x)
  {
  }

  lemma {:induction false} NearestBounds(x: real, r: int)
    requires 0.0 <= x <= 1.0 && Nearest(r, x * 10000.0)
    ensures 0 <= r <= 10000 && -1.0 <= 20000.0 * (r as real / 10000.0 - x) <= 1.0
    ensures r == 10000 ==> 20000.0 * (1.0 - x) <= 1.0
    ensures 20000.0 * (1.0 - x) < 1.0 ==> r == 10000
  {
  }

  lemma {:induction false} MissingShareStrict(m: nat, k: nat)
    requires m + k > 0
    ensures 20000.0 * (1.0 - ExactRatio(m, m + k)) < 1.0 <==> 20000 * k < m + k
  {
    var d := (m + k) as real;
    var miss := 1.0 - ExactRatio(m, m + k);
    DivMul(m as real, d);
    Distribute(ExactRatio(m, m + k), d);
    Scaled(1.0, 20000.0 * miss, d, d, 20000.0 * k as real);
  }

  ghost predicate NearestRatio(r: int, matched: nat, missing: nat) {
    Nearest(r, ExactRatio(matched, matched + missing) * 10000.0)
  }

  /** In range, within 1/20000, 1.0 only if at most one skill in 20000 is missing and
      certainly if fewer are; below 20000 skills, exactly if none is. */
  ghost predicate EitherSound(r: int, matched: nat, missing: nat) {
    && RatioSound(r as real / 10000.0, matched, matched + missing)
    && (r == 10000 ==> 20000 * missing <= matched + missing)
    && (20000 * missing < matched + missing ==> r == 10000)
    && (matched + missing < 20000 ==> (r == 10000 <==> missing == 0))
  }

  lemma {:induction false} EitherRounding(m: nat, k: nat, r: int)
    requires NearestRatio(r, m, k)
    ensures EitherSound(r, m, k)
  {
    RatioMonotone(m, m + k, m + k);
    NearestBounds(ExactRatio(m, m + k), r);
    if m + k > 0 {
      MissingShare(m, k);
      MissingShareStrict(m, k);
    }
  }

  /** Whichever neighbour an exact tie is rounded to, the reported ratio is sound. */
  lemma {:induction false} EitherRoundingIsSound(parsed: ParsedData, required: seq<Json>, r: int)
    requires
      var s := ScoreResumeFit(parsed, required);
      NearestRatio(r, |s.matched|, |s.missing|)
    ensures
      var s := ScoreResumeFit(parsed, required);
      EitherSound(r, |s.matched|, |s.missing|) && |s.matched| + |s.missing| == |SkillSet(required)|
  {
    var s := ScoreResumeFit(parsed, required);
    MatchedAndMissingPartition(parsed, required);
    EitherRounding(|s.matched|, |s.missing|, r);
  }

  // ----- what counts as one skill -----

  /** `d` is `c` in lower case. */
  predicate LowerOf(d: char, c: char) {
    if 'A' <= c <= 'Z' then d as int == c as int + 32 else d == c
  }

  /** Empty, or with no space at either end. */
  predicate Trimmed(core: string) {
    core != "" ==> !IsSpace(core[0]) && !IsSpace(core[|core| - 1])
  }

  /** `x` is `core` in lower case, character by character. */
  predicate LowerText(x: string, core: string) {
    |x| == |core| && forall i :: 0 <= i < |x| ==> LowerOf(x[i], core[i])
  }

  ghost predicate Padded(s: string, left: string, core: string, right: string) {
    s == left + core + right && AllSpace(left) && AllSpace(right) && Trimmed(core)
  }

  /** `x` is what remains of `s` without the spaces around it, in lower case. */
  ghost predicate NormalForm(x: string, s: string) {
    exists left: string, core: string, right: string :: Padded(s, left, core, right) && LowerText(x, core)
  }

  /** Every string is some text, possibly empty, with spaces around it. */
  lemma {:induction false} Trim(s: string) returns (left: string, core: string, right: string)
    ensures Padded(s, left, core, right)
    decreases |s|
  {
    var n := |s| - 1;
    if s != "" && IsSpace(s[0]) {
      left, core, right := Trim(s[1..]);
      left := [s[0]] + left;
      assert s == [s[0]] + s[1..];
    } else if s != "" && IsSpace(s[n]) {
      left, core, right := Trim(s[..n]);
      right := right + [s[n]];
      assert s == s[..n] + [s[n]];
    } else {
      left, core, right := "", s, "";
    }
  }

  lemma {:induction false} StripTrimmed(core: string)
    requires Trimmed(core)
    ensures Strip(core) == core
  {
  }

  lemma {:induction false} LowerIsLowerText(core: string)
    ensures LowerText(Lower(core), core)
  {
  }

  /** The normal form of a padded text is that text in lower case: nothing else is cut
      off, added or changed. */
  lemma {:induction false} NormaliseKeepsText(left: string, core: string, right: string)
    requires AllSpace(left) && AllSpace(right) && Trimmed(core)
    ensures LowerText(Normalise(left + core + right), core)
  {
    StripPadding(left, core, right);
    StripTrimmed(core);
    LowerIsLowerText(core);
  }

  lemma {:induction false} SameLowerText(x: string, y: string, core: string)
    requires LowerText(x, core) && LowerText(y, core)
    ensures x == y
  {
    forall i | 0 <= i < |x|
      ensures x[i] == y[i]
    {
      assert LowerOf(x[i], core[i]) && LowerOf(y[i], core[i]);
    }
  }

  /** Normalisation is exactly this, so it keeps apart whatever differs in more than
      padding and case. */
  lemma {:induction false} NormaliseIsNormalForm(x: string, s: string)
    ensures NormalForm(x, s) <==> x == Normalise(s)
  {
    if NormalForm(x, s) {
      var left: string, core: string, right: string :| Padded(s, left, core, right) && LowerText(x, core);
      NormaliseKeepsText(left, core, right);
      SameLowerText(x, Normalise(s), core);
    } else {
      var left, core, right := Trim(s);
      NormaliseKeepsText(left, core, right);
    }
  }

  /** Some string of the list has this normal form; what is no string is passed over. */
  ghost predicate Names(items: seq<Json>, x: string) {
    exists i :: 0 <= i < |items| && items[i].JText? && NormalForm(x, items[i].text)
  }

  lemma {:induction false} SkillSetNames(items: seq<Json>, x: string)
    ensures x in SkillSet(items) <==> Names(items, x)
  {
    if x in SkillSet(items) {
      var i :| 0 <= i < |items| && items[i].JText? && x == Normalise(items[i].text);
      NormaliseIsNormalForm(x, items[i].text);
    }
    if Names(items, x) {
      var i :| 0 <= i < |items| && items[i].JText? && NormalForm(x, items[i].text);
      NormaliseIsNormalForm(x, items[i].text);
    }
  }

  /** Which skills are reported: matched is what both lists name, missing what only the
      requirements do. */
  lemma {:induction false} ReportedIff(parsed: ParsedData, required: seq<Json>, x: string)
    ensures
      var s := ScoreResumeFit(parsed, required);
      var skills := if parsed.skills.Some? then parsed.skills.value else [];
      && (x in s.matched <==> Names(required, x) && Names(skills, x))
      && (x in s.missing <==> Names(required, x) && !Names(skills, x))
  {
    var s := ScoreResumeFit(parsed, required);
    MatchedAndMissingPartition(parsed, required);
    SkillSetNames(required, x);
    SkillSetNames(OrEmpty(parsed.skills), x);
    assert x in s.matched <==> x in Elements(s.matched);
    assert x in s.missing <==> x in Elements(s.missing);
  }

  function Length(items: Option<seq<Json>>): nat {
    match items
    case Some(list) => |list|
    case None => 0
  }

  /** The rest of the report: how many roles there are, and exactly when each flag is set. */
  lemma {:induction false} ReportedRolesAndFlags(parsed: ParsedData, required: seq<Json>)
    ensures
      var s := ScoreResumeFit(parsed, required);
      && s.roles == Length(parsed.workHistory)
      && (NoWorkHistoryExtracted in s.flags <==> Length(parsed.workHistory) == 0)
      && (NoSkillsExtracted in s.flags <==> Length(parsed.skills) == 0)
  {
    assert OrEmpty(parsed.workHistory) == [] <==> Length(parsed.workHistory) == 0;
    assert OrEmpty(parsed.skills) == [] <==> Length(parsed.skills) == 0;
    FlagsIff(OrEmpty(parsed.workHistory) == [], OrEmpty(parsed.skills) == []);
  }
}
