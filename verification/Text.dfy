/** The parts of Python's `str` that the program relies on. */
module Text {

  /** The characters on which `str.split()` and `str.strip()` act. */
  predicate IsSpace(c: char) {
    || c == ' ' || '\t' <= c <= '\r' || '\U{1c}' <= c <= '\U{1f}' || c == '\U{85}' || c == '\U{a0}'
    || c == '\U{1680}' || '\U{2000}' <= c <= '\U{200a}' || c == '\U{2028}' || c == '\U{2029}'
    || c == '\U{202f}' || c == '\U{205f}' || c == '\U{3000}'
  }

  predicate AllSpace(t: string) {
    forall i :: 0 <= i < |t| ==> IsSpace(t[i])
  }

  /** What `split` returns: words are non-empty and hold no whitespace. */
  predicate IsWord(w: string) {
    w != "" && forall i :: 0 <= i < |w| ==> !IsSpace(w[i])
  }

  predicate AllWords(ws: seq<string>) {
    forall i :: 0 <= i < |ws| ==> IsWord(ws[i])
  }

  /** `t.lstrip()` */
  function SkipSpaces(t: string): (r: string)
    ensures |r| <= |t|
    ensures r != "" ==> !IsSpace(r[0])
  {
    if t == "" || !IsSpace(t[0]) then t else SkipSpaces(t[1..])
  }

  function WordLength(t: string): (n: nat)
    ensures n <= |t|
    ensures forall i :: 0 <= i < n ==> !IsSpace(t[i])
    ensures n < |t| ==> IsSpace(t[n])
  {
    if t == "" || IsSpace(t[0]) then 0 else 1 + WordLength(t[1..])
  }

  /** `t.split()` */
  function Split(t: string): (ws: seq<string>)
    ensures AllWords(ws)
    decreases |t|
  {
    var s := SkipSpaces(t);
    if s == "" then [] else
      var n := WordLength(s);
      [s[..n]] + Split(s[n..])
  }

  /** `" ".join(ws)` */
  function Join(ws: seq<string>): string {
    if |ws| == 0 then "" else if |ws| == 1 then ws[0] else ws[0] + " " + Join(ws[1..])
  }

  lemma {:induction false} WordLengthOfWord(w: string, rest: string)
    requires IsWord(w)
    requires rest == "" || IsSpace(rest[0])
    ensures WordLength(w + rest) == |w|
  {
    if |w| > 1 {
      assert (w + rest)[1..] == w[1..] + rest;
      WordLengthOfWord(w[1..], rest);
    } else {
      assert (w + rest)[1..] == rest;
    }
  }

  /** Splitting undoes joining, for every list of words. */
  lemma {:induction false} SplitJoin(ws: seq<string>)
    requires AllWords(ws)
    ensures Split(Join(ws)) == ws
  {
    if |ws| > 0 {
      var rest := if |ws| == 1 then "" else " " + Join(ws[1..]);
      assert Join(ws) == ws[0] + rest;
      WordLengthOfWord(ws[0], rest);
      assert Join(ws)[..|ws[0]|] == ws[0] && Join(ws)[|ws[0]|..] == rest;
      if |ws| > 1 {
        SplitJoin(ws[1..]);
        assert rest[1..] == Join(ws[1..]);
        assert SkipSpaces(rest) == SkipSpaces(rest[1..]);
      }
    }
  }

  /** The characters of `t` that are not whitespace, in order. */
  function Letters(t: string): string {
    if t == "" then "" else (if IsSpace(t[0]) then "" else [t[0]]) + Letters(t[1..])
  }

  function Concat(ws: seq<string>): string {
    if ws == [] then "" else ws[0] + Concat(ws[1..])
  }

  lemma {:induction false} LettersOfSkip(t: string)
    ensures Letters(SkipSpaces(t)) == Letters(t)
  {
    if t != "" && IsSpace(t[0]) {
      LettersOfSkip(t[1..]);
    }
  }

  lemma {:induction false} LettersOfPrefix(t: string, n: nat)
    requires n <= |t| && forall i :: 0 <= i < n ==> !IsSpace(t[i])
    ensures Letters(t) == t[..n] + Letters(t[n..])
  {
    if n > 0 {
      LettersOfPrefix(t[1..], n - 1);
      assert t[1..][n - 1..] == t[n..];
      assert t[..n] == [t[0]] + t[1..][..n - 1];
    } else {
      assert t[0..] == t;
    }
  }

  /** Splitting drops whitespace and nothing else. */
  lemma {:induction false} SplitKeepsLetters(t: string)
    ensures Concat(Split(t)) == Letters(t)
    decreases |t|
  {
    var s := SkipSpaces(t);
    LettersOfSkip(t);
    if s != "" {
      var n := WordLength(s);
      LettersOfPrefix(s, n);
      SplitKeepsLetters(s[n..]);
      assert Split(t)[1..] == Split(s[n..]);
    }
  }

  function DropTrailing(t: string): (r: string)
    ensures |r| <= |t|
  {
    if t == "" || !IsSpace(t[|t| - 1]) then t else DropTrailing(t[..|t| - 1])
  }

  /** `t.strip()` */
  function Strip(t: string): string {
    DropTrailing(SkipSpaces(t))
  }

  /** `c.lower()` on ASCII letters. */
  function LowerChar(c: char): char {
    if 'A' <= c <= 'Z' then (c as int + 32) as char else c
  }

  function UpperChar(c: char): char {
    if 'a' <= c <= 'z' then (c as int - 32) as char else c
  }

  function Lower(t: string): (r: string)
    ensures |r| == |t|
    ensures forall i :: 0 <= i < |t| ==> r[i] == LowerChar(t[i])
  {
    seq(|t|, i requires 0 <= i < |t| => LowerChar(t[i]))
  }

  function Upper(t: string): (r: string)
    ensures |r| == |t|
    ensures forall i :: 0 <= i < |t| ==> r[i] == UpperChar(t[i])
  {
    seq(|t|, i requires 0 <= i < |t| => UpperChar(t[i]))
  }
}
