/** The regular expressions of the source, written as sequences of atoms with
    a deterministic matcher, and the global `replace(re, "")` that deletes
    every match found in one left-to-right scan.

    The matcher takes every greedy run (`\s*`, `\s+`, `\w+`, `s+`) whole and
    never gives characters back; a lazy `.*?` tries the rest of the pattern
    after 0, 1, 2, ... characters on the same line. For the patterns used
    here this finds the same match as JavaScript's backtracking engine: each
    greedy run is followed by an atom that cannot begin with a character of
    the run's class, except `\s+` before `.*?` in the import pattern, where a
    shorter run only re-offers whitespace that cannot start `from`. */
module Pattern {
  import opened JsText

  datatype CharClass =
    | Space            // \s
    | Word             // \w
    | Exactly(c: char) // a literal character
    | Quote            // ['"]

  predicate InClass(cls: CharClass, c: char)
  {
    match cls
    case Space => IsSpace(c)
    case Word => IsWordChar(c)
    case Exactly(d) => c == d
    case Quote => c == '\'' || c == '"'
  }

  datatype Atom =
    | Lit(text: string)                   // literal text
    | Run(cls: CharClass, atLeastOne: bool) // greedy `x*` or `x+`
    | One(cls: CharClass)                 // one character of a class
    | Optional(alternatives: seq<string>) // greedy `(?:a|b)?`, first alternative first
    | LazyDot                             // `.*?`
    | EndOfInput                          // `$` without the `m` flag

  /** Length of the longest run of characters of `cls` starting at `i`. */
  function ClassRun(cls: CharClass, s: string, i: nat): (n: nat)
    requires i <= |s|
    ensures i + n <= |s|
    ensures forall k :: i <= k < i + n ==> InClass(cls, s[k])
    ensures i + n == |s| || !InClass(cls, s[i + n])
    decreases |s| - i
  {
    if i < |s| && InClass(cls, s[i]) then 1 + ClassRun(cls, s, i + 1) else 0
  }

  /** Length of the first alternative that occurs at `i`, 0 if none does. */
  function FirstAlternative(alts: seq<string>, s: string, i: nat): (n: nat)
    requires i <= |s|
    ensures i + n <= |s|
  {
    if alts == [] then 0
    else if StartsWith(s[i..], alts[0]) then |alts[0]|
    else FirstAlternative(alts[1..], s, i)
  }

  /** End of the match of `pat` anchored at position `i` of `s`, if any. */
  function MatchAt(pat: seq<Atom>, s: string, i: nat): (r: Option<nat>)
    requires i <= |s|
    ensures r.Some? ==> i <= r.value <= |s|
    ensures r.Some? && pat != [] && pat[0].Lit? ==>
      StartsWith(s[i..], pat[0].text) && i + |pat[0].text| <= r.value
    decreases |pat|, |s| - i, 1
  {
    if pat == [] then Some(i)
    else
      match pat[0]
      case Lit(t) => if StartsWith(s[i..], t) then MatchAt(pat[1..], s, i + |t|) else None
      case Run(cls, atLeastOne) =>
        var n := ClassRun(cls, s, i);
        if atLeastOne && n == 0 then None else MatchAt(pat[1..], s, i + n)
      case One(cls) => if i < |s| && InClass(cls, s[i]) then MatchAt(pat[1..], s, i + 1) else None
      case Optional(alts) => MatchAt(pat[1..], s, i + FirstAlternative(alts, s, i))
      case LazyDot => LazyMatch(pat[1..], s, i)
      case EndOfInput => if i == |s| then MatchAt(pat[1..], s, i) else None
  }

  /** `.*?` followed by `rest`: the fewest characters, none of them a line
      terminator, after which `rest` matches. */
  function LazyMatch(rest: seq<Atom>, s: string, j: nat): (r: Option<nat>)
    requires j <= |s|
    ensures r.Some? ==> j <= r.value <= |s|
    decreases |rest| + 1, |s| - j, 0
  {
    match MatchAt(rest, s, j)
    case Some(e) => Some(e)
    case None =>
      if j < |s| && !IsLineTerminator(s[j]) then LazyMatch(rest, s, j + 1) else None
  }

  /** A pattern that can only match a non-empty text: it begins with a
      non-empty literal, as every pattern of the source does. */
  predicate NonEmptyPattern(pat: seq<Atom>)
  {
    pat != [] && pat[0].Lit? && |pat[0].text| > 0
  }

  /** `s.slice(i).replace(/pat/g, "")`, with the scan starting at `i`: at each
      position, a non-empty match is deleted and the scan resumes after it;
      otherwise the character is kept and the scan moves on by one. */
  function ReplaceFrom(pat: seq<Atom>, s: string, i: nat): string
    requires i <= |s|
    decreases |s| - i
  {
    if i == |s| then []
    else
      match MatchAt(pat, s, i)
      case Some(e) => if e > i then ReplaceFrom(pat, s, e) else [s[i]] + ReplaceFrom(pat, s, i + 1)
      case None => [s[i]] + ReplaceFrom(pat, s, i + 1)
  }

  /** `s.replace(/pat/g, "")`. */
  function ReplaceAll(pat: seq<Atom>, s: string): string
  {
    ReplaceFrom(pat, s, 0)
  }

  /** Positions of `s` from `i` on that the scan keeps. */
  function Kept(pat: seq<Atom>, s: string, i: nat): (ks: seq<nat>)
    requires i <= |s|
    ensures forall k :: 0 <= k < |ks| ==> i <= ks[k] < |s|
    decreases |s| - i
  {
    if i == |s| then []
    else
      match MatchAt(pat, s, i)
      case Some(e) => if e > i then Kept(pat, s, e) else [i] + Kept(pat, s, i + 1)
      case None => [i] + Kept(pat, s, i + 1)
  }

  /** Deleting matches only removes characters: the result is a subsequence
      of the input and so never longer. */
  lemma {:induction false} ReplaceFromIsSubsequence(pat: seq<Atom>, s: string, i: nat)
    requires i <= |s|
    ensures IsSubsequence(ReplaceFrom(pat, s, i), s[i..])
    decreases |s| - i
  {
    if i < |s| {
      var m := MatchAt(pat, s, i);
      if m.Some? && m.value > i {
        ReplaceFromIsSubsequence(pat, s, m.value);
        assert s[i..][m.value - i..] == s[m.value..];
        SubsequenceDrop(ReplaceFrom(pat, s, i), s[i..], m.value - i);
      } else {
        ReplaceFromIsSubsequence(pat, s, i + 1);
        SubsequenceCons(s[i], ReplaceFrom(pat, s, i + 1), s[i + 1..]);
        assert [s[i]] + s[i + 1..] == s[i..];
      }
    }
  }

  lemma ReplaceAllIsSubsequence(pat: seq<Atom>, s: string)
    ensures IsSubsequence(ReplaceAll(pat, s), s)
    ensures |ReplaceAll(pat, s)| <= |s|
  {
    ReplaceFromIsSubsequence(pat, s, 0);
    assert s[0..] == s;
    SubsequenceLength(ReplaceAll(pat, s), s);
  }

  /** A pattern that matches nowhere leaves the text unchanged. */
  lemma {:induction false} ReplaceFromNoMatch(pat: seq<Atom>, s: string, i: nat)
    requires i <= |s|
    requires forall k :: i <= k < |s| ==> MatchAt(pat, s, k).None?
    ensures ReplaceFrom(pat, s, i) == s[i..]
    decreases |s| - i
  {
    if i < |s| {
      ReplaceFromNoMatch(pat, s, i + 1);
      assert [s[i]] + s[i + 1..] == s[i..];
    }
  }

  lemma ReplaceAllNoMatch(pat: seq<Atom>, s: string)
    requires forall k :: 0 <= k < |s| ==> MatchAt(pat, s, k).None?
    ensures ReplaceAll(pat, s) == s
  {
    ReplaceFromNoMatch(pat, s, 0);
  }

  /** A stretch of positions at none of which a match begins is copied to
      the output as it is. */
  lemma {:induction false} ReplaceFromSegment(pat: seq<Atom>, s: string, i: nat, j: nat)
    requires i <= j <= |s|
    requires forall k :: i <= k < j ==> MatchAt(pat, s, k).None?
    ensures ReplaceFrom(pat, s, i) == s[i..j] + ReplaceFrom(pat, s, j)
    decreases j - i
  {
    if i < j {
      assert ReplaceFrom(pat, s, i) == [s[i]] + ReplaceFrom(pat, s, i + 1);
      ReplaceFromSegment(pat, s, i + 1, j);
      assert s[i..j] == [s[i]] + s[i + 1..j];
    }
  }

  /** The result is exactly the kept characters, in order, and no kept
      character is one at which a match of a non-empty pattern begins in
      the text the pass was given. */
  lemma {:induction false} ReplaceFromKeeps(pat: seq<Atom>, s: string, i: nat)
    requires i <= |s|
    requires NonEmptyPattern(pat)
    ensures |ReplaceFrom(pat, s, i)| == |Kept(pat, s, i)|
    ensures forall k :: 0 <= k < |Kept(pat, s, i)| ==>
      ReplaceFrom(pat, s, i)[k] == s[Kept(pat, s, i)[k]]
    ensures forall k :: 0 <= k < |Kept(pat, s, i)| ==> MatchAt(pat, s, Kept(pat, s, i)[k]).None?
    decreases |s| - i
  {
    if i < |s| {
      var m := MatchAt(pat, s, i);
      if m.Some? {
        assert m.value > i;
        ReplaceFromKeeps(pat, s, m.value);
      } else {
        ReplaceFromKeeps(pat, s, i + 1);
      }
    }
  }

  lemma ReplaceAllDeletesEveryMatchStart(pat: seq<Atom>, s: string, k: nat)
    requires NonEmptyPattern(pat)
    requires k < |s| && MatchAt(pat, s, k).Some?
    ensures k !in Kept(pat, s, 0)
    ensures |ReplaceAll(pat, s)| == |Kept(pat, s, 0)|
  {
    ReplaceFromKeeps(pat, s, 0);
  }
}
