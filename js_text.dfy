/** Text primitives with the meaning JavaScript gives them: the `\s` and `\w`
    character classes, `String.prototype.trim`, `includes`, `startsWith`,
    `toLowerCase` (ASCII letters) and `Array.prototype.join` over strings. */
module JsText {

  /** Result of an operation that either returns a value or throws an Error
      carrying a message. */
  datatype Result<T> = Ok(value: T) | Err(message: string)

  /** A value that may be absent. */
  datatype Option<T> = None | Some(value: T)

  /** The word the server's error messages for rejected requests begin
      with, and the one its error handler looks for to answer 400. The
      messages that carry it are written as this word followed by the rest
      of their text. */
  const InvalidWord := "Invalid"

  /** The characters of ECMAScript's WhiteSpace and LineTerminator productions:
      what `\s` matches and what `trim` removes. */
  predicate IsSpace(c: char)
  {
    c == '\t' || c == '\n' || c == '\U{000B}' || c == '\U{000C}' || c == '\r' || c == ' ' ||
    c == '\U{00A0}' || c == '\U{1680}' || ('\U{2000}' <= c <= '\U{200A}') ||
    c == '\U{2028}' || c == '\U{2029}' || c == '\U{202F}' || c == '\U{205F}' ||
    c == '\U{3000}' || c == '\U{FEFF}'
  }

  /** The characters that `.` does not match (no `s` flag). */
  predicate IsLineTerminator(c: char)
  {
    c == '\n' || c == '\r' || c == '\U{2028}' || c == '\U{2029}'
  }

  /** `\w` without the `u` flag: ASCII letters, digits and underscore. */
  predicate IsWordChar(c: char)
  {
    ('a' <= c <= 'z') || ('A' <= c <= 'Z') || ('0' <= c <= '9') || c == '_'
  }

  /** `s.startsWith(p)`. */
  predicate StartsWith(s: string, p: string)
  {
    |p| <= |s| && s[..|p|] == p
  }

  /** `s.includes(p)`: `p` occurs in `s` at some position. */
  predicate Contains(s: string, p: string)
  {
    StartsWith(s, p) || (|s| > 0 && Contains(s[1..], p))
  }

  /** `p` occurs in `s` exactly at position `i`. */
  predicate OccursAt(s: string, p: string, i: nat)
  {
    i + |p| <= |s| && s[i..i + |p|] == p
  }

  lemma {:induction false} OccursImpliesContains(s: string, p: string, i: nat)
    requires OccursAt(s, p, i)
    ensures Contains(s, p)
  {
    if i == 0 {
      assert s[..|p|] == s[0..|p|];
    } else {
      assert s[1..][i - 1..i - 1 + |p|] == s[i..i + |p|];
      OccursImpliesContains(s[1..], p, i - 1);
    }
  }

  lemma {:induction false} ContainsImpliesOccurs(s: string, p: string)
    requires Contains(s, p)
    ensures exists i: nat :: OccursAt(s, p, i)
  {
    if StartsWith(s, p) {
      assert OccursAt(s, p, 0);
    } else {
      ContainsImpliesOccurs(s[1..], p);
      var i: nat :| OccursAt(s[1..], p, i);
      assert s[i + 1..i + 1 + |p|] == s[1..][i..i + |p|];
      assert OccursAt(s, p, i + 1);
    }
  }

  /** A text without the first character of `p` does not contain `p`. */
  lemma {:induction false} NotContainsWithoutFirst(s: string, p: string)
    requires p != [] && p[0] !in s
    ensures !Contains(s, p)
    decreases |s|
  {
    if |s| > 0 {
      assert s[0] in s;
      assert forall c :: c in s[1..] ==> c in s;
      NotContainsWithoutFirst(s[1..], p);
    }
  }

  /** Whatever is placed between two texts is contained in the whole. */
  lemma ContainsMiddle(a: string, p: string, b: string)
    ensures Contains(a + p + b, p)
  {
    var s := a + p + b;
    assert s[|a|..|a| + |p|] == p;
    OccursImpliesContains(s, p, |a|);
  }

  /** The same, grouped the other way. */
  lemma ContainsInside(a: string, p: string, b: string)
    ensures Contains(a + (p + b), p)
  {
    assert a + (p + b) == a + p + b;
    ContainsMiddle(a, p, b);
  }

  /** Containment survives extending the text on both sides. */
  lemma ContainsWithin(a: string, s: string, b: string, p: string)
    requires Contains(s, p)
    ensures Contains(a + s + b, p)
  {
    ContainsImpliesOccurs(s, p);
    var i: nat :| OccursAt(s, p, i);
    var t := a + s + b;
    assert t[|a| + i..|a| + i + |p|] == s[i..i + |p|];
    OccursImpliesContains(t, p, |a| + i);
  }

  lemma ContainsPrefix(p: string, b: string)
    ensures Contains(p + b, p)
  {
    ContainsMiddle([], p, b);
    assert [] + p + b == p + b;
  }

  lemma ContainsSuffix(a: string, p: string)
    ensures Contains(a + p, p)
  {
    ContainsMiddle(a, p, []);
    assert a + p + [] == a + p;
  }

  /** Characters of `s` from position `i` that are whitespace, as a count. */
  function SpaceRun(s: string, i: nat): (n: nat)
    requires i <= |s|
    ensures i + n <= |s|
    ensures forall k :: i <= k < i + n ==> IsSpace(s[k])
    ensures i + n == |s| || !IsSpace(s[i + n])
    decreases |s| - i
  {
    if i < |s| && IsSpace(s[i]) then 1 + SpaceRun(s, i + 1) else 0
  }

  /** Index of the first character that is not whitespace (|s| if none). */
  function LeadingSpace(s: string): (n: nat)
    ensures n <= |s|
    ensures forall k :: 0 <= k < n ==> IsSpace(s[k])
    ensures n == |s| || !IsSpace(s[n])
  {
    SpaceRun(s, 0)
  }

  /** Number of whitespace characters that end `s`. */
  function TrailingSpace(s: string): (n: nat)
    ensures n <= |s|
    ensures forall k :: |s| - n <= k < |s| ==> IsSpace(s[k])
    ensures n == |s| || !IsSpace(s[|s| - n - 1])
  {
    if |s| > 0 && IsSpace(s[|s| - 1]) then 1 + TrailingSpace(s[..|s| - 1]) else 0
  }

  /** `s.trim()`. */
  function Trim(s: string): string
  {
    var lead := LeadingSpace(s);
    var rest := s[lead..];
    rest[..|rest| - TrailingSpace(rest)]
  }

  /** Neither end of `s` is whitespace. */
  predicate IsTrimmed(s: string)
  {
    |s| == 0 || (!IsSpace(s[0]) && !IsSpace(s[|s| - 1]))
  }

  /** `trim` returns a contiguous piece of its input that has no whitespace
      at either end, and it removes nothing but whitespace. */
  lemma TrimSpec(s: string)
    ensures IsTrimmed(Trim(s))
    ensures exists i, j :: (0 <= i <= j <= |s| && Trim(s) == s[i..j]
      && (forall k :: 0 <= k < i ==> IsSpace(s[k]))
      && (forall k :: j <= k < |s| ==> IsSpace(s[k])))
  {
    var lead := LeadingSpace(s);
    var rest := s[lead..];
    var t := TrailingSpace(rest);
    assert Trim(s) == s[lead..|s| - t];
    if |rest| - t > 0 {
      assert !IsSpace(rest[|rest| - t - 1]);
    }
    forall k | |s| - t <= k < |s| ensures IsSpace(s[k]) {
      assert s[k] == rest[k - lead];
    }
  }

  /** `trim` leaves text that is already trimmed as it is. */
  lemma TrimTrimmed(s: string)
    requires IsTrimmed(s)
    ensures Trim(s) == s
  {
    assert LeadingSpace(s) == 0;
    assert s[0..] == s;
    assert TrailingSpace(s) == 0;
  }

  /** `s.trim().length === 0` exactly when every character of `s` is whitespace. */
  lemma TrimEmptyIffBlank(s: string)
    ensures Trim(s) == [] <==> forall k :: 0 <= k < |s| ==> IsSpace(s[k])
  {
    TrimSpec(s);
    if Trim(s) == [] {
      var i, j :| 0 <= i <= j <= |s| && Trim(s) == s[i..j]
        && (forall k :: 0 <= k < i ==> IsSpace(s[k]))
        && (forall k :: j <= k < |s| ==> IsSpace(s[k]));
      assert i == j;
    } else {
      var lead := LeadingSpace(s);
      assert lead < |s|;
    }
  }

  /** ASCII case folding: what `toLowerCase` does to ASCII letters. */
  function LowerChar(c: char): (r: char)
    ensures 'A' <= c <= 'Z' ==> r as int == c as int + 32
    ensures !('A' <= c <= 'Z') ==> r == c
  {
    if 'A' <= c <= 'Z' then (c as int + 32) as char else c
  }

  /** `s.toLowerCase()` on ASCII letters. */
  function ToLower(s: string): (r: string)
    ensures |r| == |s|
    ensures forall k :: 0 <= k < |s| ==> r[k] == LowerChar(s[k])
  {
    if s == [] then [] else [LowerChar(s[0])] + ToLower(s[1..])
  }
  /** Lowercasing twice is lowercasing once. */
  lemma ToLowerIdempotent(s: string)
    ensures ToLower(ToLower(s)) == ToLower(s)
  {
  }


  /** `xs.join(sep)` over strings. */
  function Join(xs: seq<string>, sep: string): string
  {
    if |xs| == 0 then [] else if |xs| == 1 then xs[0] else xs[0] + sep + Join(xs[1..], sep)
  }

  /** Every element of a joined list occurs in the joined text. */
  lemma {:induction false} JoinContainsEach(xs: seq<string>, sep: string, k: nat)
    requires k < |xs|
    ensures Contains(Join(xs, sep), xs[k])
  {
    if |xs| == 1 {
      ContainsMiddle([], xs[0], []);
      assert [] + xs[0] + [] == xs[0];
    } else if k == 0 {
      ContainsPrefix(xs[0], sep + Join(xs[1..], sep));
      assert xs[0] + sep + Join(xs[1..], sep) == xs[0] + (sep + Join(xs[1..], sep));
    } else {
      JoinContainsEach(xs[1..], sep, k - 1);
      ContainsWithin(xs[0] + sep, Join(xs[1..], sep), [], xs[k]);
      assert xs[0] + sep + Join(xs[1..], sep) + [] == Join(xs, sep);
    }
  }

  /** The pieces of a template, one after the other. */
  function Concat(pieces: seq<string>): string
  {
    if pieces == [] then [] else pieces[0] + Concat(pieces[1..])
  }

  /** Each piece of a template occurs in the assembled text. */
  lemma {:induction false} ConcatContainsPiece(pieces: seq<string>, k: nat)
    requires k < |pieces|
    ensures Contains(Concat(pieces), pieces[k])
  {
    if k == 0 {
      ContainsPrefix(pieces[0], Concat(pieces[1..]));
    } else {
      ConcatContainsPiece(pieces[1..], k - 1);
      ContainsWithin(pieces[0], Concat(pieces[1..]), [], pieces[k]);
      assert pieces[0] + Concat(pieces[1..]) + [] == Concat(pieces);
    }
  }

  lemma {:induction false} ConcatSplit(a: seq<string>, b: seq<string>)
    ensures Concat(a + b) == Concat(a) + Concat(b)
  {
    if a == [] {
      assert a + b == b;
    } else {
      ConcatSplit(a[1..], b);
      assert (a + b)[0] == a[0];
      assert (a + b)[1..] == a[1..] + b;
      calc {
        Concat(a + b);
        a[0] + Concat(a[1..] + b);
        a[0] + (Concat(a[1..]) + Concat(b));
        (a[0] + Concat(a[1..])) + Concat(b);
      }
    }
  }

  /** Three pieces in a row. */
  lemma ConcatThree(a: string, b: string, c: string)
    ensures Concat([a, b, c]) == a + b + c
  {
    assert Concat([c]) == c + Concat([]) == c by { assert [c][1..] == []; }
    assert Concat([b, c]) == b + Concat([c]) by { assert [b, c][1..] == [c]; }
    assert Concat([a, b, c]) == a + Concat([b, c]) by { assert [a, b, c][1..] == [b, c]; }
  }

  /** A run of consecutive pieces occurs in the assembled text. */
  lemma ConcatSlice(pieces: seq<string>, i: nat, j: nat)
    requires i <= j <= |pieces|
    ensures Contains(Concat(pieces), Concat(pieces[i..j]))
  {
    var a, m, b := pieces[..i], pieces[i..j], pieces[j..];
    assert pieces == a + (m + b);
    ConcatSplit(m, b);
    ConcatSplit(a, m + b);
    ContainsInside(Concat(a), Concat(m), Concat(b));
  }

  /** Containment is transitive. */
  lemma ContainsTrans(s: string, t: string, p: string)
    requires Contains(s, t) && Contains(t, p)
    ensures Contains(s, p)
  {
    ContainsImpliesOccurs(s, t);
    var i: nat :| OccursAt(s, t, i);
    ContainsWithin(s[..i], t, s[i + |t|..], p);
    assert s[..i] + t + s[i + |t|..] == s;
  }

  /** `a` can be obtained from `b` by deleting elements. */
  predicate IsSubsequence<T(==)>(a: seq<T>, b: seq<T>)
  {
    if a == [] then true
    else if b == [] then false
    else if a[0] == b[0] then IsSubsequence(a[1..], b[1..])
    else IsSubsequence(a, b[1..])
  }

  lemma {:induction false} SubsequenceLength<T>(a: seq<T>, b: seq<T>)
    requires IsSubsequence(a, b)
    ensures |a| <= |b|
  {
    if a != [] {
      if a[0] == b[0] { SubsequenceLength(a[1..], b[1..]); } else { SubsequenceLength(a, b[1..]); }
    }
  }

  lemma {:induction false} SubsequenceRefl<T>(a: seq<T>)
    ensures IsSubsequence(a, a)
  {
    if a != [] { SubsequenceRefl(a[1..]); }
  }

  /** A sequence is a subsequence of itself with anything appended. */
  lemma {:induction false} SubsequenceOfAppend<T>(a: seq<T>, b: seq<T>)
    ensures IsSubsequence(a, a + b)
  {
    if a != [] {
      assert (a + b)[1..] == a[1..] + b;
      SubsequenceOfAppend(a[1..], b);
    }
  }

  /** Keeping one more element of the source keeps a subsequence. */
  lemma {:induction false} SubsequenceCons<T>(c: T, a: seq<T>, b: seq<T>)
    requires IsSubsequence(a, b)
    ensures IsSubsequence([c] + a, [c] + b)
  {
    assert ([c] + a)[1..] == a && ([c] + b)[1..] == b;
  }

  /** Dropping a prefix of the source keeps a subsequence. */
  lemma {:induction false} SubsequenceDrop<T>(a: seq<T>, b: seq<T>, n: nat)
    requires n <= |b|
    requires IsSubsequence(a, b[n..])
    ensures IsSubsequence(a, b)
  {
    if n > 0 {
      SubsequenceDrop(a, b[1..], n - 1);
      assert b[1..][n - 1..] == b[n..];
      if a != [] && a[0] == b[0] {
        SubsequenceWeaken(a, b[1..]);
      }
    }
  }

  /** If `a` is a subsequence of `b`, then so is `a` without its head. */
  lemma {:induction false} SubsequenceWeaken<T>(a: seq<T>, b: seq<T>)
    requires a != []
    requires IsSubsequence(a, b)
    ensures IsSubsequence(a[1..], b)
  {
    if a[0] == b[0] {
      SubsequenceStep(a[1..], b);
    } else {
      SubsequenceWeaken(a, b[1..]);
      SubsequenceStep(a[1..], b);
    }
  }

  /** A subsequence of the tail is a subsequence of the whole. */
  lemma {:induction false} SubsequenceStep<T>(a: seq<T>, b: seq<T>)
    requires b != []
    requires IsSubsequence(a, b[1..])
    ensures IsSubsequence(a, b)
  {
    if a != [] && a[0] == b[0] {
      SubsequenceWeaken(a, b[1..]);
    }
  }

  lemma {:induction false} SubsequenceTrans<T>(a: seq<T>, b: seq<T>, c: seq<T>)
    requires IsSubsequence(a, b) && IsSubsequence(b, c)
    ensures IsSubsequence(a, c)
    decreases |c|
  {
    if a == [] {
    } else if b[0] == c[0] {
      if a[0] == b[0] {
        SubsequenceTrans(a[1..], b[1..], c[1..]);
      } else {
        SubsequenceTrans(a, b[1..], c[1..]);
        SubsequenceStep(a, c);
      }
    } else {
      SubsequenceTrans(a, b, c[1..]);
      SubsequenceStep(a, c);
    }
  }

  /** A contiguous slice is a subsequence. */
  lemma {:induction false} SliceIsSubsequence<T>(b: seq<T>, i: nat, j: nat)
    requires i <= j <= |b|
    ensures IsSubsequence(b[i..j], b)
    decreases |b|
  {
    if i > 0 {
      SliceIsSubsequence(b[1..], i - 1, j - 1);
      assert b[1..][i - 1..j - 1] == b[i..j];
      SubsequenceStep(b[i..j], b);
    } else if j > 0 {
      SliceIsSubsequence(b[1..], 0, j - 1);
      assert b[1..][0..j - 1] == b[0..j][1..];
    }
  }

  lemma TrimIsSubsequence(s: string)
    ensures IsSubsequence(Trim(s), s)
  {
    TrimSpec(s);
    var i, j :| 0 <= i <= j <= |s| && Trim(s) == s[i..j];
    SliceIsSubsequence(s, i, j);
  }
}
