/**
  String operations the coach relies on: substring containment (Python's
  `needle in hay`), ASCII lower-casing (`str.lower`), whitespace trimming
  (`str.strip`) and the last piece of a split (`s.split(sep)[-1]`), and
  Python's two-argument `max` and `min`.
  Lower-casing is ASCII only and the whitespace set is the ASCII one.
*/
module Text {

  /** Python's `max` on two integers. */
  function Max(a: int, b: int): int
  {
    if a < b then b else a
  }

  /** Python's `min` on two integers. */
  function Min(a: int, b: int): int
  {
    if a < b then a else b
  }

  /** `needle` occurs in `hay` starting at index `i`. */
  predicate OccursAt(hay: string, needle: string, i: int)
  {
    0 <= i && i + |needle| <= |hay| && hay[i..i + |needle|] == needle
  }

  /** Python's `needle in hay` on strings: a contiguous occurrence. */
  predicate Contains(hay: string, needle: string)
  {
    exists i :: 0 <= i <= |hay| - |needle| && OccursAt(hay, needle, i)
  }

  /** Python's `any(t in hay for t in needles)`. */
  predicate ContainsAny(hay: string, needles: seq<string>)
  {
    exists t :: t in needles && Contains(hay, t)
  }

  /** A needle with a character the hay lacks does not occur in it. */
  lemma NotContainsMissing(hay: string, needle: string, c: char)
    requires c in needle && c !in hay
    ensures !Contains(hay, needle)
  {
  }

  /** A needle with a character outside `letters` does not occur in a hay written in `letters`. */
  lemma NotContainsOutside(hay: string, needle: string, k: nat, letters: set<char>)
    requires forall i :: 0 <= i < |hay| ==> hay[i] in letters
    requires k < |needle| && needle[k] !in letters
    ensures !Contains(hay, needle)
  {
    NotContainsMissing(hay, needle, needle[k]);
  }

  /** A needle with two adjacent characters that are never adjacent in the hay does not occur in it. */
  lemma NotContainsPair(hay: string, needle: string, k: nat)
    requires k + 1 < |needle|
    requires forall i :: 0 <= i < |hay| - 1 ==> !(hay[i] == needle[k] && hay[i + 1] == needle[k + 1])
    ensures !Contains(hay, needle)
  {
    if Contains(hay, needle) {
      var i :| 0 <= i <= |hay| - |needle| && OccursAt(hay, needle, i);
      OccursAtChar(hay, needle, i, k);
      OccursAtChar(hay, needle, i, k + 1);
    }
  }

  lemma OccursAtChar(hay: string, needle: string, i: int, k: nat)
    requires OccursAt(hay, needle, i) && k < |needle|
    ensures hay[i + k] == needle[k]
  {
    assert hay[i..i + |needle|][k] == needle[k];
  }

  // ---------------------------------------------------------------- case

  function LowerChar(c: char): char
  {
    if 'A' <= c <= 'Z' then (c as int + 32) as char else c
  }

  /** `s.lower()` restricted to ASCII letters. */
  function Lower(s: string): (r: string)
    ensures |r| == |s|
  {
    seq(|s|, i requires 0 <= i < |s| => LowerChar(s[i]))
  }

  lemma LowerIdempotent(s: string)
    ensures Lower(Lower(s)) == Lower(s)
  {
  }

  // ---------------------------------------------------------- whitespace

  /** The characters `str.isspace()` holds of in the ASCII range. */
  predicate IsSpace(c: char)
  {
    c == ' ' || 9 <= c as int <= 13 || 28 <= c as int <= 31
  }

  predicate Blank(s: string)
  {
    forall i :: 0 <= i < |s| ==> IsSpace(s[i])
  }

  /** `s.lstrip()`: the longest suffix of `s` that does not start with whitespace. */
  function StripLeft(s: string): (r: string)
    ensures |r| <= |s| && r == s[|s| - |r|..]
    ensures Blank(s[..|s| - |r|])
    ensures r == [] || !IsSpace(r[0])
    decreases |s|
  {
    if s != [] && IsSpace(s[0]) then
      var r := StripLeft(s[1..]);
      assert s[..|s| - |r|] == [s[0]] + s[1..][..|s| - 1 - |r|];
      r
    else s
  }

  /** `s.rstrip()`: the longest prefix of `s` that does not end with whitespace. */
  function StripRight(s: string): (r: string)
    ensures |r| <= |s| && r == s[..|r|]
    ensures Blank(s[|r|..])
    ensures r == [] || !IsSpace(r[|r| - 1])
    decreases |s|
  {
    if s != [] && IsSpace(s[|s| - 1]) then
      var r := StripRight(s[..|s| - 1]);
      assert s[|r|..] == s[..|s| - 1][|r|..] + [s[|s| - 1]];
      r
    else s
  }

  /** `s.strip()`. */
  function Strip(s: string): string
  {
    StripRight(StripLeft(s))
  }

  /** `s.lower().strip()`, the normal form every status comparison uses. */
  function Normalize(s: string): string
  {
    Strip(Lower(s))
  }

  /** Stripping leaves nothing exactly when the string is all whitespace. */
  lemma StripEmptyIffBlank(s: string)
    ensures Strip(s) == [] <==> Blank(s)
  {
    var l := StripLeft(s);
    assert s == s[..|s| - |l|] + l;
  }

  lemma LowerKeepsSpace(c: char)
    ensures IsSpace(LowerChar(c)) == IsSpace(c)
  {
  }

  lemma {:induction false} StripLeftLower(s: string)
    ensures StripLeft(Lower(s)) == Lower(StripLeft(s))
    decreases |s|
  {
    if s != [] {
      LowerKeepsSpace(s[0]);
      assert Lower(s)[1..] == Lower(s[1..]);
      if IsSpace(s[0]) {
        StripLeftLower(s[1..]);
      }
    }
  }

  lemma {:induction false} StripRightLower(s: string)
    ensures StripRight(Lower(s)) == Lower(StripRight(s))
    decreases |s|
  {
    if s != [] {
      LowerKeepsSpace(s[|s| - 1]);
      assert Lower(s)[..|s| - 1] == Lower(s[..|s| - 1]);
      if IsSpace(s[|s| - 1]) {
        StripRightLower(s[..|s| - 1]);
      }
    }
  }

  /** Lower-casing and stripping commute, because lower-casing maps whitespace to whitespace. */
  lemma StripLowerCommute(s: string)
    ensures Strip(Lower(s)) == Lower(Strip(s))
  {
    StripLeftLower(s);
    StripRightLower(StripLeft(s));
  }

  lemma StripIdempotent(s: string)
    ensures Strip(Strip(s)) == Strip(s)
  {
    var l := StripLeft(s);
    var t := StripRight(l);
    if t != [] {
      assert t[0] == l[0];
    }
    assert StripLeft(t) == t;
  }

  /** The normal form ignores case and surrounding whitespace of its input. */
  lemma NormalizeIgnoresCaseAndPadding(s: string)
    ensures Normalize(Lower(s)) == Normalize(s)
    ensures Normalize(Strip(s)) == Normalize(s)
  {
    LowerIdempotent(s);
    StripLowerCommute(s);
    StripLowerCommute(Strip(s));
    StripIdempotent(s);
  }

  // ----------------------------------------------------------- splitting

  /**
    `s.split(sep)[-1]`: the text after the last separator found by a
    left-to-right scan for non-overlapping occurrences, or `s` itself when
    the separator does not occur.
  */
  function LastPiece(s: string, sep: string): (r: string)
    requires sep != []
    ensures |r| <= |s| && r == s[|s| - |r|..]
    ensures !Contains(r, sep)
    ensures PieceAfterSeparator(s, sep, r)
    decreases |s|
  {
    if |s| < |sep| then s
    else if s[..|sep|] == sep then
      var r := LastPiece(s[|sep|..], sep);
      LastPieceAfterPrefix(s, sep, |sep|, r);
      r
    else if !Contains(s, sep) then s
    else
      var r := LastPiece(s[1..], sep);
      LastPieceAfterHead(s, sep, r);
      r
  }

  /** The suffix `r` of `s` is all of `s`, or the separator comes right before it. */
  predicate PieceAfterSeparator(s: string, sep: string, r: string)
  {
    |r| == |s| || (|sep| + |r| <= |s| && s[|s| - |r| - |sep|..|s| - |r|] == sep)
  }

  /**
    A piece of `s[k..]` that is all of it, with a separator ending at `k`,
    or that follows a separator in `s[k..]`, is a suffix of `s` that follows
    a separator in `s`.
  */
  lemma LastPieceAfterPrefix(s: string, sep: string, k: nat, r: string)
    requires k <= |s| && |r| <= |s| - k && r == s[k..][|s| - k - |r|..]
    requires |r| == |s| - k ==> k >= |sep| && s[k - |sep|..k] == sep
    requires PieceAfterSeparator(s[k..], sep, r)
    ensures r == s[|s| - |r|..]
    ensures PieceAfterSeparator(s, sep, r)
  {
    var t := s[k..];
    assert t[|t| - |r|..] == s[|s| - |r|..];
    if |r| != |t| {
      assert t[|t| - |r| - |sep|..|t| - |r|] == s[|s| - |r| - |sep|..|s| - |r|];
    }
  }

  /**
    When `s` holds the separator but does not start with it, a
    separator-free piece of `s[1..]` that follows a separator there (or is
    all of it) follows a separator in `s`.
  */
  lemma LastPieceAfterHead(s: string, sep: string, r: string)
    requires sep != [] && |s| >= |sep| && s[..|sep|] != sep && Contains(s, sep)
    requires |r| <= |s| - 1 && r == s[1..][|s| - 1 - |r|..]
    requires !Contains(r, sep) && PieceAfterSeparator(s[1..], sep, r)
    ensures r == s[|s| - |r|..]
    ensures PieceAfterSeparator(s, sep, r)
  {
    ContainsPastHead(s, sep);
    var tail := s[1..];
    assert |r| == |tail| ==> r == tail;
    LastPieceAfterPrefix(s, sep, 1, r);
  }

  /** A separator that occurs in `s` but not at its start occurs in `s[1..]`. */
  lemma ContainsPastHead(s: string, sep: string)
    requires sep != [] && |s| >= |sep| && s[..|sep|] != sep && Contains(s, sep)
    ensures Contains(s[1..], sep)
  {
    var i :| 0 <= i <= |s| - |sep| && OccursAt(s, sep, i);
    assert i != 0;
    assert s[1..][i - 1..i - 1 + |sep|] == s[i..i + |sep|];
    assert OccursAt(s[1..], sep, i - 1);
  }

  /** When the separator's first character occurs nowhere else, the last piece is what follows the separator. */
  lemma {:induction false} LastPieceAfter(p: string, sep: string, q: string)
    requires sep != []
    requires sep[0] !in p && sep[0] !in q
    ensures LastPiece(p + sep + q, sep) == q
    decreases |p|
  {
    var s := p + sep + q;
    if p == [] {
      assert s[..|sep|] == sep && s[|sep|..] == q;
      LastPieceWhole(q, sep);
    } else {
      assert s[..|sep|][0] == p[0] != sep[0];
      assert OccursAt(s, sep, |p|);
      assert s[1..] == p[1..] + sep + q;
      LastPieceAfter(p[1..], sep, q);
    }
  }

  /** A string without the separator's first character is its own last piece. */
  lemma LastPieceWhole(q: string, sep: string)
    requires sep != [] && sep[0] !in q
    ensures LastPiece(q, sep) == q
  {
    NotContainsMissing(q, sep, sep[0]);
    if |q| >= |sep| {
      assert q[..|sep|][0] == q[0] != sep[0];
    }
  }
}
