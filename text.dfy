/**
 * The string helpers of Go's `strings` package that the operator relies on:
 * TrimSpace, ToLower, Split, HasSuffix and Contains, over strings of code points.
 */
module Text {

  /** Go's `unicode.IsSpace`: the Latin-1 spaces and the Unicode White_Space set. */
  predicate IsSpace(c: char)
  {
    || c == ' ' || c == '\t' || c == '\n' || c == '\r' || c == '\U{000B}' || c == '\U{000C}'
    || c == '\U{0085}' || c == '\U{00A0}' || c == '\U{1680}'
    || ('\U{2000}' <= c <= '\U{200A}')
    || c == '\U{2028}' || c == '\U{2029}' || c == '\U{202F}' || c == '\U{205F}' || c == '\U{3000}'
  }

  /** Every character of `s` is a space (this includes the empty string). */
  predicate Blank(s: string)
  {
    forall i :: 0 <= i < |s| ==> IsSpace(s[i])
  }

  /** Neither end of `s` is a space. */
  predicate Trimmed(s: string)
  {
    s == [] || (!IsSpace(s[0]) && !IsSpace(s[|s| - 1]))
  }

  /** Go's `strings.TrimSpace`: peel spaces off either end until neither end is a space. */
  function TrimSpace(s: string): (r: string)
    ensures Trimmed(r)
    ensures |r| <= |s|
    ensures r == [] <==> Blank(s)
  {
    if s == [] then []
    else if IsSpace(s[0]) then
      BlankCons(s[0], s[1..]);
      assert [s[0]] + s[1..] == s;
      TrimSpace(s[1..])
    else if IsSpace(s[|s| - 1]) then
      assert forall i | 0 <= i < |s| - 1 :: s[..|s| - 1][i] == s[i];
      TrimSpace(s[..|s| - 1])
    else s
  }

  /**
   * The trim is a middle part of the string: what is cut off at either end
   * is all spaces.
   */
  lemma TrimSpaceIsMiddle(s: string)
    ensures exists i, j | 0 <= i <= j <= |s| :: TrimSpace(s) == s[i..j] && Blank(s[..i]) && Blank(s[j..])
  {
    var i, j := TrimSpaceBounds(s);
  }

  /** Where the trim starts and ends. */
  lemma {:induction false} TrimSpaceBounds(s: string) returns (i: nat, j: nat)
    ensures i <= j <= |s| && TrimSpace(s) == s[i..j] && Blank(s[..i]) && Blank(s[j..])
    decreases |s|
  {
    if s == [] {
      i, j := 0, 0;
    } else if IsSpace(s[0]) {
      var i', j' := TrimSpaceBounds(s[1..]);
      i, j := i' + 1, j' + 1;
      SpaceHeadBounds(s, i', j');
    } else if IsSpace(s[|s| - 1]) {
      i, j := TrimSpaceBounds(s[..|s| - 1]);
      SpaceTailBounds(s, i, j);
    } else {
      i, j := 0, |s|;
      assert s[0..|s|] == s;
    }
  }

  /** Bounds in the tail of a string that starts with a space, moved one place on. */
  lemma SpaceHeadBounds(s: string, i: nat, j: nat)
    requires s != [] && IsSpace(s[0]) && i <= j <= |s| - 1
    requires Blank(s[1..][..i]) && Blank(s[1..][j..])
    ensures s[1..][i..j] == s[i + 1..j + 1] && Blank(s[..i + 1]) && Blank(s[j + 1..])
  {
    assert s[..i + 1] == [s[0]] + s[1..][..i];
    BlankCons(s[0], s[1..][..i]);
    assert s[j + 1..] == s[1..][j..];
  }

  /** Bounds in the front of a string that ends with a space hold in the whole string. */
  lemma SpaceTailBounds(s: string, i: nat, j: nat)
    requires s != [] && IsSpace(s[|s| - 1]) && i <= j <= |s| - 1
    requires Blank(s[..|s| - 1][..i]) && Blank(s[..|s| - 1][j..])
    ensures s[..|s| - 1][i..j] == s[i..j] && Blank(s[..i]) && Blank(s[j..])
  {
    var t := s[..|s| - 1];
    assert t[..i] == s[..i];
    BlankSnoc(t[j..], s[|s| - 1]);
    assert s[j..] == t[j..] + [s[|s| - 1]];
  }

  /** Appending a space to a blank string keeps it blank. */
  lemma BlankSnoc(s: string, c: char)
    requires Blank(s) && IsSpace(c)
    ensures Blank(s + [c])
  {
    forall k | 0 <= k < |s + [c]| ensures IsSpace((s + [c])[k]) {
      if k < |s| {
        assert (s + [c])[k] == s[k];
      }
    }
  }

  /** A string without spaces at its ends is its own trim. */
  lemma TrimSpaceOfTrimmed(s: string)
    requires Trimmed(s)
    ensures TrimSpace(s) == s
  {
  }

  lemma TrimSpaceIdempotent(s: string)
    ensures TrimSpace(TrimSpace(s)) == TrimSpace(s)
  {
    TrimSpaceOfTrimmed(TrimSpace(s));
  }

  /** Prepending a character leaves the blankness of a string decided by that character. */
  lemma BlankCons(c: char, s: string)
    ensures Blank([c] + s) <==> IsSpace(c) && Blank(s)
  {
    if IsSpace(c) && Blank(s) {
      forall i | 0 <= i < |[c] + s| ensures IsSpace(([c] + s)[i]) {
        if i > 0 { assert ([c] + s)[i] == s[i - 1]; }
      }
    }
    if Blank([c] + s) {
      assert ([c] + s)[0] == c;
      forall i | 0 <= i < |s| ensures IsSpace(s[i]) {
        assert s[i] == ([c] + s)[i + 1];
      }
    }
  }

  /** ASCII lower-casing of one character. */
  function LowerChar(c: char): char
  {
    if 'A' <= c <= 'Z' then (c as int + 32) as char else c
  }

  /** `strings.ToLower`, restricted to ASCII letters. */
  function ToLower(s: string): (r: string)
    ensures |r| == |s|
    ensures forall i :: 0 <= i < |s| ==> r[i] == LowerChar(s[i])
  {
    if s == [] then [] else [LowerChar(s[0])] + ToLower(s[1..])
  }

  /** A string without upper-case ASCII letters is its own lower-casing. */
  lemma ToLowerOfLower(s: string)
    requires forall i | 0 <= i < |s| :: !('A' <= s[i] <= 'Z')
    ensures ToLower(s) == s
  {
  }

  /** Lower-casing a lower-cased string changes nothing. */
  lemma ToLowerIdempotent(s: string)
    ensures ToLower(ToLower(s)) == ToLower(s)
  {
    var l := ToLower(s);
    forall i | 0 <= i < |l| ensures !('A' <= l[i] <= 'Z') {
      assert l[i] == LowerChar(s[i]);
    }
    ToLowerOfLower(l);
  }

  /** Joins pieces with a separator: the inverse of `Split`. */
  function Join(parts: seq<string>, sep: char): string
  {
    if parts == [] then []
    else if |parts| == 1 then parts[0]
    else parts[0] + [sep] + Join(parts[1..], sep)
  }

  /** `strings.Split(s, sep)` for a one-character separator: the empty string gives one empty piece. */
  function Split(s: string, sep: char): (parts: seq<string>)
    ensures |parts| >= 1
    ensures forall p <- parts :: sep !in p
  {
    if s == [] then [[]]
    else
      var rest := Split(s[1..], sep);
      if s[0] == sep then [[]] + rest else [[s[0]] + rest[0]] + rest[1..]
  }

  /** Splitting loses nothing: joining the pieces back gives the input. */
  lemma {:induction false} SplitJoin(s: string, sep: char)
    ensures Join(Split(s, sep), sep) == s
  {
    if s != [] {
      var parts := Split(s, sep);
      var rest := Split(s[1..], sep);
      SplitJoin(s[1..], sep);
      assert s == [s[0]] + s[1..];
      if s[0] == sep {
        assert parts[0] == [] && parts[1..] == rest;
        assert Join(parts, sep) == [] + [sep] + Join(rest, sep);
      } else {
        assert parts[0] == [s[0]] + rest[0] && parts[1..] == rest[1..];
        if |rest| == 1 {
          assert Join(parts, sep) == [s[0]] + rest[0];
          assert Join(rest, sep) == rest[0];
        } else {
          assert Join(parts, sep) == ([s[0]] + rest[0]) + [sep] + Join(rest[1..], sep);
          assert Join(rest, sep) == rest[0] + [sep] + Join(rest[1..], sep);
        }
      }
    }
  }

  /** A string without the separator is a single piece. */
  lemma {:induction false} SplitWithoutSep(a: string, sep: char)
    requires sep !in a
    ensures Split(a, sep) == [a]
  {
    if a != [] {
      SplitWithoutSep(a[1..], sep);
      assert a[0] != sep && [a[0]] + a[1..] == a;
    }
  }

  /** The first separator ends the first piece. */
  lemma {:induction false} SplitAtSep(a: string, b: string, sep: char)
    requires sep !in a
    ensures Split(a + [sep] + b, sep) == [a] + Split(b, sep)
  {
    var s := a + [sep] + b;
    if a == [] {
      assert s[0] == sep && s[1..] == b;
    } else {
      SplitAtSep(a[1..], b, sep);
      assert s[0] == a[0] != sep && s[1..] == a[1..] + [sep] + b;
      assert [a[0]] + a[1..] == a;
    }
  }

  /** Splitting undoes joining pieces that do not contain the separator. */
  lemma {:induction false} JoinSplit(parts: seq<string>, sep: char)
    requires |parts| >= 1
    requires forall p <- parts :: sep !in p
    ensures Split(Join(parts, sep), sep) == parts
  {
    if |parts| == 1 {
      SplitWithoutSep(parts[0], sep);
    } else {
      JoinSplit(parts[1..], sep);
      SplitAtSep(parts[0], Join(parts[1..], sep), sep);
    }
  }

  /** `strings.HasSuffix`. */
  predicate HasSuffix(s: string, suffix: string)
  {
    |suffix| <= |s| && s[|s| - |suffix|..] == suffix
  }

  /** `sub` occurs in `s` starting at index `i`. */
  predicate OccursAt(s: string, sub: string, i: int)
  {
    0 <= i <= |s| - |sub| && s[i..i + |sub|] == sub
  }

  /** `strings.Contains`. */
  predicate Contains(s: string, sub: string)
  {
    exists i | 0 <= i <= |s| - |sub| :: OccursAt(s, sub, i)
  }
}
