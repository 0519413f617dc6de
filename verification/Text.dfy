/** Strings as the two runtimes see them.  Go's unicode tables and Postgres' LOWER
    are parameters; the only laws used are the ones stated as predicates here. */
module Text {

  datatype Option<+T> = None | Some(value: T)

  /** One runtime's case and space tables. */
  datatype Chars = Chars(
    lower: char -> char,
    isSpace: char -> bool,
    isUpper: char -> bool,
    isLower: char -> bool,
    isDigit: char -> bool)

  /** Lowering a character neither makes nor removes a space. */
  ghost predicate LowerKeepsSpaces(t: Chars) {
    forall c: char :: t.isSpace(t.lower(c)) == t.isSpace(c)
  }

  /** Lowering twice is lowering once. */
  ghost predicate LowerIdempotent(t: Chars) {
    forall c: char :: t.lower(t.lower(c)) == t.lower(c)
  }

  function ToLower(t: Chars, s: string): (r: string)
    ensures |r| == |s|
  {
    seq(|s|, i requires 0 <= i < |s| => t.lower(s[i]))
  }

  function TrimLeft(t: Chars, s: string): string {
    if s != "" && t.isSpace(s[0]) then TrimLeft(t, s[1..]) else s
  }

  function TrimRight(t: Chars, s: string): string {
    if s != "" && t.isSpace(s[|s| - 1]) then TrimRight(t, s[..|s| - 1]) else s
  }

  function Trim(t: Chars, s: string): string {
    TrimRight(t, TrimLeft(t, s))
  }

  /** The part of s from i to j, lowered or not, with nothing but spaces around it and none at its ends. */
  ghost predicate Core(t: Chars, s: string, i: nat, j: nat) {
    && i <= j <= |s|
    && (forall k :: 0 <= k < i || j <= k < |s| ==> t.isSpace(s[k]))
    && (i < j ==> !t.isSpace(s[i]) && !t.isSpace(s[j - 1]))
  }

  lemma {:induction false} TrimLeftCuts(t: Chars, s: string) returns (i: nat)
    ensures i <= |s| && TrimLeft(t, s) == s[i..] && forall k :: 0 <= k < i ==> t.isSpace(s[k])
    ensures i < |s| ==> !t.isSpace(s[i])
  {
    if s != "" && t.isSpace(s[0]) {
      i := TrimLeftCuts(t, s[1..]);
      assert s[1..][i..] == s[i + 1..];
      forall k | 0 <= k < i + 1 ensures t.isSpace(s[k]) {
        if k > 0 { assert s[k] == s[1..][k - 1]; }
      }
      i := i + 1;
    } else {
      i := 0;
    }
  }

  lemma {:induction false} TrimRightCuts(t: Chars, s: string) returns (j: nat)
    ensures j <= |s| && TrimRight(t, s) == s[..j] && forall k :: j <= k < |s| ==> t.isSpace(s[k])
    ensures j > 0 ==> !t.isSpace(s[j - 1])
  {
    if s != "" && t.isSpace(s[|s| - 1]) {
      j := TrimRightCuts(t, s[..|s| - 1]);
      assert s[..|s| - 1][..j] == s[..j];
      forall k | j <= k < |s| ensures t.isSpace(s[k]) {
        if k < |s| - 1 { assert s[k] == s[..|s| - 1][k]; }
      }
    } else {
      j := |s|;
    }
  }

  /** Trimming cuts the spaces off both ends, and lowering then replaces each character of the rest. */
  lemma TrimIsCore(t: Chars, s: string) returns (i: nat, j: nat)
    ensures Core(t, s, i, j) && Trim(t, s) == s[i..j]
    ensures |ToLower(t, Trim(t, s))| == j - i
    ensures forall k :: i <= k < j ==> ToLower(t, Trim(t, s))[k - i] == t.lower(s[k])
  {
    i := TrimLeftCuts(t, s);
    j := TrimRightCuts(t, s[i..]);
    assert s[i..][..j] == s[i..i + j];
    j := i + j;
  }

  lemma {:induction false} LowerTrimLeft(t: Chars, s: string)
    requires LowerKeepsSpaces(t)
    ensures ToLower(t, TrimLeft(t, s)) == TrimLeft(t, ToLower(t, s))
  {
    if s != "" && t.isSpace(s[0]) {
      LowerTrimLeft(t, s[1..]);
      assert ToLower(t, s)[1..] == ToLower(t, s[1..]);
    }
  }

  lemma {:induction false} LowerTrimRight(t: Chars, s: string)
    requires LowerKeepsSpaces(t)
    ensures ToLower(t, TrimRight(t, s)) == TrimRight(t, ToLower(t, s))
  {
    if s != "" && t.isSpace(s[|s| - 1]) {
      LowerTrimRight(t, s[..|s| - 1]);
      assert ToLower(t, s)[..|s| - 1] == ToLower(t, s[..|s| - 1]);
    }
  }

  /** Trimming and lowering commute. */
  lemma LowerTrimCommute(t: Chars, s: string)
    requires LowerKeepsSpaces(t)
    ensures ToLower(t, Trim(t, s)) == Trim(t, ToLower(t, s))
  {
    LowerTrimLeft(t, s);
    LowerTrimRight(t, TrimLeft(t, s));
  }

  lemma {:induction false} TrimLeftFixed(t: Chars, s: string)
    ensures var r := TrimLeft(t, s); r == "" || !t.isSpace(r[0])
  {
    if s != "" && t.isSpace(s[0]) { TrimLeftFixed(t, s[1..]); }
  }

  lemma {:induction false} TrimRightFixed(t: Chars, s: string)
    ensures var r := TrimRight(t, s); r == "" || !t.isSpace(r[|r| - 1])
    ensures TrimRight(t, s) <= s
  {
    if s != "" && t.isSpace(s[|s| - 1]) { TrimRightFixed(t, s[..|s| - 1]); }
  }

  lemma TrimIdempotent(t: Chars, s: string)
    ensures Trim(t, Trim(t, s)) == Trim(t, s)
  {
    TrimLeftFixed(t, s);
    TrimRightFixed(t, TrimLeft(t, s));
  }

  /** Lowering a trimmed string gives a string that trimming and lowering leave alone. */
  lemma LowerTrimIdempotent(t: Chars, s: string)
    requires LowerKeepsSpaces(t) && LowerIdempotent(t)
    ensures var r := ToLower(t, Trim(t, s)); ToLower(t, Trim(t, r)) == r && ToLower(t, r) == r && Trim(t, r) == r
  {
    var r := ToLower(t, Trim(t, s));
    LowerTrimCommute(t, Trim(t, s));
    TrimIdempotent(t, s);
    assert Trim(t, r) == r;
    assert ToLower(t, r) == r;
  }
}
