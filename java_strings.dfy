/**
 * The few `java.lang.String` operations the plugin relies on, with Java's own
 * edge cases: `trim` strips every code point up to U+0020, `isBlank` tests
 * `Character.isWhitespace`, `split` drops trailing empty pieces but returns the
 * whole input when the separator never occurs, and `replaceAll` (with a
 * pattern free of regex metacharacters) rewrites left to right without overlap.
 */
module JavaStrings {

  /** `Character.isWhitespace`: the Unicode separators other than the no-break
      spaces, plus the ASCII controls U+0009..U+000D and U+001C..U+001F. */
  predicate IsWhitespace(c: char) {
    || c == ' '
    || ('\t' <= c <= '\r')
    || ('\U{1C}' <= c <= '\U{1F}')
    || c == '\U{1680}'
    || ('\U{2000}' <= c <= '\U{2006}')
    || ('\U{2008}' <= c <= '\U{200A}')
    || c == '\U{2028}' || c == '\U{2029}' || c == '\U{205F}' || c == '\U{3000}'
  }

  /** `String.isBlank`: empty, or white space only. */
  predicate IsBlank(s: string) {
    forall i :: 0 <= i < |s| ==> IsWhitespace(s[i])
  }

  /** `trim` removes the code points `<= ' '`. */
  predicate IsTrimmed(c: char) {
    c <= ' '
  }

  /** Number of leading code points that `trim` removes. */
  function LeadingTrimmed(s: string): (k: nat)
    ensures k <= |s|
    ensures forall i :: 0 <= i < k ==> IsTrimmed(s[i])
    ensures k < |s| ==> !IsTrimmed(s[k])
  {
    if |s| == 0 || !IsTrimmed(s[0]) then 0 else 1 + LeadingTrimmed(s[1..])
  }

  /** Number of trailing code points that `trim` removes. */
  function TrailingTrimmed(s: string): (k: nat)
    ensures k <= |s|
    ensures forall i :: |s| - k <= i < |s| ==> IsTrimmed(s[i])
    ensures k < |s| ==> !IsTrimmed(s[|s| - 1 - k])
  {
    if |s| == 0 || !IsTrimmed(s[|s| - 1]) then 0 else 1 + TrailingTrimmed(s[..|s| - 1])
  }

  /** `String.trim`. The result is a slice of the input whose two ends are kept
      characters; it is empty exactly when every character is trimmed. */
  function Trim(s: string): (r: string)
    ensures |r| <= |s|
    ensures r == [] || (!IsTrimmed(r[0]) && !IsTrimmed(r[|r| - 1]))
    ensures r == [] <==> forall i :: 0 <= i < |s| ==> IsTrimmed(s[i])
    ensures exists a :: 0 <= a <= |s| - |r| && SliceAt(s, a, r)
  {
    var a := LeadingTrimmed(s);
    var t := s[a..];
    var b := TrailingTrimmed(t);
    var r := t[..|t| - b];
    assert SliceAt(s, a, r);
    assert |t| > 0 ==> t[0] == s[a];
    r
  }

  /** `r` is the slice of `s` that starts at `a`. */
  predicate SliceAt(s: string, a: nat, r: string) {
    a + |r| <= |s| && r == s[a..a + |r|]
  }

  /** Trimming twice changes nothing more. */
  lemma TrimIdempotent(s: string)
    ensures Trim(Trim(s)) == Trim(s)
  {
    var r := Trim(s);
    assert LeadingTrimmed(r) == 0;
    assert TrailingTrimmed(r[LeadingTrimmed(r)..]) == 0;
  }

  /** A string whose two ends are kept characters is its own trim. */
  lemma TrimKeepsTrimmed(s: string)
    requires s != [] && !IsTrimmed(s[0]) && !IsTrimmed(s[|s| - 1])
    ensures Trim(s) == s
  {
    assert LeadingTrimmed(s) == 0;
    assert s[0..] == s;
    assert TrailingTrimmed(s) == 0;
  }

  predicate StartsWith(s: string, prefix: string) {
    |prefix| <= |s| && s[..|prefix|] == prefix
  }

  // ---------------------------------------------------------------------------
  // Decimal rendering of integers (`String.valueOf(int)`, `"_" + n`).

  function DigitChar(d: nat): (c: char)
    requires d < 10
    ensures '0' <= c <= '9'
  {
    (48 + d) as char
  }

  function NatToString(n: nat): (s: string)
    ensures 1 <= |s|
    ensures forall i :: 0 <= i < |s| ==> '0' <= s[i] <= '9'
  {
    if n < 10 then [DigitChar(n)] else NatToString(n / 10) + [DigitChar(n % 10)]
  }

  /** Java's decimal form of a signed integer. */
  function IntToString(i: int): (s: string)
    ensures 1 <= |s|
  {
    if i < 0 then "-" + NatToString(-i) else NatToString(i)
  }

  function Pow10(k: nat): (p: nat)
    ensures p >= 1
  {
    if k == 0 then 1 else 10 * Pow10(k - 1)
  }

  /** A number below `10^k` has at most `k` digits. */
  lemma {:induction false} NatToStringLength(n: nat, k: nat)
    requires 1 <= k && n < Pow10(k)
    ensures |NatToString(n)| <= k
  {
    assert Pow10(1) == 10;
    if n >= 10 {
      assert n / 10 < Pow10(k - 1);
      NatToStringLength(n / 10, k - 1);
    }
  }

  /** Any Java `int` renders in at most 11 characters (`-2147483648`). */
  lemma Int32StringLength(i: int)
    requires -0x8000_0000 <= i < 0x8000_0000
    ensures |IntToString(i)| <= 11
  {
    assert Pow10(10) == 10_000_000_000 by {
      assert Pow10(1) == 10;
      assert Pow10(2) == 100;
      assert Pow10(3) == 1000;
      assert Pow10(4) == 10000;
      assert Pow10(5) == 100000;
      assert Pow10(6) == 1000000;
      assert Pow10(7) == 10000000;
      assert Pow10(8) == 100000000;
      assert Pow10(9) == 1000000000;
    }
    if i < 0 {
      NatToStringLength(-i, 10);
    } else {
      NatToStringLength(i, 10);
    }
  }

  /** Distinct numbers have distinct renderings. */
  lemma {:induction false} NatToStringInjective(a: nat, b: nat)
    requires NatToString(a) == NatToString(b)
    ensures a == b
  {
    assert a >= 10 ==> |NatToString(a)| >= 2;
    assert b >= 10 ==> |NatToString(b)| >= 2;
    if a < 10 && b < 10 {
      assert DigitChar(a) == NatToString(a)[0];
    } else if a >= 10 && b >= 10 {
      var sa, sb := NatToString(a), NatToString(b);
      assert sa[|sa| - 1] == DigitChar(a % 10);
      assert sb[|sb| - 1] == DigitChar(b % 10);
      assert sa[..|sa| - 1] == NatToString(a / 10);
      assert sb[..|sb| - 1] == NatToString(b / 10);
      NatToStringInjective(a / 10, b / 10);
    }
  }

  // ---------------------------------------------------------------------------
  // `replaceAll` with a literal pattern.

  predicate OccursAt(s: string, pat: string, i: int) {
    0 <= i && i + |pat| <= |s| && s[i..i + |pat|] == pat
  }

  predicate Occurs(s: string, pat: string) {
    exists i :: 0 <= i <= |s| - |pat| && OccursAt(s, pat, i)
  }

  /** Left-to-right, non-overlapping replacement of every occurrence of `pat`. */
  function ReplaceAll(s: string, pat: string, rep: string): string
    requires |pat| > 0
    decreases |s|
  {
    if |s| < |pat| then s
    else if s[..|pat|] == pat then rep + ReplaceAll(s[|pat|..], pat, rep)
    else [s[0]] + ReplaceAll(s[1..], pat, rep)
  }

  /** A string in which the pattern never occurs is left as it is. */
  lemma {:induction false} ReplaceAllAbsent(s: string, pat: string, rep: string)
    requires |pat| > 0 && !Occurs(s, pat)
    ensures ReplaceAll(s, pat, rep) == s
    decreases |s|
  {
    if |s| >= |pat| {
      assert !OccursAt(s, pat, 0);
      assert !Occurs(s[1..], pat) by {
        forall j | 0 <= j <= |s[1..]| - |pat|
          ensures !OccursAt(s[1..], pat, j)
        {
          assert s[1..][j..j + |pat|] == s[j + 1..j + 1 + |pat|];
          assert !OccursAt(s, pat, j + 1);
        }
      }
      ReplaceAllAbsent(s[1..], pat, rep);
    }
  }

  // ---------------------------------------------------------------------------
  // `split(sep)` and its inverse, joining with `sep`.

  /** The pieces of `s` between the occurrences of `sep`, scanning left to
      right; `cur` is the piece collected so far. */
  function PiecesFrom(s: string, sep: string, cur: string): (r: seq<string>)
    requires |sep| > 0
    ensures |r| >= 1
    decreases |s|
  {
    if |s| == 0 then [cur]
    else if |sep| <= |s| && s[..|sep|] == sep then [cur] + PiecesFrom(s[|sep|..], sep, "")
    else PiecesFrom(s[1..], sep, cur + [s[0]])
  }

  /** Java drops the trailing empty strings of a split (limit 0). */
  function DropTrailingEmpty(p: seq<string>): (r: seq<string>)
    ensures |r| <= |p| && r == p[..|r|]
    ensures r == [] || r[|r| - 1] != ""
    ensures forall i :: |r| <= i < |p| ==> p[i] == ""
  {
    if p == [] then []
    else if p[|p| - 1] == "" then DropTrailingEmpty(p[..|p| - 1])
    else p
  }

  /** `String.split(sep)` for a separator without regex metacharacters. One
      piece means that `sep` never occurs, and then Java returns the input as
      it is, even when it is empty. */
  function Split(s: string, sep: string): seq<string>
    requires |sep| > 0
  {
    var p := PiecesFrom(s, sep, "");
    if |p| == 1 then p else DropTrailingEmpty(p)
  }

  function Join(parts: seq<string>, sep: string): string {
    if |parts| == 0 then ""
    else if |parts| == 1 then parts[0]
    else parts[0] + sep + Join(parts[1..], sep)
  }

  predicate FreeOf(s: string, c: char) {
    forall i :: 0 <= i < |s| ==> s[i] != c
  }

  lemma {:induction false} PiecesSkipWord(w: string, rest: string, sep: string, cur: string)
    requires |sep| > 0 && FreeOf(w, sep[0])
    ensures PiecesFrom(w + rest, sep, cur) == PiecesFrom(rest, sep, cur + w)
    decreases |w|
  {
    if w == [] {
      assert w + rest == rest;
      assert cur + w == cur;
    } else {
      var s := w + rest;
      assert s[0] == w[0] != sep[0];
      assert s[1..] == w[1..] + rest;
      assert cur + [s[0]] + w[1..] == cur + w;
      PiecesSkipWord(w[1..], rest, sep, cur + [s[0]]);
    }
  }

  /** Splitting a joined list gives the list back (before trailing empties
      are dropped), as long as no part contains the separator's first character. */
  lemma {:induction false} PiecesOfJoin(parts: seq<string>, sep: string)
    requires |sep| > 0 && |parts| >= 1
    requires forall i :: 0 <= i < |parts| ==> FreeOf(parts[i], sep[0])
    ensures PiecesFrom(Join(parts, sep), sep, "") == parts
  {
    if |parts| == 1 {
      assert Join(parts, sep) == parts[0] + "";
      PiecesSkipWord(parts[0], "", sep, "");
      assert "" + parts[0] == parts[0];
    } else {
      var tail := Join(parts[1..], sep);
      assert Join(parts, sep) == parts[0] + (sep + tail);
      PiecesSkipWord(parts[0], sep + tail, sep, "");
      assert "" + parts[0] == parts[0];
      var s := sep + tail;
      assert s[..|sep|] == sep && s[|sep|..] == tail;
      PiecesOfJoin(parts[1..], sep);
      assert parts == [parts[0]] + parts[1..];
    }
  }

  /** `split` undoes `join` for a non-empty list whose last part is not empty
      (or that has one part) and whose parts avoid the separator's first character. */
  lemma SplitJoin(parts: seq<string>, sep: string)
    requires |sep| > 0 && |parts| >= 1
    requires |parts| == 1 || parts[|parts| - 1] != ""
    requires forall i :: 0 <= i < |parts| ==> FreeOf(parts[i], sep[0])
    ensures Split(Join(parts, sep), sep) == parts
  {
    PiecesOfJoin(parts, sep);
  }
}
