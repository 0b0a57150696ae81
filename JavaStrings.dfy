/**
 * The java.lang.String operations the filter engine relies on: equality,
 * toLowerCase, contains, startsWith, endsWith, trim, split(",") and
 * compareTo. Characters are UTF-16 code units, as in Java.
 */
module JavaStrings {

  /** Character.toLowerCase on the ASCII letters; every other character is kept. */
  function LowerChar(c: char): (r: char)
    ensures 'A' <= c <= 'Z' ==> r as int == c as int + 32
    ensures !('A' <= c <= 'Z') ==> r == c
  {
    if 'A' <= c <= 'Z' then (c as int + 32) as char else c
  }

  /** String.toLowerCase, character by character. */
  function ToLower(s: string): (r: string)
    ensures |r| == |s|
    ensures forall i :: 0 <= i < |s| ==> r[i] == LowerChar(s[i])
  {
    if |s| == 0 then "" else [LowerChar(s[0])] + ToLower(s[1..])
  }

  /** Lower-casing twice is lower-casing once. */
  lemma ToLowerIdempotent(s: string)
    ensures ToLower(ToLower(s)) == ToLower(s)
  {
    assert forall i :: 0 <= i < |s| ==> LowerChar(LowerChar(s[i])) == LowerChar(s[i]);
  }

  /** String.lastIndexOf(c): the last position holding c, or -1 when c does not occur. */
  function LastIndexOf(s: string, c: char): (r: int)
    ensures -1 <= r < |s|
    ensures r >= 0 ==> s[r] == c
    ensures forall k :: r < k < |s| ==> s[k] != c
  {
    if |s| == 0 then -1
    else if s[|s| - 1] == c then |s| - 1
    else LastIndexOf(s[..|s| - 1], c)
  }

  /** String.startsWith. */
  predicate StartsWith(s: string, prefix: string) {
    |prefix| <= |s| && s[..|prefix|] == prefix
  }

  /** String.endsWith. */
  predicate EndsWith(s: string, suffix: string) {
    |suffix| <= |s| && s[|s| - |suffix|..] == suffix
  }

  /** t occurs in s starting at index i. */
  ghost predicate OccursAt(s: string, t: string, i: int) {
    0 <= i && i + |t| <= |s| && s[i..i + |t|] == t
  }

  /** String.contains: t occurs somewhere in s (the empty string occurs everywhere). */
  function Contains(s: string, t: string): (r: bool)
    ensures r <==> exists i :: OccursAt(s, t, i)
    decreases |s|
  {
    if StartsWith(s, t) then
      assert OccursAt(s, t, 0);
      true
    else if |s| == 0 then
      assert forall i :: !OccursAt(s, t, i);
      false
    else
      var rest := Contains(s[1..], t);
      assert forall i :: OccursAt(s[1..], t, i) <==> OccursAt(s, t, i + 1) by {
        forall i ensures OccursAt(s[1..], t, i) <==> OccursAt(s, t, i + 1) {
          if 0 <= i && i + |t| <= |s| - 1 {
            assert s[1..][i..i + |t|] == s[i + 1..i + 1 + |t|];
          }
        }
      }
      assert !OccursAt(s, t, 0);
      assert (exists i :: OccursAt(s, t, i)) ==> exists i :: OccursAt(s[1..], t, i) by {
        if exists i :: OccursAt(s, t, i) {
          var i :| OccursAt(s, t, i);
          assert OccursAt(s[1..], t, i - 1);
        }
      }
      rest
  }

  /** The characters String.trim removes: every code unit up to U+0020. */
  predicate IsTrimmable(c: char) {
    c <= ' '
  }

  function TrimStart(s: string): string {
    if |s| > 0 && IsTrimmable(s[0]) then TrimStart(s[1..]) else s
  }

  function TrimEnd(s: string): string {
    if |s| > 0 && IsTrimmable(s[|s| - 1]) then TrimEnd(s[..|s| - 1]) else s
  }

  /** TrimStart drops exactly the leading trimmable characters. */
  lemma {:induction false} TrimStartShape(s: string)
    ensures var r := TrimStart(s);
      |r| <= |s| && r == s[|s| - |r|..] &&
      (forall i :: 0 <= i < |s| - |r| ==> IsTrimmable(s[i])) &&
      (|r| > 0 ==> !IsTrimmable(r[0]))
    decreases |s|
  {
    if |s| > 0 && IsTrimmable(s[0]) {
      TrimStartShape(s[1..]);
    }
  }

  /** TrimEnd drops exactly the trailing trimmable characters. */
  lemma {:induction false} TrimEndShape(s: string)
    ensures var r := TrimEnd(s);
      |r| <= |s| && r == s[..|r|] &&
      (forall i :: |r| <= i < |s| ==> IsTrimmable(s[i])) &&
      (|r| > 0 ==> !IsTrimmable(r[|r| - 1]))
    decreases |s|
  {
    if |s| > 0 && IsTrimmable(s[|s| - 1]) {
      TrimEndShape(s[..|s| - 1]);
    }
  }

  /** String.trim: s without its leading and trailing characters up to U+0020. */
  function Trim(s: string): string {
    TrimEnd(TrimStart(s))
  }

  /** The trim of s is a piece of s that neither starts nor ends with a trimmable character. */
  lemma TrimShape(s: string)
    ensures |Trim(s)| <= |s|
    ensures exists k :: OccursAt(s, Trim(s), k)
    ensures |Trim(s)| > 0 ==> !IsTrimmable(Trim(s)[0]) && !IsTrimmable(Trim(s)[|Trim(s)| - 1])
  {
    var a := TrimStart(s);
    TrimStartShape(s);
    TrimEndShape(a);
    assert OccursAt(s, Trim(s), |s| - |a|);
  }

  /** A string is blank after trim exactly when it consists of trimmable characters only. */
  lemma TrimEmptyIff(s: string)
    ensures Trim(s) == "" <==> forall i :: 0 <= i < |s| ==> IsTrimmable(s[i])
  {
    var a := TrimStart(s);
    TrimStartShape(s);
    TrimEndShape(a);
    if Trim(s) == "" {
      assert |a| == 0;
    }
  }

  /** A string without surrounding trimmable characters is its own trim. */
  lemma TrimOfTrimmed(s: string)
    requires |s| > 0 ==> !IsTrimmable(s[0]) && !IsTrimmable(s[|s| - 1])
    ensures Trim(s) == s
  {
  }

  /** The pieces of s between commas, empty pieces included (split with a negative limit). */
  function Pieces(s: string): (r: seq<string>)
    ensures |r| >= 1
    ensures forall k :: 0 <= k < |r| ==> ',' !in r[k]
    decreases |s|
  {
    if |s| == 0 then [""]
    else if s[0] == ',' then [""] + Pieces(s[1..])
    else
      var rest := Pieces(s[1..]);
      [[s[0]] + rest[0]] + rest[1..]
  }

  /** Joins pieces with a comma between neighbours. */
  function JoinComma(p: seq<string>): string
    decreases |p|
  {
    if |p| == 0 then "" else if |p| == 1 then p[0] else p[0] + "," + JoinComma(p[1..])
  }

  /** Joining the pieces of s gives s back. */
  lemma {:induction false} PiecesJoin(s: string)
    ensures JoinComma(Pieces(s)) == s
    decreases |s|
  {
    if |s| == 0 {
    } else if s[0] == ',' {
      PiecesJoin(s[1..]);
      assert Pieces(s) == [""] + Pieces(s[1..]);
      assert s == "" + "," + s[1..];
    } else {
      PiecesJoin(s[1..]);
      var rest := Pieces(s[1..]);
      if |rest| == 1 {
        assert s == [s[0]] + s[1..];
      } else {
        assert JoinComma(rest) == rest[0] + "," + JoinComma(rest[1..]);
        assert Pieces(s)[1..] == rest[1..];
        assert s == [s[0]] + s[1..];
      }
    }
  }

  function DropTrailingEmpty(p: seq<string>): (r: seq<string>)
    ensures |r| <= |p| && r == p[..|r|]
    ensures forall k :: |r| <= k < |p| ==> p[k] == ""
    ensures |r| > 0 ==> r[|r| - 1] != ""
  {
    if |p| > 0 && p[|p| - 1] == "" then DropTrailingEmpty(p[..|p| - 1]) else p
  }

  /**
   * String.split(",") with Java's default limit 0: a string without a comma is
   * its own single token (even ""); otherwise the pieces between commas, with
   * trailing empty pieces removed.
   */
  function Split(s: string): (r: seq<string>)
    ensures forall k :: 0 <= k < |r| ==> ',' !in r[k]
    ensures ',' !in s ==> r == [s]
    ensures ',' in s ==> |r| <= |Pieces(s)| && r == Pieces(s)[..|r|]
    ensures ',' in s && |r| > 0 ==> r[|r| - 1] != ""
  {
    if ',' !in s then [s] else DropTrailingEmpty(Pieces(s))
  }

  /** String.compareTo: code-unit difference at the first mismatch, else the length difference. */
  function CompareTo(a: string, b: string): int
    decreases |a|
  {
    if |a| == 0 || |b| == 0 then |a| - |b|
    else if a[0] != b[0] then a[0] as int - b[0] as int
    else CompareTo(a[1..], b[1..])
  }

  /** compareTo is antisymmetric. */
  lemma {:induction false} CompareToAntisymmetric(a: string, b: string)
    ensures CompareTo(a, b) == -CompareTo(b, a)
    decreases |a|
  {
    if |a| > 0 && |b| > 0 && a[0] == b[0] {
      CompareToAntisymmetric(a[1..], b[1..]);
    }
  }

  /** compareTo is zero exactly for equal strings. */
  lemma {:induction false} CompareToZeroIff(a: string, b: string)
    ensures CompareTo(a, b) == 0 <==> a == b
    decreases |a|
  {
    if |a| > 0 && |b| > 0 && a[0] == b[0] {
      CompareToZeroIff(a[1..], b[1..]);
      assert a == [a[0]] + a[1..] && b == [b[0]] + b[1..];
      if a == b {
        assert a[1..] == b[1..];
      }
    }
  }

  /** Number of '.' characters in s. */
  function DotCount(s: string): (r: nat)
    ensures r <= |s|
    ensures r == 0 <==> '.' !in s
  {
    if |s| == 0 then 0 else (if s[0] == '.' then 1 else 0) + DotCount(s[1..])
  }

  predicate IsDigit(c: char) {
    '0' <= c <= '9'
  }

  /** Length of the run of digits at the start of s. */
  function LeadingDigits(s: string): (n: nat)
    ensures n <= |s|
    ensures forall i :: 0 <= i < n ==> IsDigit(s[i])
    ensures n < |s| ==> !IsDigit(s[n])
  {
    if |s| > 0 && IsDigit(s[0]) then 1 + LeadingDigits(s[1..]) else 0
  }

  function DigitChar(d: nat): (c: char)
    requires d < 10
    ensures IsDigit(c)
  {
    ('0' as int + d) as char
  }

  /** Integer.toString of a non-negative int: its decimal digits, without leading zeros. */
  function NatStr(n: nat): (r: string)
    ensures |r| > 0 && forall i :: 0 <= i < |r| ==> IsDigit(r[i])
  {
    if n < 10 then [DigitChar(n)] else NatStr(n / 10) + [DigitChar(n % 10)]
  }

  /** The value of a string of decimal digits. */
  function ParseNat(s: string): nat {
    if |s| == 0 then 0
    else if IsDigit(s[|s| - 1]) then 10 * ParseNat(s[..|s| - 1]) + (s[|s| - 1] as int - '0' as int)
    else 10 * ParseNat(s[..|s| - 1])
  }

  /** NatStr can be read back, so different numbers have different decimal strings. */
  lemma {:induction false} ParseNatStr(n: nat)
    ensures ParseNat(NatStr(n)) == n
  {
    if n >= 10 {
      ParseNatStr(n / 10);
      var r := NatStr(n);
      assert r[..|r| - 1] == NatStr(n / 10);
    }
  }

  /**
   * In NatStr(n) + "_" + rest the digit run is exactly NatStr(n): the
   * number, the underscore and the rest can be cut apart again.
   */
  lemma NumberThenUnderscore(n: nat, rest: string)
    ensures var k := NatStr(n) + "_" + rest; var d := |NatStr(n)|;
      LeadingDigits(k) == d && k[d] == '_' && k[..d] == NatStr(n) && k[d + 1..] == rest
  {
    var k := NatStr(n) + "_" + rest;
    var d := |NatStr(n)|;
    LeadingDigitsOfRun(k, d);
  }

  lemma {:induction false} LeadingDigitsOfRun(s: string, d: nat)
    requires d < |s| && !IsDigit(s[d]) && forall i :: 0 <= i < d ==> IsDigit(s[i])
    ensures LeadingDigits(s) == d
  {
    if d > 0 {
      LeadingDigitsOfRun(s[1..], d - 1);
    }
  }
}
