/** String operations of the Java standard library that the plugin relies on,
    stated over `string` (a sequence of Unicode characters).

    Case mapping is modelled on the ASCII letters only: `toLowerCase` and
    `toUpperCase` of Java also map non-ASCII letters, which no identifier,
    material name or command of the plugin contains. */
module Text {

  function LowerChar(c: char): (r: char)
    ensures 'A' <= c <= 'Z' ==> 'a' <= r <= 'z'
    ensures !('A' <= c <= 'Z') ==> r == c
  {
    if 'A' <= c <= 'Z' then (c as int + 32) as char else c
  }

  function UpperChar(c: char): (r: char)
    ensures 'a' <= c <= 'z' ==> 'A' <= r <= 'Z'
    ensures !('a' <= c <= 'z') ==> r == c
  {
    if 'a' <= c <= 'z' then (c as int - 32) as char else c
  }

  /** `String.toLowerCase()` */
  function ToLower(s: string): (r: string)
    ensures |r| == |s|
    ensures forall i :: 0 <= i < |s| ==> r[i] == LowerChar(s[i])
  {
    seq(|s|, i requires 0 <= i < |s| => LowerChar(s[i]))
  }

  /** `String.toUpperCase()` */
  function ToUpper(s: string): (r: string)
    ensures |r| == |s|
    ensures forall i :: 0 <= i < |s| ==> r[i] == UpperChar(s[i])
  {
    seq(|s|, i requires 0 <= i < |s| => UpperChar(s[i]))
  }

  /** `s.startsWith(p)` */
  predicate StartsWith(s: string, p: string) {
    |p| <= |s| && s[..|p|] == p
  }

  /** `s.endsWith(p)` */
  predicate EndsWith(s: string, p: string) {
    |p| <= |s| && s[|s| - |p|..] == p
  }

  /** `s.replace(String.valueOf(c), r)`: every occurrence of `c` becomes `r`. */
  function ReplaceChar(s: string, c: char, r: string): (t: string)
    ensures c !in r ==> c !in t
    ensures forall x :: x in t ==> x in s || x in r
  {
    if s == [] then [] else (if s[0] == c then r else [s[0]]) + ReplaceChar(s[1..], c, r)
  }

  /** A character that `String.trim()` removes from either end. */
  predicate IsTrimmed(c: char) {
    c <= ' '
  }

  function TrimStart(s: string): (r: string)
    ensures |r| <= |s| && r == s[|s| - |r|..]
    ensures r == [] || !IsTrimmed(r[0])
  {
    if |s| > 0 && IsTrimmed(s[0]) then TrimStart(s[1..]) else s
  }

  function TrimEnd(s: string): (r: string)
    ensures |r| <= |s| && r == s[..|r|]
    ensures r == [] || !IsTrimmed(r[|r| - 1])
  {
    if |s| > 0 && IsTrimmed(s[|s| - 1]) then TrimEnd(s[..|s| - 1]) else s
  }

  /** `String.trim()`: the result is a contiguous piece of `s` with no trimmed
      character at either end. */
  function Trim(s: string): (r: string)
    ensures exists i, j :: 0 <= i <= j <= |s| && r == s[i..j]
    ensures forall c :: c in r ==> c in s
    ensures r == [] || (!IsTrimmed(r[0]) && !IsTrimmed(r[|r| - 1]))
  {
    var t := TrimStart(s);
    var u := TrimEnd(t);
    assert u == s[|s| - |t|..|s| - |t| + |u|];
    assert forall c :: c in u ==> c in t;
    u
  }

  /** The pieces of `s` between occurrences of `sep`, empty pieces included.
      (`String.split` also drops trailing empty pieces; every caller in the
      plugin skips empty pieces, so the difference never shows.) */
  function SplitOn(s: string, sep: char): (r: seq<string>)
    ensures |r| >= 1
    ensures forall w :: w in r ==> sep !in w
  {
    if s == [] then [[]]
    else
      var rest := SplitOn(s[1..], sep);
      if s[0] == sep then [[]] + rest else [[s[0]] + rest[0]] + rest[1..]
  }

  /** `String.join(String.valueOf(sep), ws)` */
  function JoinWith(ws: seq<string>, sep: char): (r: string)
    requires ws != []
    ensures ws[0] != [] ==> r != [] && r[0] == ws[0][0]
    ensures ws[|ws| - 1] != [] ==> r != [] && r[|r| - 1] == ws[|ws| - 1][|ws[|ws| - 1]| - 1]
  {
    if |ws| == 1 then ws[0] else ws[0] + [sep] + JoinWith(ws[1..], sep)
  }

  lemma JoinWithCons(ws: seq<string>, sep: char)
    requires |ws| > 1
    ensures JoinWith(ws, sep) == (ws[0] + [sep]) + JoinWith(ws[1..], sep)
  {
  }

  /** Every string in `ws`, lower-cased. */
  function ToLowerAll(ws: seq<string>): (r: seq<string>)
    ensures |r| == |ws| && forall i :: 0 <= i < |ws| ==> r[i] == ToLower(ws[i])
  {
    seq(|ws|, i requires 0 <= i < |ws| => ToLower(ws[i]))
  }

  lemma {:induction false} SplitOnNoSep(a: string, sep: char)
    requires sep !in a
    ensures SplitOn(a, sep) == [a]
  {
    if a != [] {
      SplitOnNoSep(a[1..], sep);
      assert [a[0]] + a[1..] == a;
    }
  }

  lemma {:induction false} SplitOnPiece(a: string, b: string, sep: char)
    requires sep !in a
    ensures SplitOn(a + [sep] + b, sep) == [a] + SplitOn(b, sep)
  {
    var s := a + [sep] + b;
    if a == [] {
      assert s[1..] == b;
    } else {
      assert s[1..] == a[1..] + [sep] + b;
      SplitOnPiece(a[1..], b, sep);
      assert [a[0]] + a[1..] == a;
    }
  }

  /** Splitting on a separator undoes joining with it, provided no piece
      holds the separator. */
  lemma {:induction false} SplitJoin(ws: seq<string>, sep: char)
    requires ws != []
    requires forall w :: w in ws ==> sep !in w
    ensures SplitOn(JoinWith(ws, sep), sep) == ws
  {
    if |ws| == 1 {
      SplitOnNoSep(ws[0], sep);
    } else {
      assert ws[0] in ws;
      assert forall w :: w in ws[1..] ==> w in ws;
      SplitJoin(ws[1..], sep);
      SplitOnPiece(ws[0], JoinWith(ws[1..], sep), sep);
      assert [ws[0]] + ws[1..] == ws;
    }
  }

  lemma ToLowerConcat(a: string, b: string)
    ensures ToLower(a + b) == ToLower(a) + ToLower(b)
  {
    var l, r := ToLower(a + b), ToLower(a) + ToLower(b);
    assert |l| == |r|;
    forall i | 0 <= i < |l| ensures l[i] == r[i] {
      if i < |a| { assert (a + b)[i] == a[i]; } else { assert (a + b)[i] == b[i - |a|]; }
    }
  }

  /** Lower-casing commutes with joining on a separator that is not an
      upper-case letter. */
  lemma {:induction false} ToLowerJoin(ws: seq<string>, sep: char)
    requires ws != []
    requires !('A' <= sep <= 'Z')
    ensures ToLower(JoinWith(ws, sep)) == JoinWith(ToLowerAll(ws), sep)
  {
    if |ws| > 1 {
      ToLowerJoin(ws[1..], sep);
      assert ToLowerAll(ws)[1..] == ToLowerAll(ws[1..]);
      var a, b := ws[0], JoinWith(ws[1..], sep);
      ToLowerConcat(a + [sep], b);
      ToLowerConcat(a, [sep]);
      assert ToLower([sep]) == [sep];
    }
  }

  /** Upper-casing undoes lower-casing on text with no lower-case letter of
      its own, such as a material's enum constant name. */
  lemma UpperOfLower(s: string)
    requires forall i :: 0 <= i < |s| ==> !('a' <= s[i] <= 'z')
    ensures ToUpper(ToLower(s)) == s
  {
    var t := ToUpper(ToLower(s));
    forall i | 0 <= i < |s| ensures t[i] == s[i] {
      assert ToLower(s)[i] == LowerChar(s[i]);
    }
  }

  /** The character of a decimal digit. */
  function DigitChar(d: int): (c: char)
    requires 0 <= d < 10
    ensures '0' <= c <= '9'
  {
    ('0' as int + d) as char
  }

  /** The decimal digits of `n`, most significant first, without leading
      zeros. */
  function NatToString(n: nat): (r: string)
    ensures r != []
    ensures forall i :: 0 <= i < |r| ==> '0' <= r[i] <= '9'
  {
    if n < 10 then [DigitChar(n)] else NatToString(n / 10) + [DigitChar(n % 10)]
  }

  /** `String.valueOf(int)` as string concatenation writes an `int`: a minus
      sign before the digits of a negative number. */
  function IntToString(i: int): string {
    if i < 0 then "-" + NatToString(-i) else NatToString(i)
  }
}
