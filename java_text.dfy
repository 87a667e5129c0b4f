/**
  The few pieces of java.lang behaviour the exporter's core relies on, stated
  exactly: nullable references, String.trim/isEmpty, String.indexOf,
  String.split with a one-character separator, Boolean.parseBoolean,
  the decimal text of an integer, and the integer widths of long and int.
 */
module JavaText {

  /** A Java reference that may be null. */
  datatype Nullable<+T> = Null | NonNull(value: T)

  /** A value, or the exception that took its place. */
  datatype Result<+T, +E> = Success(value: T) | Failure(error: E)

  const LONG_MIN: int := -0x8000_0000_0000_0000
  const LONG_MAX: int := 0x7fff_ffff_ffff_ffff
  const INT_MIN: int := -0x8000_0000
  const INT_MAX: int := 0x7fff_ffff

  /** The values of a Java long. */
  type Long = x: int | LONG_MIN <= x <= LONG_MAX
  /** The values of a Java int. */
  type Int32 = x: int | INT_MIN <= x <= INT_MAX

  // ---------------------------------------------------------------------
  // String.trim and blankness
  // ---------------------------------------------------------------------

  /** String.trim removes every leading and trailing character at or below U+0020. */
  function TrimStart(s: string): (r: string)
    ensures |r| <= |s| && r == s[|s| - |r|..]
    ensures r == [] || r[0] > ' '
    ensures forall i :: 0 <= i < |s| - |r| ==> s[i] <= ' '
  {
    if s != [] && s[0] <= ' ' then TrimStart(s[1..]) else s
  }

  function TrimEnd(s: string): (r: string)
    ensures |r| <= |s| && r == s[..|r|]
    ensures r == [] || r[|r| - 1] > ' '
    ensures forall i :: |r| <= i < |s| ==> s[i] <= ' '
  {
    if s != [] && s[|s| - 1] <= ' ' then TrimEnd(s[..|s| - 1]) else s
  }

  function Trim(s: string): string {
    TrimEnd(TrimStart(s))
  }

  /** `s.trim().isEmpty()` */
  predicate IsBlank(s: string) {
    Trim(s) == []
  }

  /** A string is blank exactly when each of its characters is at or below U+0020. */
  lemma BlankIff(s: string)
    ensures IsBlank(s) <==> forall i :: 0 <= i < |s| ==> s[i] <= ' '
  {
    var t := TrimStart(s);
    if Trim(s) == [] {
      assert |t| == 0;
    } else {
      var r := Trim(s);
      assert r[0] > ' ';
      assert r[0] == t[0] == s[|s| - |t|];
    }
  }

  // ---------------------------------------------------------------------
  // String.indexOf(char)
  // ---------------------------------------------------------------------

  /** `s.indexOf(c)`: the first index holding c, or -1 when c does not occur. */
  function IndexOf(s: string, c: char): (r: int)
    ensures r == -1 <==> c !in s
    ensures r != -1 ==> 0 <= r < |s| && s[r] == c && c !in s[..r]
  {
    if s == [] then -1
    else if s[0] == c then 0
    else
      var k := IndexOf(s[1..], c);
      if k == -1 then -1 else k + 1
  }

  /** The first occurrence is found behind any prefix that lacks it. */
  lemma IndexOfFirst(a: string, c: char, b: string)
    requires c !in a
    ensures IndexOf(a + [c] + b, c) == |a|
  {
    var s := a + [c] + b;
    var r := IndexOf(s, c);
    assert s[|a|] == c;
    assert forall k :: 0 <= k < |a| ==> s[k] == a[k] != c;
    assert forall k :: 0 <= k < r ==> s[..r][k] == s[k] != c;
  }

  lemma IndexOfAbsent(s: string, c: char)
    requires c !in s
    ensures IndexOf(s, c) == -1
  {
  }

  // ---------------------------------------------------------------------
  // String.split with a one-character separator (limit 0)
  // ---------------------------------------------------------------------

  /** Every piece between separators, the empty ones included. */
  function Segments(s: string, c: char): (parts: seq<string>)
    ensures |parts| >= 1
    ensures forall j :: 0 <= j < |parts| ==> c !in parts[j]
    decreases |s|
  {
    var i := IndexOf(s, c);
    if i == -1 then [s] else [s[..i]] + Segments(s[i + 1..], c)
  }

  /** The pieces glued back together with the separator between them. */
  function Join(parts: seq<string>, sep: string): string {
    if parts == [] then []
    else if |parts| == 1 then parts[0]
    else parts[0] + sep + Join(parts[1..], sep)
  }

  /** Cutting at every separator and joining again gives back the string. */
  lemma {:induction false} JoinSegments(s: string, c: char)
    ensures Join(Segments(s, c), [c]) == s
    decreases |s|
  {
    var i := IndexOf(s, c);
    if i != -1 {
      var rest := s[i + 1..];
      JoinSegments(rest, c);
      CutAt(s, i);
      JoinCons(s[..i], Segments(rest, c), [c]);
    }
  }

  lemma CutAt(s: string, i: int)
    requires 0 <= i < |s|
    ensures s == s[..i] + [s[i]] + s[i + 1..]
  {
  }

  lemma JoinCons(x: string, tail: seq<string>, sep: string)
    requires tail != []
    ensures Join([x] + tail, sep) == x + sep + Join(tail, sep)
  {
    assert ([x] + tail)[1..] == tail;
  }

  /** Joining separator-free pieces and cutting again gives back the pieces. */
  lemma {:induction false} SegmentsJoin(parts: seq<string>, c: char)
    requires |parts| >= 1
    requires forall j :: 0 <= j < |parts| ==> c !in parts[j]
    ensures Segments(Join(parts, [c]), c) == parts
    decreases |parts|
  {
    if |parts| == 1 {
      IndexOfAbsent(parts[0], c);
    } else {
      var tail := Join(parts[1..], [c]);
      var s := parts[0] + [c] + tail;
      assert Join(parts, [c]) == s;
      IndexOfFirst(parts[0], c, tail);
      assert s[..|parts[0]|] == parts[0];
      assert s[|parts[0]| + 1..] == tail;
      assert Segments(s, c) == [parts[0]] + Segments(tail, c);
      SegmentsJoin(parts[1..], c);
      assert parts == [parts[0]] + parts[1..];
    }
  }

  /** Java's split removes the empty strings at the end of its result. */
  function DropTrailingEmpty(parts: seq<string>): (r: seq<string>)
    ensures |r| <= |parts| && r == parts[..|r|]
    ensures r == [] || r[|r| - 1] != []
    ensures forall j :: |r| <= j < |parts| ==> parts[j] == []
  {
    if parts != [] && parts[|parts| - 1] == [] then DropTrailingEmpty(parts[..|parts| - 1])
    else parts
  }

  /**
    `s.split(String.valueOf(c))` for a separator that is not a regular
    expression metacharacter: a string without the separator comes back whole
    (so "" gives [""]), otherwise the pieces with the trailing empty ones
    removed (so a string made only of separators gives []).
   */
  function Split(s: string, c: char): seq<string> {
    if IndexOf(s, c) == -1 then [s] else DropTrailingEmpty(Segments(s, c))
  }

  predicate AllEmpty(parts: seq<string>) {
    forall j :: 0 <= j < |parts| ==> parts[j] == []
  }

  predicate AllSeparators(s: string, c: char) {
    forall k :: 0 <= k < |s| ==> s[k] == c
  }

  lemma AllEmptyCons(x: string, parts: seq<string>)
    ensures AllEmpty([x] + parts) <==> x == [] && AllEmpty(parts)
  {
    assert ([x] + parts)[0] == x;
    assert forall j :: 0 <= j < |parts| ==> ([x] + parts)[j + 1] == parts[j];
  }

  lemma AllSeparatorsCons(c: char, rest: string)
    ensures AllSeparators([c] + rest, c) <==> AllSeparators(rest, c)
  {
    assert forall k :: 0 <= k < |rest| ==> ([c] + rest)[k + 1] == rest[k];
  }

  /** Every piece is empty exactly when every character is the separator. */
  lemma {:induction false} SegmentsAllEmpty(s: string, c: char)
    ensures AllEmpty(Segments(s, c)) <==> AllSeparators(s, c)
    decreases |s|
  {
    var i := IndexOf(s, c);
    if i == -1 {
      assert Segments(s, c) == [s];
      if s != [] {
        assert s[0] in s && s[0] != c;
        assert Segments(s, c)[0] != [];
      }
    } else {
      var rest := s[i + 1..];
      SegmentsAllEmpty(rest, c);
      assert Segments(s, c) == [s[..i]] + Segments(rest, c);
      AllEmptyCons(s[..i], Segments(rest, c));
      if i == 0 {
        assert s == [c] + rest;
        AllSeparatorsCons(c, rest);
      } else {
        assert s[0] == s[..i][0] != c;
      }
    }
  }

  /**
    What the fallback branch of host extraction relies on: the split is empty
    exactly for a non-empty string of separators only, and otherwise its first
    element is everything before the first separator.
   */
  lemma SplitHead(s: string, c: char)
    ensures |Split(s, c)| == 0 <==> (s != [] && forall i :: 0 <= i < |s| ==> s[i] == c)
    ensures |Split(s, c)| > 0 ==>
              Split(s, c)[0] == (if IndexOf(s, c) == -1 then s else s[..IndexOf(s, c)])
  {
    var i := IndexOf(s, c);
    if i != -1 {
      var parts := Segments(s, c);
      SegmentsAllEmpty(s, c);
      assert AllSeparators(s, c) <==> forall k :: 0 <= k < |s| ==> s[k] == c;
      var r := DropTrailingEmpty(parts);
      if r == [] {
        assert forall j :: 0 <= j < |parts| ==> parts[j] == [];
      } else {
        assert r[0] == parts[0];
        assert exists j :: 0 <= j < |parts| && parts[j] != [] by {
          assert r[|r| - 1] == parts[|r| - 1];
        }
      }
      assert s[i] == c;
    }
  }

  /** Splitting "a.b" at '.' gives [a, b] when neither half holds a '.' and neither is empty. */
  lemma SplitTwo(a: string, b: string, c: char)
    requires a != [] && b != []
    requires c !in a && c !in b
    ensures Split(a + [c] + b, c) == [a, b]
  {
    var s := a + [c] + b;
    IndexOfFirst(a, c, b);
    assert s[..|a|] == a;
    assert s[|a| + 1..] == b;
    IndexOfAbsent(b, c);
    assert Segments(s, c) == [a] + Segments(b, c) == [a, b];
  }

  // ---------------------------------------------------------------------
  // Boolean.parseBoolean
  // ---------------------------------------------------------------------

  function LowerAscii(c: char): char {
    if 'A' <= c <= 'Z' then (c as int + 32) as char else c
  }

  /** `Boolean.parseBoolean(s)`: true exactly for "true" in any mix of letter case. */
  predicate ParseBoolean(s: string) {
    |s| == 4 && LowerAscii(s[0]) == 't' && LowerAscii(s[1]) == 'r'
    && LowerAscii(s[2]) == 'u' && LowerAscii(s[3]) == 'e'
  }

  /** `parseBoolean` accepts exactly the four letters of "true", each in either case. */
  lemma ParseBooleanAnyCase(s: string)
    ensures ParseBoolean(s) <==> |s| == 4 && s[0] in "tT" && s[1] in "rR" && s[2] in "uU" && s[3] in "eE"
  {
  }

  lemma ParseBooleanExamples()
    ensures ParseBoolean("true") && ParseBoolean("TRUE") && ParseBoolean("True")
    ensures !ParseBoolean("false") && !ParseBoolean("yes") && !ParseBoolean("1") && !ParseBoolean("")
  {
  }

  // ---------------------------------------------------------------------
  // Decimal text of integers (Integer/Long/BigInteger.toString)
  // ---------------------------------------------------------------------

  function DigitChar(d: nat): char
    requires d < 10
  {
    ('0' as int + d) as char
  }

  function NatToString(n: nat): (r: string)
    ensures |r| >= 1
    ensures forall i :: 0 <= i < |r| ==> '0' <= r[i] <= '9'
    ensures r[0] == '0' <==> n == 0
    ensures n == 0 ==> r == "0"
  {
    if n < 10 then [DigitChar(n)] else NatToString(n / 10) + [DigitChar(n % 10)]
  }

  /** The decimal text of any integer: a minus sign before the digits of a negative one. */
  function IntToString(i: int): (text: string)
    ensures i >= 0 ==> (forall k :: 0 <= k < |text| ==> '0' <= text[k] <= '9') && ParseDigits(text) == i
    ensures i >= 0 ==> |text| >= 1 && (text[0] == '0' <==> i == 0)
    ensures i < 0 ==> |text| >= 2 && text[1] != '0'
    ensures i == 0 ==> text == "0"
    ensures i < 0 ==> |text| >= 2 && text[0] == '-'
                      && (forall k :: 1 <= k < |text| ==> '0' <= text[k] <= '9') && ParseDigits(text[1..]) == -i
  {
    NatToStringRoundTrip(if i < 0 then -i else i);
    if i < 0 then "-" + NatToString(-i) else NatToString(i)
  }

  function ParseDigits(s: string): nat
    requires forall i :: 0 <= i < |s| ==> '0' <= s[i] <= '9'
  {
    if s == [] then 0 else 10 * ParseDigits(s[..|s| - 1]) + (s[|s| - 1] as int - '0' as int)
  }

  /** The decimal text reads back as the same number, so distinct counts give distinct labels. */
  lemma {:induction false} NatToStringRoundTrip(n: nat)
    ensures ParseDigits(NatToString(n)) == n
  {
    if n >= 10 {
      NatToStringRoundTrip(n / 10);
      var s := NatToString(n);
      assert s[..|s| - 1] == NatToString(n / 10);
    }
  }

  // ---------------------------------------------------------------------
  // Integer widths and the primitive casts
  // ---------------------------------------------------------------------

  /** The low 64 bits as a signed long: what `longValue()` keeps of a wider integer. */
  function Wrap64(x: int): (r: Long)
    ensures (r - x) % 0x1_0000_0000_0000_0000 == 0
    ensures LONG_MIN <= x <= LONG_MAX ==> r == x
  {
    (x - LONG_MIN) % 0x1_0000_0000_0000_0000 + LONG_MIN
  }

  /** The low 32 bits as a signed int: what `intValue()` keeps of a wider integer. */
  function Wrap32(x: int): (r: Int32)
    ensures (r - x) % 0x1_0000_0000 == 0
    ensures INT_MIN <= x <= INT_MAX ==> r == x
  {
    (x - INT_MIN) % 0x1_0000_0000 + INT_MIN
  }

  /** Rounding toward zero, as a cast from double to an integral type does. */
  function TruncateTowardZero(x: real): (t: int)
    ensures 0.0 <= x ==> t as real <= x < t as real + 1.0
    ensures x < 0.0 ==> t as real - 1.0 < x <= t as real
  {
    if x >= 0.0 then x.Floor else -((-x).Floor)
  }

  /** `(long) d` for a finite double d: truncated, then clamped to the long range. */
  function DoubleToLong(x: real): (r: Long)
    ensures LONG_MIN <= TruncateTowardZero(x) <= LONG_MAX ==> r == TruncateTowardZero(x)
    ensures TruncateTowardZero(x) < LONG_MIN ==> r == LONG_MIN
    ensures TruncateTowardZero(x) > LONG_MAX ==> r == LONG_MAX
  {
    var t := TruncateTowardZero(x);
    if t < LONG_MIN then LONG_MIN else if t > LONG_MAX then LONG_MAX else t
  }

  /** `(int) d` for a finite double d: truncated, then clamped to the int range. */
  function DoubleToInt(x: real): (r: Int32)
    ensures INT_MIN <= TruncateTowardZero(x) <= INT_MAX ==> r == TruncateTowardZero(x)
    ensures TruncateTowardZero(x) < INT_MIN ==> r == INT_MIN
    ensures TruncateTowardZero(x) > INT_MAX ==> r == INT_MAX
  {
    var t := TruncateTowardZero(x);
    if t < INT_MIN then INT_MIN else if t > INT_MAX then INT_MAX else t
  }
}
