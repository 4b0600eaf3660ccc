/**
 * The three pieces of java.lang the record stores rely on: `String.valueOf(int)`
 * (also what `int + String` concatenation writes), `Integer.parseInt(String)` and
 * `String.split(",")`.
 */
module JavaStrings {
  import opened Wrappers

  const MinInt: int := -0x8000_0000
  const MaxInt: int := 0x7fff_ffff

  /** Java's 32-bit `int`. */
  type Int32 = x: int | MinInt <= x <= MaxInt

  predicate IsDigit(c: char) {
    '0' <= c <= '9'
  }

  predicate AllDigits(s: string) {
    forall i :: 0 <= i < |s| ==> IsDigit(s[i])
  }

  function DigitValue(c: char): nat
    requires IsDigit(c)
  {
    c as int - '0' as int
  }

  function DigitChar(d: nat): (c: char)
    requires d < 10
    ensures IsDigit(c) && DigitValue(c) == d
  {
    ('0' as int + d) as char
  }

  /** The value of a string of decimal digits, most significant digit first. */
  function DigitsValue(s: string): nat
    requires AllDigits(s)
  {
    if s == [] then 0 else DigitsValue(s[..|s| - 1]) * 10 + DigitValue(s[|s| - 1])
  }

  // ---------------------------------------------------------------------------
  // String.valueOf(int)

  /** The decimal digits of n, without leading zeros ("0" for zero). */
  function NatToString(n: nat): (s: string)
    ensures s != [] && AllDigits(s)
    ensures |s| > 1 ==> s[0] != '0'
  {
    if n < 10 then [DigitChar(n)] else NatToString(n / 10) + [DigitChar(n % 10)]
  }

  /** `String.valueOf(x)`: a '-' for a negative number, then the digits of its magnitude. */
  function IntToString(x: int): (s: string)
    ensures s != [] && ',' !in s
    ensures x < 0 <==> s[0] == '-'
  {
    if x < 0 then "-" + NatToString(-x) else NatToString(x)
  }

  // ---------------------------------------------------------------------------
  // Integer.parseInt(String)

  /**
   * `Integer.parseInt(s)`: one optional leading '+' or '-', then at least one
   * digit, and a value inside the `int` range. None is the NumberFormatException.
   */
  function ParseInt(s: string): Option<Int32>
  {
    if s == [] then None
    else
      var negative := s[0] == '-';
      var digits := if s[0] == '-' || s[0] == '+' then s[1..] else s;
      if digits == [] || !AllDigits(digits) then None
      else
        var magnitude: int := DigitsValue(digits);
        var v := if negative then -magnitude else magnitude;
        if MinInt <= v <= MaxInt then Some(v) else None
  }

  lemma {:induction false} DigitsValueOfNatToString(n: nat)
    ensures DigitsValue(NatToString(n)) == n
  {
    if n >= 10 {
      var s := NatToString(n);
      assert s[..|s| - 1] == NatToString(n / 10);
      DigitsValueOfNatToString(n / 10);
    }
  }

  /** Every int that `String.valueOf` writes, `Integer.parseInt` reads back. */
  lemma ParseIntOfIntToString(x: Int32)
    ensures ParseInt(IntToString(x)) == Some(x)
  {
    var s := IntToString(x);
    if x < 0 {
      var m: nat := -(x as int);
      assert s[1..] == NatToString(m);
      DigitsValueOfNatToString(m);
    } else {
      DigitsValueOfNatToString(x);
    }
  }

  /** `String.valueOf` is injective on ints. */
  lemma IntToStringInjective(x: Int32, y: Int32)
    requires IntToString(x) == IntToString(y)
    ensures x == y
  {
    ParseIntOfIntToString(x);
    ParseIntOfIntToString(y);
  }

  // ---------------------------------------------------------------------------
  // String.split(",")

  /** The pieces of s between commas, empty ones included: one more piece than s has commas. */
  function Fields(s: string): (fs: seq<string>)
    ensures |fs| >= 1
    ensures forall i :: 0 <= i < |fs| ==> ',' !in fs[i]
    ensures ',' !in s ==> fs == [s]
  {
    if s == [] then [""]
    else
      var rest := Fields(s[1..]);
      if s[0] == ',' then [""] + rest
      else
        assert ',' !in s ==> [s[0]] + s[1..] == s;
        [[s[0]] + rest[0]] + rest[1..]
  }

  /** fs without its trailing run of empty strings. */
  function DropTrailingEmpty(fs: seq<string>): (r: seq<string>)
    ensures |r| <= |fs| && r == fs[..|r|]
    ensures r == [] || r[|r| - 1] != ""
    ensures forall i :: |r| <= i < |fs| ==> fs[i] == ""
  {
    if fs == [] || fs[|fs| - 1] != "" then fs else DropTrailingEmpty(fs[..|fs| - 1])
  }

  /**
   * `s.split(",")` (limit 0): the string itself when it has no comma, otherwise
   * its comma-separated pieces with trailing empty strings removed.
   */
  function Split(s: string): (parts: seq<string>)
    ensures forall i :: 0 <= i < |parts| ==> ',' !in parts[i]
  {
    if ',' !in s then [s] else DropTrailingEmpty(Fields(s))
  }

  /** The pieces of fs with a comma between each two. */
  function Join(fs: seq<string>): string
  {
    if fs == [] then "" else if |fs| == 1 then fs[0] else fs[0] + "," + Join(fs[1..])
  }

  lemma JoinThree(a: string, b: string, c: string)
    ensures Join([a, b, c]) == a + "," + b + "," + c
  {
    var fs := [a, b, c];
    assert Join(fs[2..]) == c;
    assert Join(fs[1..]) == b + "," + c;
  }

  lemma JoinFour(a: string, b: string, c: string, d: string)
    ensures Join([a, b, c, d]) == a + "," + b + "," + c + "," + d
  {
    var fs := [a, b, c, d];
    assert fs[1..] == [b, c, d];
    JoinThree(b, c, d);
  }

  lemma {:induction false} FieldsOfPrefix(a: string, t: string)
    requires ',' !in a
    ensures Fields(a + t) == [a + Fields(t)[0]] + Fields(t)[1..]
  {
    if a != [] {
      assert (a + t)[0] == a[0];
      assert (a + t)[1..] == a[1..] + t;
      FieldsOfPrefix(a[1..], t);
      assert [a[0]] + (a[1..] + Fields(t)[0]) == a + Fields(t)[0];
    } else {
      assert a + t == t;
      assert a + Fields(t)[0] == Fields(t)[0];
    }
  }

  /** Splitting a comma-free list of pieces at every comma gives the pieces back. */
  lemma {:induction false} FieldsOfJoin(fs: seq<string>)
    requires |fs| >= 1
    requires forall i :: 0 <= i < |fs| ==> ',' !in fs[i]
    ensures Fields(Join(fs)) == fs
  {
    if |fs| == 1 {
      FieldsOfPrefix(fs[0], "");
      assert fs[0] + "" == fs[0];
    } else {
      var rest := "," + Join(fs[1..]);
      assert Join(fs) == fs[0] + rest;
      FieldsOfPrefix(fs[0], rest);
      assert rest[1..] == Join(fs[1..]);
      FieldsOfJoin(fs[1..]);
      assert fs[0] + "" == fs[0];
      assert [fs[0]] + fs[1..] == fs;
    }
  }

  /** Java's split of a comma-joined line: trailing empty pieces are lost unless there is one piece. */
  lemma SplitOfJoin(fs: seq<string>)
    requires |fs| >= 1
    requires forall i :: 0 <= i < |fs| ==> ',' !in fs[i]
    ensures Split(Join(fs)) == if |fs| == 1 then fs else DropTrailingEmpty(fs)
  {
    FieldsOfJoin(fs);
    if |fs| > 1 {
      assert Join(fs) == fs[0] + "," + Join(fs[1..]);
      assert Join(fs)[|fs[0]|] == ',';
    }
  }

  /**
   * The round trip of the line format: split(",") undoes the joining exactly when
   * no piece holds a comma and the line does not end in an empty piece.
   */
  lemma SplitJoinRoundTrip(fs: seq<string>)
    requires |fs| >= 1
    requires forall i :: 0 <= i < |fs| ==> ',' !in fs[i]
    ensures Split(Join(fs)) == fs <==> |fs| == 1 || fs[|fs| - 1] != ""
  {
    SplitOfJoin(fs);
  }
}
