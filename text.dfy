/**
 * The few JVM string and integer primitives the library relies on:
 * `String.indexOf`, `Integer.parseInt(s, 10)`, `String.format` with `%d` and `%02d`,
 * Kotlin's `split(Char)` and `joinToString`, and 32-bit `int` arithmetic.
 */
module Text {
  import opened Wrappers

  const INT_MIN: int := -0x8000_0000
  const INT_MAX: int := 0x7fff_ffff

  predicate InInt32(x: int) {
    INT_MIN <= x <= INT_MAX
  }

  /** A Java / Kotlin `Int`. */
  type Int32 = x: int | INT_MIN <= x <= INT_MAX

  /** The value a Java `int` expression whose exact value is `x` actually has (two's-complement wrap-around). */
  function Wrap32(x: int): (r: Int32)
    ensures InInt32(x) ==> r == x
    ensures (r - x) % 0x1_0000_0000 == 0
  {
    (x - INT_MIN) % 0x1_0000_0000 + INT_MIN
  }

  // ---------------------------------------------------------------- searching

  /** `s.indexOf(c, from)`: the first position at or after `from` that holds `c`, or -1. */
  function IndexOf(s: string, c: char, from: nat): (r: int)
    ensures r == -1 || from <= r < |s|
    ensures r != -1 ==> s[r] == c && forall i :: from <= i < r ==> s[i] != c
    ensures r == -1 ==> forall i :: from <= i < |s| ==> s[i] != c
    decreases |s| - from
  {
    if from >= |s| then -1
    else if s[from] == c then from
    else IndexOf(s, c, from + 1)
  }

  /** In `a + [c] + b`, the first `c` at or after `from` is the one after `a`, when `a` has none from there on. */
  lemma IndexOfFirst(a: string, c: char, b: string, from: nat)
    requires from <= |a|
    requires forall i :: from <= i < |a| ==> a[i] != c
    ensures IndexOf(a + [c] + b, c, from) == |a|
    ensures (a + [c] + b)[..|a|] == a && (a + [c] + b)[|a| + 1..] == b
  {
    var s := a + [c] + b;
    assert s[|a|] == c;
    assert forall i :: from <= i < |a| ==> s[i] == a[i];
  }

  /** Searching past a prefix is searching the rest, shifted by the prefix's length. */
  lemma IndexOfShift(a: string, b: string, c: char, k: nat)
    ensures IndexOf(a + b, c, |a| + k) == (if IndexOf(b, c, k) == -1 then -1 else |a| + IndexOf(b, c, k))
  {
    var s := a + b;
    assert forall i :: |a| <= i < |s| ==> s[i] == b[i - |a|];
    var r := IndexOf(b, c, k);
    if r != -1 {
      assert s[|a| + r] == c;
    }
  }

  /** A character that is not a digit does not occur in a string of digits. */
  lemma NotInDigits(s: string, c: char)
    requires AllDigits(s) && !IsDigit(c)
    ensures c !in s
    ensures forall i :: 0 <= i < |s| ==> s[i] != c
  {
  }

  /** `list.indexOf(x)` on a list of strings: the first position holding `x`, or -1. */
  function IndexOfValue(values: seq<string>, x: string): (r: int)
    ensures r == -1 <==> x !in values
    ensures r != -1 ==> 0 <= r < |values| && values[r] == x && x !in values[..r]
  {
    if |values| == 0 then -1
    else if values[0] == x then 0
    else
      var r := IndexOfValue(values[1..], x);
      if r == -1 then -1
      else
        assert values[..r + 1] == [values[0]] + values[1..][..r];
        r + 1
  }

  // ---------------------------------------------------------------- decimal digits

  predicate IsDigit(c: char) {
    '0' <= c <= '9'
  }

  predicate AllDigits(s: string) {
    forall i :: 0 <= i < |s| ==> IsDigit(s[i])
  }

  function DigitValue(c: char): nat
    requires IsDigit(c)
  {
    (c as int) - ('0' as int)
  }

  function DigitChar(d: nat): (c: char)
    requires d < 10
    ensures IsDigit(c) && DigitValue(c) == d
  {
    ('0' as int + d) as char
  }

  /** The number a string of decimal digits denotes, most significant digit first. */
  function DigitsValue(s: string): nat
    requires AllDigits(s)
    decreases |s|
  {
    if |s| == 0 then 0 else 10 * DigitsValue(s[..|s| - 1]) + DigitValue(s[|s| - 1])
  }

  /**
   * `Integer.parseInt(s, 10)` (also `Integer.valueOf(s, 10)`): an optional single '+' or '-',
   * then at least one decimal digit, and the value must fit in 32 bits.
   * `None` where Java throws NumberFormatException.
   */
  function ParseInt(s: string): (r: Option<Int32>)
  {
    if |s| == 0 then None
    else
      var digits := if s[0] == '-' || s[0] == '+' then s[1..] else s;
      if |digits| == 0 || !AllDigits(digits) then None
      else
        var v: int := if s[0] == '-' then -(DigitsValue(digits) as int) else DigitsValue(digits);
        if InInt32(v) then Some(v) else None
  }

  /** A string Integer.parseInt rejects: empty, or with a character that is neither a digit nor a leading sign. */
  lemma ParseIntRejectsNonDecimal(s: string, k: nat)
    requires k < |s| && !IsDigit(s[k]) && !(k == 0 && (s[0] == '-' || s[0] == '+'))
    ensures ParseInt(s) == None
  {
    if s[0] == '-' || s[0] == '+' {
      assert !IsDigit(s[1..][k - 1]);
    }
  }

  lemma ParseIntRejectsEmpty()
    ensures ParseInt("") == None
  {
  }

  // ---------------------------------------------------------------- formatting

  /** `String.format("%d", n)` for a non-negative n. */
  function NatToString(n: nat): (s: string)
    ensures |s| > 0 && AllDigits(s) && DigitsValue(s) == n
    decreases n
  {
    if n < 10 then [DigitChar(n)]
    else
      var s := NatToString(n / 10) + [DigitChar(n % 10)];
      assert s[..|s| - 1] == NatToString(n / 10);
      s
  }

  /** `String.format("%d", i)`. */
  function IntToString(i: int): string
  {
    if i < 0 then "-" + NatToString(-i) else NatToString(i)
  }

  /** `String.format("%02d", i)`: zero-padded to two characters, the sign counting as one. */
  function Pad2(i: int): string
  {
    if 0 <= i < 10 then "0" + NatToString(i) else IntToString(i)
  }

  /** "%d" then Integer.parseInt gives back every `Int`. */
  lemma ParseIntToString(i: Int32)
    ensures ParseInt(IntToString(i)) == Some(i)
  {
    var s := IntToString(i);
    if i < 0 {
      var digits := NatToString(-(i as int));
      assert s == "-" + digits;
      assert s[0] == '-';
      assert s[1..] == digits;
      assert DigitsValue(digits) == -(i as int);
    } else {
      assert s == NatToString(i);
      assert IsDigit(s[0]);
    }
  }

  /** "%02d" then Integer.parseInt gives back every non-negative `Int`. */
  lemma ParsePad2(i: nat)
    requires i <= INT_MAX
    ensures ParseInt(Pad2(i)) == Some(i)
    ensures AllDigits(Pad2(i))
  {
    if i < 10 {
      var s := Pad2(i);
      assert s == ['0', DigitChar(i)];
      assert s[..1] == ['0'];
      assert DigitsValue(s[..1]) == 0;
    } else {
      ParseIntToString(i);
    }
  }

  // ---------------------------------------------------------------- split and join

  /** `parts.joinToString(separator = sep)`. */
  function Join(parts: seq<string>, sep: char): string
  {
    if |parts| == 0 then ""
    else if |parts| == 1 then parts[0]
    else parts[0] + [sep] + Join(parts[1..], sep)
  }

  /** Kotlin `s.split(sep)`: every piece between separators, empty ones included, so never an empty list. */
  function Split(s: string, sep: char): (parts: seq<string>)
    ensures |parts| > 0
    ensures forall i :: 0 <= i < |parts| ==> sep !in parts[i]
    ensures Join(parts, sep) == s
    decreases |s|
  {
    var p := IndexOf(s, sep, 0);
    if p == -1 then [s]
    else
      var rest := Split(s[p + 1..], sep);
      assert s == s[..p] + [sep] + s[p + 1..];
      assert ([s[..p]] + rest)[1..] == rest;
      [s[..p]] + rest
  }

  /** Joining one more part appends the separator and that part. */
  lemma {:induction false} JoinAppend(parts: seq<string>, sep: char, last: string)
    requires |parts| > 0
    ensures Join(parts + [last], sep) == Join(parts, sep) + [sep] + last
    decreases |parts|
  {
    if |parts| == 1 {
      assert (parts + [last])[1..] == [last];
    } else {
      assert (parts + [last])[1..] == parts[1..] + [last];
      JoinAppend(parts[1..], sep, last);
    }
  }

  /** Splitting undoes joining, when no part contains the separator. */
  lemma {:induction false} SplitJoin(parts: seq<string>, sep: char)
    requires |parts| > 0
    requires forall i :: 0 <= i < |parts| ==> sep !in parts[i]
    ensures Split(Join(parts, sep), sep) == parts
    decreases |parts|
  {
    var s := Join(parts, sep);
    if |parts| == 1 {
      assert IndexOf(s, sep, 0) == -1;
    } else {
      var head := parts[0];
      assert s == head + [sep] + Join(parts[1..], sep);
      assert s[|head|] == sep;
      assert forall i :: 0 <= i < |head| ==> s[i] == head[i];
      assert IndexOf(s, sep, 0) == |head|;
      assert s[..|head|] == head;
      assert s[|head| + 1..] == Join(parts[1..], sep);
      SplitJoin(parts[1..], sep);
      assert parts == [head] + parts[1..];
    }
  }

  /** Appending a separator and a piece without separators adds exactly that piece to the split. */
  lemma SplitAppend(s: string, sep: char, last: string)
    requires sep !in last
    ensures Split(s + [sep] + last, sep) == Split(s, sep) + [last]
  {
    var parts := Split(s, sep);
    JoinAppend(parts, sep, last);
    SplitJoin(parts + [last], sep);
  }
}
