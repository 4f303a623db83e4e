/** An optional value. */
module Options {
  datatype Option<+T> = None | Some(value: T)
}

/**
 * The few formatting verbs of Go's fmt package that the listings use, over
 * strings of Unicode code points (Go's fmt counts padding width in runes):
 *  - `%v` of an int: its decimal text, with a leading '-' when negative;
 *  - `%-Nv`: left-justify in a field of N runes, padding with spaces and
 *    never truncating.
 * Each is paired with the inverse a reader of the text would use.
 */
module Text {
  import opened Options

  predicate IsDigit(c: char) {
    '0' <= c <= '9'
  }

  predicate AllDigits(s: string) {
    forall i | 0 <= i < |s| :: IsDigit(s[i])
  }

  function Digit(n: nat): (c: char)
    requires n < 10
    ensures IsDigit(c) && c as int - '0' as int == n
  {
    ['0', '1', '2', '3', '4', '5', '6', '7', '8', '9'][n]
  }

  /** Decimal text of a natural number, most significant digit first, no leading zeros. */
  function NatToString(n: nat): (s: string)
    ensures 1 <= |s| && AllDigits(s)
    ensures |s| > 1 ==> s[0] != '0'
    decreases n
  {
    if n < 10 then [Digit(n)] else NatToString(n / 10) + [Digit(n % 10)]
  }

  /** `fmt.Sprintf("%v", n)` for an int n. */
  function IntToString(n: int): (s: string)
    ensures s != [] && (s[0] == '-' <==> n < 0)
    ensures AllDigits(if n < 0 then s[1..] else s)
    ensures var m := if n < 0 then s[1..] else s; |m| >= 1 && (|m| > 1 ==> m[0] != '0')
    ensures '\n' !in s && ' ' !in s
  {
    var s := if n < 0 then "-" + NatToString(-n) else NatToString(n);
    assert n < 0 ==> s[1..] == NatToString(-n);
    assert forall i | 0 <= i < |s| :: s[i] == '-' || IsDigit(s[i]);
    s
  }

  /** The value of a string of decimal digits, read most significant first. */
  function DigitsValue(s: string): nat
    requires AllDigits(s)
  {
    if s == [] then 0 else DigitsValue(s[..|s| - 1]) * 10 + (s[|s| - 1] as int - '0' as int)
  }

  /** Reads back the text `%v` produces for an int; None for anything else. */
  function ParseInt(s: string): Option<int> {
    if s == [] then None
    else if s[0] == '-' then
      if |s| > 1 && AllDigits(s[1..]) then Some(-(DigitsValue(s[1..]) as int)) else None
    else if AllDigits(s) then Some(DigitsValue(s))
    else None
  }

  lemma {:induction false} NatToStringValue(n: nat)
    ensures DigitsValue(NatToString(n)) == n
    decreases n
  {
    if n >= 10 {
      var s := NatToString(n);
      assert s[..|s| - 1] == NatToString(n / 10);
      NatToStringValue(n / 10);
    }
  }

  /** Decimal printing of an int is undone by parsing: the text determines the number. */
  lemma IntToStringRoundTrip(n: int)
    ensures ParseInt(IntToString(n)) == Some(n)
  {
    if n < 0 {
      NegativeRoundTrip(n);
    } else {
      NatToStringValue(n);
      ParseNatural(NatToString(n));
    }
  }

  lemma NegativeRoundTrip(n: int)
    requires n < 0
    ensures ParseInt(IntToString(n)) == Some(n)
  {
    var m: nat := -n;
    var t := NatToString(m);
    NatToStringValue(m);
    ParseNegative(t);
    assert IntToString(n) == "-" + t;
  }

  lemma ParseNatural(t: string)
    requires t != [] && AllDigits(t)
    ensures ParseInt(t) == Some(DigitsValue(t) as int)
  {
    assert IsDigit(t[0]);
  }

  lemma ParseNegative(t: string)
    requires t != [] && AllDigits(t)
    ensures ParseInt("-" + t) == Some(-(DigitsValue(t) as int))
  {
    var s := "-" + t;
    assert s[0] == '-' && s[1..] == t;
  }

  function Spaces(k: nat): (s: string)
    ensures |s| == k && forall i | 0 <= i < k :: s[i] == ' '
  {
    if k == 0 then "" else Spaces(k - 1) + " "
  }

  /** `fmt.Sprintf("%-Nv", s)`: s, then spaces up to N runes; a longer s is kept whole. */
  function PadRight(s: string, width: nat): (r: string)
    ensures |r| == if |s| < width then width else |s|
    ensures r[..|s|] == s
    ensures forall i | |s| <= i < |r| :: r[i] == ' '
    ensures forall c | c in r :: c in s || c == ' '
  {
    if |s| < width then s + Spaces(width - |s|) else s
  }

  /** Drops the trailing spaces of s. */
  function TrimRight(s: string): (r: string)
    ensures |r| <= |s| && r == s[..|r|]
    ensures r == [] || r[|r| - 1] != ' '
    ensures forall i | |r| <= i < |s| :: s[i] == ' '
  {
    if s != [] && s[|s| - 1] == ' ' then TrimRight(s[..|s| - 1]) else s
  }

  /** Padding adds only spaces: trimming them gives back a text that did not end in one. */
  lemma {:induction false} TrimRightPadRight(s: string, width: nat)
    requires s == [] || s[|s| - 1] != ' '
    ensures TrimRight(PadRight(s, width)) == s
    decreases width
  {
    if |s| < width {
      var p := PadRight(s, width);
      assert p[..|p| - 1] == PadRight(s, width - 1);
      TrimRightPadRight(s, width - 1);
    }
  }

  /** The index of the first occurrence of c in s, or |s| when there is none. */
  function FirstIndex(s: string, c: char): (k: nat)
    ensures k <= |s| && (k < |s| ==> s[k] == c)
    ensures forall i | 0 <= i < k :: s[i] != c
  {
    if s == [] || s[0] == c then 0 else 1 + FirstIndex(s[1..], c)
  }

  /** A character absent from a is first found in a + b where it is first found in b. */
  lemma FirstIndexAfter(a: string, c: char, b: string)
    requires c !in a
    ensures FirstIndex(a + b, c) == |a| + FirstIndex(b, c)
  {
    var s := a + b;
    var m := FirstIndex(b, c);
    assert forall i | 0 <= i < |a| :: s[i] == a[i];
    assert forall i | 0 <= i < m :: s[|a| + i] == b[i];
    if m < |b| {
      assert s[|a| + m] == c;
    }
  }

  lemma DropAppend(a: string, b: string, n: nat)
    requires |a| <= n <= |a| + |b|
    ensures (a + b)[n..] == b[n - |a|..]
  {
  }

  lemma AppendAssoc(a: string, b: string, c: string)
    ensures (a + b) + c == a + (b + c)
  {
  }

  /** Number of occurrences of c in s. */
  function Occurrences(c: char, s: string): (n: nat)
    ensures n <= |s|
    ensures n == 0 <==> c !in s
  {
    if s == [] then 0
    else Occurrences(c, s[..|s| - 1]) + (if s[|s| - 1] == c then 1 else 0)
  }

  lemma {:induction false} OccurrencesAppend(c: char, a: string, b: string)
    ensures Occurrences(c, a + b) == Occurrences(c, a) + Occurrences(c, b)
    decreases |b|
  {
    if b != [] {
      assert (a + b)[..|a + b| - 1] == a + b[..|b| - 1];
      OccurrencesAppend(c, a, b[..|b| - 1]);
    } else {
      assert a + b == a;
    }
  }
}
