/** Python built-in behaviour that the gateway code relies on: optional values,
    the exceptions it raises, list slicing and indexing, `str.upper`, `str(int)`
    and `int(str)`. */
module Py {

  datatype Option<+T> = None | Some(value: T) {
    function GetOr(default: T): T {
      if Some? then value else default
    }
  }

  /** The exceptions the modelled code raises, named by their cause. */
  datatype Exception =
    | AttributeError        // an attribute looked up that the object does not have
    | TypeError             // an operator applied to None
    | IndexError            // a list index out of range
    | UnsupportedDataType   // an entity class that is neither coil nor register
    | BlindNeedsRegisters   // a blind over coils
    | BlindNeedsTwoWords    // a blind whose items are not two words wide
    | DataLength            // a sample of the wrong length handed to an entity
    | UnsupportedReadType   // a bulk read for a data type the gateway cannot read
    | UnsupportedUnit       // a bulk read for a unit other than 1 or 16 bits
    | TransportFailure      // the fieldbus read itself failed

  datatype Result<+T> = Success(value: T) | Failure(error: Exception)

  /** `s[i:j]` for 0 <= i <= j: Python clamps both bounds to the length. */
  function Slice<T>(s: seq<T>, i: nat, j: nat): (r: seq<T>)
    requires i <= j
    ensures |r| <= j - i
    ensures j <= |s| ==> r == s[i..j]
  {
    if j <= |s| then s[i..j] else if i <= |s| then s[i..] else []
  }

  /** List concatenation associates: `(a + b) + c == a + (b + c)`. */
  lemma AppendAssoc<T>(a: seq<T>, b: seq<T>, c: seq<T>)
    ensures a + b + c == a + (b + c)
  {
  }

  /** The lists of a list joined front to back, as `sum(xs, [])` gives them. */
  function Concat<T>(xs: seq<seq<T>>): seq<T> {
    if xs == [] then [] else xs[0] + Concat(xs[1..])
  }

  /** Joining one more list at the back appends it. */
  lemma {:induction false} ConcatSnoc<T>(xs: seq<seq<T>>, x: seq<T>)
    ensures Concat(xs + [x]) == Concat(xs) + x
    decreases |xs|
  {
    if xs == [] {
      assert [x][1..] == [];
    } else {
      assert (xs + [x])[1..] == xs[1..] + [x];
      ConcatSnoc(xs[1..], x);
      AppendAssoc(xs[0], Concat(xs[1..]), x);
    }
  }

  /** The position `l[i]` selects in a list of length n, counting from the end
      for a negative i; None where Python raises an IndexError. */
  function Index(n: nat, i: int): (r: Option<nat>)
    ensures r.Some? <==> -(n as int) <= i < n
    ensures r.Some? ==> r.value < n && r.value % n == i % n
    ensures 0 <= i ==> r == (if i < n then Some(i) else None)
  {
    if 0 <= i < n then Some(i) else if -(n as int) <= i < 0 then Some(n + i) else None
  }

  // ---------------------------------------------------------------------
  // Characters and case

  predicate IsDigit(c: char) {
    '0' <= c <= '9'
  }

  /** The characters `int()` strips around a number (the ASCII ones). */
  predicate IsSpace(c: char) {
    9 <= c as int <= 13 || 28 <= c as int <= 32
  }

  /** `str.upper` on one character, for the ASCII letters. */
  function UpperChar(c: char): char {
    if 'a' <= c <= 'z' then (c as int - 32) as char else c
  }

  function Upper(s: string): (r: string)
    ensures |r| == |s|
    ensures forall i :: 0 <= i < |s| ==> r[i] == UpperChar(s[i])
  {
    seq(|s|, i requires 0 <= i < |s| => UpperChar(s[i]))
  }

  /** s equals the upper-case word w when both are upper-cased: w is what
      `s.upper() == w` compares against, so w itself is upper case. */
  predicate EqualsIgnoringCase(s: string, w: string) {
    |s| == |w| && forall i :: 0 <= i < |s| ==> UpperChar(s[i]) == w[i]
  }

  lemma UpperMatches(s: string, w: string)
    ensures Upper(s) == w <==> EqualsIgnoringCase(s, w)
  {
    if EqualsIgnoringCase(s, w) {
      assert Upper(s) == w;
    }
  }

  /** Upper-casing does not change a string that has no lower-case letter. */
  lemma UpperIdle(s: string)
    requires forall i :: 0 <= i < |s| ==> !('a' <= s[i] <= 'z')
    ensures Upper(s) == s
  {
    assert Upper(s) == s;
  }

  // ---------------------------------------------------------------------
  // str(int)

  function DigitChar(d: nat): (c: char)
    requires d < 10
    ensures IsDigit(c)
  {
    ('0' as int + d) as char
  }

  function DigitValue(c: char): nat
    requires IsDigit(c)
  {
    c as int - '0' as int
  }

  /** `str(n)` for a natural number: its decimal digits, most significant first. */
  function NatToString(n: nat): (r: string)
    ensures |r| > 0 && IsDigit(r[0]) && IsDigit(r[|r| - 1])
    ensures forall i :: 0 <= i < |r| ==> IsDigit(r[i])
    decreases n
  {
    if n < 10 then [DigitChar(n)] else NatToString(n / 10) + [DigitChar(n % 10)]
  }

  /** `str(i)`, or `"{}".format(i)`, for any integer. */
  function IntToString(i: int): (r: string)
    ensures |r| > 0
  {
    if i < 0 then "-" + NatToString(-i) else NatToString(i)
  }

  // ---------------------------------------------------------------------
  // int(str)

  function TrimStart(s: string): (r: string)
    ensures |r| <= |s| && r == s[|s| - |r|..]
    ensures |r| > 0 ==> !IsSpace(r[0])
  {
    s[SkipSpace(s, 0)..]
  }

  /** The first position at or after `from` that is not white space, or |s|. */
  function SkipSpace(s: string, from: nat): (k: nat)
    requires from <= |s|
    ensures from <= k <= |s| && (k < |s| ==> !IsSpace(s[k]))
    decreases |s| - from
  {
    if from < |s| && IsSpace(s[from]) then SkipSpace(s, from + 1) else from
  }

  function TrimEnd(s: string): (r: string)
    ensures |r| <= |s| && r == s[..|r|]
    ensures |r| > 0 ==> !IsSpace(r[|r| - 1])
  {
    if |s| > 0 && IsSpace(s[|s| - 1]) then TrimEnd(s[..|s| - 1]) else s
  }

  function Strip(s: string): string {
    TrimEnd(TrimStart(s))
  }

  /** Every character is a digit or an underscore (read from the end, as
      DigitsValue reads them). */
  predicate DigitsOrUnderscores(s: string) {
    s == [] || ((IsDigit(s[|s| - 1]) || s[|s| - 1] == '_') && DigitsOrUnderscores(s[..|s| - 1]))
  }

  /** The digit groups `int()` accepts: digits, where an underscore may stand
      only between two digits. */
  predicate IsDigitGroups(s: string) {
    && |s| > 0
    && IsDigit(s[0])
    && IsDigit(s[|s| - 1])
    && DigitsOrUnderscores(s)
    && NoDoubleUnderscore(s)
  }

  /** No two underscores stand next to each other. */
  predicate NoDoubleUnderscore(s: string) {
    |s| < 2 || (!(s[|s| - 2] == '_' && s[|s| - 1] == '_') && NoDoubleUnderscore(s[..|s| - 1]))
  }

  /** A run of digits has no underscore at all, so no two together. */
  lemma {:induction false} DigitsNoDoubleUnderscore(s: string)
    requires forall i :: 0 <= i < |s| ==> IsDigit(s[i])
    ensures NoDoubleUnderscore(s)
  {
    if |s| >= 2 {
      DigitsNoDoubleUnderscore(s[..|s| - 1]);
    }
  }

  lemma {:induction false} DigitsAreDigitsOrUnderscores(s: string)
    requires forall i :: 0 <= i < |s| ==> IsDigit(s[i])
    ensures DigitsOrUnderscores(s)
  {
    if s != [] {
      DigitsAreDigitsOrUnderscores(s[..|s| - 1]);
    }
  }

  /** The value of a run of decimal digits, underscores skipped. */
  function DigitsValue(s: string): nat
    requires DigitsOrUnderscores(s)
  {
    if |s| == 0 then 0
    else if s[|s| - 1] == '_' then DigitsValue(s[..|s| - 1])
    else DigitsValue(s[..|s| - 1]) * 10 + DigitValue(s[|s| - 1])
  }

  /** `int(s)` on a string: None where Python raises a ValueError. */
  function ParseInt(s: string): Option<int> {
    ParseStripped(Strip(s))
  }

  /** `int()` once the white space around the number is gone. */
  function ParseStripped(t: string): Option<int> {
    var signed := |t| > 0 && (t[0] == '+' || t[0] == '-');
    var body := if signed then t[1..] else t;
    if IsDigitGroups(body) then
      Some(if signed && t[0] == '-' then -(DigitsValue(body) as int) else DigitsValue(body))
    else None
  }

  lemma {:induction false} DigitsValueOfNatToString(n: nat)
    ensures DigitsOrUnderscores(NatToString(n))
    ensures DigitsValue(NatToString(n)) == n
    decreases n
  {
    var r := NatToString(n);
    if n >= 10 {
      DigitsValueOfNatToString(n / 10);
      assert r[..|r| - 1] == NatToString(n / 10);
    }
  }

  lemma TrimIdle(s: string)
    requires |s| > 0 && !IsSpace(s[0]) && !IsSpace(s[|s| - 1])
    ensures Strip(s) == s
  {
  }

  /** `int(str(n)) == n`. */
  lemma {:induction false} ParseNatToString(n: nat)
    ensures ParseInt(NatToString(n)) == Some(n)
  {
    var r := NatToString(n);
    assert IsDigitGroups(r) && DigitsValue(r) == n by {
      DigitsValueOfNatToString(n);
      DigitsNoDoubleUnderscore(r);
    }
    assert ParseInt(r) == ParseStripped(r) by {
      TrimIdle(r);
    }
    ParseUnsigned(r);
  }

  /** `int()` of a run of digit groups with no sign or space around it. */
  lemma ParseUnsigned(s: string)
    requires IsDigitGroups(s)
    ensures ParseStripped(s) == Some(DigitsValue(s))
  {
    assert IsDigit(s[0]);
  }

  /** `int(str(i)) == i` for every integer, negative ones included. */
  lemma {:induction false} ParseIntToString(i: int)
    ensures ParseInt(IntToString(i)) == Some(i)
  {
    if i < 0 {
      var r := NatToString(-i);
      assert IsDigitGroups(r) && DigitsValue(r) == -i by {
        DigitsValueOfNatToString(-i);
        DigitsNoDoubleUnderscore(r);
      }
      var s := "-" + r;
      assert ParseInt(s) == ParseStripped(s) by {
        TrimIdle(s);
      }
      ParseNegative(r);
    } else {
      ParseNatToString(i);
    }
  }

  /** A minus sign before digit groups negates their value. */
  lemma ParseNegative(r: string)
    requires IsDigitGroups(r)
    ensures ParseStripped("-" + r) == Some(-(DigitsValue(r) as int))
  {
    var t := "-" + r;
    assert t[0] == '-' && t[1..] == r;
  }

  /** Decimal digit strings are canonical: equal numerals mean equal numbers. */
  lemma NatToStringInjective(m: nat, n: nat)
    requires NatToString(m) == NatToString(n)
    ensures m == n
  {
    DigitsValueOfNatToString(m);
    DigitsValueOfNatToString(n);
  }
}
