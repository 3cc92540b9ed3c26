/**
 * The few JavaScript built-ins the dashboard's derivation logic relies on,
 * stated over Dafny's unbounded integers and character sequences:
 * truthiness of an optional string, the `||` fallback, out-of-range array
 * lookup, `String.prototype.startsWith`, `String.prototype.slice`, the
 * bitwise operators `>>` and `^` on small non-negative numbers, and the
 * decimal rendering a template literal gives an integer.
 */
module Builtins {
  import opened Wrappers

  /** JavaScript truthiness of a `string | undefined`: defined and non-empty. */
  predicate Truthy(v: Option<string>): (b: bool)
    ensures b <==> v.Some? && |v.value| > 0
  {
    v.Some? && v.value != ""
  }

  /** `v || fallback`: the value itself when it is truthy, else the fallback. */
  function OrElse(v: Option<string>, fallback: string): (r: string)
    ensures Truthy(v) ==> r == v.value
    ensures !Truthy(v) ==> r == fallback
  {
    if v.Some? && v.value != "" then v.value else fallback
  }

  /** `arr[i]`: the element at a valid index, `undefined` past the end. */
  function ElementAt(arr: seq<string>, i: nat): (r: Option<string>)
    ensures r.Some? <==> i < |arr|
    ensures r.Some? ==> r.value == arr[i]
  {
    if i < |arr| then Some(arr[i]) else None
  }

  /** `s.startsWith(prefix)`, comparing one character at a time. */
  function StartsWith(s: string, prefix: string): (r: bool)
    ensures r <==> |prefix| <= |s| && s[..|prefix|] == prefix
  {
    if prefix == [] then true
    else if s == [] then false
    else s[0] == prefix[0] && StartsWith(s[1..], prefix[1..])
  }

  /**
   * `s.slice(start, end)` for non-negative arguments, on a string without
   * surrogate pairs (JavaScript indexes UTF-16 code units): both indices are
   * clamped to the length, and an empty string results when the clamped
   * start is not before the clamped end.
   */
  function Slice(s: string, start: nat, end: nat): (r: string)
    ensures |r| == if start < end && start < |s| then Min(end, |s|) - start else 0
    ensures forall i :: 0 <= i < |r| ==> r[i] == s[start + i]
  {
    var from := Min(start, |s|);
    var to := Min(end, |s|);
    if from < to then s[from..to] else ""
  }

  function Min(a: nat, b: nat): nat
  {
    if a <= b then a else b
  }

  /**
   * `x >> k` for a non-negative 32-bit `x` and a shift count below 32
   * (JavaScript masks the count to five bits): `k` successive halvings. The
   * result never exceeds the operand, so a shifted 32-bit value stays in the
   * range where `>>` is plain halving.
   */
  function ShiftRight(x: nat, k: nat): (r: nat)
    ensures r <= x
  {
    if k == 0 then x else ShiftRight(x / 2, k - 1)
  }

  /** Shifting right by three places is division by eight. */
  lemma ShiftRightThree(x: nat)
    ensures ShiftRight(x, 3) == x / 8
  {
    assert ShiftRight(x, 3) == ShiftRight(x / 2, 2) == ShiftRight(x / 4, 1) by {
      assert (x / 2) / 2 == x / 4;
    }
    assert ShiftRight(x / 4, 1) == ShiftRight((x / 4) / 2, 0) == x / 8;
  }

  /** `a ^ b` for non-negative 32-bit operands, bit by bit from the lowest. */
  function BitXor(a: nat, b: nat): (r: nat)
    ensures r % 2 == (a + b) % 2
    ensures r == 0 <==> a == b
    decreases a + b
  {
    if a == 0 then b
    else if b == 0 then a
    else
      var high := BitXor(a / 2, b / 2);
      var low := if a % 2 == b % 2 then 0 else 1;
      assert a == 2 * (a / 2) + a % 2 && b == 2 * (b / 2) + b % 2;
      assert (2 * high + low) % 2 == low;
      2 * high + low
  }

  /** The decimal digit character for `d`. */
  function Digit(d: nat): (c: char)
    requires d < 10
    ensures '0' <= c <= '9' && (c as int) - ('0' as int) == d
  {
    ('0' as int + d) as char
  }

  predicate IsDecimal(s: string)
  {
    |s| >= 1 &&
    (forall i :: 0 <= i < |s| ==> '0' <= s[i] <= '9') &&
    (|s| > 1 ==> s[0] != '0')
  }

  /** The digits a template literal prints for a non-negative integer below 10^21. */
  function NatToString(n: nat): (s: string)
    ensures IsDecimal(s)
    ensures n == 0 <==> s == "0"
  {
    if n < 10 then [Digit(n)] else NatToString(n / 10) + [Digit(n % 10)]
  }

  /** The text a template literal prints for an integer, minus sign included. */
  function IntToString(i: int): (s: string)
    ensures |s| >= 1
    ensures (s[0] == '-') <==> i < 0
    ensures i >= 0 ==> s == NatToString(i)
    ensures i < 0 ==> s[1..] == NatToString(-i)
  {
    if i < 0 then "-" + NatToString(-i) else NatToString(i)
  }

  /** Reads a string of decimal digits back into its value. */
  function ParseDecimal(s: string): nat
    requires forall i :: 0 <= i < |s| ==> '0' <= s[i] <= '9'
  {
    if s == [] then 0
    else 10 * ParseDecimal(s[..|s| - 1]) + ((s[|s| - 1] as int) - ('0' as int))
  }

  /** Printing a number and reading it back gives the number. */
  lemma {:induction false} ParseNatToString(n: nat)
    ensures ParseDecimal(NatToString(n)) == n
  {
    var s := NatToString(n);
    if n >= 10 {
      var prefix := NatToString(n / 10);
      assert s[..|s| - 1] == prefix;
      ParseNatToString(n / 10);
    }
  }

  /** Two numbers print the same only when they are equal. */
  lemma NatToStringInjective(m: nat, n: nat)
    ensures NatToString(m) == NatToString(n) <==> m == n
  {
    if NatToString(m) == NatToString(n) {
      ParseNatToString(m);
      ParseNatToString(n);
    }
  }
}
