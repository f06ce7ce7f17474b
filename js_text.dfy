/**
 * How a JavaScript template literal renders the values that port labels and
 * links are built from: a port number as its decimal digits, and a missing
 * value as "undefined".
 */
module JsText {
  import opened Wrappers

  predicate IsDigit(c: char)
  {
    '0' <= c <= '9'
  }

  predicate AllDigits(s: string)
  {
    forall i :: 0 <= i < |s| ==> IsDigit(s[i])
  }

  function DigitChar(d: nat): (c: char)
    requires d < 10
    ensures IsDigit(c)
  {
    ('0' as int + d) as char
  }

  function DigitValue(c: char): nat
    requires IsDigit(c)
  {
    c as int - '0' as int
  }

  /**
   * `${n}` for a whole, non-negative number: its decimal digits, never
   * empty, and with a leading zero only for zero itself.
   */
  function NumberToString(n: nat): (s: string)
    ensures |s| >= 1 && AllDigits(s)
    ensures s[0] == '0' ==> n == 0
  {
    if n < 10 then [DigitChar(n)] else NumberToString(n / 10) + [DigitChar(n % 10)]
  }

  /** The number a string of decimal digits denotes. */
  function ParseDigits(s: string): nat
    requires AllDigits(s)
  {
    if s == [] then 0 else ParseDigits(s[..|s| - 1]) * 10 + DigitValue(s[|s| - 1])
  }

  /** Rendering a number and reading its digits back gives the number. */
  lemma {:induction false} ParseNumberToString(n: nat)
    ensures ParseDigits(NumberToString(n)) == n
  {
    if n >= 10 {
      var s := NumberToString(n);
      ParseNumberToString(n / 10);
      assert s[..|s| - 1] == NumberToString(n / 10);
    }
  }

  /** `${v}` for an optional string. */
  function RenderString(v: Option<string>): string
  {
    if v.Some? then v.value else "undefined"
  }

  /** `${v}` for an optional number. */
  function RenderNumber(v: Option<nat>): string
  {
    if v.Some? then NumberToString(v.value) else "undefined"
  }

  /** JavaScript truthiness of an optional string: present and not "". */
  predicate TruthyString(v: Option<string>)
  {
    v.Some? && v.value != ""
  }

  /** JavaScript truthiness of an optional number: present and not 0. */
  predicate TruthyNumber(v: Option<nat>)
  {
    v.Some? && v.value != 0
  }
}
