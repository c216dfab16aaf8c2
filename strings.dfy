/**
 * Text formatting used by the workbook engine: Python's `str()` of a
 * non-negative integer, `int()` of a decimal literal, and openpyxl's
 * `quote_sheetname`, each paired with the parser that inverts it.
 */
module Strings {
  import opened Wrappers

  /** An ASCII decimal digit (Python's `int()` also accepts other Unicode decimal digits, which are not modelled). */
  predicate IsDigit(c: char) { '0' <= c <= '9' }

  predicate AllDigits(s: string) { forall i :: 0 <= i < |s| ==> IsDigit(s[i]) }

  function DigitChar(d: nat): (c: char)
    requires d < 10
    ensures IsDigit(c) && c as int - '0' as int == d
  {
    ('0' as int + d) as char
  }

  function DigitValue(c: char): nat
    requires IsDigit(c)
  {
    c as int - '0' as int
  }

  /** The number a string of decimal digits denotes (most significant digit first). */
  function DigitsValue(s: string): nat
    requires AllDigits(s)
  {
    if s == [] then 0 else DigitsValue(s[..|s| - 1]) * 10 + DigitValue(s[|s| - 1])
  }

  /** `str(n)` for a non-negative integer: decimal digits without leading zeros. */
  function NatToString(n: nat): (s: string)
    ensures |s| >= 1 && AllDigits(s)
  {
    if n < 10 then [DigitChar(n)] else NatToString(n / 10) + [DigitChar(n % 10)]
  }

  /** `str(n)` denotes `n`, has no superfluous leading zero, and is one digit long exactly below 10. */
  lemma {:induction false} NatToStringDenotes(n: nat)
    ensures DigitsValue(NatToString(n)) == n
    ensures (NatToString(n)[0] == '0') <==> n == 0
    ensures (|NatToString(n)| == 1) <==> n < 10
  {
    if n >= 10 {
      NatToStringDenotes(n / 10);
      var s := NatToString(n);
      assert s[..|s| - 1] == NatToString(n / 10);
      assert s[0] == NatToString(n / 10)[0];
    }
  }

  /** Decimal parsing of an unsigned literal; `None` when it is empty or holds a non-digit. */
  function ParseNat(s: string): Option<nat>
  {
    if |s| >= 1 && AllDigits(s) then Some(DigitsValue(s)) else None
  }

  /** `int(s)` on an ASCII decimal literal with an optional sign (no surrounding whitespace, no underscores). */
  function ParseInt(s: string): Option<int>
  {
    if |s| >= 1 && (s[0] == '-' || s[0] == '+') then
      match ParseNat(s[1..])
      case Some(n) => var v: int := if s[0] == '-' then -(n as int) else n; Some(v)
      case None => None
    else
      match ParseNat(s)
      case Some(n) => var v: int := n; Some(v)
      case None => None
  }

  /** `str(i)` for any integer. */
  function IntToString(i: int): string
  {
    if i < 0 then "-" + NatToString(-i) else NatToString(i)
  }

  lemma ParseNatToString(n: nat)
    ensures ParseNat(NatToString(n)) == Some(n)
  {
    NatToStringDenotes(n);
  }

  lemma NatToStringInjective(a: nat, b: nat)
    ensures NatToString(a) == NatToString(b) <==> a == b
  {
    if NatToString(a) == NatToString(b) {
      ParseNatToString(a);
      ParseNatToString(b);
    }
  }

  /** Every digit string without a superfluous leading zero is the `str()` of its value. */
  lemma {:induction false} CanonicalDigits(s: string)
    requires |s| >= 1 && AllDigits(s)
    requires s[0] == '0' ==> |s| == 1
    ensures NatToString(DigitsValue(s)) == s
  {
    if |s| == 1 {
      assert DigitsValue(s) == DigitValue(s[0]);
    } else {
      var prefix := s[..|s| - 1];
      assert prefix[0] == s[0];
      CanonicalDigits(prefix);
      var v := DigitsValue(prefix);
      var d := DigitValue(s[|s| - 1]);
      assert v != 0;
      assert DigitsValue(s) == v * 10 + d;
      assert (v * 10 + d) / 10 == v && (v * 10 + d) % 10 == d;
      assert DigitChar(d) == s[|s| - 1];
      assert prefix + [s[|s| - 1]] == s;
    }
  }

  lemma ParseIntToString(i: int)
    ensures ParseInt(IntToString(i)) == Some(i)
  {
    ParseNatToString(if i < 0 then -i else i);
    if i < 0 {
      assert IntToString(i)[1..] == NatToString(-i);
    }
  }

  /** Doubles every apostrophe, as Excel's quoted sheet-name syntax demands. */
  function EscapeQuotes(s: string): string
  {
    if s == [] then [] else (if s[0] == '\'' then "''" else [s[0]]) + EscapeQuotes(s[1..])
  }

  /**
   * openpyxl's `quote_sheetname` as of openpyxl 3: the escaped name between
   * apostrophes, whatever characters the name holds.
   */
  function QuoteSheetName(title: string): (q: string)
    ensures |q| >= 2 && q[0] == '\'' && q[|q| - 1] == '\''
  {
    "'" + EscapeQuotes(title) + "'"
  }

  /**
   * Reads a quoted sheet name whose opening apostrophe has already been
   * consumed: returns the unescaped name and the text after the closing
   * apostrophe.
   */
  function ReadQuoted(s: string): Option<(string, string)>
    decreases |s|
  {
    if s == [] then None
    else if s[0] == '\'' then
      if |s| >= 2 && s[1] == '\'' then
        match ReadQuoted(s[2..])
        case None => None
        case Some((t, rest)) => Some(("'" + t, rest))
      else Some(([], s[1..]))
    else
      match ReadQuoted(s[1..])
      case None => None
      case Some((t, rest)) => Some(([s[0]] + t, rest))
  }

  /** Splits a string that starts with a quoted sheet name into that name and the rest. */
  function UnquoteSheetName(q: string): Option<(string, string)>
  {
    if |q| >= 1 && q[0] == '\'' then ReadQuoted(q[1..]) else None
  }

  lemma {:induction false} ReadQuotedEscaped(t: string, rest: string)
    requires rest == [] || rest[0] != '\''
    ensures ReadQuoted(EscapeQuotes(t) + "'" + rest) == Some((t, rest))
  {
    if t == [] {
      assert EscapeQuotes(t) + "'" + rest == "'" + rest;
    } else {
      ReadQuotedEscaped(t[1..], rest);
      var tail := EscapeQuotes(t[1..]) + "'" + rest;
      if t[0] == '\'' {
        assert EscapeQuotes(t) + "'" + rest == "''" + tail;
        assert ("''" + tail)[2..] == tail;
      } else {
        assert EscapeQuotes(t) + "'" + rest == [t[0]] + tail;
        assert ([t[0]] + tail)[1..] == tail;
      }
      assert [t[0]] + t[1..] == t;
    }
  }

  /** Quoting is inverted by unquoting, whatever follows the name (unless it is an apostrophe). */
  lemma QuoteRoundTrip(title: string, rest: string)
    requires rest == [] || rest[0] != '\''
    ensures UnquoteSheetName(QuoteSheetName(title) + rest) == Some((title, rest))
  {
    var q := QuoteSheetName(title) + rest;
    assert q[1..] == EscapeQuotes(title) + "'" + rest;
    ReadQuotedEscaped(title, rest);
  }
}
