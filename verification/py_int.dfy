/**
 * Python's `int(text)` on a string, as the IPv4 check uses it: surrounding
 * whitespace is ignored, one optional sign, then ASCII digits in which single
 * underscores may separate two digits. Anything else raises `ValueError`,
 * modelled as `None`.
 */
module PyInt {
  import opened Wrappers
  import opened Text

  predicate IsDigit(c: char) {
    '0' <= c <= '9'
  }

  /** The digit part `int()` accepts: digits first and last, otherwise digits or lone underscores. */
  predicate IsDigitRun(s: string) {
    && s != []
    && IsDigit(s[0])
    && IsDigit(s[|s| - 1])
    && (forall i :: 0 <= i < |s| ==> IsDigit(s[i]) || s[i] == '_')
    && NoDoubleUnderscore(s)
  }

  /** No two underscores stand next to each other. */
  predicate NoDoubleUnderscore(s: string) {
    |s| < 2 || (!(s[0] == '_' && s[1] == '_') && NoDoubleUnderscore(s[1..]))
  }

  /** The decimal value of a digit run; underscores are skipped. */
  function DigitsValue(s: string): nat {
    if s == [] then 0
    else
      var c := s[|s| - 1];
      if IsDigit(c) then 10 * DigitsValue(s[..|s| - 1]) + (c as int - '0' as int)
      else DigitsValue(s[..|s| - 1])
  }

  /** `int(s)`: `None` where Python raises `ValueError`. */
  function ParseInt(s: string): (r: Option<int>)
    ensures r.Some? ==> Strip(s) != []
  {
    var t := Strip(s);
    if t != [] && (t[0] == '+' || t[0] == '-') then
      if IsDigitRun(t[1..]) then
        var v: int := DigitsValue(t[1..]);
        Some(if t[0] == '-' then -v else v)
      else None
    else if IsDigitRun(t) then Some(DigitsValue(t))
    else None
  }

  /** The canonical decimal text of a natural number, as `str(n)` writes it. */
  function Show(n: nat): (s: string)
    ensures s != []
    ensures forall i :: 0 <= i < |s| ==> IsDigit(s[i])
  {
    if n < 10 then [('0' as int + n) as char]
    else Show(n / 10) + [('0' as int + n % 10) as char]
  }

  lemma {:induction false} ShowValue(n: nat)
    ensures DigitsValue(Show(n)) == n
  {
    if n >= 10 {
      ShowValue(n / 10);
      assert Show(n)[..|Show(n)| - 1] == Show(n / 10);
    }
  }

  lemma {:induction false} DigitsOnly(s: string)
    requires forall i :: 0 <= i < |s| ==> IsDigit(s[i])
    ensures NoDoubleUnderscore(s)
  {
    if |s| >= 2 {
      DigitsOnly(s[1..]);
    }
  }

  /** A digit is not whitespace. */
  lemma DigitNotSpace(c: char)
    requires IsDigit(c)
    ensures !IsSpace(c)
  {
  }

  /** Text that strips to a run of digits reads as the value of that run. */
  lemma ParseDigitRun(s: string)
    requires IsDigitRun(Strip(s))
    ensures ParseInt(s) == Some(DigitsValue(Strip(s)))
  {
    var t := Strip(s);
    assert IsDigit(t[0]);
    assert t[0] != '+' && t[0] != '-';
  }

  /** `int()` reads back exactly what `str()` wrote. */
  lemma ShowParses(n: nat)
    ensures ParseInt(Show(n)) == Some(n)
  {
    var s := Show(n);
    DigitNotSpace(s[0]);
    DigitNotSpace(s[|s| - 1]);
    StripUnchanged(s);
    DigitsOnly(s);
    assert IsDigitRun(s);
    ParseDigitRun(s);
    ShowValue(n);
  }

  /** The empty string, and the empty section of an address such as "1.2.3.", make `int()` raise. */
  lemma EmptyRaises()
    ensures ParseInt("") == None
  {
  }

  /** `int()` is more liberal than a dotted quad: a sign is accepted, so "-0" reads as 0. */
  lemma SignedZero()
    ensures ParseInt("-0") == Some(0)
  {
    assert Strip("-0") == "-0";
    assert "-0"[1..] == "0";
    assert IsDigitRun("0");
  }

  /** Single underscores between digits are accepted. */
  lemma SingleUnderscore()
    ensures ParseInt("2_5") == Some(25)
  {
    assert Strip("2_5") == "2_5";
    assert "2_5"[..2] == "2_";
    assert "2_5"[..2][..1] == "2";
    assert "2"[..0] == [];
    assert forall i :: 0 <= i < |"2_5"| ==> IsDigit("2_5"[i]) || "2_5"[i] == '_';
    assert "2_5"[1..] == "_5";
    assert IsDigitRun("2_5");
  }

  /** Doubled underscores make `int()` raise. */
  lemma DoubleUnderscore()
    ensures ParseInt("2__5") == None
  {
    assert Strip("2__5") == "2__5";
    assert "2__5"[1..] == "__5";
    assert !NoDoubleUnderscore("__5");
  }
}
