/** The building blocks of the request validators: a rule list is a
    sequence of checks whose failures are collected in declaration order,
    `handleValidationErrors` answers with the first of them, and the
    string tests the rules use (validator.js's `isLength`, `isNumeric`,
    the one-character-class `matches`) and the `isNaN` of the phone rule. */
module Checks {
  import opened Values
  import opened Text
  import opened Http

  /** One validator of a chain: whether the field passes it, and the
      message it reports when it does not. */
  datatype Check = Check(passes: bool, message: string)

  /** What `validationResult` collects: the messages of the failing checks,
      in declaration order (no chain bails out early). */
  function Failures(cs: seq<Check>): (ms: seq<string>)
    ensures |ms| <= |cs|
    ensures ms == [] <==> forall i :: 0 <= i < |cs| ==> cs[i].passes
    ensures forall m :: m in ms <==> exists i :: 0 <= i < |cs| && !cs[i].passes && cs[i].message == m
    ensures forall i :: 0 <= i < |cs| && !cs[i].passes && (forall j :: 0 <= j < i ==> cs[j].passes) ==>
                         ms != [] && ms[0] == cs[i].message
  {
    if cs == [] then []
    else
      var rest := Failures(cs[1..]);
      assert forall i :: 1 <= i < |cs| ==> cs[i] == cs[1..][i - 1];
      if cs[0].passes then rest else [cs[0].message] + rest
  }

  /** The failures of two rule lists declared one after the other. */
  lemma {:induction false} FailuresAppend(a: seq<Check>, b: seq<Check>)
    ensures Failures(a + b) == Failures(a) + Failures(b)
  {
    if a == [] {
      assert a + b == b;
    } else {
      assert (a + b)[0] == a[0] && (a + b)[1..] == a[1..] + b;
      FailuresAppend(a[1..], b);
      if !a[0].passes {
        assert [a[0].message] + (Failures(a[1..]) + Failures(b)) == ([a[0].message] + Failures(a[1..])) + Failures(b);
      }
    }
  }

  /** `handleValidationErrors`: no errors lets the request through
      (`None`); otherwise a 400 with the first error's message, and the
      handler is not reached. */
  function HandleValidationErrors(errors: seq<string>): (r: Option<Reply>)
    ensures r.None? <==> errors == []
    ensures r.Some? ==> r.value.Msg? && r.value.status == 400 && !r.value.success && r.value.message in errors
  {
    if errors == [] then None else Some(Msg(400, false, errors[0]))
  }

  /** Every check of a list passes. */
  predicate AllPass(cs: seq<Check>) {
    forall i :: 0 <= i < |cs| ==> cs[i].passes
  }

  /** Two lists declared one after the other pass exactly when both do. */
  lemma AllPassAppend(a: seq<Check>, b: seq<Check>)
    ensures AllPass(a + b) <==> AllPass(a) && AllPass(b)
  {
    assert forall i :: 0 <= i < |a| ==> (a + b)[i] == a[i];
    assert forall i :: 0 <= i < |b| ==> (a + b)[|a| + i] == b[i];
  }

  /** A rule list followed by `handleValidationErrors`: the request goes
      through exactly when every check passes, and is otherwise refused
      with the message of the earliest-declared failing check. */
  function Validate(cs: seq<Check>): (r: Option<Reply>)
    ensures r.None? <==> AllPass(cs)
    ensures r.Some? ==> r.value.Msg? && r.value.status == 400 && !r.value.success
                        && exists i :: 0 <= i < |cs| && !cs[i].passes && cs[i].message == r.value.message
    ensures forall i :: 0 <= i < |cs| && !cs[i].passes && (forall j :: 0 <= j < i ==> cs[j].passes) ==>
                         r == Some(Msg(400, false, cs[i].message))
  {
    HandleValidationErrors(Failures(cs))
  }

  /** A later rule list never changes the answer once an earlier one fails. */
  lemma {:induction false} EarlierListWins(a: seq<Check>, b: seq<Check>)
    requires Validate(a).Some?
    ensures Validate(a + b) == Validate(a)
  {
    FailuresAppend(a, b);
  }

  predicate IsLowerLetter(c: char) { 'a' <= c <= 'z' }
  predicate IsUpperLetter(c: char) { 'A' <= c <= 'Z' }

  /** The class `[!@#$%^&*(),.?":{}|<>]`. */
  predicate IsSpecial(c: char) { c in "!@#$%^&*(),.?\":{}|<>" }

  /** `matches(/[…]/)` with a single character class: a scan for one
      character of the class. */
  function Search(s: string, cls: char -> bool): (found: bool)
    ensures found <==> exists i :: 0 <= i < |s| && cls(s[i])
  {
    if s == [] then false
    else
      assert forall i :: 1 <= i < |s| ==> s[i] == s[1..][i - 1];
      cls(s[0]) || Search(s[1..], cls)
  }

  /** validator.js's `isLength` count: characters, without the variation
      selectors U+FE0E and U+FE0F. */
  function CharLength(s: string): (n: nat)
    ensures n <= |s|
    ensures (forall i :: 0 <= i < |s| ==> s[i] != '\U{FE0E}' && s[i] != '\U{FE0F}') ==> n == |s|
  {
    if s == [] then 0
    else
      assert forall i :: 1 <= i < |s| ==> s[i] == s[1..][i - 1];
      CharLength(s[1..]) + (if s[0] == '\U{FE0E}' || s[0] == '\U{FE0F}' then 0 else 1)
  }

  /** The states of a scan of `^[+-]?([0-9]*[.])?[0-9]+$`. */
  datatype NumState = Start | Signed | Whole | Dot | Fraction | Dead

  function NextState(q: NumState, c: char): NumState {
    match q
    case Start => if c == '+' || c == '-' then Signed else if IsDigit(c) then Whole else if c == '.' then Dot else Dead
    case Signed => if IsDigit(c) then Whole else if c == '.' then Dot else Dead
    case Whole => if IsDigit(c) then Whole else if c == '.' then Dot else Dead
    case Dot => if IsDigit(c) then Fraction else Dead
    case Fraction => if IsDigit(c) then Fraction else Dead
    case Dead => Dead
  }

  function Run(q: NumState, s: string): NumState
    decreases |s|
  {
    if s == [] then q else Run(NextState(q, s[0]), s[1..])
  }

  predicate Accepting(q: NumState) { q == Whole || q == Fraction }

  /** validator.js's `isNumeric` (no options): the scan ends in an accepting state. */
  predicate IsNumeric(s: string) { Accepting(Run(Start, s)) }

  /** The text after a leading `+` or `-`. */
  function Unsigned(s: string): (u: string)
    ensures u == s || (|s| > 0 && (s[0] == '+' || s[0] == '-') && u == s[1..])
  {
    if |s| > 0 && (s[0] == '+' || s[0] == '-') then s[1..] else s
  }

  /** Digits, a dot, and at least one digit: `[0-9]*[.][0-9]+`. */
  predicate DotSplit(u: string) {
    exists i :: 0 <= i < |u| && u[i] == '.' && AllDigits(u[..i]) && i + 1 < |u| && AllDigits(u[i + 1..])
  }

  /** The strings `^[+-]?([0-9]*[.])?[0-9]+$` describes, read off the
      pattern. */
  predicate NumericShape(s: string) {
    var u := Unsigned(s);
    (|u| > 0 && AllDigits(u)) || DotSplit(u)
  }

  lemma {:induction false} RunDead(s: string)
    ensures Run(Dead, s) == Dead
    decreases |s|
  {
    if s != [] { RunDead(s[1..]); }
  }

  lemma {:induction false} RunFraction(s: string)
    ensures Accepting(Run(Fraction, s)) <==> AllDigits(s)
    ensures Run(Fraction, s) == Fraction || Run(Fraction, s) == Dead
    decreases |s|
  {
    if s != [] {
      if IsDigit(s[0]) {
        RunFraction(s[1..]);
        assert AllDigits(s) <==> AllDigits(s[1..]) by {
          assert forall i :: 1 <= i < |s| ==> s[i] == s[1..][i - 1];
        }
      } else {
        RunDead(s[1..]);
      }
    }
  }

  lemma {:induction false} RunDot(s: string)
    ensures Accepting(Run(Dot, s)) <==> |s| > 0 && AllDigits(s)
  {
    if s != [] {
      if IsDigit(s[0]) {
        RunFraction(s[1..]);
        assert AllDigits(s) <==> AllDigits(s[1..]) by {
          assert forall i :: 1 <= i < |s| ==> s[i] == s[1..][i - 1];
        }
      } else {
        RunDead(s[1..]);
      }
    }
  }

  /** A leading digit neither makes nor breaks a digits-dot-digits split. */
  lemma DotSplitDigit(s: string)
    requires |s| > 0 && IsDigit(s[0])
    ensures DotSplit(s) <==> DotSplit(s[1..])
  {
    if DotSplit(s) { DotSplitDrop(s); }
    if DotSplit(s[1..]) { DotSplitPrepend(s); }
  }

  lemma DotSplitDrop(s: string)
    requires |s| > 0 && IsDigit(s[0]) && DotSplit(s)
    ensures DotSplit(s[1..])
  {
    var r := s[1..];
    var i :| 0 <= i < |s| && s[i] == '.' && AllDigits(s[..i]) && i + 1 < |s| && AllDigits(s[i + 1..]);
    assert i != 0;
    var j := i - 1;
    assert r[j] == '.';
    forall k | 0 <= k < j ensures IsDigit(r[..j][k]) {
      assert r[..j][k] == s[..i][k + 1];
    }
    assert r[j + 1..] == s[i + 1..];
  }

  lemma DotSplitPrepend(s: string)
    requires |s| > 0 && IsDigit(s[0]) && DotSplit(s[1..])
    ensures DotSplit(s)
  {
    var r := s[1..];
    var j :| 0 <= j < |r| && r[j] == '.' && AllDigits(r[..j]) && j + 1 < |r| && AllDigits(r[j + 1..]);
    var i := j + 1;
    assert s[i] == '.';
    forall k | 0 <= k < i ensures IsDigit(s[..i][k]) {
      if k > 0 { assert s[..i][k] == r[..j][k - 1]; }
    }
    assert s[i + 1..] == r[j + 1..];
  }

  /** A leading dot splits exactly when digits follow it. */
  lemma DotSplitDot(s: string)
    requires |s| > 0 && s[0] == '.'
    ensures DotSplit(s) <==> |s| > 1 && AllDigits(s[1..])
  {
    if |s| > 1 && AllDigits(s[1..]) {
      assert s[..0] == [];
      assert AllDigits(s[..0]);
    }
    if DotSplit(s) {
      var i :| 0 <= i < |s| && s[i] == '.' && AllDigits(s[..i]) && i + 1 < |s| && AllDigits(s[i + 1..]);
      assert i == 0;
    }
  }

  lemma {:induction false} RunWhole(s: string)
    ensures Accepting(Run(Whole, s)) <==> AllDigits(s) || DotSplit(s)
    decreases |s|
  {
    if s != [] {
      var c, r := s[0], s[1..];
      assert forall i :: 1 <= i < |s| ==> s[i] == r[i - 1];
      if IsDigit(c) {
        RunWhole(r);
        assert AllDigits(s) <==> AllDigits(r);
        DotSplitDigit(s);
      } else if c == '.' {
        RunDot(r);
        assert !AllDigits(s);
        DotSplitDot(s);
      } else {
        RunDead(r);
        assert !AllDigits(s);
        forall i | 0 < i < |s| ensures !AllDigits(s[..i]) {
          assert s[..i][0] == c;
        }
      }
    }
  }

  /** The scan accepts exactly the strings the pattern describes. */
  lemma {:induction false} IsNumericShape(s: string)
    ensures IsNumeric(s) <==> NumericShape(s)
  {
    var u := Unsigned(s);
    if s == [] {
    } else if s[0] == '+' || s[0] == '-' {
      assert Run(Start, s) == Run(Signed, u);
      NumericFromSigned(u);
    } else {
      assert u == s;
      assert Run(Start, s) == Run(Signed, s) by {
        assert NextState(Start, s[0]) == NextState(Signed, s[0]);
      }
      NumericFromSigned(s);
    }
  }

  lemma {:induction false} NumericFromSigned(u: string)
    ensures Accepting(Run(Signed, u)) <==> (|u| > 0 && AllDigits(u)) || DotSplit(u)
  {
    if u == [] {
    } else {
      assert NextState(Signed, u[0]) == NextState(Whole, u[0]);
      assert Run(Signed, u) == Run(Whole, u);
      RunWhole(u);
    }
  }

  /** The characters `^[+-]?([0-9]*[.])?[0-9]+$` can match. */
  predicate NumChar(c: char) { IsDigit(c) || c == '+' || c == '-' || c == '.' }

  /** From any state, the scan accepts only strings of those characters. */
  lemma {:induction false} AcceptedChars(q: NumState, s: string)
    requires Accepting(Run(q, s))
    ensures forall i :: 0 <= i < |s| ==> NumChar(s[i])
    decreases |s|
  {
    if s != [] {
      if !NumChar(s[0]) {
        assert NextState(q, s[0]) == Dead;
        RunDead(s[1..]);
      } else {
        AcceptedChars(NextState(q, s[0]), s[1..]);
        assert forall i :: 1 <= i < |s| ==> s[i] == s[1..][i - 1];
      }
    }
  }

  /** A `0x`, `0o` or `0b` literal with at least one digit. */
  predicate NonDecimal(t: string) {
    |t| > 2 && t[0] == '0'
    && ((t[1] in "xX" && forall i :: 2 <= i < |t| ==> IsHexDigit(t[i]))
        || (t[1] in "oO" && forall i :: 2 <= i < |t| ==> '0' <= t[i] <= '7')
        || (t[1] in "bB" && forall i :: 2 <= i < |t| ==> '0' <= t[i] <= '1'))
  }

  /** Digits, digits with a fraction, or a fraction alone. */
  predicate Mantissa(m: string) {
    (|m| > 0 && AllDigits(m))
    || exists i :: 0 <= i < |m| && m[i] == '.' && AllDigits(m[..i]) && AllDigits(m[i + 1..]) && |m| > 1
  }

  predicate ExponentDigits(e: string) {
    var d := Unsigned(e);
    |d| > 0 && AllDigits(d)
  }

  /** `StrUnsignedDecimalLiteral`: `Infinity`, or a mantissa with an
      optional exponent. */
  predicate UnsignedDecimal(u: string) {
    u == "Infinity" || Mantissa(u)
    || exists i :: 0 <= i < |u| && (u[i] == 'e' || u[i] == 'E') && Mantissa(u[..i]) && ExponentDigits(u[i + 1..])
  }

  /** `!isNaN(s)` for a string: `Number(s)` reads, after trimming white
      space, nothing at all, a `0x`/`0o`/`0b` literal, or a signed
      decimal literal. */
  predicate JsNumber(s: string) {
    var t := Trim(s);
    t == [] || NonDecimal(t) || UnsignedDecimal(Unsigned(t))
  }

  /** Every string validator.js calls numeric is a number to JavaScript. */
  lemma {:induction false} NumericIsJsNumber(s: string)
    requires IsNumeric(s)
    ensures JsNumber(s)
  {
    IsNumericShape(s);
    var u := Unsigned(s);
    assert NoSpace(s) by {
      forall i | 0 <= i < |s| ensures !IsSpace(s[i]) {
        if u == s {
          assert IsDigit(s[i]) || s[i] == '.' by {
            if !AllDigits(u) {
              var j :| 0 <= j < |u| && u[j] == '.' && AllDigits(u[..j]) && j + 1 < |u| && AllDigits(u[j + 1..]);
              if i < j { assert s[i] == u[..j][i]; }
              else if i > j { assert s[i] == u[j + 1..][i - j - 1]; }
            }
          }
        } else if i > 0 {
          assert s[i] == u[i - 1];
          assert IsDigit(u[i - 1]) || u[i - 1] == '.' by {
            if !AllDigits(u) {
              var j :| 0 <= j < |u| && u[j] == '.' && AllDigits(u[..j]) && j + 1 < |u| && AllDigits(u[j + 1..]);
              if i - 1 < j { assert u[i - 1] == u[..j][i - 1]; }
              else if i - 1 > j { assert u[i - 1] == u[j + 1..][i - 1 - j - 1]; }
            }
          }
        }
      }
    }
    assert Trim(s) == s;
    if !(|u| > 0 && AllDigits(u)) {
      var j :| 0 <= j < |u| && u[j] == '.' && AllDigits(u[..j]) && j + 1 < |u| && AllDigits(u[j + 1..]);
      assert Mantissa(u);
    }
  }
}
