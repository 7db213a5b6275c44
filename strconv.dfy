/**
 * The parts of Go's strconv package that the binding engines call:
 * decimal integers (ParseUint, ParseInt, Atoi), booleans (ParseBool),
 * and decimal floating-point and complex literals (ParseFloat, ParseComplex).
 *
 * Integers follow Go exactly, including the left-to-right scan that decides
 * whether a malformed, too-large literal is reported as a syntax or a range
 * error. Floating-point literals are given their exact rational value: no
 * rounding to float32/float64, no overflow to infinity, and no "inf", "nan"
 * or hexadecimal forms.
 */
module Strconv {
  import opened Wrappers

  datatype ErrKind = ErrSyntax | ErrRange

  /** strconv.NumError: the function that failed, its input and the reason. */
  datatype NumError = NumError(fn: string, num: string, err: ErrKind)

  /** The bitSize argument of ParseInt/ParseUint as the engines use it. */
  type BitSize = b: nat | 0 < b <= 64 witness 64

  predicate IsDigit(c: char) { '0' <= c <= '9' }

  function DigitVal(c: char): (d: nat)
    requires IsDigit(c)
    ensures d < 10
  {
    (c as int - '0' as int) as nat
  }

  function DigitChar(d: nat): (c: char)
    requires d < 10
    ensures IsDigit(c) && DigitVal(c) == d
  {
    ('0' as int + d) as char
  }

  predicate AllDigits(s: string) {
    forall i :: 0 <= i < |s| ==> IsDigit(s[i])
  }

  function Pow2(n: nat): (p: nat)
    ensures p >= 1
  {
    if n == 0 then 1 else 2 * Pow2(n - 1)
  }

  /** The powers of two at the widths of Go's sized integers. */
  lemma Pow2Widths()
    ensures Pow2(7) == 0x80 && Pow2(8) == 0x100
    ensures Pow2(15) == 0x8000 && Pow2(16) == 0x1_0000
    ensures Pow2(31) == 0x8000_0000 && Pow2(32) == 0x1_0000_0000
    ensures Pow2(63) == 0x8000_0000_0000_0000 && Pow2(64) == 0x1_0000_0000_0000_0000
  {
    assert Pow2(4) == 0x10;
    assert Pow2(7) == 0x80;
    assert Pow2(8) == 0x100;
    assert Pow2(12) == 0x1000;
    assert Pow2(15) == 0x8000;
    assert Pow2(16) == 0x10000;
    assert Pow2(20) == 0x100000;
    assert Pow2(24) == 0x1000000;
    assert Pow2(28) == 0x10000000;
    assert Pow2(31) == 0x80000000;
    assert Pow2(32) == 0x100000000;
    assert Pow2(36) == 0x1000000000;
    assert Pow2(40) == 0x10000000000;
    assert Pow2(44) == 0x100000000000;
    assert Pow2(48) == 0x1000000000000;
    assert Pow2(52) == 0x10000000000000;
    assert Pow2(56) == 0x100000000000000;
    assert Pow2(60) == 0x1000000000000000;
    assert Pow2(63) == 0x8000000000000000;
    assert Pow2(64) == 0x10000000000000000;
  }

  function Pow10(n: nat): (p: nat)
    ensures p >= 1
  {
    if n == 0 then 1 else 10 * Pow10(n - 1)
  }

  /** The number an all-digit string denotes, most significant digit first. */
  function Value(s: string): nat
    requires AllDigits(s)
  {
    if s == [] then 0 else Value(s[..|s| - 1]) * 10 + DigitVal(s[|s| - 1])
  }

  /** The largest value of an unsigned integer of the given width. */
  function MaxUint(bits: BitSize): nat { Pow2(bits) - 1 }

  // ---------------------------------------------------------------------
  // Formatting: the partner of the parsers (strconv.FormatUint/FormatInt).

  function FormatUint(n: nat): (s: string)
    ensures |s| > 0 && AllDigits(s)
  {
    if n < 10 then [DigitChar(n)] else FormatUint(n / 10) + [DigitChar(n % 10)]
  }

  function FormatInt(v: int): (s: string)
    ensures |s| > 0
  {
    if v < 0 then "-" + FormatUint(-v) else FormatUint(v)
  }

  function FormatBool(b: bool): string {
    if b then "true" else "false"
  }

  // ---------------------------------------------------------------------
  // Integers.

  /**
   * The digit loop of strconv.ParseUint for base 10, from position i with
   * the value accumulated so far: the first non-digit is a syntax error,
   * and the first digit that takes the value above max is a range error,
   * whichever comes first.
   */
  function ScanUint(s: string, i: nat, acc: nat, max: nat): Result<nat, ErrKind>
    requires i <= |s|
    decreases |s| - i
  {
    if i == |s| then Ok(acc)
    else if !IsDigit(s[i]) then Err(ErrSyntax)
    else if acc * 10 + DigitVal(s[i]) > max then Err(ErrRange)
    else ScanUint(s, i + 1, acc * 10 + DigitVal(s[i]), max)
  }

  /** strconv.ParseUint(s, 10, bits). No sign and no underscore is accepted. */
  function ParseUint(s: string, bits: BitSize): (r: Result<nat, NumError>)
    ensures r.Ok? ==> |s| > 0 && AllDigits(s) && r.value == Value(s) && r.value <= MaxUint(bits)
    ensures r.Err? ==> r.error.fn == "ParseUint" && r.error.num == s
  {
    if s == "" then Err(NumError("ParseUint", s, ErrSyntax))
    else
      var scan := ScanUint(s, 0, 0, MaxUint(bits));
      ScanUintSound(s, 0, 0, MaxUint(bits));
      match scan
      case Ok(n) => Ok(n)
      case Err(k) => Err(NumError("ParseUint", s, k))
  }

  /** True when s has an optional leading sign followed by the digits of its magnitude. */
  function Unsigned(s: string): string
    requires |s| > 0
  {
    if s[0] == '+' || s[0] == '-' then s[1..] else s
  }

  /**
   * strconv.ParseInt(s, 10, bits): an optional '+' or '-', then the digits
   * that ParseUint accepts, then the signed range check
   * [-2^(bits-1), 2^(bits-1) - 1].
   */
  function ParseInt(s: string, bits: BitSize): (r: Result<int, NumError>)
    ensures r.Ok? ==> -(Pow2(bits - 1) as int) <= r.value < Pow2(bits - 1)
    ensures r.Ok? ==> |s| > 0 && |Unsigned(s)| > 0 && AllDigits(Unsigned(s))
                      && r.value == (if s[0] == '-' then -(Value(Unsigned(s)) as int) else Value(Unsigned(s)))
    ensures r.Err? ==> r.error.fn == "ParseInt" && r.error.num == s
  {
    if s == "" then Err(NumError("ParseInt", s, ErrSyntax))
    else
      var neg := s[0] == '-';
      match ParseUint(Unsigned(s), bits)
      case Err(e) => Err(NumError("ParseInt", s, e.err))
      case Ok(un) =>
        var cutoff := Pow2(bits - 1);
        if !neg && un >= cutoff then Err(NumError("ParseInt", s, ErrRange))
        else if neg && un > cutoff then Err(NumError("ParseInt", s, ErrRange))
        else Ok(if neg then -(un as int) else un)
  }

  /** strconv.Atoi on a 64-bit platform: ParseInt(s, 10, 64) reported under its own name. */
  function Atoi(s: string): (r: Result<int, NumError>)
    ensures r.Ok? ==> -(Pow2(63) as int) <= r.value < Pow2(63)
    ensures r.Ok? <==> ParseInt(s, 64).Ok?
    ensures r.Ok? ==> r.value == ParseInt(s, 64).value
    ensures r.Err? ==> r.error == NumError("Atoi", s, ParseInt(s, 64).error.err)
  {
    match ParseInt(s, 64)
    case Ok(v) => Ok(v)
    case Err(e) => Err(NumError("Atoi", s, e.err))
  }

  /** strconv.ParseBool: the six spellings of true, the six of false, nothing else. */
  function ParseBool(s: string): (r: Result<bool, NumError>)
    ensures r.Ok? <==> s in {"1", "t", "T", "TRUE", "true", "True", "0", "f", "F", "FALSE", "false", "False"}
    ensures r.Ok? ==> (r.value <==> s in {"1", "t", "T", "TRUE", "true", "True"})
    ensures r.Err? ==> r.error == NumError("ParseBool", s, ErrSyntax)
  {
    if s in {"1", "t", "T", "TRUE", "true", "True"} then Ok(true)
    else if s in {"0", "f", "F", "FALSE", "false", "False"} then Ok(false)
    else Err(NumError("ParseBool", s, ErrSyntax))
  }

  // ---------------------------------------------------------------------
  // Proofs about the integer scan.

  lemma {:induction false} ValuePrefixStep(s: string, j: nat)
    requires AllDigits(s) && j < |s|
    ensures AllDigits(s[..j]) && AllDigits(s[..j + 1])
    ensures Value(s[..j + 1]) == Value(s[..j]) * 10 + DigitVal(s[j])
  {
    assert s[..j + 1][..j] == s[..j];
  }

  lemma {:induction false} ValuePrefixMono(s: string, j: nat)
    requires AllDigits(s) && j <= |s|
    ensures AllDigits(s[..j]) && Value(s[..j]) <= Value(s)
    decreases |s| - j
  {
    if j < |s| {
      ValuePrefixStep(s, j);
      ValuePrefixMono(s, j + 1);
    } else {
      assert s[..j] == s;
    }
  }

  /** What the scan computes, when started on the value of the prefix already read. */
  lemma {:induction false} ScanUintSound(s: string, i: nat, acc: nat, max: nat)
    requires i <= |s| && acc <= max
    ensures var r := ScanUint(s, i, acc, max);
            r.Ok? ==> AllDigits(s[i..]) && r.value <= max && r.value == acc * Pow10(|s| - i) + Value(s[i..])
    decreases |s| - i
  {
    if i < |s| && IsDigit(s[i]) && acc * 10 + DigitVal(s[i]) <= max {
      var d := DigitVal(s[i]);
      ScanUintSound(s, i + 1, acc * 10 + d, max);
      var r := ScanUint(s, i, acc, max);
      if r.Ok? {
        var p := Pow10(|s| - i - 1);
        var v := Value(s[i + 1..]);
        assert s[i..] == [s[i]] + s[i + 1..];
        ValueCons(s[i], s[i + 1..]);
        assert r.value == (acc * 10 + d) * p + v;
        assert Pow10(|s| - i) == 10 * p;
        ShiftDigit(acc, d, p);
      }
    } else if i == |s| {
      assert s[i..] == [];
    }
  }

  /** Appending digit d to acc and scaling by p is scaling acc by 10p and d by p. */
  lemma ShiftDigit(acc: int, d: int, p: int)
    ensures (acc * 10 + d) * p == acc * (10 * p) + d * p
  {
  }

  /** Value with a digit in front: the digit is worth 10 to the power of the rest's length. */
  lemma {:induction false} ValueCons(c: char, t: string)
    requires IsDigit(c) && AllDigits(t)
    ensures AllDigits([c] + t)
    ensures Value([c] + t) == DigitVal(c) * Pow10(|t|) + Value(t)
    decreases |t|
  {
    var s := [c] + t;
    assert forall k :: 0 <= k < |s| ==> IsDigit(s[k]);
    if t == [] {
      assert s[..0] == [];
    } else {
      var t' := t[..|t| - 1];
      assert s[..|s| - 1] == [c] + t';
      ValueCons(c, t');
      var d, p, last := DigitVal(c), Pow10(|t'|), DigitVal(t[|t| - 1]);
      assert s[|s| - 1] == t[|t| - 1];
      assert Value(s) == Value([c] + t') * 10 + last;
      assert Value(t) == Value(t') * 10 + last;
      assert Pow10(|t|) == 10 * p;
      LeadingDigit(d, p, Value(t'), last);
    }
  }

  /** The arithmetic step of ValueCons: a leading digit's weight grows tenfold with each digit behind it. */
  lemma LeadingDigit(d: int, p: int, v: int, last: int)
    ensures (d * p + v) * 10 + last == d * (10 * p) + (v * 10 + last)
  {
  }

  /** When every digit is there and the whole value fits, the scan reads it all. */
  lemma {:induction false} ScanUintComplete(s: string, i: nat, max: nat)
    requires AllDigits(s) && i <= |s| && Value(s) <= max
    ensures AllDigits(s[..i]) && ScanUint(s, i, Value(s[..i]), max) == Ok(Value(s))
    decreases |s| - i
  {
    ValuePrefixMono(s, i);
    if i < |s| {
      ValuePrefixStep(s, i);
      ValuePrefixMono(s, i + 1);
      ScanUintComplete(s, i + 1, max);
    } else {
      assert s[..i] == s;
    }
  }

  /** When every digit is there but the value does not fit, the scan reports a range error. */
  lemma {:induction false} ScanUintOverflow(s: string, i: nat, max: nat)
    requires AllDigits(s) && i < |s| && Value(s) > max
    requires AllDigits(s[..i]) && Value(s[..i]) <= max
    ensures ScanUint(s, i, Value(s[..i]), max) == Err(ErrRange)
    decreases |s| - i
  {
    assert s[..|s|] == s;
    ValuePrefixStep(s, i);
    if Value(s[..i + 1]) <= max {
      ScanUintOverflow(s, i + 1, max);
    }
  }

  /** ParseUint accepts exactly the all-digit, non-empty strings whose value fits the width. */
  lemma ParseUintDigits(s: string, bits: BitSize)
    requires |s| > 0 && AllDigits(s)
    ensures ParseUint(s, bits) == if Value(s) <= MaxUint(bits) then Ok(Value(s))
                                  else Err(NumError("ParseUint", s, ErrRange))
  {
    assert s[..0] == [];
    if Value(s) <= MaxUint(bits) {
      ScanUintComplete(s, 0, MaxUint(bits));
    } else {
      ScanUintOverflow(s, 0, MaxUint(bits));
    }
  }

  /** A sign is never part of an unsigned literal. */
  lemma ParseUintRejectsSign(s: string, bits: BitSize)
    requires |s| > 0 && (s[0] == '+' || s[0] == '-')
    ensures ParseUint(s, bits).Err?
  {
  }

  lemma {:induction false} ValueFormatUint(n: nat)
    ensures Value(FormatUint(n)) == n
  {
    if n >= 10 {
      var s := FormatUint(n);
      ValueFormatUint(n / 10);
      assert s[..|s| - 1] == FormatUint(n / 10);
    }
  }

  /** Round trip: a formatted unsigned number parses back exactly when it fits the width. */
  lemma ParseUintFormat(n: nat, bits: BitSize)
    ensures ParseUint(FormatUint(n), bits) == if n <= MaxUint(bits) then Ok(n)
                                             else Err(NumError("ParseUint", FormatUint(n), ErrRange))
  {
    ValueFormatUint(n);
    ParseUintDigits(FormatUint(n), bits);
  }

  /** Round trip: a formatted integer parses back exactly when it lies in [-2^(bits-1), 2^(bits-1) - 1]. */
  lemma ParseIntFormat(v: int, bits: BitSize)
    ensures ParseInt(FormatInt(v), bits) == if -(Pow2(bits - 1) as int) <= v < Pow2(bits - 1) then Ok(v)
                                            else Err(NumError("ParseInt", FormatInt(v), ErrRange))
  {
    var s := FormatInt(v);
    var m: nat := if v < 0 then -v else v;
    assert Unsigned(s) == FormatUint(m);
    ValueFormatUint(m);
    ParseUintDigits(FormatUint(m), bits);
    assert Pow2(bits - 1) <= MaxUint(bits);
  }

  /** The int8 edges exercised by the tests: -128 is accepted, -129 is not. */
  lemma Int8Edges()
    ensures ParseInt("-128", 8) == Ok(-128)
    ensures ParseInt("-129", 8) == Err(NumError("ParseInt", "-129", ErrRange))
  {
    assert FormatUint(12) == "12";
    assert FormatUint(128) == "128";
    assert FormatInt(-128) == "-128";
    ParseIntFormat(-128, 8);
    assert FormatUint(129) == "129";
    assert FormatInt(-129) == "-129";
    ParseIntFormat(-129, 8);
  }

  /** The uint8 edges exercised by the tests: 255 is accepted, 256 is not. */
  lemma Uint8Edges()
    ensures ParseUint("255", 8) == Ok(255)
    ensures ParseUint("256", 8) == Err(NumError("ParseUint", "256", ErrRange))
  {
    assert FormatUint(25) == "25";
    assert FormatUint(255) == "255";
    ParseUintFormat(255, 8);
    assert FormatUint(256) == "256";
    ParseUintFormat(256, 8);
  }

  // ---------------------------------------------------------------------
  // Floating-point and complex literals, read as exact rationals.

  /** A literal read from the front of a string: its value and how many characters it took. */
  datatype FloatPrefix = FloatPrefix(value: real, len: nat)

  /** Where a mantissa scan stopped, the digits it read as one integer, how many of them followed the dot, and whether there were any. */
  datatype Mantissa = Mantissa(end: nat, digits: nat, frac: nat, sawDigits: bool)

  /** The mantissa loop of Go's readFloat: digits and at most one '.'. */
  function ScanMantissa(s: string, i: nat, sawDot: bool, m: nat, frac: nat, saw: bool): (r: Mantissa)
    requires i <= |s|
    ensures i <= r.end <= |s|
    decreases |s| - i
  {
    if i == |s| then Mantissa(i, m, frac, saw)
    else if IsDigit(s[i]) then
      ScanMantissa(s, i + 1, sawDot, m * 10 + DigitVal(s[i]), if sawDot then frac + 1 else frac, true)
    else if s[i] == '.' && !sawDot then ScanMantissa(s, i + 1, true, m, frac, saw)
    else Mantissa(i, m, frac, saw)
  }

  /** The longest run of digits from position i: its value (on top of acc) and where it ends. */
  function ScanDigits(s: string, i: nat, acc: nat): (r: (nat, nat))
    requires i <= |s|
    ensures i <= r.1 <= |s|
    decreases |s| - i
  {
    if i < |s| && IsDigit(s[i]) then ScanDigits(s, i + 1, acc * 10 + DigitVal(s[i])) else (acc, i)
  }

  /**
   * The optional exponent of readFloat at position i: absent (exponent 0),
   * or 'e'/'E', an optional sign and at least one digit; an 'e' not followed
   * by digits makes the whole literal malformed.
   */
  function ScanExponent(s: string, i: nat): (r: Option<(int, nat)>)
    requires i <= |s|
    ensures r.Some? ==> i <= r.value.1 <= |s|
  {
    if i == |s| || (s[i] != 'e' && s[i] != 'E') then Some((0, i))
    else if i + 1 == |s| then None
    else
      var j := if s[i + 1] == '+' || s[i + 1] == '-' then i + 2 else i + 1;
      if j == |s| || !IsDigit(s[j]) then None
      else
        var (e, end) := ScanDigits(s, j, 0);
        Some((if s[i + 1] == '-' then -(e as int) else e, end))
  }

  /** The exact value of a mantissa m, its sign and a power of ten. */
  function Scale(neg: bool, m: nat, e: int): real {
    var mag := if e >= 0 then (m * Pow10(e)) as real else (m as real) / (Pow10(-e) as real);
    if neg then -mag else mag
  }

  /** Go's parseFloatPrefix for decimal literals: an optional sign, a mantissa with at least one digit, an optional exponent. */
  function ScanFloat(s: string): (r: Option<FloatPrefix>)
    ensures r.Some? ==> 0 < r.value.len <= |s|
  {
    var start := if |s| > 0 && (s[0] == '+' || s[0] == '-') then 1 else 0;
    var m := ScanMantissa(s, start, false, 0, 0, false);
    if !m.sawDigits then None
    else
      match ScanExponent(s, m.end)
      case None => None
      case Some((e, end)) =>
        assert m.end > start by { MantissaDigitsAdvance(s, start, false, 0, 0); }
        Some(FloatPrefix(Scale(|s| > 0 && s[0] == '-', m.digits, e - m.frac), end))
  }

  lemma {:induction false} MantissaDigitsAdvance(s: string, i: nat, sawDot: bool, m: nat, frac: nat)
    requires i <= |s|
    ensures var r := ScanMantissa(s, i, sawDot, m, frac, false); r.sawDigits ==> r.end > i
    decreases |s| - i
  {
    if i < |s| && !IsDigit(s[i]) && s[i] == '.' && !sawDot {
      MantissaDigitsAdvance(s, i + 1, true, m, frac);
    }
  }

  /**
   * strconv.ParseFloat for decimal literals: the whole string must be one
   * literal. The value is exact; the bit size the callers pass only affects
   * rounding, which is not modelled, so it is not a parameter here.
   */
  function ParseFloat(s: string): (r: Result<real, NumError>)
    ensures r.Err? ==> r.error == NumError("ParseFloat", s, ErrSyntax)
    ensures r.Ok? <==> ScanFloat(s).Some? && ScanFloat(s).value.len == |s|
  {
    match ScanFloat(s)
    case Some(p) => if p.len == |s| then Ok(p.value) else Err(NumError("ParseFloat", s, ErrSyntax))
    case None => Err(NumError("ParseFloat", s, ErrSyntax))
  }

  /**
   * strconv.ParseComplex for decimal literals: optional parentheses around
   * "re", "imi" or "re+imi"/"re-imi". The parts are exact.
   */
  function ParseComplex(s: string): (r: Result<(real, real), NumError>)
    ensures r.Err? ==> r.error == NumError("ParseComplex", s, ErrSyntax)
  {
    var t := if |s| >= 2 && s[0] == '(' && s[|s| - 1] == ')' then s[1..|s| - 1] else s;
    var syntax := Err(NumError("ParseComplex", s, ErrSyntax));
    match ScanFloat(t)
    case None => syntax
    case Some(re) =>
      var i := re.len;
      if i == |t| then Ok((re.value, 0.0))
      else if t[i] == 'i' then (if i + 1 == |t| then Ok((0.0, re.value)) else syntax)
      else if t[i] != '+' && t[i] != '-' then syntax
      else
        // A '+' is consumed unless it is doubled, so that "++" stays an error.
        var j := if t[i] == '+' && i + 1 < |t| && t[i + 1] != '+' then i + 1 else i;
        var u := t[j..];
        match ScanFloat(u)
        case None => syntax
        case Some(im) => if im.len + 1 == |u| && u[im.len] == 'i' then Ok((re.value, im.value)) else syntax
  }

  // Proofs about the literal scanners.

  /** Over a run of digits that ends the literal, the mantissa scan computes their value. */
  lemma {:induction false} ScanMantissaDigits(s: string, i: nat, j: nat, m: nat, saw: bool)
    requires i <= j <= |s| && AllDigits(s[i..j])
    requires j == |s| || (!IsDigit(s[j]) && s[j] != '.')
    ensures ScanMantissa(s, i, false, m, 0, saw)
            == Mantissa(j, m * Pow10(j - i) + Value(s[i..j]), 0, saw || i < j)
    decreases j - i
  {
    if i < j {
      assert s[i..j] == [s[i]] + s[i + 1..j];
      assert IsDigit(s[i..j][0]);
      var d := DigitVal(s[i]);
      var p := Pow10(j - i - 1);
      ScanMantissaDigits(s, i + 1, j, m * 10 + d, true);
      ValueCons(s[i], s[i + 1..j]);
      assert Pow10(j - i) == 10 * p;
      ShiftDigit(m, d, p);
    } else {
      assert s[i..j] == [];
    }
  }

  /** A formatted integer, read as a float literal, has the same value, whatever follows it (other than a digit, '.' or an exponent). */
  lemma ScanFloatFormat(v: int, tail: string)
    requires tail == [] || (!IsDigit(tail[0]) && tail[0] !in ".eE")
    ensures ScanFloat(FormatInt(v) + tail) == Some(FloatPrefix(v as real, |FormatInt(v)|))
  {
    var f := FormatInt(v);
    var s := f + tail;
    var n: nat := if v < 0 then -v else v;
    var start := if v < 0 then 1 else 0;
    assert s[start..|f|] == FormatUint(n);
    assert s[0] == f[0];
    assert IsDigit(FormatUint(n)[0]);
    assert (|s| > 0 && (s[0] == '+' || s[0] == '-')) == (v < 0);
    ValueFormatUint(n);
    ScanMantissaDigits(s, start, |f|, 0, false);
    assert ScanMantissa(s, start, false, 0, 0, false) == Mantissa(|f|, n, 0, true);
    assert ScanExponent(s, |f|) == Some((0, |f|));
    assert Scale(v < 0, n, 0) == v as real;
  }

  /** Every decimal integer literal is a float literal with the same value. */
  lemma ParseFloatFormat(v: int)
    ensures ParseFloat(FormatInt(v)) == Ok(v as real)
  {
    ScanFloatFormat(v, "");
    assert FormatInt(v) + "" == FormatInt(v);
  }

  /** A real number alone, or followed by 'i', is a complex literal on one axis. */
  lemma ParseComplexFormat(v: int)
    ensures ParseComplex(FormatInt(v)) == Ok((v as real, 0.0))
    ensures ParseComplex(FormatInt(v) + "i") == Ok((0.0, v as real))
  {
    var s := FormatInt(v);
    ScanFloatFormat(v, "");
    assert s + "" == s;
    assert s[|s|..] == "";
    var t := s + "i";
    ScanFloatFormat(v, "i");
    assert t[|s|..] == "i";
  }
}
