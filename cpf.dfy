/** The CPF value object: a Brazilian taxpayer number, eleven digits of which
    the last two are mod-11 check digits over the ones before them. */
module Cpf {
  import opened Common

  /** `"".join(filter(str.isdigit, v))`. */
  function KeepDigits(v: string): (r: string)
    ensures AllDigits(r) && |r| <= |v|
  {
    if v == [] then []
    else (if IsDigit(v[0]) then [v[0]] else []) + KeepDigits(v[1..])
  }

  /** A string of digits is kept whole. */
  lemma {:induction false} KeepDigitsOfDigits(v: string)
    requires AllDigits(v)
    ensures KeepDigits(v) == v
  {
    if v != [] {
      KeepDigitsOfDigits(v[1..]);
    }
  }

  /** `sum(int(cpf[i]) * (length + 1 - i) for i in range(n))`. */
  function WeightedSum(cpf: string, length: nat, n: nat): nat
    requires n <= length <= |cpf| && AllDigits(cpf)
  {
    if n == 0 then 0
    else WeightedSum(cpf, length, n - 1) + DigitValue(cpf[n - 1]) * (length + 1 - (n - 1))
  }

  /** The nested `calc_digit`: ten times the weighted sum, modulo 11, with 10
      mapped to 0. */
  function CalcDigit(cpf: string, length: nat): (r: nat)
    requires length <= |cpf| && AllDigits(cpf)
    ensures r <= 9
  {
    var d := (WeightedSum(cpf, length, length) * 10) % 11;
    if d < 10 then d else 0
  }

  /** `cpf[0] * 11`. */
  function Repeat(c: char, n: nat): (r: string)
    ensures |r| == n && forall i :: 0 <= i < n ==> r[i] == c
  {
    seq(n, _ => c)
  }

  predicate CheckDigitsHold(cpf: string)
    requires |cpf| == 11 && AllDigits(cpf)
  {
    CalcDigit(cpf, 9) == DigitValue(cpf[9]) && CalcDigit(cpf, 10) == DigitValue(cpf[10])
  }

  /** `CPF.validate_cpf`: the digit string when it is a valid CPF. */
  function ValidateCpf(v: string): (r: Result<string>)
    ensures r.Ok? ==> r.value == KeepDigits(v)
    ensures r.Err? ==> r.msg == "Invalid CPF format" || r.msg == "Invalid CPF number"
  {
    var cpf := KeepDigits(v);
    if |cpf| != 11 || cpf == Repeat(cpf[0], 11) then Err("Invalid CPF format")
    else if !CheckDigitsHold(cpf) then Err("Invalid CPF number")
    else Ok(cpf)
  }

  /** The usual statement of the rule: with r the weighted sum modulo 11, the
      check digit is 0 when r < 2 and 11 - r otherwise. */
  function StandardCheckDigit(cpf: string, length: nat): nat
    requires length <= |cpf| && AllDigits(cpf)
  {
    var r := WeightedSum(cpf, length, length) % 11;
    if r < 2 then 0 else 11 - r
  }

  /** The source's `(10 s) mod 11, 10 -> 0` is the usual rule. */
  lemma CalcDigitIsStandard(cpf: string, length: nat)
    requires length <= |cpf| && AllDigits(cpf)
    ensures CalcDigit(cpf, length) == StandardCheckDigit(cpf, length)
  {
    var s := WeightedSum(cpf, length, length);
    var q, r := s / 11, s % 11;
    assert s == 11 * q + r;
    assert s * 10 == 11 * (10 * q) + 10 * r;
    ModShift(10 * q, 10 * r);
    if r >= 2 {
      ModOfMultiple(10 * r, r - 1, 11 - r);
    }
  }

  lemma ModShift(m: int, x: int)
    requires x >= 0
    ensures (11 * m + x) % 11 == x % 11
  {
  }

  /** Non-digit characters are removed before any check. */
  lemma {:induction false} ValidateIgnoresNonDigits(v: string)
    ensures ValidateCpf(v) == ValidateCpf(KeepDigits(v))
  {
    KeepDigitsOfDigits(KeepDigits(v));
  }

  /** What an accepted value is: eleven digits, not all the same, whose two
      check digits match; and every such digit string is accepted. */
  lemma AcceptedIff(v: string)
    ensures ValidateCpf(v).Ok? <==>
      var cpf := KeepDigits(v);
      |cpf| == 11 && cpf != Repeat(cpf[0], 11) && CheckDigitsHold(cpf)
  {
  }

  /** A digit string of the wrong length is rejected as a format error. */
  lemma WrongLengthRejected(v: string)
    requires |KeepDigits(v)| != 11
    ensures ValidateCpf(v) == Err("Invalid CPF format")
  {
  }

  /** The weights `length + 1 - i` for `i < n`, summed. */
  function WeightTotal(length: nat, n: nat): nat
    requires n <= length
  {
    if n == 0 then 0 else WeightTotal(length, n - 1) + (length + 1 - (n - 1))
  }

  /** Over a run of equal digits d the weighted sum is d times the sum of the
      weights. */
  lemma {:induction false} SumOfEqualDigits(cpf: string, length: nat, n: nat, d: nat)
    requires n <= length <= |cpf| && AllDigits(cpf)
    requires forall i :: 0 <= i < n ==> DigitValue(cpf[i]) == d
    ensures WeightedSum(cpf, length, n) == d * WeightTotal(length, n)
  {
    if n > 0 {
      SumOfEqualDigits(cpf, length, n - 1, d);
      var w := length + 1 - (n - 1);
      assert d * WeightTotal(length, n - 1) + d * w == d * (WeightTotal(length, n - 1) + w);
    }
  }

  /** Eleven equal digits satisfy the check-digit arithmetic, and are rejected
      all the same. */
  lemma RepeatedDigitsRejected(c: char)
    requires IsDigit(c)
    ensures var cpf := Repeat(c, 11);
      AllDigits(cpf) && CheckDigitsHold(cpf) && ValidateCpf(cpf) == Err("Invalid CPF format")
  {
    var cpf := Repeat(c, 11);
    var d := DigitValue(c);
    assert AllDigits(cpf);
    KeepDigitsOfDigits(cpf);
    assert Repeat(cpf[0], 11) == cpf;
    RepeatedSums(cpf, d);
  }

  lemma RepeatedSums(cpf: string, d: nat)
    requires |cpf| == 11 && AllDigits(cpf)
    requires forall i :: 0 <= i < 11 ==> DigitValue(cpf[i]) == d
    ensures CheckDigitsHold(cpf)
  {
    assert d == DigitValue(cpf[0]) <= 9;
    SumOfEqualDigits(cpf, 9, 9, d);
    SumOfEqualDigits(cpf, 10, 10, d);
    NineWeights();
    TenWeights();
    ModOfMultiple(d * 54 * 10, 49 * d, d);
    ModOfMultiple(d * 65 * 10, 59 * d, d);
  }

  lemma NineWeights()
    ensures WeightTotal(9, 9) == 54
  {
  }

  lemma TenWeights()
    ensures WeightTotal(10, 10) == 65
  {
  }

  lemma ModOfMultiple(x: int, m: int, d: nat)
    requires x == 11 * m + d && d < 11
    ensures x % 11 == d
  {
  }

  /** Validation is idempotent: an accepted value validates to itself. */
  lemma Idempotent(v: string)
    requires ValidateCpf(v).Ok?
    ensures ValidateCpf(ValidateCpf(v).value) == ValidateCpf(v)
  {
    ValidateIgnoresNonDigits(v);
  }

  /** "86231101533" is a valid CPF. */
  lemma KnownValid()
    ensures ValidateCpf("86231101533") == Ok("86231101533")
  {
    var cpf := "86231101533";
    KnownChecks();
    KeepDigitsOfDigits(cpf);
    Accepts(cpf, cpf);
  }

  lemma Accepts(v: string, cpf: string)
    requires KeepDigits(v) == cpf && |cpf| == 11 && cpf[1] != cpf[0]
    requires CheckDigitsHold(cpf)
    ensures ValidateCpf(v) == Ok(cpf)
  {
    assert Repeat(cpf[0], 11)[1] != cpf[1];
  }

  lemma KnownChecks()
    ensures AllDigits("86231101533") && CheckDigitsHold("86231101533")
  {
    var cpf := "86231101533";
    KnownSums();
    assert DigitValue(cpf[9]) == 3 && DigitValue(cpf[10]) == 3;
    assert 1950 % 11 == 3 && 2280 % 11 == 3;
  }

  lemma KnownSums()
    ensures AllDigits("86231101533")
    ensures WeightedSum("86231101533", 9, 9) == 195
    ensures WeightedSum("86231101533", 10, 10) == 228
  {
    var cpf := "86231101533";
    assert AllDigits(cpf);
    assert DigitValue(cpf[0]) == 8 && DigitValue(cpf[1]) == 6 && DigitValue(cpf[2]) == 2;
    assert DigitValue(cpf[3]) == 3 && DigitValue(cpf[4]) == 1 && DigitValue(cpf[5]) == 1;
    assert DigitValue(cpf[6]) == 0 && DigitValue(cpf[7]) == 1 && DigitValue(cpf[8]) == 5;
    assert DigitValue(cpf[9]) == 3;
    assert WeightedSum(cpf, 9, 3) == 150;
    assert WeightedSum(cpf, 9, 6) == 182;
    assert WeightedSum(cpf, 9, 9) == 195;
    assert WeightedSum(cpf, 10, 3) == 166;
    assert WeightedSum(cpf, 10, 6) == 203;
    assert WeightedSum(cpf, 10, 10) == 228;
  }

  /** Filtering distributes over concatenation. */
  lemma {:induction false} KeepDigitsAppend(a: string, b: string)
    ensures KeepDigits(a + b) == KeepDigits(a) + KeepDigits(b)
  {
    if a == [] {
      assert a + b == b;
    } else {
      var head := if IsDigit(a[0]) then [a[0]] else [];
      assert (a + b)[0] == a[0] && (a + b)[1..] == a[1..] + b;
      assert KeepDigits(a + b) == head + KeepDigits(a[1..] + b);
      KeepDigitsAppend(a[1..], b);
      assert KeepDigits(a) == head + KeepDigits(a[1..]);
    }
  }

  /** The usual written form `ddd.ddd.ddd-dd` of eleven digits. */
  function Punctuate(cpf: string): (r: string)
    requires |cpf| == 11
    ensures |r| == 14 && r[3] == '.' && r[7] == '.' && r[11] == '-'
  {
    cpf[..3] + "." + cpf[3..6] + "." + cpf[6..9] + "-" + cpf[9..]
  }

  /** A CPF written with its punctuation validates to the bare digits. */
  lemma PunctuatedAccepted(cpf: string)
    requires ValidateCpf(cpf) == Ok(cpf)
    ensures ValidateCpf(Punctuate(cpf)) == Ok(cpf)
  {
    PunctuationDropped(cpf);
    ValidateIgnoresNonDigits(Punctuate(cpf));
    ValidateIgnoresNonDigits(cpf);
  }

  lemma PunctuationDropped(cpf: string)
    requires |cpf| == 11 && AllDigits(cpf)
    ensures KeepDigits(Punctuate(cpf)) == cpf
  {
    var a, b, c, d := cpf[..3], cpf[3..6], cpf[6..9], cpf[9..];
    KeepDigitsOfDigits(a);
    SeparatorDropped(a, '.', b);
    SeparatorDropped(a + "." + b, '.', c);
    SeparatorDropped(a + "." + b + "." + c, '-', d);
    assert cpf == a + b + c + d;
  }

  /** A separator before a run of digits is dropped and the digits kept. */
  lemma SeparatorDropped(prefix: string, sep: char, digits: string)
    requires !IsDigit(sep) && AllDigits(digits)
    ensures KeepDigits(prefix + [sep] + digits) == KeepDigits(prefix) + digits
  {
    var withSep := prefix + [sep];
    KeepDigitsAppend(withSep, digits);
    KeepDigitsAppend(prefix, [sep]);
    KeepDigitsOfDigits(digits);
    NonDigitDropped(sep);
    assert KeepDigits(withSep) == KeepDigits(prefix);
  }

  lemma NonDigitDropped(c: char)
    requires !IsDigit(c)
    ensures KeepDigits([c]) == []
  {
    assert [c][1..] == [];
  }

  /** `KeepDigits(a + [sep] + ds) == KeepDigits(a) + ds` for one separator. */
  lemma Piece(a: string, b: string, ka: string, db: string)
    requires KeepDigits(a) == ka && |b| >= 1 && !IsDigit(b[0]) && b[1..] == db && AllDigits(db)
    ensures KeepDigits(a + b) == ka + db
  {
    KeepDigitsAppend(a, b);
    KeepDigitsOfDigits(db);
  }
}
