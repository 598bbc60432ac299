/** The CRP value object: a psychologist's registration with a regional
    council, two digits for the region, a slash and a four- or five-digit
    number, with surrounding whitespace removed. */
module Crp {
  import opened Common

  const CrpMsg: string := "Formato de CRP inválido. Formato esperado: XX/XXXX ou XX/XXXXX"

  /** The pattern `^\d{2}/\d{4,5}$` over a whole string. */
  predicate CrpFormat(s: string) {
    (|s| == 7 || |s| == 8) && IsDigit(s[0]) && IsDigit(s[1]) && s[2] == '/' && AllDigits(s[3..])
  }

  /** `CRP.validate_crp`: the stripped value when it has the CRP shape. */
  function ValidateCrp(v: string): (r: Result<string>)
    ensures r.Ok? ==> r.value == Strip(v) && CrpFormat(r.value)
    ensures r.Err? ==> r.msg == CrpMsg && !CrpFormat(Strip(v))
  {
    var crp := Strip(v);
    if CrpFormat(crp) then Ok(crp) else Err(CrpMsg)
  }

  /** The digits of `n`, left-padded with zeros to `width`. */
  function Digits(n: nat, width: nat): (r: string)
    ensures |r| == width && AllDigits(r)
  {
    if width == 0 then [] else Digits(n / 10, width - 1) + [('0' as int + n % 10) as char]
  }

  /** A registration written out: region and number, the number with four
      or five digits. */
  function FormatCrp(region: nat, number: nat, wide: bool): (r: string)
    ensures |r| == if wide then 8 else 7
  {
    Digits(region, 2) + "/" + Digits(number, if wide then 5 else 4)
  }

  /** Every written-out registration is accepted unchanged, whatever
      whitespace surrounds it. */
  lemma FormattedAccepted(region: nat, number: nat, wide: bool, before: string, after: string)
    requires forall i :: 0 <= i < |before| ==> IsSpace(before[i])
    requires forall i :: 0 <= i < |after| ==> IsSpace(after[i])
    ensures ValidateCrp(before + FormatCrp(region, number, wide) + after) == Ok(FormatCrp(region, number, wide))
  {
    var s := FormatCrp(region, number, wide);
    var d1, d2 := Digits(region, 2), Digits(number, if wide then 5 else 4);
    assert s[0] == d1[0] && s[1] == d1[1] && s[2] == '/' && s[3..] == d2;
    StripAround(before, s, after);
  }

  /** Stripping removes exactly the surrounding whitespace of a string that
      starts and ends with a non-space character. */
  lemma {:induction false} StripAround(before: string, s: string, after: string)
    requires s != [] && !IsSpace(s[0]) && !IsSpace(s[|s| - 1])
    requires forall i :: 0 <= i < |before| ==> IsSpace(before[i])
    requires forall i :: 0 <= i < |after| ==> IsSpace(after[i])
    ensures Strip(before + s + after) == s
  {
    StripLeftAround(before, s + after);
    assert before + s + after == before + (s + after);
    StripRightAround(s, after);
  }

  lemma {:induction false} StripLeftAround(before: string, s: string)
    requires s != [] && !IsSpace(s[0])
    requires forall i :: 0 <= i < |before| ==> IsSpace(before[i])
    ensures StripLeft(before + s) == s
  {
    if before == [] {
      assert before + s == s;
    } else {
      assert (before + s)[1..] == before[1..] + s;
      StripLeftAround(before[1..], s);
    }
  }

  lemma {:induction false} StripRightAround(s: string, after: string)
    requires s != [] && !IsSpace(s[|s| - 1])
    requires forall i :: 0 <= i < |after| ==> IsSpace(after[i])
    ensures StripRight(s + after) == s
  {
    if after == [] {
      assert s + after == s;
    } else {
      var a := after[..|after| - 1];
      assert (s + after)[..|s + after| - 1] == s + a;
      StripRightAround(s, a);
    }
  }

  /** Validating an accepted value again gives the same value. */
  lemma Idempotent(v: string)
    requires ValidateCrp(v).Ok?
    ensures ValidateCrp(ValidateCrp(v).value) == ValidateCrp(v)
  {
    StripIdempotent(v);
  }

  /** An accepted value is 7 or 8 characters long, with the slash third. */
  lemma AcceptedShape(v: string)
    requires ValidateCrp(v).Ok?
    ensures var c := ValidateCrp(v).value; (|c| == 7 || |c| == 8) && c[2] == '/'
  {
  }

  /** A string with no whitespace at its ends is its own strip. */
  lemma StripBare(s: string)
    requires s != [] && !IsSpace(s[0]) && !IsSpace(s[|s| - 1])
    ensures Strip(s) == s
  {
    StripAround([], s, []);
    assert [] + s + [] == s;
  }

  lemma DigitNotSpace(c: char)
    requires IsDigit(c)
    ensures !IsSpace(c)
  {
  }

  lemma AcceptsWhen(v: string, c: string)
    requires Strip(v) == c && CrpFormat(c)
    ensures ValidateCrp(v) == Ok(c)
  {
  }

  lemma ExampleAccepted()
    ensures ValidateCrp(" 05/5555 ") == Ok("05/5555")
  {
    NarrowShape();
    PaddedStrip();
    AcceptsWhen(" 05/5555 ", "05/5555");
  }

  lemma NarrowShape()
    ensures CrpFormat("05/5555")
  {
    assert "05/5555"[3..] == "5555";
  }

  lemma PaddedStrip()
    ensures Strip(" 05/5555 ") == "05/5555"
  {
    PaddedSplit();
    StripAround(" ", "05/5555", " ");
  }

  lemma PaddedSplit()
    ensures " 05/5555 " == " " + "05/5555" + " "
  {
  }

  /** Information separators and the no-break space are whitespace to
      `str.strip()` as well. */
  lemma ExampleSeparatorSpace()
    ensures ValidateCrp(" \U{001C}05/5555\U{00A0}") == Ok("05/5555")
  {
    NarrowShape();
    assert " \U{001C}05/5555\U{00A0}" == " \U{001C}" + "05/5555" + "\U{00A0}";
    StripAround(" \U{001C}", "05/5555", "\U{00A0}");
    AcceptsWhen(" \U{001C}05/5555\U{00A0}", "05/5555");
  }

  lemma ExampleWide()
    ensures ValidateCrp("05/55555") == Ok("05/55555")
  {
    WideShape();
    WideStrip();
    AcceptsWhen("05/55555", "05/55555");
  }

  lemma WideShape()
    ensures CrpFormat("05/55555")
  {
    assert "05/55555"[3..] == "55555";
  }

  lemma WideStrip()
    ensures Strip("05/55555") == "05/55555"
  {
    BareDigits("05/55555");
  }

  lemma RejectsWhen(v: string, c: string)
    requires Strip(v) == c && !CrpFormat(c)
    ensures ValidateCrp(v) == Err(CrpMsg)
  {
  }

  lemma ExampleRejected()
    ensures ValidateCrp("5/5555") == Err(CrpMsg)
    ensures ValidateCrp("05/555") == Err(CrpMsg)
    ensures ValidateCrp("05-5555") == Err(CrpMsg)
  {
    RejectedBare("5/5555");
    RejectedBare("05/555");
    RejectedBare("05-5555");
  }

  /** A malformed value with digits at both ends is rejected as it stands. */
  lemma RejectedBare(v: string)
    requires v != [] && IsDigit(v[0]) && IsDigit(v[|v| - 1]) && !CrpFormat(v)
    ensures ValidateCrp(v) == Err(CrpMsg)
  {
    BareDigits(v);
    RejectsWhen(v, v);
  }

  /** A string that starts and ends with a digit is its own strip. */
  lemma BareDigits(s: string)
    requires s != [] && IsDigit(s[0]) && IsDigit(s[|s| - 1])
    ensures Strip(s) == s
  {
    DigitNotSpace(s[0]);
    DigitNotSpace(s[|s| - 1]);
    StripBare(s);
  }
}
