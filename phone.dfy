/** The phone-number value object: a Brazilian number, optionally with the
    country code +55 and a two-digit area code, followed by eight digits or
    a leading 9 and eight digits, with an optional hyphen in the middle. */
module Phone {
  import opened Common

  const PhoneMsg: string := "Formato de número de telefone brasileiro inválido"

  /** `(\+55\s?)?` */
  predicate CountryPart(p: string) {
    p == [] || p == "+55" || (|p| == 4 && p[..3] == "+55" && IsSpace(p[3]))
  }

  /** `\)?\s?` after the area digits. */
  predicate AreaClose(r: string) {
    r == [] || r == ")" || (|r| == 1 && IsSpace(r[0])) || (|r| == 2 && r[0] == ')' && IsSpace(r[1]))
  }

  /** `(\(?\d{2}\)?\s?)?` */
  predicate AreaPart(a: string) {
    a == [] ||
    var b := if a[0] == '(' then a[1..] else a;
    |b| >= 2 && IsDigit(b[0]) && IsDigit(b[1]) && AreaClose(b[2..])
  }

  /** `\d{4}-?\d{4}` */
  predicate Subscriber(c: string) {
    (|c| == 8 && AllDigits(c)) ||
    (|c| == 9 && AllDigits(c[..4]) && c[4] == '-' && AllDigits(c[5..]))
  }

  /** `9?\d{4}-?\d{4}` */
  predicate LocalPart(t: string) {
    Subscriber(t) || (|t| > 0 && t[0] == '9' && Subscriber(t[1..]))
  }

  /** The language of the whole pattern: the string splits into the three
      parts in some way. */
  predicate PhoneLanguage(s: string) {
    exists i, j :: 0 <= i <= j <= |s| && CountryPart(s[..i]) && AreaPart(s[i..j]) && LocalPart(s[j..])
  }

  /** The country part is forced: no later part starts with `+` or with
      whitespace, so a leading `+55` and the space after it must belong to it. */
  function CountryLength(s: string): (n: nat)
    ensures n <= |s| && CountryPart(s[..n])
  {
    if |s| >= 3 && s[..3] == "+55" then (if |s| >= 4 && IsSpace(s[3]) then 4 else 3) else 0
  }

  /** A direct matcher: skip the forced country part, then try every length
      the area part can have. */
  predicate Matches(s: string) {
    var r := s[CountryLength(s)..];
    LocalPart(r) || exists k :: 2 <= k <= 5 && k <= |r| && AreaPart(r[..k]) && LocalPart(r[k..])
  }

  /** `PhoneNumber.validate_phone_number`: the stripped value when it
      matches. */
  function ValidatePhone(v: string): (r: Result<string>)
    ensures r.Ok? ==> r.value == Strip(v) && PhoneLanguage(r.value)
    ensures r.Err? ==> r.msg == PhoneMsg && !PhoneLanguage(Strip(v))
  {
    var phone := Strip(v);
    MatchesIffLanguage(phone);
    if Matches(phone) then Ok(phone) else Err(PhoneMsg)
  }

  lemma AreaPartLength(a: string)
    requires AreaPart(a)
    ensures a == [] || 2 <= |a| <= 5
  {
  }

  lemma LocalPartLength(t: string)
    requires LocalPart(t)
    ensures 8 <= |t| <= 10 && t[0] != '+' && !IsSpace(t[0]) && t[0] != '('
    ensures IsDigit(t[|t| - 1])
  {
  }

  lemma AreaPartStart(a: string)
    requires AreaPart(a) && a != []
    ensures a[0] != '+' && !IsSpace(a[0])
  {
  }

  /** The matcher accepts exactly the language of the pattern. */
  lemma MatchesIffLanguage(s: string)
    ensures Matches(s) <==> PhoneLanguage(s)
  {
    if Matches(s) {
      MatchesInLanguage(s);
    }
    if PhoneLanguage(s) {
      var i, j :| 0 <= i <= j <= |s| && CountryPart(s[..i]) && AreaPart(s[i..j]) && LocalPart(s[j..]);
      SplitMatches(s, i, j);
    }
  }

  lemma MatchesInLanguage(s: string)
    requires Matches(s)
    ensures PhoneLanguage(s)
  {
    var n := CountryLength(s);
    var r := s[n..];
    if LocalPart(r) {
      assert s[n..n] == [];
      assert CountryPart(s[..n]) && AreaPart(s[n..n]) && LocalPart(s[n..]);
    } else {
      var k :| 2 <= k <= 5 && k <= |r| && AreaPart(r[..k]) && LocalPart(r[k..]);
      SuffixSlices(s, n, k);
      assert CountryPart(s[..n]) && AreaPart(s[n..n + k]) && LocalPart(s[n + k..]);
    }
  }

  /** Any split the pattern admits is one the matcher tries. */
  lemma SplitMatches(s: string, i: nat, j: nat)
    requires 0 <= i <= j <= |s| && CountryPart(s[..i]) && AreaPart(s[i..j]) && LocalPart(s[j..])
    ensures Matches(s)
  {
    CountryIsForced(s, i, j);
    var r := s[i..];
    if i == j {
      assert r == s[j..];
    } else {
      AreaPartLength(s[i..j]);
      SuffixSlices(s, i, j - i);
      assert AreaPart(r[..j - i]) && LocalPart(r[j - i..]);
    }
  }

  lemma SuffixSlices(s: string, i: nat, k: nat)
    requires i + k <= |s|
    ensures s[i..][..k] == s[i..i + k] && s[i..][k..] == s[i + k..]
  {
  }

  /** Whatever split the pattern uses, its country part is the forced one. */
  lemma CountryIsForced(s: string, i: nat, j: nat)
    requires 0 <= i <= j <= |s| && CountryPart(s[..i]) && AreaPart(s[i..j]) && LocalPart(s[j..])
    ensures i == CountryLength(s)
  {
    LocalPartLength(s[j..]);
    assert s[j..][0] == s[j];
    if i < j {
      AreaPartStart(s[i..j]);
      assert s[i..j][0] == s[i];
    }
    // the character after the country part starts the area or local part
    assert i < |s| && (s[i] != '+' && !IsSpace(s[i]));
    if i == 3 || i == 4 {
      assert s[..3] == s[..i][..3];
    }
    if i == 0 && |s| >= 3 {
      assert s[..3][0] == s[0];
    }
    if i == 3 && |s| >= 4 {
      assert s[3] == s[i];
    }
  }

  /** An accepted number is between 8 and 19 characters long. */
  lemma AcceptedLength(v: string)
    requires ValidatePhone(v).Ok?
    ensures 8 <= |ValidatePhone(v).value| <= 19
  {
    LanguageLength(ValidatePhone(v).value);
  }

  lemma LanguageLength(s: string)
    requires PhoneLanguage(s)
    ensures 8 <= |s| <= 19
  {
    var i, j :| 0 <= i <= j <= |s| && CountryPart(s[..i]) && AreaPart(s[i..j]) && LocalPart(s[j..]);
    AreaPartLength(s[i..j]);
    LocalPartLength(s[j..]);
  }

  /** Validating an accepted value again gives the same value. */
  lemma Idempotent(v: string)
    requires ValidatePhone(v).Ok?
    ensures ValidatePhone(ValidatePhone(v).value) == ValidatePhone(v)
  {
    StripIdempotent(v);
  }

  lemma AcceptsWhen(v: string, c: string, i: nat, j: nat)
    requires Strip(v) == c && i <= j <= |c|
    requires CountryPart(c[..i]) && AreaPart(c[i..j]) && LocalPart(c[j..])
    ensures ValidatePhone(v) == Ok(c)
  {
  }

  /** A number that neither starts nor ends with whitespace is kept as
      written. */
  lemma NoEdgeSpaceKept(v: string)
    requires v != [] && !IsSpace(v[0]) && !IsSpace(v[|v| - 1])
    ensures Strip(v) == v
  {
  }

  /** The subscriber number of a mobile phone, `9dddd-dddd` or `9dddddddd`. */
  lemma MobileLocal(first: string, second: string)
    requires |first| == 4 && AllDigits(first) && |second| == 4 && AllDigits(second)
    ensures LocalPart("9" + first + "-" + second) && LocalPart("9" + first + second)
  {
    var t := "9" + first + "-" + second;
    assert t[1..][..4] == first && t[1..][5..] == second;
    assert ("9" + first + second)[1..] == first + second;
  }

  /** Area code and number with nothing between them, as in `71999258225`. */
  lemma BareAccepted(area: string, local: string)
    requires |area| == 2 && AllDigits(area) && LocalPart(local)
    ensures var v := area + local; ValidatePhone(v) == Ok(v)
  {
    var v := area + local;
    LocalPartLength(local);
    assert v[|v| - 1] == local[|local| - 1];
    NoEdgeSpaceKept(v);
    assert v[..0] == [] && v[0..2] == area && v[2..] == local;
    AcceptsWhen(v, v, 0, 2);
  }

  /** The fully punctuated form, as in `+55 (71) 99925-8225`. */
  lemma PunctuatedAccepted(area: string, local: string)
    requires |area| == 2 && AllDigits(area) && LocalPart(local)
    ensures var v := "+55 (" + area + ") " + local; ValidatePhone(v) == Ok(v)
  {
    var v := "+55 (" + area + ") " + local;
    LocalPartLength(local);
    assert v[|v| - 1] == local[|local| - 1];
    NoEdgeSpaceKept(v);
    var a := "(" + area + ") ";
    assert v[..4] == "+55 " && v[4..9] == a && v[9..] == local;
    assert a[1..][..2] == area && a[1..][2..] == ") ";
    AcceptsWhen(v, v, 4, 9);
  }

  /** The parentheses are optional independently of each other, so an
      opening one without its closing one is accepted, as in
      `(71 99925-8225`. */
  lemma UnbalancedAccepted(area: string, local: string)
    requires |area| == 2 && AllDigits(area) && LocalPart(local)
    ensures var v := "(" + area + " " + local; ValidatePhone(v) == Ok(v)
  {
    var v := "(" + area + " " + local;
    LocalPartLength(local);
    assert v[|v| - 1] == local[|local| - 1];
    NoEdgeSpaceKept(v);
    var a := "(" + area + " ";
    assert v[..0] == [] && v[0..4] == a && v[4..] == local;
    assert a[1..][..2] == area && a[1..][2..] == " ";
    AcceptsWhen(v, v, 0, 4);
  }

  /** Fewer than eight characters after stripping is never a phone number. */
  lemma ShortRejected(v: string)
    requires |Strip(v)| < 8
    ensures ValidatePhone(v) == Err(PhoneMsg)
  {
    if ValidatePhone(v).Ok? {
      AcceptedLength(v);
    }
  }
}
