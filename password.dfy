/** The password value object: a plain-text password must be 6 to 20
    characters long and contain a digit, an upper-case letter, a lower-case
    letter and one of a fixed set of special characters; an already hashed
    value is accepted as it is. */
module Password {
  import opened Common

  const MinLength: nat := 6
  const MaxLength: nat := 20

  /** The special characters, as the set the source builds from its literal. */
  const SpecialChars: set<char> := set c | c in "$@#%!^&*()-_+="

  /** The same characters in code-point order, as the error message lists them. */
  const SortedSpecialChars: string := "!#$%&()*+-=@^_"

  const LengthMsg: string := "A senha deve ter entre 6 e 20 caracteres"
  const DigitMsg: string := "A senha deve incluir pelo menos um número"
  const UpperMsg: string := "A senha deve incluir pelo menos uma letra maiúscula"
  const LowerMsg: string := "A senha deve incluir pelo menos uma letra minúscula"
  const SpecialMsg: string := "A senha deve incluir pelo menos um caractere especial: " + SortedSpecialChars

  datatype Password = Password(hashed: bool, value: string)

  predicate HasDigit(v: string) { exists i :: 0 <= i < |v| && IsDigit(v[i]) }
  predicate HasUpper(v: string) { exists i :: 0 <= i < |v| && IsUpper(v[i]) }
  predicate HasLower(v: string) { exists i :: 0 <= i < |v| && IsLower(v[i]) }
  predicate HasSpecial(v: string) { exists i :: 0 <= i < |v| && v[i] in SpecialChars }

  /** Every rule a plain-text password must meet. */
  predicate Strong(v: string) {
    MinLength <= |v| <= MaxLength && HasDigit(v) && HasUpper(v) && HasLower(v) && HasSpecial(v)
  }

  /** `validate_password`: the rules are checked in a fixed order and the
      first one broken gives the error. */
  function ValidatePassword(v: string, hashed: bool): (r: Result<string>)
    ensures r.Ok? ==> r.value == v
    ensures hashed ==> r.Ok?
  {
    if hashed then Ok(v)
    else if |v| < MinLength || |v| > MaxLength then Err(LengthMsg)
    else if !HasDigit(v) then Err(DigitMsg)
    else if !HasUpper(v) then Err(UpperMsg)
    else if !HasLower(v) then Err(LowerMsg)
    else if !HasSpecial(v) then Err(SpecialMsg)
    else Ok(v)
  }

  /** `Password(value=v, hashed=hashed)`. */
  function NewPassword(v: string, hashed: bool): (r: Result<Password>)
    ensures r.Ok? <==> ValidatePassword(v, hashed).Ok?
    ensures r.Ok? ==> r.value == Password(hashed, v)
    ensures r.Err? ==> r.msg == ValidatePassword(v, hashed).msg
  {
    var value :- ValidatePassword(v, hashed);
    Ok(Password(hashed, value))
  }

  /** A plain-text password is accepted exactly when it meets every rule. */
  lemma AcceptedIffStrong(v: string)
    ensures ValidatePassword(v, false).Ok? <==> Strong(v)
  {
  }

  /** Each message is raised exactly when its rule is the first one broken. */
  lemma ErrorIsFirstBrokenRule(v: string)
    ensures ValidatePassword(v, false) == Err(LengthMsg) <==> !(MinLength <= |v| <= MaxLength)
    ensures ValidatePassword(v, false) == Err(DigitMsg) <==>
      MinLength <= |v| <= MaxLength && !HasDigit(v)
    ensures ValidatePassword(v, false) == Err(UpperMsg) <==>
      MinLength <= |v| <= MaxLength && HasDigit(v) && !HasUpper(v)
    ensures ValidatePassword(v, false) == Err(LowerMsg) <==>
      MinLength <= |v| <= MaxLength && HasDigit(v) && HasUpper(v) && !HasLower(v)
    ensures ValidatePassword(v, false) == Err(SpecialMsg) <==>
      MinLength <= |v| <= MaxLength && HasDigit(v) && HasUpper(v) && HasLower(v) && !HasSpecial(v)
  {
    MessagesDistinct();
  }

  lemma MessagesDistinct()
    ensures LengthMsg != DigitMsg && LengthMsg != UpperMsg && LengthMsg != LowerMsg && LengthMsg != SpecialMsg
    ensures DigitMsg != UpperMsg && DigitMsg != LowerMsg && DigitMsg != SpecialMsg
    ensures UpperMsg != LowerMsg && UpperMsg != SpecialMsg && LowerMsg != SpecialMsg
  {
    assert LengthMsg[13] != DigitMsg[13];
    assert LengthMsg[13] != UpperMsg[13];
    assert LengthMsg[13] != LowerMsg[13];
    assert LengthMsg[13] != SpecialMsg[13];
    assert DigitMsg[34] != UpperMsg[34];
    assert DigitMsg[34] != LowerMsg[34];
    assert |DigitMsg| != |SpecialMsg|;
    assert UpperMsg[44] != LowerMsg[44];
    assert UpperMsg[34] != SpecialMsg[34];
    assert LowerMsg[34] != SpecialMsg[34];
  }

  /** The list in the message is the special-character set, sorted strictly. */
  lemma SpecialMessageListsTheSet()
    ensures forall i, j :: 0 <= i < j < |SortedSpecialChars| ==> SortedSpecialChars[i] < SortedSpecialChars[j]
    ensures (set c | c in SortedSpecialChars) == SpecialChars
  {
  }

  /** A password of the expected shape is accepted; the rule order decides the
      message when several rules are broken. */
  lemma Examples()
    ensures ValidatePassword("AcC123456*", false) == Ok("AcC123456*")
    ensures ValidatePassword("abc", false) == Err(LengthMsg)
    ensures ValidatePassword("abcdefg", false) == Err(DigitMsg)
    ensures ValidatePassword("abc", true) == Ok("abc")
  {
    var p := "AcC123456*";
    assert IsDigit(p[3]) && IsUpper(p[0]) && IsLower(p[1]) && p[9] in SpecialChars;
    assert !HasDigit("abcdefg");
  }
}
