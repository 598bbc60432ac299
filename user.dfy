/** The user shared by patients and psychologists: guarded construction
    that wraps and validates the contact and identity fields, a state taken
    from the city, and setters that overwrite fields in place. */
module User {
  import opened Common
  import opened Geography
  import P = Password
  import Cpf
  import Phone

  datatype Gender = Male | Female | NonBinary | PreferNotToSay

  function GenderValue(g: Gender): string {
    match g
    case Male => "male"
    case Female => "female"
    case NonBinary => "non-binary"
    case PreferNotToSay => "prefer_not_to_say"
  }

  /** The values a user holds. The e-mail, CPF and phone are the values of
      their value objects; the profile picture is an opaque reference. */
  datatype UserData = UserData(
    id: Uuid,
    name: string,
    email: string,
    password: P.Password,
    cpf: string,
    phoneNumber: string,
    birthDate: int,
    gender: Gender,
    city: City,
    state: State,
    profilePicture: Option<string>)

  /** `Email(value=...)`: the address type both checks and normalises the
      text (pydantic's `EmailStr` keeps the normalised address, with the
      domain lower-cased). That check is the parameter `checkEmail`, giving
      the address as stored, or None for a text that is not an address. */
  function WrapEmail(email: Wrapped<string>, checkEmail: string -> Option<string>): (r: Result<string>)
    ensures email.Obj? ==> r == Ok(email.obj)
    ensures email.Text? ==> (r.Ok? <==> checkEmail(email.text).Some?) &&
                            (r.Ok? ==> r.value == checkEmail(email.text).value)
  {
    match email
    case Obj(e) => Ok(e)
    case Text(t) =>
      match checkEmail(t)
      case Some(a) => Ok(a)
      case None => Err("email")
  }

  /** `Password(value=...)` for a raw string: a plain-text password, so the
      policy applies. */
  function WrapPassword(password: Wrapped<P.Password>): (r: Result<P.Password>)
    ensures password.Obj? ==> r == Ok(password.obj)
    ensures password.Text? ==> r == P.NewPassword(password.text, false)
  {
    match password
    case Obj(p) => Ok(p)
    case Text(t) => P.NewPassword(t, false)
  }

  function WrapCpf(cpf: Wrapped<string>): (r: Result<string>)
    ensures cpf.Obj? ==> r == Ok(cpf.obj)
    ensures cpf.Text? ==> r == Cpf.ValidateCpf(cpf.text)
  {
    match cpf
    case Obj(c) => Ok(c)
    case Text(t) => Cpf.ValidateCpf(t)
  }

  function WrapPhone(phone: Wrapped<string>): (r: Result<string>)
    ensures phone.Obj? ==> r == Ok(phone.obj)
    ensures phone.Text? ==> r == Phone.ValidatePhone(phone.text)
  {
    match phone
    case Obj(p) => Ok(p)
    case Text(t) => Phone.ValidatePhone(t)
  }

  /** The `User` constructor: the undefined checks in argument order, the
      empty-name check, then the wrapping of e-mail, password, CPF and
      phone in that order; the state is the city's. */
  function NewUserData(name: Option<string>, email: Wrapped<string>, password: Wrapped<P.Password>,
                       cpf: Wrapped<string>, phoneNumber: Wrapped<string>, birthDate: Option<int>,
                       gender: Option<Gender>, city: Option<City>, profilePicture: Option<string>,
                       id: Option<Uuid>, generated: Uuid, checkEmail: string -> Option<string>): (r: Result<UserData>)
  {
    if name.None? then Err("name")
    else if birthDate.None? then Err("birth_date")
    else if gender.None? then Err("gender")
    else if city.None? then Err("city")
    else if name.value == [] then Err("name")
    else
      var e :- WrapEmail(email, checkEmail);
      var p :- WrapPassword(password);
      var c :- WrapCpf(cpf);
      var ph :- WrapPhone(phoneNumber);
      Ok(UserData(ResolveId(id, generated), name.value, e, p, c, ph, birthDate.value, gender.value,
                  city.value, city.value.state, profilePicture))
  }

  /** A constructed user has a non-empty name and the state of its city;
      an undefined name is refused before anything else, an empty one once
      the other required arguments are defined. */
  lemma NewUserNameAndState(name: Option<string>, email: Wrapped<string>, password: Wrapped<P.Password>,
                            cpf: Wrapped<string>, phoneNumber: Wrapped<string>, birthDate: Option<int>,
                            gender: Option<Gender>, city: Option<City>, profilePicture: Option<string>,
                            id: Option<Uuid>, generated: Uuid, checkEmail: string -> Option<string>)
    ensures var r := NewUserData(name, email, password, cpf, phoneNumber, birthDate, gender, city,
                                 profilePicture, id, generated, checkEmail);
      (r.Ok? ==>
        name.Some? && name.value != [] && r.value.name == name.value &&
        city.Some? && r.value.city == city.value && r.value.state == city.value.state &&
        birthDate.Some? && gender.Some? && r.value.id == ResolveId(id, generated)) &&
      (name.None? ==> r == Err("name")) &&
      (name == Some([]) && birthDate.Some? && gender.Some? && city.Some? ==> r == Err("name"))
  {
    var r := NewUserData(name, email, password, cpf, phoneNumber, birthDate, gender, city,
                         profilePicture, id, generated, checkEmail);
    if r.Ok? {
      assert WrapEmail(email, checkEmail).Ok? && WrapPassword(password).Ok?;
      assert WrapCpf(cpf).Ok? && WrapPhone(phoneNumber).Ok?;
      assert r.value == UserData(ResolveId(id, generated), name.value, WrapEmail(email, checkEmail).value,
        WrapPassword(password).value, WrapCpf(cpf).value, WrapPhone(phoneNumber).value, birthDate.value,
        gender.value, city.value, city.value.state, profilePicture);
    }
  }

  /** The value objects a constructed user holds are the validated forms of
      its raw arguments: a strong plain-text password, a CPF and a phone
      number that validate to themselves. */
  lemma NewUserValidated(name: Option<string>, email: Wrapped<string>, password: Wrapped<P.Password>,
                         cpf: Wrapped<string>, phoneNumber: Wrapped<string>, birthDate: Option<int>,
                         gender: Option<Gender>, city: Option<City>, profilePicture: Option<string>,
                         id: Option<Uuid>, generated: Uuid, checkEmail: string -> Option<string>)
    ensures var r := NewUserData(name, email, password, cpf, phoneNumber, birthDate, gender, city,
                                 profilePicture, id, generated, checkEmail);
      r.Ok? ==>
        (email.Text? ==> checkEmail(email.text).Some? && r.value.email == checkEmail(email.text).value) &&
        (password.Text? ==> P.Strong(password.text) && r.value.password == P.Password(false, password.text)) &&
        (cpf.Text? ==> r.value.cpf == Cpf.KeepDigits(cpf.text) && Cpf.ValidateCpf(r.value.cpf) == Ok(r.value.cpf)) &&
        (phoneNumber.Text? ==> Phone.ValidatePhone(r.value.phoneNumber) == Ok(r.value.phoneNumber))
  {
    var r := NewUserData(name, email, password, cpf, phoneNumber, birthDate, gender, city,
                         profilePicture, id, generated, checkEmail);
    if r.Ok? {
      assert WrapEmail(email, checkEmail).Ok? && r.value.email == WrapEmail(email, checkEmail).value;
      assert WrapPassword(password).Ok? && r.value.password == WrapPassword(password).value;
      assert WrapCpf(cpf).Ok? && r.value.cpf == WrapCpf(cpf).value;
      assert WrapPhone(phoneNumber).Ok? && r.value.phoneNumber == WrapPhone(phoneNumber).value;
      if password.Text? {
        P.AcceptedIffStrong(password.text);
      }
      if cpf.Text? {
        Cpf.Idempotent(cpf.text);
      }
      if phoneNumber.Text? {
        Phone.Idempotent(phoneNumber.text);
      }
    }
  }

  /** `phone_number = v`: a raw string is validated; a failure leaves the
      user unchanged. */
  function SetPhoneNumberData(u: UserData, phone: Wrapped<string>): (r: Result<UserData>)
    ensures r.Ok? <==> WrapPhone(phone).Ok?
    ensures r.Ok? ==> r.value == u.(phoneNumber := WrapPhone(phone).value)
    ensures r.Err? ==> r.msg == WrapPhone(phone).msg
  {
    match WrapPhone(phone)
    case Ok(ph) => Ok(u.(phoneNumber := ph))
    case Err(m) => Err(m)
  }

  /** `city = c`: an undefined city is refused; the state is not updated. */
  function SetCityData(u: UserData, city: Option<City>): (r: Result<UserData>)
    ensures r.Ok? <==> city.Some?
    ensures r.Ok? ==> r.value == u.(city := city.value)
  {
    if city.None? then Err("city") else Ok(u.(city := city.value))
  }

  /** `gender = g`: an undefined gender is refused. */
  function SetGenderData(u: UserData, gender: Option<Gender>): (r: Result<UserData>)
    ensures r.Ok? <==> gender.Some?
    ensures r.Ok? ==> r.value == u.(gender := gender.value)
  {
    if gender.None? then Err("gender") else Ok(u.(gender := gender.value))
  }

  /** After construction the state is the city's state, but moving to a city
      of another state leaves the old state in place. */
  lemma CityAndStateDiverge(u: UserData, c: City)
    requires u.state == u.city.state && c.state != u.state
    ensures SetCityData(u, Some(c)).Ok?
    ensures var v := SetCityData(u, Some(c)).value; v.state != v.city.state && v.state == u.state
  {
  }

  /** The entity, whose phone, picture, gender and city the setters
      overwrite. */
  class User {
    const id: Uuid
    const name: string
    const email: string
    const password: P.Password
    const cpf: string
    var phoneNumber: string
    const birthDate: int
    var gender: Gender
    var city: City
    const state: State
    var profilePicture: Option<string>

    function Data(): UserData
      reads this
    {
      UserData(id, name, email, password, cpf, phoneNumber, birthDate, gender, city, state, profilePicture)
    }

    constructor (data: UserData)
      ensures Data() == data
    {
      id := data.id;
      name := data.name;
      email := data.email;
      password := data.password;
      cpf := data.cpf;
      phoneNumber := data.phoneNumber;
      birthDate := data.birthDate;
      gender := data.gender;
      city := data.city;
      state := data.state;
      profilePicture := data.profilePicture;
    }

    method SetPhoneNumber(phone: Wrapped<string>) returns (r: Outcome)
      modifies this
      ensures SetPhoneNumberData(old(Data()), phone).Ok? ==>
        r == Done && Data() == SetPhoneNumberData(old(Data()), phone).value
      ensures SetPhoneNumberData(old(Data()), phone).Err? ==>
        r == Raised(SetPhoneNumberData(old(Data()), phone).msg) && Data() == old(Data())
    {
      var ph := WrapPhone(phone);
      if ph.Err? {
        return Raised(ph.msg);
      }
      phoneNumber := ph.value;
      return Done;
    }

    method SetProfilePicture(picture: Option<string>)
      modifies this
      ensures Data() == old(Data()).(profilePicture := picture)
    {
      profilePicture := picture;
    }

    method SetGender(g: Option<Gender>) returns (r: Outcome)
      modifies this
      ensures SetGenderData(old(Data()), g).Ok? ==> r == Done && Data() == SetGenderData(old(Data()), g).value
      ensures SetGenderData(old(Data()), g).Err? ==> r == Raised("gender") && Data() == old(Data())
    {
      if g.None? {
        return Raised("gender");
      }
      gender := g.value;
      return Done;
    }

    method SetCity(c: Option<City>) returns (r: Outcome)
      modifies this
      ensures SetCityData(old(Data()), c).Ok? ==> r == Done && Data() == SetCityData(old(Data()), c).value
      ensures SetCityData(old(Data()), c).Err? ==> r == Raised("city") && Data() == old(Data())
    {
      if c.None? {
        return Raised("city");
      }
      city := c.value;
      return Done;
    }
  }

  /** Constructing the entity from raw arguments. */
  method NewUser(name: Option<string>, email: Wrapped<string>, password: Wrapped<P.Password>,
                 cpf: Wrapped<string>, phoneNumber: Wrapped<string>, birthDate: Option<int>,
                 gender: Option<Gender>, city: Option<City>, profilePicture: Option<string>,
                 id: Option<Uuid>, generated: Uuid, checkEmail: string -> Option<string>) returns (r: Result<User>)
    ensures var d := NewUserData(name, email, password, cpf, phoneNumber, birthDate, gender, city,
                                 profilePicture, id, generated, checkEmail);
      (r.Ok? <==> d.Ok?) && (r.Ok? ==> fresh(r.value) && r.value.Data() == d.value) &&
      (r.Err? ==> r.msg == d.msg)
  {
    var data :- NewUserData(name, email, password, cpf, phoneNumber, birthDate, gender, city,
                            profilePicture, id, generated, checkEmail);
    var u := new User(data);
    return Ok(u);
  }
}
