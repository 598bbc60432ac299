/** The conversions between entities and their stored documents, one pair
    per entity. Loading re-runs the entity's constructor, so every check of
    the domain applies again on the way in. */
module Mappers {
  import opened Common
  import opened Geography
  import opened Documents
  import opened Availability
  import Pix = PixPayment
  import Appt = Appointment
  import C = Content
  import opened Specialty
  import P = Password
  import Cpf
  import Phone
  import Crp
  import U = User
  import Psy = Psychologist

  /** A list comprehension whose element conversion may raise: the first
      failure, in list order, is the result. */
  function MapAll<A, B>(xs: seq<A>, f: A -> Result<B>): (r: Result<seq<B>>)
    ensures r.Ok? <==> forall k :: 0 <= k < |xs| ==> f(xs[k]).Ok?
    ensures r.Ok? ==> |r.value| == |xs| && forall k :: 0 <= k < |xs| ==> r.value[k] == f(xs[k]).value
    ensures r.Err? ==> exists k :: 0 <= k < |xs| && f(xs[k]) == Err(r.msg) &&
                                   forall j :: 0 <= j < k ==> f(xs[j]).Ok?
  {
    if xs == [] then Ok([])
    else
      var head :- f(xs[0]);
      var tail :- MapAll(xs[1..], f);
      Ok([head] + tail)
  }

  // ---- availability ----

  function AvailabilityToModel(a: AvailabilityData): (d: AvailabilityDocument)
    ensures d.id == a.id && d.date == a.date && d.available == a.available
  {
    AvailabilityDocument(a.id, a.date, a.available)
  }

  /** The slot is rebuilt without its appointment id. */
  function AvailabilityToDomain(d: AvailabilityDocument): (a: AvailabilityData)
    ensures a.appointmentId.None?
  {
    NewAvailabilityData(Some(d.date), None, d.available, Some(d.id), d.id).value
  }

  /** A round trip keeps id, date and flag and always loses the
      appointment id; a document comes back unchanged. */
  lemma AvailabilityRoundTrip(a: AvailabilityData, d: AvailabilityDocument)
    ensures AvailabilityToDomain(AvailabilityToModel(a)) == a.(appointmentId := None)
    ensures AvailabilityToModel(AvailabilityToDomain(d)) == d
  {
  }

  // ---- PIX payment ----

  function PixToModel(p: Pix.PixPayment): (d: PixPaymentDocument)
    ensures d.status == Pix.StatusValue(p.status)
  {
    PixPaymentDocument(p.id, p.amount, p.providerPaymentId, p.pixPayload, p.expiresAt, Pix.StatusValue(p.status))
  }

  /** The status is looked up before the payment is built, so an unknown
      status is reported before a non-positive amount. */
  function PixToDomain(d: PixPaymentDocument): (r: Result<Pix.PixPayment>)
    ensures r.Ok? <==> Pix.ParseStatus(d.status).Ok? && d.amount > 0.0
    ensures Pix.ParseStatus(d.status).Err? ==> r == Err(Pix.ParseStatus(d.status).msg)
    ensures Pix.ParseStatus(d.status).Ok? && d.amount <= 0.0 ==> r == Err(Pix.AmountMsg)
  {
    var status :- Pix.ParseStatus(d.status);
    Pix.NewPixPayment(d.amount, d.providerPaymentId, d.pixPayload, d.expiresAt, status, Some(d.id), d.id)
  }

  /** A valid payment survives a round trip unchanged. */
  lemma PixRoundTrip(p: Pix.PixPayment)
    requires Pix.Valid(p)
    ensures PixToDomain(PixToModel(p)) == Ok(p)
  {
    Pix.StatusRoundTrip(p.status, "");
  }

  // ---- appointment ----

  function AppointmentToModel(a: Appt.AppointmentData): (d: AppointmentDocument)
    ensures d.status == Appt.StatusValue(a.status) && d.pixPayment == PixToModel(a.pixPayment)
    ensures d.availabilityId == a.availabilityId
  {
    AppointmentDocument(a.id, a.date, a.patientId, a.psychologistId, a.value, PixToModel(a.pixPayment),
                        a.durationMin, Appt.StatusValue(a.status), a.availabilityId)
  }

  /** The payment is loaded first, then the status looked up, then the
      appointment built. */
  function AppointmentToDomain(d: AppointmentDocument): (r: Result<Appt.AppointmentData>)
    ensures r.Ok? <==> PixToDomain(d.pixPayment).Ok? && Appt.ParseStatus(d.status).Ok? && d.durationMin > 0
    ensures PixToDomain(d.pixPayment).Err? ==> r == Err(PixToDomain(d.pixPayment).msg)
    ensures r.Ok? ==> r.value.availabilityId == d.availabilityId && r.value.id == d.id
  {
    var pix :- PixToDomain(d.pixPayment);
    var status :- Appt.ParseStatus(d.status);
    Appt.NewAppointmentData(d.date, d.patientId, d.psychologistId, d.value, pix, d.durationMin, status,
                            d.availabilityId, Some(d.id), d.id)
  }

  /** An appointment with a positive duration and a valid payment survives
      a round trip unchanged, availability id included. */
  lemma AppointmentRoundTrip(a: Appt.AppointmentData)
    requires a.durationMin > 0 && Pix.Valid(a.pixPayment)
    ensures AppointmentToDomain(AppointmentToModel(a)) == Ok(a)
  {
    PixRoundTrip(a.pixPayment);
    Appt.StatusRoundTrip(a.status, "");
  }

  /** A stored status outside the enum cannot be loaded. (The document's
      declared default names an enum member that does not exist, so that
      default is not part of this model.) */
  lemma UnknownStatusFails(d: AppointmentDocument)
    requires PixToDomain(d.pixPayment).Ok? && Appt.ParseStatus(d.status).Err?
    ensures AppointmentToDomain(d) == Err(Appt.ParseStatus(d.status).msg)
  {
  }

  // ---- content ----

  function ContentToModel(c: C.ContentData): (d: ContentDocument)
    ensures d.id == c.id && d.title == c.title && d.body == c.body && d.authorId == c.authorId
    ensures d.createdAt == c.createdAt
  {
    ContentDocument(c.id, c.title, c.body, c.authorId, c.createdAt)
  }

  /** No document gives no content; otherwise the content is rebuilt with
      the stored creation time, so `now` is not used. */
  function ContentToDomain(d: Option<ContentDocument>, now: DateTime): (r: Result<Option<C.ContentData>>)
    ensures d.None? ==> r == Ok(None)
    ensures d.Some? ==> (r.Ok? <==> !C.Blank(d.value.title))
    ensures r.Ok? && d.Some? ==> r.value.Some? && r.value.value.createdAt == d.value.createdAt
  {
    if d.None? then Ok(None)
    else
      var doc := d.value;
      var c :- C.NewContentData(doc.title, doc.body, doc.authorId, Some(doc.createdAt), now, Some(doc.id), doc.id);
      Ok(Some(c))
  }

  /** Content with a non-blank title survives a round trip unchanged. */
  lemma ContentRoundTrip(c: C.ContentData, now: DateTime)
    requires !C.Blank(c.title)
    ensures ContentToDomain(Some(ContentToModel(c)), now) == Ok(Some(c))
  {
  }

  // ---- specialty and approach ----

  function SpecialtyToModel(s: Specialty): (d: SpecialtyDocument)
    ensures d.id == s.id && d.name == s.name && d.description == s.description
  {
    SpecialtyDocument(s.id, s.name, s.description)
  }

  function SpecialtyToDomain(d: SpecialtyDocument): (r: Result<Specialty>)
    ensures r.Ok? <==> d.name != [] && d.description != []
  {
    NewSpecialty(Some(d.name), Some(d.description), Some(d.id), d.id)
  }

  /** A round trip is the identity on specialties with a name and a
      description, and on documents that load. */
  lemma SpecialtyRoundTrip(s: Specialty, d: SpecialtyDocument)
    ensures s.name != [] && s.description != [] ==> SpecialtyToDomain(SpecialtyToModel(s)) == Ok(s)
    ensures SpecialtyToDomain(d).Ok? ==> SpecialtyToModel(SpecialtyToDomain(d).value) == d
  {
  }

  function ApproachToModel(a: Approach): (d: ApproachDocument)
    ensures d.id == Some(a.id) && d.name == a.name && d.description == a.description
  {
    ApproachDocument(Some(a.id), a.name, a.description)
  }

  /** A falsy id is passed as None, so the approach gets `generated`. */
  function ApproachToDomain(d: ApproachDocument, generated: Uuid): (a: Approach)
    ensures a.name == d.name && a.description == d.description
    ensures a.id == if d.id.Some? then d.id.value else generated
  {
    NewApproach(d.name, d.description, d.id, generated)
  }

  lemma ApproachRoundTrip(a: Approach, generated: Uuid)
    ensures ApproachToDomain(ApproachToModel(a), generated) == a
  {
  }

  // ---- state ----

  /** The stored abbreviation is limited to two characters, which the
      domain state does not require. */
  function StateToModel(s: State): (r: Result<StateDocument>)
    ensures r.Ok? <==> |s.abbreviation| <= 2
    ensures r.Ok? ==> r.value == StateDocument(s.id, s.name, s.abbreviation)
  {
    if |s.abbreviation| > 2 then Err("abbreviation") else Ok(StateDocument(s.id, s.name, s.abbreviation))
  }

  function StateToDomain(d: StateDocument): (s: State)
    ensures s.id == d.id && s.name == d.name && s.abbreviation == d.abbreviation
  {
    NewState(Some(d.name), Some(d.abbreviation), Some(d.id), d.id).value
  }

  lemma StateRoundTrip(s: State, d: StateDocument)
    ensures |s.abbreviation| <= 2 ==> StateToDomain(StateToModel(s).value) == s
    ensures |d.abbreviation| <= 2 ==> StateToModel(StateToDomain(d)) == Ok(d)
  {
  }

  /** A domain state with a three-letter abbreviation cannot be stored. */
  lemma LongAbbreviationNotStored(id: Uuid, name: string)
    ensures StateToModel(State(id, name, "ABC")).Err?
  {
  }

  // ---- users ----

  /** The user fields of a document. */
  function UserFieldsToModel(u: U.UserData): (d: UserDocument)
    ensures d.passwordHash == u.password.value && d.id == u.id && d.email == u.email
  {
    UserDocument(u.id, u.name, u.email, u.password.value, u.cpf, u.phoneNumber, u.birthDate, u.gender,
                 u.city, u.profilePicture)
  }

  /** The user part of loading: e-mail, CPF and phone re-validated as value
      objects, the stored hash taken as a hashed password, then the user
      constructor. */
  function UserFieldsToDomain(d: UserDocument, checkEmail: string -> Option<string>): (r: Result<U.UserData>)
    ensures r.Ok? ==> r.value.password == P.Password(true, d.passwordHash)
    ensures r.Ok? ==> r.value.id == d.id && r.value.state == d.city.state
    ensures r.Ok? ==> checkEmail(d.email).Some? && r.value.email == checkEmail(d.email).value
    ensures r.Ok? ==> Cpf.ValidateCpf(d.cpf).Ok? && Phone.ValidatePhone(d.phoneNumber).Ok?
  {
    var email :- U.WrapEmail(Text(d.email), checkEmail);
    var cpf :- Cpf.ValidateCpf(d.cpf);
    var phone :- Phone.ValidatePhone(d.phoneNumber);
    U.NewUserData(Some(d.name), Obj(email), Obj(P.Password(true, d.passwordHash)), Obj(cpf), Obj(phone),
                  Some(d.birthDate), Some(d.gender), Some(d.city), d.profilePicture, Some(d.id), d.id, checkEmail)
  }

  /** What a stored user must hold to load again: among others, an e-mail
      already in its normalised form. */
  predicate Loadable(u: U.UserData, checkEmail: string -> Option<string>) {
    u.name != [] && checkEmail(u.email) == Some(u.email) && Cpf.ValidateCpf(u.cpf) == Ok(u.cpf) &&
    Phone.ValidatePhone(u.phoneNumber) == Ok(u.phoneNumber) && u.state == u.city.state
  }

  /** A loadable user comes back with its password marked hashed and
      everything else unchanged. */
  lemma UserFieldsRoundTrip(u: U.UserData, checkEmail: string -> Option<string>)
    requires Loadable(u, checkEmail)
    ensures UserFieldsToDomain(UserFieldsToModel(u), checkEmail) == Ok(u.(password := P.Password(true, u.password.value)))
  {
    var d := UserFieldsToModel(u);
    assert U.WrapEmail(Text(d.email), checkEmail) == Ok(u.email);
    assert U.NewUserData(Some(d.name), Obj(u.email), Obj(P.Password(true, d.passwordHash)), Obj(u.cpf),
                         Obj(u.phoneNumber), Some(d.birthDate), Some(d.gender), Some(d.city), d.profilePicture,
                         Some(d.id), d.id, checkEmail)
           == Ok(u.(password := P.Password(true, u.password.value)));
  }

  /** A stored hash is never checked against the password policy: even a
      value the policy refuses loads. */
  lemma HashSkipsPolicy(u: U.UserData, checkEmail: string -> Option<string>)
    requires Loadable(u, checkEmail) && u.password.value == "abc"
    ensures UserFieldsToDomain(UserFieldsToModel(u), checkEmail).Ok?
    ensures P.ValidatePassword("abc", false).Err?
  {
    UserFieldsRoundTrip(u, checkEmail);
    P.Examples();
  }

  // ---- psychologist ----

  function PsychologistToModel(p: Psy.PsychologistData): (d: PsychologistDocument)
    ensures d.user == UserFieldsToModel(p.user) && d.crp == p.crp
    ensures p.availabilities.None? <==> d.availabilities.None?
    ensures |d.specialties| == |p.specialties| && |d.approaches| == |p.approaches| && |d.audiences| == |p.audiences|
  {
    PsychologistDocument(
      UserFieldsToModel(p.user),
      p.crp,
      SpecialtyDocs(p.specialties),
      ApproachDocs(p.approaches),
      AudienceValues(p.audiences),
      p.valuePerAppointment,
      Some(p.description),
      if p.availabilities.None? then None else Some(SlotDocs(p.availabilities.value)))
  }

  function SpecialtyDocs(s: seq<Specialty>): (r: seq<SpecialtyDocument>)
    ensures |r| == |s| && forall k :: 0 <= k < |s| ==> r[k] == SpecialtyToModel(s[k])
  {
    seq(|s|, k requires 0 <= k < |s| => SpecialtyToModel(s[k]))
  }

  function ApproachDocs(a: seq<Approach>): (r: seq<ApproachDocument>)
    ensures |r| == |a| && forall k :: 0 <= k < |a| ==> r[k] == ApproachToModel(a[k])
  {
    seq(|a|, k requires 0 <= k < |a| => ApproachToModel(a[k]))
  }

  function AudienceValues(a: seq<Audience>): (r: seq<string>)
    ensures |r| == |a| && forall k :: 0 <= k < |a| ==> r[k] == AudienceValue(a[k])
  {
    seq(|a|, k requires 0 <= k < |a| => AudienceValue(a[k]))
  }

  function SlotDocs(a: seq<AvailabilityData>): (r: seq<AvailabilityDocument>)
    ensures |r| == |a| && forall k :: 0 <= k < |a| ==> r[k] == AvailabilityToModel(a[k])
  {
    seq(|a|, k requires 0 <= k < |a| => AvailabilityToModel(a[k]))
  }

  /** Approaches are loaded one by one; none can fail. */
  function ApproachesToDomain(docs: seq<ApproachDocument>, generated: Uuid): (r: seq<Approach>)
    ensures |r| == |docs| && forall k :: 0 <= k < |docs| ==> r[k] == ApproachToDomain(docs[k], generated)
  {
    seq(|docs|, k requires 0 <= k < |docs| => ApproachToDomain(docs[k], generated))
  }

  /** `if model.availabilities:` — both an absent and an empty list load as
      None. */
  function AvailabilitiesToDomain(slots: Option<seq<AvailabilityDocument>>): (r: Option<seq<AvailabilityData>>)
    ensures r.None? <==> slots.None? || slots.value == []
    ensures r.Some? ==> |r.value| == |slots.value|
    ensures r.Some? ==> forall k :: 0 <= k < |r.value| ==> r.value[k] == AvailabilityToDomain(slots.value[k])
  {
    if slots.None? || slots.value == [] then None
    else Some(seq(|slots.value|, k requires 0 <= k < |slots.value| => AvailabilityToDomain(slots.value[k])))
  }

  /** Loading a psychologist: specialties, approaches and slots converted in
      order, then the user's value objects, the CRP and the audiences, then
      the constructor. `generated(k)` is the id an approach with a falsy id
      receives. */
  function PsychologistToDomain(d: PsychologistDocument, checkEmail: string -> Option<string>, generated: Uuid)
    : (r: Result<Psy.PsychologistData>)
    ensures r.Ok? ==> r.value.user.password == P.Password(true, d.user.passwordHash)
    ensures r.Ok? ==> r.value.availabilities == AvailabilitiesToDomain(d.availabilities)
    ensures r.Ok? ==> |r.value.specialties| == |d.specialties| > 0 && |r.value.approaches| == |d.approaches| > 0
    ensures r.Ok? ==> Crp.ValidateCrp(d.crp) == Ok(r.value.crp)
  {
    var specialties :- MapAll(d.specialties, SpecialtyToDomain);
    var approaches := ApproachesToDomain(d.approaches, generated);
    var availabilities := AvailabilitiesToDomain(d.availabilities);
    var v :- ValueObjects(d.user, d.crp, checkEmail);
    var audiences :- MapAll(d.audiences, ParseAudience);
    Psy.NewPsychologistData(Some(d.user.name), Obj(v.email), Obj(P.Password(true, d.user.passwordHash)),
                            Obj(v.cpf), Obj(v.phone), Some(d.user.birthDate), Some(d.user.gender), Some(d.user.city),
                            Some(Obj(v.crp)), d.description, specialties, approaches, audiences, availabilities,
                            d.valuePerAppointment, d.user.profilePicture, Some(d.user.id), d.user.id, checkEmail)
  }

  datatype Validated = Validated(email: string, cpf: string, phone: string, crp: string)

  /** E-mail, CPF, phone and CRP re-validated, in that order. */
  function ValueObjects(u: UserDocument, crp: string, checkEmail: string -> Option<string>): (r: Result<Validated>)
    ensures r.Ok? <==> checkEmail(u.email).Some? && Cpf.ValidateCpf(u.cpf).Ok? && Phone.ValidatePhone(u.phoneNumber).Ok? &&
                       Crp.ValidateCrp(crp).Ok?
    ensures r.Ok? ==> r.value == Validated(checkEmail(u.email).value, Cpf.ValidateCpf(u.cpf).value,
                                           Phone.ValidatePhone(u.phoneNumber).value, Crp.ValidateCrp(crp).value)
  {
    var email :- U.WrapEmail(Text(u.email), checkEmail);
    var cpf :- Cpf.ValidateCpf(u.cpf);
    var phone :- Phone.ValidatePhone(u.phoneNumber);
    var c :- Crp.ValidateCrp(crp);
    Ok(Validated(email, cpf, phone, c))
  }

  /** What a stored psychologist must hold to load again. */
  predicate PsychologistLoadable(p: Psy.PsychologistData, checkEmail: string -> Option<string>) {
    Loadable(p.user, checkEmail) && Crp.ValidateCrp(p.crp) == Ok(p.crp) && p.description != [] &&
    p.specialties != [] && p.approaches != [] && p.audiences != [] &&
    forall k :: 0 <= k < |p.specialties| ==> p.specialties[k].name != [] && p.specialties[k].description != []
  }

  /** A loadable psychologist comes back with a hashed password, an empty
      slot list turned into None and every slot's appointment id dropped;
      all else, id included, is kept. */
  lemma PsychologistRoundTrip(p: Psy.PsychologistData, checkEmail: string -> Option<string>, generated: Uuid)
    requires PsychologistLoadable(p, checkEmail)
    ensures PsychologistToDomain(PsychologistToModel(p), checkEmail, generated) ==
      Ok(p.(user := p.user.(password := P.Password(true, p.user.password.value)),
            availabilities := SlotsReloaded(p.availabilities)))
  {
    var d := PsychologistToModel(p);
    SpecialtiesRoundTrip(p.specialties);
    ApproachesRoundTrip(p.approaches, generated);
    AudiencesRoundTrip(p.audiences);
    SlotsRoundTrip(p.availabilities);
    var v := Validated(p.user.email, p.user.cpf, p.user.phoneNumber, p.crp);
    assert ValueObjects(d.user, d.crp, checkEmail) == Ok(v);
    LoadSteps(d, checkEmail, generated, p.specialties, v, p.audiences);
    var approaches := ApproachesToDomain(d.approaches, generated);
    var slots := AvailabilitiesToDomain(d.availabilities);
    assert slots == SlotsReloaded(p.availabilities);
    var u := p.user.(password := P.Password(true, p.user.password.value));
    UserPartRoundTrip(p.user, checkEmail);
    assert d.user.name == u.name && v.email == u.email && P.Password(true, d.user.passwordHash) == u.password;
    assert v.cpf == u.cpf && v.phone == u.phoneNumber && d.user.birthDate == u.birthDate;
    assert d.user.gender == u.gender && d.user.city == u.city && d.user.profilePicture == u.profilePicture;
    assert d.user.id == u.id && d.description == Some(p.description) && v.crp == p.crp;
    assert d.valuePerAppointment == p.valuePerAppointment;
    Assemble(p, u, slots, checkEmail);
  }

  lemma Assemble(p: Psy.PsychologistData, u: U.UserData, slots: Option<seq<AvailabilityData>>, checkEmail: string -> Option<string>)
    requires Crp.ValidateCrp(p.crp) == Ok(p.crp) && p.description != [] &&
             p.specialties != [] && p.approaches != [] && p.audiences != []
    requires U.NewUserData(Some(u.name), Obj(u.email), Obj(u.password), Obj(u.cpf), Obj(u.phoneNumber),
                           Some(u.birthDate), Some(u.gender), Some(u.city), u.profilePicture, Some(u.id), u.id,
                           checkEmail) == Ok(u)
    ensures Psy.NewPsychologistData(Some(u.name), Obj(u.email), Obj(u.password), Obj(u.cpf), Obj(u.phoneNumber),
                                    Some(u.birthDate), Some(u.gender), Some(u.city), Some(Obj(p.crp)),
                                    Some(p.description), p.specialties, p.approaches, p.audiences, slots,
                                    p.valuePerAppointment, u.profilePicture, Some(u.id), u.id, checkEmail)
            == Ok(p.(user := u, availabilities := slots))
  {
    assert Psy.PsychologistChecks(Some(Obj(p.crp)), Some(p.description), p.specialties, p.approaches, p.audiences)
           == Ok(p.crp);
  }

  /** Once the lists and the value objects load, loading is the
      psychologist constructor applied to them. */
  lemma LoadSteps(d: PsychologistDocument, checkEmail: string -> Option<string>, generated: Uuid,
                  specialties: seq<Specialty>, v: Validated, audiences: seq<Audience>)
    requires MapAll(d.specialties, SpecialtyToDomain) == Ok(specialties)
    requires ValueObjects(d.user, d.crp, checkEmail) == Ok(v)
    requires MapAll(d.audiences, ParseAudience) == Ok(audiences)
    ensures PsychologistToDomain(d, checkEmail, generated) ==
      Psy.NewPsychologistData(Some(d.user.name), Obj(v.email), Obj(P.Password(true, d.user.passwordHash)),
                              Obj(v.cpf), Obj(v.phone), Some(d.user.birthDate), Some(d.user.gender), Some(d.user.city),
                              Some(Obj(v.crp)), d.description, specialties,
                              ApproachesToDomain(d.approaches, generated),
                              audiences, AvailabilitiesToDomain(d.availabilities),
                              d.valuePerAppointment, d.user.profilePicture, Some(d.user.id), d.user.id, checkEmail)
  {
  }

  /** The slots a stored slot list reloads as. */
  function SlotsReloaded(slots: Option<seq<AvailabilityData>>): (r: Option<seq<AvailabilityData>>)
    ensures r.None? <==> slots.None? || slots.value == []
    ensures r.Some? ==> |r.value| == |slots.value|
    ensures r.Some? ==> forall k :: 0 <= k < |r.value| ==>
      r.value[k].appointmentId.None? && r.value[k].id == slots.value[k].id && r.value[k].date == slots.value[k].date
  {
    if slots.None? || slots.value == [] then None
    else Some(seq(|slots.value|, k requires 0 <= k < |slots.value| => slots.value[k].(appointmentId := None)))
  }

  lemma UserPartRoundTrip(u: U.UserData, checkEmail: string -> Option<string>)
    requires Loadable(u, checkEmail)
    ensures U.NewUserData(Some(u.name), Obj(u.email), Obj(P.Password(true, u.password.value)), Obj(u.cpf),
                          Obj(u.phoneNumber), Some(u.birthDate), Some(u.gender), Some(u.city), u.profilePicture,
                          Some(u.id), u.id, checkEmail) == Ok(u.(password := P.Password(true, u.password.value)))
  {
  }

  lemma SpecialtiesRoundTrip(s: seq<Specialty>)
    requires forall k :: 0 <= k < |s| ==> s[k].name != [] && s[k].description != []
    ensures MapAll(SpecialtyDocs(s), SpecialtyToDomain) == Ok(s)
  {
    var docs := SpecialtyDocs(s);
    forall k | 0 <= k < |s|
      ensures SpecialtyToDomain(docs[k]) == Ok(s[k])
    {
      SpecialtyRoundTrip(s[k], docs[k]);
    }
    var r := MapAll(docs, SpecialtyToDomain);
    assert r.Ok?;
    assert r.value == s;
  }

  lemma ApproachesRoundTrip(a: seq<Approach>, generated: Uuid)
    ensures ApproachesToDomain(ApproachDocs(a), generated) == a
  {
    var docs := ApproachDocs(a);
    var back := ApproachesToDomain(docs, generated);
    forall k | 0 <= k < |a|
      ensures back[k] == a[k]
    {
      ApproachRoundTrip(a[k], generated);
    }
  }

  lemma AudiencesRoundTrip(a: seq<Audience>)
    ensures MapAll(AudienceValues(a), ParseAudience) == Ok(a)
  {
    var values := AudienceValues(a);
    forall k | 0 <= k < |a|
      ensures ParseAudience(values[k]) == Ok(a[k])
    {
      AudienceRoundTrip(a[k], "");
    }
    var r := MapAll(values, ParseAudience);
    assert r.Ok?;
    assert r.value == a;
  }

  lemma SlotsRoundTrip(slots: Option<seq<AvailabilityData>>)
    ensures AvailabilitiesToDomain(if slots.None? then None else Some(SlotDocs(slots.value))) == SlotsReloaded(slots)
  {
    if slots.Some? && slots.value == [] {
      assert SlotDocs(slots.value) == [];
    } else if slots.Some? {
      var docs := SlotDocs(slots.value);
      var back := AvailabilitiesToDomain(Some(docs)).value;
      forall k | 0 <= k < |slots.value|
        ensures back[k] == slots.value[k].(appointmentId := None)
      {
        AvailabilityRoundTrip(slots.value[k], docs[k]);
      }
      assert back == SlotsReloaded(slots).value;
    }
  }

  /** A psychologist saved with an empty slot list reloads with none. */
  lemma EmptySlotsReloadAsNone(p: Psy.PsychologistData, checkEmail: string -> Option<string>, generated: Uuid)
    requires PsychologistLoadable(p, checkEmail) && p.availabilities == Some([])
    ensures PsychologistToDomain(PsychologistToModel(p), checkEmail, generated).Ok?
    ensures PsychologistToDomain(PsychologistToModel(p), checkEmail, generated).value.availabilities.None?
  {
    PsychologistRoundTrip(p, checkEmail, generated);
  }

  // ---- user dispatch ----

  datatype StoredUser = PatientDocument(patient: UserDocument) | PsychologistDoc(psychologist: PsychologistDocument)
                      | OtherDocument

  datatype UserEntity = PatientEntity(patient: U.UserData) | PsychologistEntity(psychologist: Psy.PsychologistData)
                      | OtherEntity

  /** Loading dispatches on the document's kind. */
  function UserToDomain(d: StoredUser, checkEmail: string -> Option<string>, generated: Uuid): (r: Result<UserEntity>)
    ensures d.OtherDocument? ==> r == Err("Invalid model type")
    ensures d.PatientDocument? && r.Ok? ==> r.value.PatientEntity?
    ensures d.PsychologistDoc? && r.Ok? ==> r.value.PsychologistEntity?
  {
    match d
    case PatientDocument(u) =>
      var p :- UserFieldsToDomain(u, checkEmail);
      Ok(PatientEntity(p))
    case PsychologistDoc(u) =>
      var p :- PsychologistToDomain(u, checkEmail, generated);
      Ok(PsychologistEntity(p))
    case OtherDocument => Err("Invalid model type")
  }

  /** Storing dispatches on the entity's kind. */
  function UserToModel(e: UserEntity): (r: Result<StoredUser>)
    ensures e.OtherEntity? <==> r == Err("Invalid entity type")
    ensures e.PatientEntity? ==> r == Ok(PatientDocument(UserFieldsToModel(e.patient)))
    ensures e.PsychologistEntity? ==> r == Ok(PsychologistDoc(PsychologistToModel(e.psychologist)))
  {
    match e
    case PatientEntity(p) => Ok(PatientDocument(UserFieldsToModel(p)))
    case PsychologistEntity(p) => Ok(PsychologistDoc(PsychologistToModel(p)))
    case OtherEntity => Err("Invalid entity type")
  }

  /** The dispatch is symmetric: a stored patient loads as a patient with
      its password marked hashed. */
  lemma PatientDispatchRoundTrip(u: U.UserData, checkEmail: string -> Option<string>, generated: Uuid)
    requires Loadable(u, checkEmail)
    ensures UserToDomain(UserToModel(PatientEntity(u)).value, checkEmail, generated) ==
      Ok(PatientEntity(u.(password := P.Password(true, u.password.value))))
  {
    UserFieldsRoundTrip(u, checkEmail);
  }
}
