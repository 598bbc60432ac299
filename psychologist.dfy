/** A psychologist: a user with a CRP registration, a description, the
    specialties, approaches and audiences offered, and optionally the
    bookable slots. */
module Psychologist {
  import opened Common
  import opened Geography
  import opened Specialty
  import opened Availability
  import P = Password
  import Crp
  import U = User

  /** The values a psychologist holds. `valuePerAppointment` is read by the
      callers (mapper, scheduling, filters); the constructor takes no such
      argument, so it is carried through as given. */
  datatype PsychologistData = PsychologistData(
    user: U.UserData,
    crp: string,
    description: string,
    specialties: seq<Specialty>,
    approaches: seq<Approach>,
    audiences: seq<Audience>,
    availabilities: Option<seq<AvailabilityData>>,
    valuePerAppointment: real)

  /** `CRP(value=...)` for a raw string. */
  function WrapCrp(crp: Wrapped<string>): (r: Result<string>)
    ensures crp.Obj? ==> r == Ok(crp.obj)
    ensures crp.Text? ==> r == Crp.ValidateCrp(crp.text)
  {
    match crp
    case Obj(c) => Ok(c)
    case Text(t) => Crp.ValidateCrp(t)
  }

  /** The checks the constructor adds once the user is built, in order. */
  function PsychologistChecks(crp: Option<Wrapped<string>>, description: Option<string>,
                              specialties: seq<Specialty>, approaches: seq<Approach>,
                              audiences: seq<Audience>): (r: Result<string>)
    ensures r.Ok? <==> crp.Some? && description.Some? && description.value != [] &&
                       specialties != [] && approaches != [] && audiences != [] &&
                       WrapCrp(crp.value).Ok?
    ensures r.Ok? ==> r.value == WrapCrp(crp.value).value
  {
    if crp.None? then Err("crp")
    else if description.None? || description.value == [] then Err("description")
    else if specialties == [] then Err("specialties")
    else if approaches == [] then Err("approaches")
    else if audiences == [] then Err("audiences")
    else WrapCrp(crp.value)
  }

  /** The `Psychologist` constructor: the user's construction and checks
      first, then crp defined, description non-empty, the three lists
      non-empty, and finally the CRP wrapped. */
  function NewPsychologistData(name: Option<string>, email: Wrapped<string>, password: Wrapped<P.Password>,
                               cpf: Wrapped<string>, phoneNumber: Wrapped<string>, birthDate: Option<int>,
                               gender: Option<U.Gender>, city: Option<City>,
                               crp: Option<Wrapped<string>>, description: Option<string>,
                               specialties: seq<Specialty>, approaches: seq<Approach>,
                               audiences: seq<Audience>, availabilities: Option<seq<AvailabilityData>>,
                               valuePerAppointment: real, profilePicture: Option<string>,
                               id: Option<Uuid>, generated: Uuid, checkEmail: string -> Option<string>)
    : (r: Result<PsychologistData>)
    ensures var u := U.NewUserData(name, email, password, cpf, phoneNumber, birthDate, gender, city,
                                   profilePicture, id, generated, checkEmail);
      var c := PsychologistChecks(crp, description, specialties, approaches, audiences);
      (r.Ok? <==> u.Ok? && c.Ok?) &&
      (u.Err? ==> r == Err(u.msg)) &&
      (u.Ok? && c.Err? ==> r == Err(c.msg)) &&
      (r.Ok? ==> r.value == PsychologistData(u.value, c.value, description.value, specialties, approaches,
                                             audiences, availabilities, valuePerAppointment))
  {
    var u :- U.NewUserData(name, email, password, cpf, phoneNumber, birthDate, gender, city,
                           profilePicture, id, generated, checkEmail);
    var c :- PsychologistChecks(crp, description, specialties, approaches, audiences);
    Ok(PsychologistData(u, c, description.value, specialties, approaches, audiences, availabilities,
                        valuePerAppointment))
  }

  /** What the constructor guarantees beyond the user's invariants: a CRP in
      the registration format that validates to itself, a non-empty
      description and non-empty lists, and the availabilities as given
      (absent by default). */
  lemma PsychologistInvariants(crp: Option<Wrapped<string>>, description: Option<string>,
                               specialties: seq<Specialty>, approaches: seq<Approach>,
                               audiences: seq<Audience>)
    requires PsychologistChecks(crp, description, specialties, approaches, audiences).Ok?
    ensures var c := PsychologistChecks(crp, description, specialties, approaches, audiences).value;
      description.Some? && description.value != [] &&
      |specialties| > 0 && |approaches| > 0 && |audiences| > 0 &&
      (crp.value.Text? ==> Crp.CrpFormat(c) && c == Strip(crp.value.text) && Crp.ValidateCrp(c) == Ok(c))
  {
    if crp.value.Text? {
      Crp.Idempotent(crp.value.text);
    }
  }

  /** A psychologist whose every argument is present but whose lists are
      empty is refused, the first empty list naming the error. */
  lemma EmptyListsRefused(crp: Wrapped<string>, description: string, approaches: seq<Approach>,
                          audiences: seq<Audience>)
    requires description != []
    ensures PsychologistChecks(Some(crp), Some(description), [], approaches, audiences) == Err("specialties")
    ensures PsychologistChecks(Some(crp), Some(description), [], [], []) == Err("specialties")
  {
  }
}
