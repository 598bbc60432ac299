/** The catalogue a psychologist's profile refers to: specialties,
    therapeutic approaches and audiences. */
module Specialty {
  import opened Common

  datatype Specialty = Specialty(id: Uuid, name: string, description: string)

  /** `Specialty(name, description, id)`: neither may be empty, the name
      being checked first. */
  function NewSpecialty(name: Option<string>, description: Option<string>, id: Option<Uuid>, generated: Uuid)
    : (r: Result<Specialty>)
    ensures r.Ok? <==> name.Some? && name.value != [] && description.Some? && description.value != []
    ensures r.Ok? ==> r.value == Specialty(ResolveId(id, generated), name.value, description.value)
    ensures (name.None? || name.value == []) ==> r == Err("name")
  {
    if name.None? || name.value == [] then Err("name")
    else if description.None? || description.value == [] then Err("description")
    else Ok(Specialty(ResolveId(id, generated), name.value, description.value))
  }

  /** A therapeutic approach, with the fields its document stores. */
  datatype Approach = Approach(id: Uuid, name: string, description: string)

  /** `Approach(name, description, id)`: a missing id is generated. */
  function NewApproach(name: string, description: string, id: Option<Uuid>, generated: Uuid): (r: Approach)
    ensures r.name == name && r.description == description
    ensures id.Some? ==> r.id == id.value
  {
    Approach(ResolveId(id, generated), name, description)
  }

  /** `AudienceEnum`: one member. */
  datatype Audience = Children

  function AudienceValue(a: Audience): string {
    match a
    case Children => "children"
  }

  /** `AudienceEnum(value)`. */
  function ParseAudience(v: string): (r: Result<Audience>)
    ensures r.Ok? <==> v == "children"
    ensures r.Err? ==> r.msg == "'" + v + "' is not a valid AudienceEnum"
  {
    if v == "children" then Ok(Children) else Err("'" + v + "' is not a valid AudienceEnum")
  }

  /** The lookup inverts the value, both ways. */
  lemma AudienceRoundTrip(a: Audience, v: string)
    ensures ParseAudience(AudienceValue(a)) == Ok(a)
    ensures ParseAudience(v).Ok? ==> AudienceValue(ParseAudience(v).value) == v
  {
  }
}
