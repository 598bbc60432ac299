/** States and cities. A city belongs to a state; users take their state
    from their city. */
module Geography {
  import opened Common

  datatype State = State(id: Uuid, name: string, abbreviation: string)

  /** `State(name, abbreviation, id=None)`: both must be defined. */
  function NewState(name: Option<string>, abbreviation: Option<string>, id: Option<Uuid>, generated: Uuid)
    : (r: Result<State>)
    ensures r.Ok? <==> name.Some? && abbreviation.Some?
    ensures r.Ok? ==> r.value == State(ResolveId(id, generated), name.value, abbreviation.value)
    ensures name.None? ==> r == Err("name")
  {
    if name.None? then Err("name")
    else if abbreviation.None? then Err("abbreviation")
    else Ok(State(ResolveId(id, generated), name.value, abbreviation.value))
  }

  datatype City = City(id: Uuid, state: State, name: string, abbreviation: string)
}
