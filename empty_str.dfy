/** The "empty string to None" normaliser applied to query parameters before
    validation, and the appointment filter record that uses it. */
module EmptyStr {
  import opened Common

  /** The run-time values a query parameter can carry: strings and lists
      (the iterables), and values that are not iterable. */
  datatype Value = Str(s: string) | List(items: seq<Value>) | Num(n: int) | NoneValue | Id(id: Uuid)

  /** Python's `iter(value)`, for the values that are iterable: the
      one-character strings of a string, the elements of a list. */
  predicate IsIterable(v: Value) { v.Str? || v.List? }

  function Elements(v: Value): (r: seq<Value>)
    requires IsIterable(v)
    ensures v.Str? ==> |r| == |v.s| && forall i :: 0 <= i < |r| ==> r[i] == Str([v.s[i]])
    ensures v.List? ==> r == v.items
  {
    if v.Str? then seq(|v.s|, i requires 0 <= i < |v.s| => Str([v.s[i]])) else v.items
  }

  /** `all(s == "" for s in value)`. */
  predicate AllEmptyStrings(xs: seq<Value>) {
    forall i :: 0 <= i < |xs| ==> xs[i] == Str("")
  }

  /** `convert_empty_str_to_none`. */
  function ConvertEmptyStrToNone(v: Value): (r: Value)
    ensures r == NoneValue || r == v
  {
    if v == Str("") || (IsIterable(v) && AllEmptyStrings(Elements(v))) then NoneValue else v
  }

  /** What the normaliser does, stated case by case: the empty string and
      every list whose elements are all empty strings (the empty list
      included) become None; every other value is returned as it is. */
  lemma ConvertCases(v: Value)
    ensures v == Str("") ==> ConvertEmptyStrToNone(v) == NoneValue
    ensures v.Str? && v.s != "" ==> ConvertEmptyStrToNone(v) == v
    ensures v.List? ==> (ConvertEmptyStrToNone(v) == NoneValue <==> AllEmptyStrings(v.items))
    ensures v.List? && !AllEmptyStrings(v.items) ==> ConvertEmptyStrToNone(v) == v
    ensures !IsIterable(v) ==> ConvertEmptyStrToNone(v) == v
  {
    if v.Str? && v.s != "" {
      assert Elements(v)[0] != Str("");
    }
  }

  /** Normalising twice is normalising once. */
  lemma ConvertIdempotent(v: Value)
    ensures ConvertEmptyStrToNone(ConvertEmptyStrToNone(v)) == ConvertEmptyStrToNone(v)
  {
  }

  /** A calendar date, as a day number. */
  datatype Date = Date(day: int)

  /** `AppointmentFilters`: every field optional. */
  datatype AppointmentFilters = AppointmentFilters(
    startDate: Option<Date>,
    endDate: Option<Date>,
    psychologistId: Option<Uuid>,
    patientId: Option<Uuid>,
    status: Option<string>,
    availabilityId: Option<Uuid>)

  /** `AppointmentFilters()`: every field defaults to None. */
  function DefaultFilters(): (f: AppointmentFilters)
    ensures f.startDate.None? && f.endDate.None? && f.psychologistId.None?
    ensures f.patientId.None? && f.status.None? && f.availabilityId.None?
  {
    AppointmentFilters(None, None, None, None, None, None)
  }

  /** A date field: the raw value is normalised first, and only what is
      left is handed to the date parser. */
  function DateField(raw: Value, parse: Value -> Result<Date>): (r: Result<Option<Date>>)
    ensures ConvertEmptyStrToNone(raw) == NoneValue ==> r == Ok(None)
    ensures ConvertEmptyStrToNone(raw) != NoneValue ==>
      (r.Ok? <==> parse(raw).Ok?) && (r.Ok? ==> r.value == Some(parse(raw).value))
  {
    var v := ConvertEmptyStrToNone(raw);
    if v == NoneValue then Ok(None)
    else
      var d :- parse(v);
      Ok(Some(d))
  }

  /** Building the filter record from raw query values. */
  function MakeFilters(rawStart: Value, rawEnd: Value, psychologistId: Option<Uuid>,
                       patientId: Option<Uuid>, status: Option<string>, availabilityId: Option<Uuid>,
                       parse: Value -> Result<Date>): (r: Result<AppointmentFilters>)
    ensures r.Ok? ==> r.value.psychologistId == psychologistId && r.value.patientId == patientId &&
                      r.value.status == status && r.value.availabilityId == availabilityId
    ensures r.Ok? <==> DateField(rawStart, parse).Ok? && DateField(rawEnd, parse).Ok?
  {
    var s :- DateField(rawStart, parse);
    var e :- DateField(rawEnd, parse);
    Ok(AppointmentFilters(s, e, psychologistId, patientId, status, availabilityId))
  }

  /** Empty date parameters (`""`, `[]`, `[""]`) give the default filters,
      whatever the date parser would have said about them. */
  lemma EmptyDatesGiveDefaults(rawStart: Value, rawEnd: Value, parse: Value -> Result<Date>)
    requires rawStart == Str("") || rawStart == List([]) || rawStart == List([Str("")])
    requires rawEnd == Str("") || rawEnd == List([]) || rawEnd == List([Str("")])
    ensures MakeFilters(rawStart, rawEnd, None, None, None, None, parse) == Ok(DefaultFilters())
  {
  }
}
