/** The list-backed patient store: append, a filter by name and by city
    with a page window, and the first match by id. */
module PatientStore {
  import opened Common
  import opened Pageable
  import opened Page
  import opened Store
  import U = User

  datatype PatientFilters = PatientFilters(name: Option<string>, email: Option<string>, cityId: Option<string>,
                                           stateId: Option<string>)

  predicate NamePresent(f: PatientFilters) { f.name.Some? && f.name.value != [] }
  predicate CityPresent(f: PatientFilters) { f.cityId.Some? && f.cityId.value != [] }

  /** `filters.name.lower() in p.name.lower()`. */
  predicate NameMatches(p: U.UserData, f: PatientFilters) {
    f.name.Some? && IsSubstring(Lower(f.name.value), Lower(p.name))
  }

  /** `str(p.city.id) == str(filters.city_id)`, with `show` as `str()` of
      the id. */
  predicate CityMatches(p: U.UserData, f: PatientFilters, show: Uuid -> string) {
    f.cityId.Some? && show(p.city.id) == f.cityId.value
  }

  /** A patient kept by the filters: each truthy filter holds; email and
      state are not filtered on. */
  predicate Matches(p: U.UserData, f: PatientFilters, show: Uuid -> string) {
    (!NamePresent(f) || NameMatches(p, f)) && (!CityPresent(f) || CityMatches(p, f, show))
  }

  function Filtered(items: seq<U.UserData>, filters: Option<PatientFilters>, show: Uuid -> string)
    : (r: seq<U.UserData>)
    ensures filters.None? ==> r == items
    ensures filters.Some? ==> r == FilterSeq(items, (p: U.UserData) => Matches(p, filters.value, show))
  {
    if filters.None? then items
    else
      var f := filters.value;
      var byName := Stage(items, NamePresent(f), (p: U.UserData) => NameMatches(p, f));
      FilterAll(items, (p: U.UserData) => true);
      StageAfter(items, (p: U.UserData) => true, NamePresent(f), (p: U.UserData) => NameMatches(p, f),
                 (p: U.UserData) => !NamePresent(f) || NameMatches(p, f));
      StageAfter(items, (p: U.UserData) => !NamePresent(f) || NameMatches(p, f), CityPresent(f),
                 (p: U.UserData) => CityMatches(p, f, show), (p: U.UserData) => Matches(p, f, show));
      Stage(byName, CityPresent(f), (p: U.UserData) => CityMatches(p, f, show))
  }

  class PatientRepo {
    var items: seq<U.UserData>

    constructor ()
      ensures items == []
    {
      items := [];
    }

    method Save(e: U.UserData) returns (r: U.UserData)
      modifies this
      ensures items == old(items) + [e] && r == e
    {
      items := items + [e];
      return e;
    }

    /** `get`: the filtered patients in store order, windowed; the total
        counts the whole store. */
    function Get(p: Pageable, filters: Option<PatientFilters>, show: Uuid -> string): (r: Page<U.UserData>)
      reads this
      requires Valid(p)
      ensures r.total == |items| && r.pageable == p && |r.items| <= p.size
      ensures forall k :: 0 <= k < |r.items| ==>
        (Offset(p) + k < |Filtered(items, filters, show)| && r.items[k] == Filtered(items, filters, show)[Offset(p) + k])
      ensures filters.Some? ==> forall k :: 0 <= k < |r.items| ==>
        r.items[k] in items && Matches(r.items[k], filters.value, show)
    {
      Page(Window(Filtered(items, filters, show), p), p, |items|)
    }

    function GetById(id: Uuid): (r: Option<U.UserData>)
      reads this
      ensures r.Some? <==> exists j :: 0 <= j < |items| && items[j].id == id
      ensures r.Some? ==> r.value in items && r.value.id == id
    {
      FirstMatch(items, (p: U.UserData) => p.id == id)
    }
  }

  /** The name filter ignores case: a query matches whatever the case of
      either side. */
  lemma NameFilterIgnoresCase(p: U.UserData, f: PatientFilters)
    requires f.name.Some?
    ensures NameMatches(p, f) <==> NameMatches(p.(name := Lower(p.name)), f.(name := Some(Lower(f.name.value))))
  {
    LowerIdempotent(p.name);
    LowerIdempotent(f.name.value);
  }
}
