/** The list-backed slot store: append, a filter by flag and by calendar
    day with a page window, and the first match by id. */
module AvailabilityStore {
  import opened Common
  import opened Pageable
  import opened Page
  import opened Store
  import opened Availability

  datatype AvailabilityFilters = AvailabilityFilters(date: Option<DateTime>, available: Option<bool>)

  /** A slot kept by the filters: the given flag, on the given calendar day. */
  predicate Matches(a: AvailabilityData, f: AvailabilityFilters) {
    FlagMatches(a, f) && (f.date.None? || DayMatches(a, f))
  }

  predicate FlagMatches(a: AvailabilityData, f: AvailabilityFilters) {
    f.available.None? || a.available == f.available.value
  }

  /** `a.date.date() == filters.date.date()`. */
  predicate DayMatches(a: AvailabilityData, f: AvailabilityFilters) {
    f.date.Some? && a.date.day == f.date.value.day
  }

  /** The flag stage runs when a flag is given, then the day stage when a
      date is given. */
  function Filtered(items: seq<AvailabilityData>, filters: Option<AvailabilityFilters>): (r: seq<AvailabilityData>)
    ensures filters.None? ==> r == items
    ensures filters.Some? ==> r == FilterSeq(items, (a: AvailabilityData) => Matches(a, filters.value))
  {
    if filters.None? then items
    else
      var f := filters.value;
      var byFlag := Stage(items, f.available.Some?, (a: AvailabilityData) => FlagMatches(a, f));
      FilterAll(items, (a: AvailabilityData) => true);
      StageAfter(items, (a: AvailabilityData) => true, f.available.Some?, (a: AvailabilityData) => FlagMatches(a, f),
                 (a: AvailabilityData) => FlagMatches(a, f));
      StageAfter(items, (a: AvailabilityData) => FlagMatches(a, f), f.date.Some?,
                 (a: AvailabilityData) => DayMatches(a, f), (a: AvailabilityData) => Matches(a, f));
      Stage(byFlag, f.date.Some?, (a: AvailabilityData) => DayMatches(a, f))
  }

  class AvailabilityRepo {
    var items: seq<AvailabilityData>

    constructor ()
      ensures items == []
    {
      items := [];
    }

    method Create(e: AvailabilityData) returns (r: AvailabilityData)
      modifies this
      ensures items == old(items) + [e] && r == e
    {
      items := items + [e];
      return e;
    }

    /** `get`: the filtered slots in store order, windowed; the total
        counts the whole store. */
    function Get(p: Pageable, filters: Option<AvailabilityFilters>): (r: Page<AvailabilityData>)
      reads this
      requires Valid(p)
      ensures r.total == |items| && r.pageable == p && |r.items| <= p.size
      ensures forall k :: 0 <= k < |r.items| ==>
        (Offset(p) + k < |Filtered(items, filters)| && r.items[k] == Filtered(items, filters)[Offset(p) + k])
      ensures filters.Some? ==> forall k :: 0 <= k < |r.items| ==> r.items[k] in items && Matches(r.items[k], filters.value)
    {
      Page(Window(Filtered(items, filters), p), p, |items|)
    }

    function GetById(id: Uuid): (r: Option<AvailabilityData>)
      reads this
      ensures r.Some? <==> exists j :: 0 <= j < |items| && items[j].id == id
      ensures r.Some? ==> r.value in items && r.value.id == id
    {
      FirstMatch(items, (a: AvailabilityData) => a.id == id)
    }
  }

  /** A slot just appended is found by its id when no earlier slot has it. */
  lemma AppendThenFind(items: seq<AvailabilityData>, e: AvailabilityData)
    requires forall j :: 0 <= j < |items| ==> items[j].id != e.id
    ensures FirstMatch(items + [e], (a: AvailabilityData) => a.id == e.id) == Some(e)
  {
    var s := items + [e];
    assert s[|items|] == e;
  }
}
