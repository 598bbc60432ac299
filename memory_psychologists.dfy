/** The list-backed psychologist store: append, replace by id, first match
    by id or CRP, a chain of optional filters with a page window, and the
    attachment of stored slots to a psychologist. */
module PsychologistStore {
  import opened Common
  import opened Pageable
  import opened Page
  import opened Store
  import opened Specialty
  import opened Availability
  import opened Psychologist

  /** The query of `get`; sets of strings as the request carries them. */
  datatype PsychologistFilters = PsychologistFilters(
    name: Option<string>,
    cityId: Option<string>,
    stateId: Option<string>,
    specialtyIds: Option<set<string>>,
    approaches: Option<set<string>>,
    audiences: Option<set<string>>,
    minPrice: Option<real>,
    maxPrice: Option<real>)

  /** The number of filter stages, in the order `get` applies them: name,
      city, specialties, approaches, audiences, minimum and maximum price. */
  const StageCount: nat := 7

  /** Whether stage `i` runs: a truthy name, city or set, or a price that is
      not None (0 included). */
  predicate Present(f: PsychologistFilters, i: nat) {
    if i == 0 then f.name.Some? && f.name.value != []
    else if i == 1 then f.cityId.Some? && f.cityId.value != []
    else if i == 2 then f.specialtyIds.Some? && |f.specialtyIds.value| > 0
    else if i == 3 then f.approaches.Some? && |f.approaches.value| > 0
    else if i == 4 then f.audiences.Some? && |f.audiences.value| > 0
    else if i == 5 then f.minPrice.Some?
    else if i == 6 then f.maxPrice.Some?
    else false
  }

  /** The condition of stage `i`. `show` is `str()` of an id; `approachValue`
      is the `.value` the approach filter reads. */
  predicate Keep(p: PsychologistData, f: PsychologistFilters, i: nat, show: Uuid -> string,
                 approachValue: Approach -> string)
    requires Present(f, i)
  {
    if i == 0 then IsSubstring(Lower(f.name.value), Lower(p.user.name))
    else if i == 1 then show(p.user.city.id) == f.cityId.value
    else if i == 2 then exists k :: 0 <= k < |p.specialties| && show(p.specialties[k].id) in f.specialtyIds.value
    else if i == 3 then exists k :: 0 <= k < |p.approaches| && approachValue(p.approaches[k]) in f.approaches.value
    else if i == 4 then exists k :: 0 <= k < |p.audiences| && AudienceValue(p.audiences[k]) in f.audiences.value
    else if i == 5 then p.valuePerAppointment >= f.minPrice.value
    else p.valuePerAppointment <= f.maxPrice.value
  }

  /** Stage `i` lets `p` through. */
  predicate Passes(p: PsychologistData, f: PsychologistFilters, i: nat, show: Uuid -> string,
                   approachValue: Approach -> string)
  {
    !Present(f, i) || Keep(p, f, i, show, approachValue)
  }

  /** `p` passes the first `n` stages. */
  predicate PassesFirst(p: PsychologistData, f: PsychologistFilters, n: nat, show: Uuid -> string,
                        approachValue: Approach -> string)
  {
    n == 0 || (PassesFirst(p, f, n - 1, show, approachValue) && Passes(p, f, n - 1, show, approachValue))
  }

  /** The list after the first `n` stages, each a comprehension over the
      previous list. */
  function Stages(items: seq<PsychologistData>, f: PsychologistFilters, n: nat, show: Uuid -> string,
                  approachValue: Approach -> string): seq<PsychologistData>
  {
    if n == 0 then items
    else
      Stage(Stages(items, f, n - 1, show, approachValue), Present(f, n - 1),
            p => Present(f, n - 1) && Keep(p, f, n - 1, show, approachValue))
  }

  /** The chain of stages is one filter by the conjunction of the present
      conditions: an order-preserving sublist of the store. */
  lemma {:induction false} StagesAreOneFilter(items: seq<PsychologistData>, f: PsychologistFilters, n: nat,
                                              show: Uuid -> string, approachValue: Approach -> string)
    ensures Stages(items, f, n, show, approachValue) == FilterSeq(items, p => PassesFirst(p, f, n, show, approachValue))
  {
    if n == 0 {
      FilterAll(items, p => PassesFirst(p, f, 0, show, approachValue));
    } else {
      StagesAreOneFilter(items, f, n - 1, show, approachValue);
      StageAfter(items, p => PassesFirst(p, f, n - 1, show, approachValue), Present(f, n - 1),
                 p => Present(f, n - 1) && Keep(p, f, n - 1, show, approachValue),
                 p => PassesFirst(p, f, n, show, approachValue));
    }
  }

  /** The list `get` pages over. */
  function Filtered(items: seq<PsychologistData>, filters: Option<PsychologistFilters>, show: Uuid -> string,
                    approachValue: Approach -> string): (r: seq<PsychologistData>)
    ensures filters.None? ==> r == items
    ensures filters.Some? ==> r == FilterSeq(items, p => PassesFirst(p, filters.value, StageCount, show, approachValue))
  {
    if filters.None? then items
    else
      StagesAreOneFilter(items, filters.value, StageCount, show, approachValue);
      Stages(items, filters.value, StageCount, show, approachValue)
  }

  /** `next(item for item in items if item.id == id)`. */
  function FindById(items: seq<PsychologistData>, id: Uuid): (r: Option<PsychologistData>)
    ensures r.Some? <==> exists j :: 0 <= j < |items| && items[j].user.id == id
    ensures r.Some? ==> r.value in items && r.value.user.id == id
  {
    FirstMatch(items, (p: PsychologistData) => p.user.id == id)
  }

  /** The store after `update(e)`: the first item with e's id replaced. */
  function ReplaceFirst(items: seq<PsychologistData>, e: PsychologistData): seq<PsychologistData>
  {
    var i := FirstIndex(items, (p: PsychologistData) => p.user.id == e.user.id);
    if i.Some? then items[i.value := e] else items
  }

  /** `update` changes the first item with the id and nothing else; with an
      unknown id it changes nothing; afterwards the id finds the new value. */
  lemma ReplaceFirstSpec(items: seq<PsychologistData>, e: PsychologistData)
    ensures |ReplaceFirst(items, e)| == |items|
    ensures FindById(items, e.user.id).None? ==> ReplaceFirst(items, e) == items
    ensures FindById(items, e.user.id).Some? ==> FindById(ReplaceFirst(items, e), e.user.id) == Some(e)
    ensures forall j :: 0 <= j < |items| && ReplaceFirst(items, e)[j] != items[j] ==>
      ReplaceFirst(items, e)[j] == e && items[j].user.id == e.user.id &&
      forall k :: 0 <= k < j ==> items[k].user.id != e.user.id
  {
    var r := ReplaceFirst(items, e);
    var i := FirstIndex(items, (p: PsychologistData) => p.user.id == e.user.id);
    if i.Some? {
      var hit := (p: PsychologistData) => p.user.id == e.user.id;
      assert r[i.value] == e;
      forall k | 0 <= k < i.value
        ensures !hit(r[k])
      {
        assert r[k] == items[k];
      }
      var j := FirstIndex(r, hit);
      assert hit(r[i.value]);
      assert j == Some(i.value);
    }
  }

  /** The slots of the availability store with the given ids, in the order
      of the ids, each the first slot with that id; unknown ids are
      skipped. */
  function FoundSlots(ids: seq<Uuid>, slots: seq<AvailabilityData>): (r: seq<AvailabilityData>)
    ensures |r| <= |ids|
    ensures forall k :: 0 <= k < |r| ==> r[k] in slots
  {
    if ids == [] then []
    else
      var last := FirstMatch(slots, (a: AvailabilityData) => a.id == ids[|ids| - 1]);
      FoundSlots(ids[..|ids| - 1], slots) + (if last.Some? then [last.value] else [])
  }

  /** Every known id contributes its slot, and only the known ones do. */
  lemma {:induction false} FoundSlotsSpec(ids: seq<Uuid>, slots: seq<AvailabilityData>)
    ensures forall k :: 0 <= k < |FoundSlots(ids, slots)| ==> FoundSlots(ids, slots)[k].id in ids
    ensures (forall k :: 0 <= k < |ids| ==> exists j :: 0 <= j < |slots| && slots[j].id == ids[k]) ==>
      |FoundSlots(ids, slots)| == |ids|
  {
    if ids != [] {
      FoundSlotsSpec(ids[..|ids| - 1], slots);
      var init := ids[..|ids| - 1];
      assert forall x :: x in init ==> x in ids;
      if forall k :: 0 <= k < |ids| ==> exists j :: 0 <= j < |slots| && slots[j].id == ids[k] {
        assert forall k :: 0 <= k < |init| ==> init[k] == ids[k];
      }
    }
  }

  /** The store after `add_availabilities`: the first psychologist with the
      entity's id takes the found slots through `add`; the rest is kept. */
  function AttachFirst(items: seq<PsychologistData>, id: Uuid, found: seq<AvailabilityData>,
                       add: (PsychologistData, seq<AvailabilityData>) -> PsychologistData): seq<PsychologistData>
  {
    var i := FirstIndex(items, (p: PsychologistData) => p.user.id == id);
    if i.Some? then items[i.value := add(items[i.value], found)] else items
  }

  /** The store. */
  class PsychologistRepo {
    var items: seq<PsychologistData>

    constructor ()
      ensures items == []
    {
      items := [];
    }

    /** `exists_by_crp`. */
    function ExistsByCrp(crp: string): (r: bool)
      reads this
      ensures r <==> exists j :: 0 <= j < |items| && items[j].crp == crp
    {
      FirstMatch(items, (p: PsychologistData) => p.crp == crp).Some?
    }

    method Create(e: PsychologistData) returns (r: PsychologistData)
      modifies this
      ensures items == old(items) + [e] && r == e
    {
      items := items + [e];
      return e;
    }

    method Update(e: PsychologistData) returns (r: PsychologistData)
      modifies this
      ensures items == ReplaceFirst(old(items), e) && r == e
    {
      var i := 0;
      while i < |items|
        invariant 0 <= i <= |items| && items == old(items)
        invariant forall j :: 0 <= j < i ==> items[j].user.id != e.user.id
      {
        if items[i].user.id == e.user.id {
          ghost var hit := (p: PsychologistData) => p.user.id == e.user.id;
          assert FirstIndex(items, hit) == Some(i) by {
            var k := FirstIndex(items, hit);
            assert k.Some?;
            assert !(k.value < i) && !(k.value > i);
          }
          items := items[i := e];
          return e;
        }
        i := i + 1;
      }
      return e;
    }

    /** `get`: the filtered list windowed; the total counts the whole
        store. */
    function Get(p: Pageable, filters: Option<PsychologistFilters>, show: Uuid -> string,
                 approachValue: Approach -> string): (r: Page<PsychologistData>)
      reads this
      requires Valid(p)
      ensures r.total == |items| && r.pageable == p && |r.items| <= p.size
      ensures forall k :: 0 <= k < |r.items| ==> r.items[k] in items
      ensures filters.Some? ==> forall k :: 0 <= k < |r.items| ==>
        PassesFirst(r.items[k], filters.value, StageCount, show, approachValue)
    {
      var filtered := Filtered(items, filters, show, approachValue);
      Page(Window(filtered, p), p, |items|)
    }

    function GetById(id: Uuid): (r: Option<PsychologistData>)
      reads this
      ensures r.Some? <==> exists j :: 0 <= j < |items| && items[j].user.id == id
      ensures r.Some? ==> r.value.user.id == id
    {
      FindById(items, id)
    }

    /** `add_availabilities(entity, ids)`: look every id up in the slot
        store, then hand the slots found to the first psychologist with the
        entity's id. `add` is the psychologist's own attachment, which the
        entity does not define. */
    method AddAvailabilities(entity: PsychologistData, ids: seq<Uuid>, slots: seq<AvailabilityData>,
                             add: (PsychologistData, seq<AvailabilityData>) -> PsychologistData)
      modifies this
      ensures items == AttachFirst(old(items), entity.user.id, FoundSlots(ids, slots), add)
    {
      var toAdd: seq<AvailabilityData> := [];
      var n := 0;
      while n < |ids|
        invariant 0 <= n <= |ids|
        invariant toAdd == FoundSlots(ids[..n], slots)
      {
        assert ids[..n + 1][..n] == ids[..n];
        var found := FirstMatch(slots, (a: AvailabilityData) => a.id == ids[n]);
        if found.Some? {
          toAdd := toAdd + [found.value];
        }
        n := n + 1;
      }
      assert ids[..n] == ids;
      var i := 0;
      while i < |items|
        invariant 0 <= i <= |items| && items == old(items)
        invariant forall j :: 0 <= j < i ==> items[j].user.id != entity.user.id
      {
        if items[i].user.id == entity.user.id {
          ghost var hit := (p: PsychologistData) => p.user.id == entity.user.id;
          assert FirstIndex(items, hit) == Some(i) by {
            var k := FirstIndex(items, hit);
            assert k.Some?;
            assert !(k.value < i) && !(k.value > i);
          }
          items := items[i := add(items[i], toAdd)];
          return;
        }
        i := i + 1;
      }
    }
  }
}
