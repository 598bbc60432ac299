/** The list-backed specialty store, seeded with one specialty: append,
    the items whose id is among the given ones, and the first match by id. */
module SpecialtyStore {
  import opened Common
  import opened Store
  import opened Specialty

  /** The seeded specialty's id, 3fa85f64-5717-4562-b3fc-2c963f66afa6. */
  const AnxietyId: Uuid := Uuid(0x3fa85f6457174562b3fc2c963f66afa6)

  const NotFoundMsg: string := "One or more specialties were not found."

  function Seed(): (r: seq<Specialty>)
    ensures |r| == 1 && r[0].name == "Ansiedade"
  {
    [Specialty(AnxietyId, "Ansiedade", "Ansiedade")]
  }

  /** `[item for item in items if item.id in ids]`. */
  function ByIds(items: seq<Specialty>, ids: seq<Uuid>): (r: seq<Specialty>)
  {
    FilterSeq(items, (s: Specialty) => s.id in ids)
  }

  /** No two items share an id. */
  predicate DistinctIds(items: seq<Specialty>) {
    forall i, j :: 0 <= i < j < |items| ==> items[i].id != items[j].id
  }

  predicate HasDuplicate(ids: seq<Uuid>) {
    exists i, j :: 0 <= i < j < |ids| && ids[i] == ids[j]
  }

  function IdSet(items: seq<Specialty>): set<Uuid> {
    set s | s in items :: s.id
  }

  /** Filtering keeps ids distinct. */
  lemma {:induction false} FilterKeepsDistinct(items: seq<Specialty>, keep: Specialty -> bool)
    requires DistinctIds(items)
    ensures DistinctIds(FilterSeq(items, keep))
  {
    if items != [] {
      var init := items[..|items| - 1];
      var last := items[|items| - 1];
      assert DistinctIds(init);
      FilterKeepsDistinct(init, keep);
      var r := FilterSeq(init, keep);
      forall k | 0 <= k < |r|
        ensures r[k].id != last.id
      {
        var j :| 0 <= j < |init| && init[j] == r[k];
      }
    }
  }

  /** Items with distinct ids have as many ids as items. */
  lemma {:induction false} DistinctIdCount(items: seq<Specialty>)
    requires DistinctIds(items)
    ensures |IdSet(items)| == |items|
  {
    if items != [] {
      var init := items[..|items| - 1];
      var last := items[|items| - 1];
      assert DistinctIds(init);
      DistinctIdCount(init);
      assert IdSet(items) == IdSet(init) + {last.id} by {
        assert items == init + [last];
      }
      assert last.id !in IdSet(init);
    }
  }

  /** A list of ids with a repetition has fewer distinct ids than entries. */
  lemma {:induction false} DuplicateCount(ids: seq<Uuid>)
    ensures |set x | x in ids| <= |ids|
    ensures HasDuplicate(ids) ==> |set x | x in ids| < |ids|
  {
    if ids != [] {
      var init := ids[..|ids| - 1];
      var last := ids[|ids| - 1];
      DuplicateCount(init);
      assert (set x | x in ids) == (set x | x in init) + {last} by {
        assert ids == init + [last];
      }
      if HasDuplicate(ids) && !HasDuplicate(init) {
        var i, j :| 0 <= i < j < |ids| && ids[i] == ids[j];
        assert j == |ids| - 1;
        assert last in init;
      }
    }
  }

  /** With distinct stored ids, a request that repeats an id gets fewer
      specialties than ids, so the creation check fails. */
  lemma DuplicateIdsFailCheck(items: seq<Specialty>, ids: seq<Uuid>)
    requires DistinctIds(items) && HasDuplicate(ids)
    ensures |ByIds(items, ids)| < |ids|
    ensures SpecialtiesCheck(ByIds(items, ids), ids) == Err(NotFoundMsg)
  {
    var r := ByIds(items, ids);
    FilterKeepsDistinct(items, (s: Specialty) => s.id in ids);
    DistinctIdCount(r);
    assert IdSet(r) <= set x | x in ids;
    SubsetCard(IdSet(r), set x | x in ids);
    DuplicateCount(ids);
  }

  /** The check of the psychologist creation: every requested id must have
      come back. */
  function SpecialtiesCheck(found: seq<Specialty>, ids: seq<Uuid>): (r: Result<seq<Specialty>>)
    ensures r.Ok? <==> |found| == |ids|
    ensures r.Ok? ==> r.value == found
  {
    if |found| != |ids| then Err(NotFoundMsg) else Ok(found)
  }

  class SpecialtyRepo {
    var items: seq<Specialty>

    constructor ()
      ensures items == Seed()
    {
      items := Seed();
    }

    method Save(e: Specialty) returns (r: Specialty)
      modifies this
      ensures items == old(items) + [e] && r == e
    {
      items := items + [e];
      return e;
    }

    /** `get_by_ids`: in store order, each stored item at most once. */
    function GetByIds(ids: seq<Uuid>): (r: seq<Specialty>)
      reads this
      ensures forall k :: 0 <= k < |r| ==> r[k] in items && r[k].id in ids
      ensures forall k :: 0 <= k < |items| && items[k].id in ids ==> items[k] in r
      ensures |r| <= |items|
    {
      ByIds(items, ids)
    }

    function GetById(id: Uuid): (r: Option<Specialty>)
      reads this
      ensures r.Some? <==> exists j :: 0 <= j < |items| && items[j].id == id
      ensures r.Some? ==> r.value in items && r.value.id == id
    {
      FirstMatch(items, (s: Specialty) => s.id == id)
    }
  }

  /** Asking the seeded store for the seeded id twice yields it once. */
  lemma SeedTwice()
    ensures ByIds(Seed(), [AnxietyId, AnxietyId]) == Seed()
    ensures SpecialtiesCheck(ByIds(Seed(), [AnxietyId, AnxietyId]), [AnxietyId, AnxietyId]) == Err(NotFoundMsg)
  {
    var s := Seed();
    assert s[..0] == [];
  }
}
