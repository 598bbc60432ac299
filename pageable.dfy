/** Page requests: a 1-based page number, a page size and an optional list
    of (field, direction) sort keys. */
module Pageable {
  import opened Common

  const PageDefault: int := 1
  const SizeDefault: int := 10
  const SortItemMsg: string := "each sort item must be a (field, direction) tuple"

  datatype Direction = Asc | Desc

  /** The enum value of a direction. */
  function DirectionText(d: Direction): (r: string)
    ensures r == "asc" || r == "desc"
  {
    match d
    case Asc => "asc"
    case Desc => "desc"
  }

  datatype SortItem = SortItem(field: string, direction: Direction)

  /** One raw sort item as the request carries it: a list or tuple of
      strings, or a single value that is neither. */
  datatype RawSortItem = Sequence(parts: seq<string>) | Scalar(text: string)

  datatype Pageable = Pageable(page: int, size: int, sort: Option<seq<SortItem>>)

  /** The field bounds the model enforces: `page >= 1` and `size >= 1`. */
  predicate Valid(p: Pageable) { p.page >= 1 && p.size >= 1 }

  /** `SORT_DIRECTION(str(direction).lower())`. */
  function ParseDirection(field: string, direction: string): (r: Result<Direction>)
    ensures r.Ok? <==> Lower(direction) == "asc" || Lower(direction) == "desc"
    ensures r.Ok? ==> DirectionText(r.value) == Lower(direction)
  {
    var d := Lower(direction);
    if d == "asc" then Ok(Asc)
    else if d == "desc" then Ok(Desc)
    else Err("sort(f" + field + ")")
  }

  /** The normalisation of a single raw item. */
  function NormalizeItem(item: RawSortItem): (r: Result<SortItem>)
    ensures r.Ok? ==> item.Sequence? && |item.parts| == 2 && r.value.field == item.parts[0] &&
                      DirectionText(r.value.direction) == Lower(item.parts[1])
    ensures (item.Scalar? || |item.parts| != 2) ==> r == Err(SortItemMsg)
  {
    if item.Scalar? || |item.parts| != 2 then Err(SortItemMsg)
    else
      var d :- ParseDirection(item.parts[0], item.parts[1]);
      Ok(SortItem(item.parts[0], d))
  }

  /** The specification of `_normalize_sort` on a list of items: each item
      normalised in order, the first bad item deciding the error. */
  function NormalizeAll(items: seq<RawSortItem>): (r: Result<seq<SortItem>>)
    ensures r.Ok? ==> |r.value| == |items|
  {
    if items == [] then Ok([])
    else
      var init :- NormalizeAll(items[..|items| - 1]);
      var last :- NormalizeItem(items[|items| - 1]);
      Ok(init + [last])
  }

  /** A bad item fails the whole list with its own error. */
  lemma {:induction false} PrefixFailure(items: seq<RawSortItem>, k: nat)
    requires k <= |items| && NormalizeAll(items[..k]).Err?
    ensures NormalizeAll(items) == NormalizeAll(items[..k])
  {
    if k < |items| {
      var init := items[..|items| - 1];
      assert init[..k] == items[..k];
      PrefixFailure(init, k);
    } else {
      assert items[..k] == items;
    }
  }

  /** `_normalize_sort`: None stays None; otherwise the items are normalised
      one at a time, appending to the result. */
  method NormalizeSort(v: Option<seq<RawSortItem>>) returns (r: Result<Option<seq<SortItem>>>)
    ensures v.None? ==> r == Ok(None)
    ensures v.Some? ==> match NormalizeAll(v.value)
      case Ok(items) => r == Ok(Some(items))
      case Err(m) => r == Err(m)
  {
    if v.None? {
      return Ok(None);
    }
    var normalized: seq<SortItem> := [];
    var i := 0;
    while i < |v.value|
      invariant 0 <= i <= |v.value|
      invariant NormalizeAll(v.value[..i]) == Ok(normalized)
    {
      var item := NormalizeItem(v.value[i]);
      assert v.value[..i + 1][..i] == v.value[..i];
      if item.Err? {
        PrefixFailure(v.value, i + 1);
        return Err(item.msg);
      }
      normalized := normalized + [item.value];
      i := i + 1;
    }
    assert v.value[..i] == v.value;
    return Ok(Some(normalized));
  }

  /** Normalisation preserves order: item `i` of the result comes from raw
      item `i`, with its field kept and its direction lower-cased. */
  lemma {:induction false} NormalizeAllPointwise(items: seq<RawSortItem>)
    requires NormalizeAll(items).Ok?
    ensures forall i :: 0 <= i < |items| ==>
      NormalizeItem(items[i]).Ok? && NormalizeAll(items).value[i] == NormalizeItem(items[i]).value
  {
    if items != [] {
      var init := items[..|items| - 1];
      NormalizeAllPointwise(init);
      forall i | 0 <= i < |items|
        ensures NormalizeItem(items[i]).Ok? && NormalizeAll(items).value[i] == NormalizeItem(items[i]).value
      {
        if i < |items| - 1 {
          assert items[i] == init[i];
        }
      }
    }
  }

  /** The inverse direction: normalised items written back out as
      (field, direction) pairs. */
  function Render(items: seq<SortItem>): (r: seq<RawSortItem>)
    ensures |r| == |items|
    ensures forall i :: 0 <= i < |items| ==>
      r[i] == Sequence([items[i].field, DirectionText(items[i].direction)])
  {
    seq(|items|, i requires 0 <= i < |items| => Sequence([items[i].field, DirectionText(items[i].direction)]))
  }

  lemma LowerOfLower(s: string)
    requires s == "asc" || s == "desc"
    ensures Lower(s) == s
  {
  }

  /** A normalised sort list, written back out, normalises to itself. */
  lemma {:induction false} NormalizeRender(items: seq<SortItem>)
    ensures NormalizeAll(Render(items)) == Ok(items)
  {
    if items != [] {
      var n := |items| - 1;
      LowerOfLower(DirectionText(items[n].direction));
      assert Render(items)[..n] == Render(items[..n]);
      NormalizeRender(items[..n]);
      assert items[..n] + [items[n]] == items;
    }
  }

  /** `Pageable(page=..., size=..., sort=...)` as a value: the `ge=1` field
      bounds, then the `before` validator on the sort. */
  function Build(page: int, size: int, sort: Option<seq<RawSortItem>>): (r: Result<Pageable>)
    ensures r.Ok? <==> page >= 1 && size >= 1 && (sort.Some? ==> NormalizeAll(sort.value).Ok?)
    ensures r.Ok? ==> (Valid(r.value) && r.value.page == page && r.value.size == size &&
      r.value.sort == (if sort.None? then None else Some(NormalizeAll(sort.value).value)))
  {
    if page < 1 || size < 1 then Err("validation error")
    else if sort.None? then Ok(Pageable(page, size, None))
    else
      var s :- NormalizeAll(sort.value);
      Ok(Pageable(page, size, Some(s)))
  }

  /** The constructor, with the validator's loop. */
  method MakePageable(page: int, size: int, sort: Option<seq<RawSortItem>>) returns (r: Result<Pageable>)
    ensures r == Build(page, size, sort)
  {
    if page < 1 || size < 1 {
      return Err("validation error");
    }
    var s := NormalizeSort(sort);
    if s.Err? {
      return Err(s.msg);
    }
    return Ok(Pageable(page, size, s.value));
  }

  /** `Pageable()`: page 1 of size 10, unsorted. */
  function DefaultPageable(): (p: Pageable)
    ensures Valid(p) && p.page == PageDefault && p.size == SizeDefault && p.sort.None?
    ensures Build(PageDefault, SizeDefault, None) == Ok(p)
  {
    Pageable(PageDefault, SizeDefault, None)
  }

  /** `offset()`: the number of items before the page. */
  function Offset(p: Pageable): (r: int)
    ensures Valid(p) ==> r >= 0 && r + p.size == p.page * p.size
  {
    (p.page - 1) * p.size
  }

  /** `limit()`. */
  function Limit(p: Pageable): (r: int)
    ensures Valid(p) ==> r >= 1
  {
    p.size
  }

  /** `str()` of a stored `SORT_DIRECTION` member. The enum is a plain
      `Enum`, so it prints as class and member name, not as its value. */
  function EnumText(d: Direction): (r: string)
    ensures |r| == 18 || |r| == 19
  {
    match d
    case Asc => "SORT_DIRECTION.ASC"
    case Desc => "SORT_DIRECTION.DESC"
  }

  /** A stored sort handed back to the constructor, as the validator reads
      it: each item's direction through `str()`. */
  function Resubmitted(items: seq<SortItem>): (r: seq<RawSortItem>)
    ensures |r| == |items|
    ensures forall i :: 0 <= i < |items| ==>
      r[i] == Sequence([items[i].field, EnumText(items[i].direction)])
  {
    seq(|items|, i requires 0 <= i < |items| => Sequence([items[i].field, EnumText(items[i].direction)]))
  }

  function ResubmitSort(sort: Option<seq<SortItem>>): Option<seq<RawSortItem>> {
    if sort.None? then None else Some(Resubmitted(sort.value))
  }

  /** `next()`: the request rebuilt one page on, its stored sort passed back
      through the constructor. */
  function Next(p: Pageable): (r: Result<Pageable>)
    ensures Valid(p) && (p.sort.None? || p.sort.value == []) ==> r == Ok(p.(page := p.page + 1))
    ensures r.Ok? ==> r.value.page == p.page + 1 && r.value.size == p.size
  {
    Build(p.page + 1, p.size, ResubmitSort(p.sort))
  }

  /** `previous()`: rebuilt one page back, never below page 1. */
  function Previous(p: Pageable): (r: Result<Pageable>)
    ensures Valid(p) && (p.sort.None? || p.sort.value == []) ==>
      r == Ok(p.(page := if p.page > 1 then p.page - 1 else 1))
    ensures r.Ok? ==> r.value.page == (if p.page > 1 then p.page - 1 else 1) && r.value.size == p.size
  {
    Build(if p.page > 1 then p.page - 1 else 1, p.size, ResubmitSort(p.sort))
  }

  /** The validator rejects a resubmitted sort at its first item: the text
      of a member, lower-cased, is neither "asc" nor "desc". */
  lemma ResubmittedRejected(items: seq<SortItem>)
    requires items != []
    ensures NormalizeAll(Resubmitted(items)) == Err("sort(f" + items[0].field + ")")
  {
    var raw := Resubmitted(items);
    var t := EnumText(items[0].direction);
    assert |Lower(t)| == |t|;
    assert raw[..1][..0] == [];
    assert NormalizeAll(raw[..1]) == Err("sort(f" + items[0].field + ")");
    PrefixFailure(raw, 1);
  }

  /** As written, a sorted request cannot move: both `next()` and
      `previous()` raise the direction guard's error. */
  lemma SortedRequestCannotMove(p: Pageable)
    requires Valid(p) && p.sort.Some? && p.sort.value != []
    ensures Next(p) == Err("sort(f" + p.sort.value[0].field + ")")
    ensures Previous(p) == Err("sort(f" + p.sort.value[0].field + ")")
  {
    ResubmittedRejected(p.sort.value);
  }

  /** As written, moving succeeds exactly for unsorted requests. */
  lemma MovesIffUnsorted(p: Pageable)
    requires Valid(p)
    ensures Next(p).Ok? <==> p.sort.None? || p.sort.value == []
    ensures Previous(p).Ok? <==> p.sort.None? || p.sort.value == []
  {
    if p.sort.Some? && p.sort.value != [] {
      SortedRequestCannotMove(p);
    }
  }

  /** The evident intent: the sort handed back by its enum values. */
  function ValueSort(sort: Option<seq<SortItem>>): Option<seq<RawSortItem>> {
    if sort.None? then None else Some(Render(sort.value))
  }

  lemma ValueSortNormalizes(sort: Option<seq<SortItem>>)
    ensures sort.Some? ==> NormalizeAll(Render(sort.value)) == Ok(sort.value)
  {
    if sort.Some? {
      NormalizeRender(sort.value);
    }
  }

  /** `next()` rebuilt from the directions' values: one page on, with the
      same size and sort. */
  function NextByValue(p: Pageable): (r: Result<Pageable>)
    ensures Valid(p) ==> r == Ok(p.(page := p.page + 1))
  {
    ValueSortNormalizes(p.sort);
    Build(p.page + 1, p.size, ValueSort(p.sort))
  }

  /** `previous()` rebuilt from the directions' values: one page back but
      never below page 1, with the same size and sort. */
  function PreviousByValue(p: Pageable): (r: Result<Pageable>)
    ensures Valid(p) ==> r == Ok(p.(page := if p.page > 1 then p.page - 1 else 1))
  {
    ValueSortNormalizes(p.sort);
    Build(if p.page > 1 then p.page - 1 else 1, p.size, ValueSort(p.sort))
  }

  /** The next page starts where this one's window ends. */
  lemma NextOffset(p: Pageable)
    requires Valid(p)
    ensures NextByValue(p).Ok? && Offset(NextByValue(p).value) == Offset(p) + Limit(p)
    ensures Next(p).Ok? ==> Offset(Next(p).value) == Offset(p) + Limit(p)
  {
  }

  /** Going forward then back returns to the same request; going back then
      forward does too, except from page 1, where going back stays put. As
      written, this holds only for unsorted requests. */
  lemma PreviousNext(p: Pageable)
    requires Valid(p)
    ensures PreviousByValue(NextByValue(p).value) == Ok(p)
    ensures p.page > 1 ==> NextByValue(PreviousByValue(p).value) == Ok(p)
    ensures p.page == 1 ==> PreviousByValue(p) == Ok(p)
    ensures Next(p).Ok? ==> Previous(Next(p).value) == Ok(p)
  {
    MovesIffUnsorted(p);
  }
}
