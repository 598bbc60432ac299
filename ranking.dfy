/** The relevance ranking of psychologists: a weighted score per candidate
    from the requested gender, price and overlaps of approaches, specialties
    and audiences; candidates sorted by descending score, then one page
    skipped and limited. */
module Ranking {
  import opened Common
  import opened Pageable
  import U = User

  /** The weight table. Only three of its entries are read: the specialty
      and audience terms are weighted with the approach entry. */
  const GenderWeight: real := 10.0
  const SpecialtyWeight: real := 40.0
  const ApproachWeight: real := 30.0
  const AudienceWeight: real := 15.0
  const MaxPriceWeight: real := 5.0

  /** The fields of a stored psychologist the score reads. `priceField` is
      the value of the field the price term compares, None when the document
      has no such field. */
  datatype Candidate = Candidate(
    id: Uuid,
    gender: U.Gender,
    priceField: Option<real>,
    valuePerAppointment: real,
    approachIds: seq<Uuid>,
    specialtyIds: seq<Uuid>,
    audiences: seq<string>)

  /** The requested preferences. An empty set and an absent one are alike:
      both leave their term out. */
  datatype ScoreFilters = ScoreFilters(
    gender: Option<U.Gender>,
    maxPrice: Option<real>,
    approachIds: set<Uuid>,
    specialtyIds: set<Uuid>,
    audiences: set<string>)

  /** One addend of the `$add` expression. */
  datatype Term =
    | GenderTerm(gender: U.Gender)
    | PriceTerm(maxPrice: real)
    | ApproachTerm(approachIds: set<Uuid>)
    | SpecialtyTerm(specialtyIds: set<Uuid>)
    | AudienceTerm(audiences: set<string>)

  /** `$lte` on a field that may be missing: a missing field is null, which
      sorts below every number, so the comparison holds. */
  predicate AtMost(field: Option<real>, bound: real) {
    field.None? || field.value <= bound
  }

  /** `weight * |set(have) & want| / |want|`. */
  function Overlap<T>(have: seq<T>, want: set<T>, weight: real): (r: real)
    requires |want| > 0 && weight >= 0.0
    ensures 0.0 <= r <= weight
  {
    var common := set x | x in have && x in want;
    assert common <= want;
    SubsetCard(common, want);
    weight * (|common| as real) / (|want| as real)
  }

  /** The value of one term for a candidate. */
  function Eval(t: Term, c: Candidate): (r: real)
  {
    match t
    case GenderTerm(g) => if c.gender == g then GenderWeight else 0.0
    case PriceTerm(m) => if AtMost(c.priceField, m) then MaxPriceWeight else 0.0
    case ApproachTerm(w) => if |w| > 0 then Overlap(c.approachIds, w, ApproachWeight) else 0.0
    case SpecialtyTerm(w) => if |w| > 0 then Overlap(c.specialtyIds, w, ApproachWeight) else 0.0
    case AudienceTerm(w) => if |w| > 0 then Overlap(c.audiences, w, ApproachWeight) else 0.0
  }

  /** The terms present for the given filters, in the order they are added:
      gender if given, price if truthy (0 is not), and each overlap whose set
      is non-empty. */
  function Terms(f: ScoreFilters): seq<Term> {
    GenderPiece(f) + PricePiece(f) + ApproachPiece(f) + SpecialtyPiece(f) + AudiencePiece(f)
  }

  /** The scores list, built by conditional appends. */
  method BuildTerms(f: ScoreFilters) returns (terms: seq<Term>)
    ensures terms == Terms(f)
  {
    terms := [];
    if f.gender.Some? {
      terms := terms + [GenderTerm(f.gender.value)];
    }
    if f.maxPrice.Some? && f.maxPrice.value != 0.0 {
      terms := terms + [PriceTerm(f.maxPrice.value)];
    }
    if |f.approachIds| > 0 {
      terms := terms + [ApproachTerm(f.approachIds)];
    }
    if |f.specialtyIds| > 0 {
      terms := terms + [SpecialtyTerm(f.specialtyIds)];
    }
    if |f.audiences| > 0 {
      terms := terms + [AudienceTerm(f.audiences)];
    }
  }

  /** `$add` over the terms; an empty sum is 0. */
  function Total(terms: seq<Term>, c: Candidate): real {
    if terms == [] then 0.0 else Total(terms[..|terms| - 1], c) + Eval(terms[|terms| - 1], c)
  }

  lemma {:induction false} TotalAppend(a: seq<Term>, b: seq<Term>, c: Candidate)
    ensures Total(a + b, c) == Total(a, c) + Total(b, c)
  {
    if b == [] {
      assert a + b == a;
    } else {
      assert (a + b)[..|a + b| - 1] == a + b[..|b| - 1];
      TotalAppend(a, b[..|b| - 1], c);
    }
  }

  /** The score written term by term. */
  function Score(c: Candidate, f: ScoreFilters): real {
    GenderScore(c, f) + PriceScore(c, f) + ApproachScore(c, f) + SpecialtyScore(c, f) + AudienceScore(c, f)
  }

  function GenderScore(c: Candidate, f: ScoreFilters): real {
    if f.gender.Some? && c.gender == f.gender.value then GenderWeight else 0.0
  }

  function PriceScore(c: Candidate, f: ScoreFilters): real {
    if f.maxPrice.Some? && f.maxPrice.value != 0.0 && AtMost(c.priceField, f.maxPrice.value)
    then MaxPriceWeight else 0.0
  }

  function ApproachScore(c: Candidate, f: ScoreFilters): real {
    if |f.approachIds| > 0 then Overlap(c.approachIds, f.approachIds, ApproachWeight) else 0.0
  }

  function SpecialtyScore(c: Candidate, f: ScoreFilters): real {
    if |f.specialtyIds| > 0 then Overlap(c.specialtyIds, f.specialtyIds, ApproachWeight) else 0.0
  }

  function AudienceScore(c: Candidate, f: ScoreFilters): real {
    if |f.audiences| > 0 then Overlap(c.audiences, f.audiences, ApproachWeight) else 0.0
  }

  function GenderPiece(f: ScoreFilters): seq<Term> {
    if f.gender.Some? then [GenderTerm(f.gender.value)] else []
  }

  function PricePiece(f: ScoreFilters): seq<Term> {
    if f.maxPrice.Some? && f.maxPrice.value != 0.0 then [PriceTerm(f.maxPrice.value)] else []
  }

  function ApproachPiece(f: ScoreFilters): seq<Term> {
    if |f.approachIds| > 0 then [ApproachTerm(f.approachIds)] else []
  }

  function SpecialtyPiece(f: ScoreFilters): seq<Term> {
    if |f.specialtyIds| > 0 then [SpecialtyTerm(f.specialtyIds)] else []
  }

  function AudiencePiece(f: ScoreFilters): seq<Term> {
    if |f.audiences| > 0 then [AudienceTerm(f.audiences)] else []
  }

  /** Each piece of the term list contributes its own score. */
  lemma PieceScores(c: Candidate, f: ScoreFilters, x: seq<Term>)
    ensures Total(GenderPiece(f), c) == GenderScore(c, f)
    ensures Total(x + PricePiece(f), c) == Total(x, c) + PriceScore(c, f)
    ensures Total(x + ApproachPiece(f), c) == Total(x, c) + ApproachScore(c, f)
    ensures Total(x + SpecialtyPiece(f), c) == Total(x, c) + SpecialtyScore(c, f)
    ensures Total(x + AudiencePiece(f), c) == Total(x, c) + AudienceScore(c, f)
  {
    PieceTotal(GenderPiece(f), c);
    TotalSnoc(x, PricePiece(f), c);
    TotalSnoc(x, ApproachPiece(f), c);
    TotalSnoc(x, SpecialtyPiece(f), c);
    TotalSnoc(x, AudiencePiece(f), c);
  }

  /** The sum of the built terms is the score. */
  lemma TermsScore(c: Candidate, f: ScoreFilters)
    ensures Total(Terms(f), c) == Score(c, f)
  {
    var t1 := GenderPiece(f) + PricePiece(f);
    var t2 := t1 + ApproachPiece(f);
    var t3 := t2 + SpecialtyPiece(f);
    PieceScores(c, f, GenderPiece(f));
    PieceScores(c, f, t1);
    PieceScores(c, f, t2);
    PieceScores(c, f, t3);
  }

  /** Adding at most one term adds its value. */
  lemma TotalSnoc(x: seq<Term>, piece: seq<Term>, c: Candidate)
    requires |piece| <= 1
    ensures Total(x + piece, c) == Total(x, c) + (if piece == [] then 0.0 else Eval(piece[0], c))
  {
    if piece == [] {
      assert x + piece == x;
    } else {
      assert (x + piece)[..|x|] == x;
    }
  }

  /** The total of at most one term. */
  lemma PieceTotal(piece: seq<Term>, c: Candidate)
    requires |piece| <= 1
    ensures Total(piece, c) == if piece == [] then 0.0 else Eval(piece[0], c)
  {
    if piece != [] {
      assert piece[..0] == [];
    }
  }

  /** Every score lies between 0 and 10 + 5 + 3 * 30 = 105. */
  lemma ScoreBounds(c: Candidate, f: ScoreFilters)
    ensures 0.0 <= Score(c, f) <= 105.0
  {
  }

  /** The gender term is 10 exactly when the genders agree. */
  lemma GenderTermValue(c: Candidate, g: U.Gender)
    ensures Eval(GenderTerm(g), c) == (if c.gender == g then 10.0 else 0.0)
  {
  }

  /** A price term is present only for a truthy maximum, so a maximum of 0
      adds nothing whatever the price. */
  lemma ZeroMaxPriceIgnored(f: ScoreFilters)
    requires f.maxPrice == Some(0.0)
    ensures forall t :: t in Terms(f) ==> !t.PriceTerm?
  {
  }

  /** A full match of the requested specialties weighs as much as a full
      match of the requested approaches: 30, not the table's 40. The same
      holds for audiences (not 15). */
  lemma SpecialtyUsesApproachWeight(c: Candidate, w: set<Uuid>)
    requires |w| > 0 && forall x :: x in w ==> x in c.specialtyIds
    ensures Eval(SpecialtyTerm(w), c) == ApproachWeight != SpecialtyWeight
  {
    assert (set x | x in c.specialtyIds && x in w) == w;
    FullShare(|w|);
  }

  lemma AudienceUsesApproachWeight(c: Candidate, w: set<string>)
    requires |w| > 0 && forall x :: x in w ==> x in c.audiences
    ensures Eval(AudienceTerm(w), c) == ApproachWeight != AudienceWeight
  {
    assert (set x | x in c.audiences && x in w) == w;
    FullShare(|w|);
  }

  lemma FullShare(n: nat)
    requires n > 0
    ensures ApproachWeight * (n as real) / (n as real) == ApproachWeight
  {
  }

  /** A candidate with none of the requested approaches gets nothing from
      that term. */
  lemma NoOverlapNoScore(c: Candidate, w: set<Uuid>)
    requires |w| > 0 && forall x :: x in c.approachIds ==> x !in w
    ensures Eval(ApproachTerm(w), c) == 0.0
  {
    assert (set x | x in c.approachIds && x in w) == {};
  }

  /** The candidate as the stored document presents it to the pipeline: the
      price term reads `price_per_session`, which the stored documents do
      not have; the price lives in `value_per_appointment`. */
  function AsStored(id: Uuid, gender: U.Gender, valuePerAppointment: real, approachIds: seq<Uuid>,
                    specialtyIds: seq<Uuid>, audiences: seq<string>): (c: Candidate)
    ensures c.priceField.None? && c.valuePerAppointment == valuePerAppointment
  {
    Candidate(id, gender, None, valuePerAppointment, approachIds, specialtyIds, audiences)
  }

  /** As written, every stored candidate scores the price weight for any
      truthy maximum, even one far below its price. */
  lemma StoredPriceAlwaysMatches(id: Uuid, gender: U.Gender, valuePerAppointment: real,
                                 approachIds: seq<Uuid>, specialtyIds: seq<Uuid>, audiences: seq<string>,
                                 maxPrice: real)
    requires maxPrice != 0.0 && valuePerAppointment > maxPrice
    ensures Eval(PriceTerm(maxPrice), AsStored(id, gender, valuePerAppointment, approachIds, specialtyIds, audiences))
            == MaxPriceWeight
  {
  }

  /** The evidently intended candidate, whose price field is its price. */
  function Priced(c: Candidate): (r: Candidate)
    ensures r.priceField == Some(c.valuePerAppointment)
    ensures r.(priceField := c.priceField) == c
  {
    c.(priceField := Some(c.valuePerAppointment))
  }

  /** With the price read from the stored value, the term is 5 exactly when
      the price is at most the maximum. */
  lemma PricedTermIffCheaper(c: Candidate, maxPrice: real)
    ensures Eval(PriceTerm(maxPrice), Priced(c)) == (if c.valuePerAppointment <= maxPrice then 5.0 else 0.0)
  {
  }

  /** Descending order of a key. */
  predicate SortedBy(s: seq<Candidate>, key: Candidate -> real) {
    forall i, j :: 0 <= i < j < |s| ==> key(s[i]) >= key(s[j])
  }

  /** Insertion below every candidate whose key is higher. */
  function Insert(x: Candidate, s: seq<Candidate>, key: Candidate -> real): (r: seq<Candidate>)
    ensures multiset(r) == multiset(s) + multiset{x}
    ensures |r| == |s| + 1
  {
    if s == [] || key(x) >= key(s[0]) then [x] + s
    else
      assert s == [s[0]] + s[1..];
      [s[0]] + Insert(x, s[1..], key)
  }

  lemma {:induction false} InsertSorted(x: Candidate, s: seq<Candidate>, key: Candidate -> real)
    requires SortedBy(s, key)
    ensures SortedBy(Insert(x, s, key), key)
    ensures Insert(x, s, key)[0] == x || (s != [] && Insert(x, s, key)[0] == s[0])
  {
    var r := Insert(x, s, key);
    if s == [] || key(x) >= key(s[0]) {
      forall i, j | 0 <= i < j < |r|
        ensures key(r[i]) >= key(r[j])
      {
        assert r[j] == s[j - 1];
        if i > 0 {
          assert r[i] == s[i - 1];
        }
      }
    } else {
      var t := Insert(x, s[1..], key);
      InsertSorted(x, s[1..], key);
      assert key(t[0]) <= key(s[0]);
      assert r == [s[0]] + t;
      forall i, j | 0 <= i < j < |r|
        ensures key(r[i]) >= key(r[j])
      {
        assert r[j] == t[j - 1];
        if i > 0 {
          assert r[i] == t[i - 1];
        } else if j > 1 {
          assert key(t[0]) >= key(t[j - 1]);
        }
      }
    }
  }

  /** Insertion sort by descending key; it drops no candidate and adds
      none. */
  function SortBy(s: seq<Candidate>, key: Candidate -> real): (r: seq<Candidate>)
    ensures multiset(r) == multiset(s)
  {
    if s == [] then []
    else
      assert s == [s[0]] + s[1..];
      Insert(s[0], SortBy(s[1..], key), key)
  }

  /** The sort orders by descending key. */
  lemma {:induction false} SortBySorted(s: seq<Candidate>, key: Candidate -> real)
    ensures SortedBy(SortBy(s, key), key)
  {
    if s != [] {
      var t := SortBy(s[1..], key);
      SortBySorted(s[1..], key);
      InsertSorted(s[0], t, key);
    }
  }

  /** The score under fixed filters, as a sort key. */
  function ScoreKey(f: ScoreFilters): Candidate -> real {
    c => Score(c, f)
  }

  /** Descending order of score. */
  predicate SortedDesc(s: seq<Candidate>, f: ScoreFilters) {
    SortedBy(s, ScoreKey(f))
  }

  /** `$sort: {score: -1}`: the candidates by descending score. */
  function SortByScore(s: seq<Candidate>, f: ScoreFilters): (r: seq<Candidate>)
    ensures multiset(r) == multiset(s)
  {
    SortBy(s, ScoreKey(f))
  }

  /** Sorting orders by descending score: every candidate scores at least as
      much as each one after it. */
  lemma SortByScoreSorted(s: seq<Candidate>, f: ScoreFilters)
    ensures SortedDesc(SortByScore(s, f), f)
    ensures var r := SortByScore(s, f);
      forall i, j :: 0 <= i < j < |r| ==> Score(r[i], f) >= Score(r[j], f)
  {
    SortBySorted(s, ScoreKey(f));
  }

  /** The pipeline of `get`: scoring and sorting only when filters are
      given, then `$skip` by the offset and `$limit` by the size. The
      reported total is the length of the page. */
  function Rank(candidates: seq<Candidate>, filters: Option<ScoreFilters>, p: Pageable): (r: (seq<Candidate>, nat))
    requires Valid(p)
  {
    var ordered := if filters.Some? then SortByScore(candidates, filters.value) else candidates;
    var items := Slice(ordered, Offset(p), Offset(p) + Limit(p));
    (items, |items|)
  }

  /** What a ranked page is: a window of `size` consecutive candidates of
      the ordering, starting at the offset; the total counts the page only. */
  lemma RankSpec(candidates: seq<Candidate>, filters: Option<ScoreFilters>, p: Pageable)
    requires Valid(p)
    ensures var (items, total) := Rank(candidates, filters, p);
      var ordered := if filters.Some? then SortByScore(candidates, filters.value) else candidates;
      multiset(ordered) == multiset(candidates) &&
      total == |items| <= p.size &&
      (filters.Some? ==> SortedDesc(ordered, filters.value)) &&
      (forall k :: 0 <= k < |items| ==> items[k] == ordered[Offset(p) + k]) &&
      (Offset(p) + p.size <= |candidates| ==> total == p.size)
  {
    if filters.Some? {
      SortByScoreSorted(candidates, filters.value);
    }
    var ordered := if filters.Some? then SortByScore(candidates, filters.value) else candidates;
    assert |ordered| == |multiset(ordered)| == |candidates|;
  }

  /** Without filters the stored order is kept. */
  lemma UnfilteredKeepsOrder(candidates: seq<Candidate>, p: Pageable)
    requires Valid(p)
    ensures Rank(candidates, None, p).0 == Slice(candidates, Offset(p), Offset(p) + Limit(p))
  {
  }
}
