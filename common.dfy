/** Shared vocabulary of the model: optional values, results carrying the
    message of the exception the source raises, entity ids, and the
    character classes the validators use. */
module Common {

  datatype Option<+T> = None | Some(value: T)

  /** The outcome of an operation that either returns a value or raises an
      exception; `Err` carries the exception's message. */
  datatype Result<+T> = Ok(value: T) | Err(msg: string) {
    predicate IsFailure() { Err? }

    function PropagateFailure<U>(): Result<U>
      requires Err?
    {
      Err(msg)
    }

    function Extract(): T
      requires Ok?
    {
      value
    }
  }

  /** The outcome of a method that returns nothing or raises. */
  datatype Outcome = Done | Raised(msg: string)

  /** A calendar day and a time of day, as `datetime` holds them. */
  datatype DateTime = DateTime(day: int, hour: nat, minute: nat, second: nat, micro: nat)

  /** The microsecond count of a date-time, used to order them. */
  function Ticks(t: DateTime): int {
    (((t.day * 24 + t.hour) * 60 + t.minute) * 60 + t.second) * 1000000 + t.micro
  }

  /** An argument typed `X | str`: a value object built earlier (`Obj`,
      holding its value) or a raw string the callee wraps, and so validates. */
  datatype Wrapped<+T> = Obj(obj: T) | Text(text: string)

  /** An entity id: the 128-bit integer of the UUID it wraps. */
  datatype Uuid = Uuid(value: nat)

  /** `id if id is not None else UniqueEntityId()`: a missing id is replaced
      by a freshly generated one, which the caller supplies. */
  function ResolveId(id: Option<Uuid>, generated: Uuid): (r: Uuid)
    ensures id.Some? ==> r == id.value
    ensures id.None? ==> r == generated
  {
    if id.Some? then id.value else generated
  }

  predicate IsDigit(c: char) { '0' <= c <= '9' }
  predicate IsUpper(c: char) { 'A' <= c <= 'Z' }
  predicate IsLower(c: char) { 'a' <= c <= 'z' }

  /** Python's whitespace: the characters `str.isspace()` accepts, which are
      the ones `str.strip()` removes and the regex class `\s` matches. */
  const Whitespace: set<char> := {
    '\t', '\n', '\U{000B}', '\U{000C}', '\r', '\U{001C}', '\U{001D}', '\U{001E}', '\U{001F}', ' ',
    '\U{0085}', '\U{00A0}', '\U{1680}', '\U{2000}', '\U{2001}', '\U{2002}', '\U{2003}', '\U{2004}',
    '\U{2005}', '\U{2006}', '\U{2007}', '\U{2008}', '\U{2009}', '\U{200A}', '\U{2028}', '\U{2029}',
    '\U{202F}', '\U{205F}', '\U{3000}'
  }

  predicate IsSpace(c: char) { c in Whitespace }

  predicate AllDigits(s: string) {
    forall i :: 0 <= i < |s| ==> IsDigit(s[i])
  }

  function DigitValue(c: char): (r: nat)
    requires IsDigit(c)
    ensures r <= 9
  {
    (c - '0') as nat
  }

  /** `str.lower()` on ASCII letters. */
  function LowerChar(c: char): (r: char)
    ensures !IsUpper(r)
    ensures !IsUpper(c) ==> r == c
  {
    if IsUpper(c) then (c - 'A' + 'a') as char else c
  }

  function Lower(s: string): (r: string)
    ensures |r| == |s|
    ensures forall i :: 0 <= i < |s| ==> r[i] == LowerChar(s[i])
  {
    seq(|s|, i requires 0 <= i < |s| => LowerChar(s[i]))
  }

  /** Lower-casing twice is lower-casing once. */
  lemma LowerIdempotent(s: string)
    ensures Lower(Lower(s)) == Lower(s)
  {
  }

  /** A subset is no larger than its superset. */
  lemma SubsetCard<T>(a: set<T>, b: set<T>)
    requires a <= b
    ensures |a| <= |b|
  {
    assert b == a + (b - a);
  }

  /** Python's `a in b` on strings. */
  predicate IsSubstring(a: string, b: string) {
    a <= b || (b != [] && IsSubstring(a, b[1..]))
  }

  /** `s.strip()`: leading and trailing whitespace removed. */
  function StripLeft(s: string): (r: string)
    ensures |r| <= |s| && r == s[|s| - |r|..]
    ensures r == [] || !IsSpace(r[0])
    ensures forall i :: 0 <= i < |s| - |r| ==> IsSpace(s[i])
  {
    if s != [] && IsSpace(s[0]) then StripLeft(s[1..]) else s
  }

  function StripRight(s: string): (r: string)
    ensures |r| <= |s| && r == s[..|r|]
    ensures r == [] || !IsSpace(r[|r| - 1])
    ensures forall i :: |r| <= i < |s| ==> IsSpace(s[i])
  {
    if s != [] && IsSpace(s[|s| - 1]) then StripRight(s[..|s| - 1]) else s
  }

  function Strip(s: string): (r: string) {
    StripRight(StripLeft(s))
  }

  /** A stripped string has no whitespace at either end, and stripping it
      again changes nothing. */
  lemma StripIdempotent(s: string)
    ensures var r := Strip(s);
      (r == [] || (!IsSpace(r[0]) && !IsSpace(r[|r| - 1]))) && Strip(r) == r
  {
    var l := StripLeft(s);
    var r := StripRight(l);
    if r != [] {
      assert r[0] == l[0];
    }
    assert StripLeft(r) == r;
  }

  /** Python's `s[start:stop]` for non-negative bounds: bounds past the end
      are clipped, and an empty range gives an empty list. */
  function Slice<T>(s: seq<T>, start: nat, stop: nat): (r: seq<T>)
    ensures |r| <= |s| && (start <= stop ==> |r| <= stop - start)
    ensures start < |s| && start <= stop ==> |r| == (if stop <= |s| then stop else |s|) - start
    ensures forall k :: 0 <= k < |r| ==> start + k < |s| && r[k] == s[start + k]
  {
    var a := if start <= |s| then start else |s|;
    var b := if stop <= |s| then stop else |s|;
    if a <= b then s[a..b] else []
  }
}
