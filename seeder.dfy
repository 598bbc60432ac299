/** The seed generator of bookable slots: every working hour of every
    weekday in a run of consecutive days. */
module Seeder {
  import opened Common
  import opened Documents

  const DefaultNumDays := 14

  /** The hours offered on a working day. */
  const WorkingHours: seq<nat> := [8, 9, 10, 11, 14, 15, 16, 17, 18]

  /** `date.weekday()`, Monday being 0, for a day counted from 1970-01-01,
      a Thursday. */
  function Weekday(day: int): (r: nat)
    ensures r < 7
  {
    (day + 3) % 7
  }

  predicate IsWeekend(day: int) {
    Weekday(day) >= 5
  }

  /** The slots of one day, one per working hour, on the hour. */
  function DaySlots(day: int): (r: seq<DateTime>)
    ensures |r| == |WorkingHours|
    ensures forall k :: 0 <= k < |r| ==> r[k] == DateTime(day, WorkingHours[k], 0, 0, 0)
  {
    seq(|WorkingHours|, k requires 0 <= k < |WorkingHours| => DateTime(day, WorkingHours[k], 0, 0, 0))
  }

  /** The slot dates of the first `n` days from `start`. */
  function SlotDates(start: DateTime, n: nat): seq<DateTime>
  {
    if n == 0 then []
    else
      var day := start.day + (n - 1);
      SlotDates(start, n - 1) + (if IsWeekend(day) then [] else DaySlots(day))
  }

  /** The documents for a sequence of dates, the k-th taking the k-th
      generated id. */
  function SlotDocuments(dates: seq<DateTime>, newId: nat -> Uuid): (r: seq<AvailabilityDocument>)
    ensures |r| == |dates|
  {
    seq(|dates|, k requires 0 <= k < |dates| => AvailabilityDocument(newId(k), dates[k], true))
  }

  /** `generate_availabilities(start_date, num_days)`. `newId(k)` is the id
      `uuid4()` yields for the k-th slot. A negative `num_days` gives no
      days, as `range` does. */
  method GenerateAvailabilities(start: DateTime, numDays: int, newId: nat -> Uuid)
    returns (slots: seq<AvailabilityDocument>)
    ensures slots == SlotDocuments(SlotDates(start, if numDays < 0 then 0 else numDays), newId)
  {
    var n: nat := if numDays < 0 then 0 else numDays;
    slots := [];
    var dayOffset := 0;
    while dayOffset < n
      invariant 0 <= dayOffset <= n
      invariant slots == SlotDocuments(SlotDates(start, dayOffset), newId)
    {
      var day := start.day + dayOffset;
      ghost var before := SlotDates(start, dayOffset);
      if !IsWeekend(day) {
        slots := AddDay(slots, day, newId, before);
      } else {
        assert before + [] == before;
      }
      dayOffset := dayOffset + 1;
    }
  }

  /** The inner loop over the working hours of one weekday. */
  method AddDay(slots0: seq<AvailabilityDocument>, day: int, newId: nat -> Uuid, ghost before: seq<DateTime>)
    returns (slots: seq<AvailabilityDocument>)
    requires slots0 == SlotDocuments(before, newId)
    ensures slots == SlotDocuments(before + DaySlots(day), newId)
  {
    slots := slots0;
    var h := 0;
    while h < |WorkingHours|
      invariant 0 <= h <= |WorkingHours|
      invariant slots == SlotDocuments(before + DaySlots(day)[..h], newId)
    {
      var date := DateTime(day, WorkingHours[h], 0, 0, 0);
      assert before + DaySlots(day)[..h + 1] == (before + DaySlots(day)[..h]) + [date];
      DocumentsSnoc(before + DaySlots(day)[..h], date, newId);
      slots := slots + [AvailabilityDocument(newId(|slots|), date, true)];
      h := h + 1;
    }
    assert DaySlots(day)[..h] == DaySlots(day);
  }

  /** One more date gives one more document, with the next id. */
  lemma DocumentsSnoc(dates: seq<DateTime>, date: DateTime, newId: nat -> Uuid)
    ensures SlotDocuments(dates + [date], newId) ==
      SlotDocuments(dates, newId) + [AvailabilityDocument(newId(|dates|), date, true)]
  {
  }

  /** The number of weekdays among the first `n` days from `start`. */
  function WeekdayCount(start: int, n: nat): nat {
    if n == 0 then 0 else WeekdayCount(start, n - 1) + (if IsWeekend(start + (n - 1)) then 0 else 1)
  }

  /** Nine slots per weekday. */
  lemma {:induction false} SlotCount(start: DateTime, n: nat)
    ensures |SlotDates(start, n)| == |WorkingHours| * WeekdayCount(start.day, n)
  {
    if n > 0 {
      SlotCount(start, n - 1);
    }
  }

  /** A slot generated for one of the first `n` days from `start`. */
  predicate WellShaped(start: DateTime, n: nat, s: DateTime) {
    start.day <= s.day < start.day + n && !IsWeekend(s.day) &&
    s.hour in WorkingHours && s.minute == 0 && s.second == 0 && s.micro == 0
  }

  /** The working hours ascend strictly. */
  lemma HoursAscend()
    ensures forall i, j :: 0 <= i < j < |WorkingHours| ==> WorkingHours[i] < WorkingHours[j]
  {
  }

  /** Every slot falls on a weekday among the days generated, on a working
      hour, with zero minutes, seconds and microseconds. */
  lemma {:induction false} SlotShape(start: DateTime, n: nat)
    ensures forall k :: 0 <= k < |SlotDates(start, n)| ==> WellShaped(start, n, SlotDates(start, n)[k])
  {
    if n > 0 {
      SlotShape(start, n - 1);
      var day := start.day + (n - 1);
      var prev := SlotDates(start, n - 1);
      var today := if IsWeekend(day) then [] else DaySlots(day);
      var all := prev + today;
      assert all == SlotDates(start, n);
      forall k | 0 <= k < |all|
        ensures WellShaped(start, n, all[k])
      {
        if k < |prev| {
          assert all[k] == prev[k];
          assert WellShaped(start, n - 1, prev[k]);
        } else {
          var h := k - |prev|;
          assert all[k] == today[h] == DateTime(day, WorkingHours[h], 0, 0, 0);
          assert WorkingHours[h] in WorkingHours;
        }
      }
    }
  }

  /** Slots come by day, then by ascending hour: strictly increasing. */
  predicate Ascending(dates: seq<DateTime>) {
    forall i, j :: 0 <= i < j < |dates| ==>
      dates[i].day < dates[j].day || (dates[i].day == dates[j].day && dates[i].hour < dates[j].hour)
  }

  lemma {:induction false} SlotsAscending(start: DateTime, n: nat)
    ensures Ascending(SlotDates(start, n))
  {
    if n > 0 {
      SlotsAscending(start, n - 1);
      SlotShape(start, n - 1);
      HoursAscend();
      var day := start.day + (n - 1);
      var prev := SlotDates(start, n - 1);
      var today := if IsWeekend(day) then [] else DaySlots(day);
      var all := prev + today;
      assert all == SlotDates(start, n);
      forall i, j | 0 <= i < j < |all|
        ensures all[i].day < all[j].day || (all[i].day == all[j].day && all[i].hour < all[j].hour)
      {
        if i >= |prev| {
          assert all[i] == today[i - |prev|] && all[j] == today[j - |prev|];
        } else if j >= |prev| {
          assert all[i] == prev[i] && WellShaped(start, n - 1, prev[i]);
          assert all[j] == today[j - |prev|];
        } else {
          assert all[i] == prev[i] && all[j] == prev[j];
        }
      }
    }
  }

  /** Every generated slot is open for booking and takes its own id. */
  lemma SlotDocumentsOpen(dates: seq<DateTime>, newId: nat -> Uuid)
    ensures forall k :: 0 <= k < |dates| ==>
      SlotDocuments(dates, newId)[k].available && SlotDocuments(dates, newId)[k].date == dates[k] &&
      SlotDocuments(dates, newId)[k].id == newId(k)
  {
  }
}
