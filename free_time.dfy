/** The free-time-slot analyzer of the itinerary service: a day driver that
    walks every calendar day of the trip, and a per-day gap detector that
    reports the free windows before, between and after the day's bookings.
    Dates are day numbers (one `timedelta(days=1)` is `+ 1`); times are the
    `HH:MM` strings the bookings carry, compared as Python compares strings. */
module FreeTime {
  import opened PyStr
  import opened Clock
  import opened Bookings

  /** The four texts a slot's `context` can hold; `ContextText` gives each
      one's wording. */
  datatype SlotContext = FreeDayContext | MorningContext | GapContext | EveningContext

  function ContextText(c: SlotContext): string
  {
    match c
    case FreeDayContext => "Free day - no bookings scheduled"
    case MorningContext => "Morning free time"
    case GapContext => "Gap between bookings"
    case EveningContext => "Evening free time"
  }

  /** The four wordings differ, so the context text names the kind of slot. */
  lemma ContextTextInjective(c: SlotContext, d: SlotContext)
    ensures ContextText(c) == ContextText(d) <==> c == d
  {
    if c != d {
      assert ContextText(c)[0] != ContextText(d)[0];
    }
  }

  datatype FreeTimeSlot = FreeTimeSlot(startTime: string, endTime: string, durationMinutes: int, context: SlotContext)

  const DayStart: string := "09:00"
  const DayEnd: string := "22:00"
  const FreeDayEnd: string := "18:00"
  const MinGapMinutes: int := 60


  /** The slot a day without bookings gets. */
  const FreeDaySlot: FreeTimeSlot := FreeTimeSlot(DayStart, FreeDayEnd, 540, FreeDayContext)

  /** `day_bookings.sort(key=lambda x: x["start_time"])` */
  function ByStartTime(bookings: seq<Booking>): seq<Booking>
  {
    Sort(StartTimeKey, bookings)
  }

  /** `sorted(bookings, key=lambda x: (x["start_date"], x["start_time"]))` */
  function ByStartDateTime(bookings: seq<Booking>): seq<Booking>
  {
    Sort(StartDateTimeKey, bookings)
  }

  // ---------------------------------------------------------------------------
  // Per-day gap detector: the specification

  predicate MorningFree(first: Booking)
  {
    Less(DayStart, first.startTime) && TimeToMinutes(first.startTime) - TimeToMinutes(DayStart) >= MinGapMinutes
  }

  function MorningSlot(first: Booking): FreeTimeSlot
  {
    FreeTimeSlot(DayStart, first.startTime, TimeToMinutes(first.startTime) - TimeToMinutes(DayStart), MorningContext)
  }

  predicate GapFree(current: Booking, next: Booking)
  {
    Less(current.endTime, next.startTime) && TimeToMinutes(next.startTime) - TimeToMinutes(current.endTime) >= MinGapMinutes
  }

  function GapSlot(current: Booking, next: Booking): FreeTimeSlot
  {
    FreeTimeSlot(current.endTime, next.startTime, TimeToMinutes(next.startTime) - TimeToMinutes(current.endTime), GapContext)
  }

  predicate EveningFree(last: Booking)
  {
    Less(last.endTime, DayEnd) && TimeToMinutes(DayEnd) - TimeToMinutes(last.endTime) >= MinGapMinutes
  }

  function EveningSlot(last: Booking): FreeTimeSlot
  {
    FreeTimeSlot(last.endTime, DayEnd, TimeToMinutes(DayEnd) - TimeToMinutes(last.endTime), EveningContext)
  }

  /** What each of the three checks contributes: its slot, or nothing. */
  function MorningSlots(first: Booking): seq<FreeTimeSlot>
  {
    if MorningFree(first) then [MorningSlot(first)] else []
  }

  function GapSlots(current: Booking, next: Booking): seq<FreeTimeSlot>
  {
    if GapFree(current, next) then [GapSlot(current, next)] else []
  }

  function EveningSlots(last: Booking): seq<FreeTimeSlot>
  {
    if EveningFree(last) then [EveningSlot(last)] else []
  }

  /** The gap slots of the first `n` neighbour pairs (day[i], day[i + 1]). */
  function GapsBefore(day: seq<Booking>, n: nat): seq<FreeTimeSlot>
    requires n < |day|
  {
    if n == 0 then []
    else GapsBefore(day, n - 1) + GapSlots(day[n - 1], day[n])
  }

  /** The slots of one day whose bookings are already in start-time order. */
  function DailySlots(day: seq<Booking>): seq<FreeTimeSlot>
  {
    if day == [] then []
    else
      MorningSlots(day[0]) + GapsBefore(day, |day| - 1) + EveningSlots(day[|day| - 1])
  }

  // ---------------------------------------------------------------------------
  // Per-day gap detector: the procedure

  /** `find_daily_free_slots`: sort the day's bookings by start time, then
      scan them; `date` is accepted and not used, as in the source. */
  method FindDailyFreeSlots(dayBookings: seq<Booking>, date: int) returns (freeSlots: seq<FreeTimeSlot>)
    ensures freeSlots == DailySlots(ByStartTime(dayBookings))
  {
    var day := ByStartTime(dayBookings);
    freeSlots := ScanDay(day);
  }

  /** The body of `find_daily_free_slots` after its sort: morning check,
      neighbour gaps, evening check, each appending to the slot list. */
  method ScanDay(day: seq<Booking>) returns (freeSlots: seq<FreeTimeSlot>)
    ensures freeSlots == DailySlots(day)
  {
    if |day| == 0 {
      return [];
    }
    var morning := CheckMorning(day[0]);
    var gaps := ScanGaps(day);
    var evening := CheckEvening(day[|day| - 1]);
    freeSlots := morning + gaps + evening;
  }

  /** The loop over neighbour pairs (day[i], day[i + 1]), in order. */
  method ScanGaps(day: seq<Booking>) returns (gaps: seq<FreeTimeSlot>)
    requires |day| > 0
    ensures gaps == GapsBefore(day, |day| - 1)
  {
    gaps := [];
    var i := 0;
    while i < |day| - 1
      invariant 0 <= i < |day|
      invariant gaps == GapsBefore(day, i)
    {
      var gap := CheckGap(day[i], day[i + 1]);
      gaps := gaps + gap;
      i := i + 1;
    }
  }

  /** Morning check: a slot from 09:00 up to the first start, if the first
      booking starts after 09:00 and at least an hour later. The step-by-step
      form of `MorningSlots`, which states the same check as a value. */
  method CheckMorning(first: Booking) returns (slots: seq<FreeTimeSlot>)
    ensures slots == MorningSlots(first)
  {
    slots := [];
    if Less(DayStart, first.startTime) {
      var duration := TimeToMinutes(first.startTime) - TimeToMinutes(DayStart);
      if duration >= MinGapMinutes {
        slots := [FreeTimeSlot(DayStart, first.startTime, duration, MorningContext)];
      }
    }
  }

  /** Gap check between two neighbours in start-time order; the
      step-by-step form of `GapSlots`. */
  method CheckGap(current: Booking, next: Booking) returns (slots: seq<FreeTimeSlot>)
    ensures slots == GapSlots(current, next)
  {
    slots := [];
    var currentEnd := current.endTime;
    var nextStart := next.startTime;
    if Less(currentEnd, nextStart) {
      var duration := TimeToMinutes(nextStart) - TimeToMinutes(currentEnd);
      if duration >= MinGapMinutes {
        slots := [FreeTimeSlot(currentEnd, nextStart, duration, GapContext)];
      }
    }
  }

  /** Evening check: a slot from the last booking's end up to 22:00; the
      step-by-step form of `EveningSlots`. */
  method CheckEvening(last: Booking) returns (slots: seq<FreeTimeSlot>)
    ensures slots == EveningSlots(last)
  {
    slots := [];
    if Less(last.endTime, DayEnd) {
      var duration := TimeToMinutes(DayEnd) - TimeToMinutes(last.endTime);
      if duration >= MinGapMinutes {
        slots := [FreeTimeSlot(last.endTime, DayEnd, duration, EveningContext)];
      }
    }
  }

  // ---------------------------------------------------------------------------
  // Day driver: the specification

  /** `[b for b in bookings if b.start_date <= day <= b.end_date]` */
  function ActiveOn(bookings: seq<Booking>, day: int): seq<Booking>
  {
    if bookings == [] then []
    else
      var last := bookings[|bookings| - 1];
      ActiveOn(bookings[..|bookings| - 1], day) + (if last.startDate <= day <= last.endDate then [last] else [])
  }

  /** A day's bookings are exactly those whose date range covers it, each as
      often as it occurs in the input. */
  lemma {:induction false} ActiveOnSelects(bookings: seq<Booking>, day: int)
    ensures forall b :: multiset(ActiveOn(bookings, day))[b] ==
                        (if b.startDate <= day <= b.endDate then multiset(bookings)[b] else 0)
  {
    if bookings != [] {
      var init, last := bookings[..|bookings| - 1], bookings[|bookings| - 1];
      Snoc(bookings);
      ActiveOnSelects(init, day);
    }
  }

  /** `min(b.start_date for b in bookings)` */
  function EarliestStart(bookings: seq<Booking>): (d: int)
    requires |bookings| > 0
    ensures exists i :: 0 <= i < |bookings| && bookings[i].startDate == d
    ensures forall i :: 0 <= i < |bookings| ==> d <= bookings[i].startDate
  {
    if |bookings| == 1 then bookings[0].startDate
    else
      var rest := EarliestStart(bookings[1..]);
      if bookings[0].startDate <= rest then bookings[0].startDate else rest
  }

  /** `max(b.end_date for b in bookings)` */
  function LatestEnd(bookings: seq<Booking>): (d: int)
    requires |bookings| > 0
    ensures exists i :: 0 <= i < |bookings| && bookings[i].endDate == d
    ensures forall i :: 0 <= i < |bookings| ==> bookings[i].endDate <= d
  {
    if |bookings| == 1 then bookings[0].endDate
    else
      var rest := LatestEnd(bookings[1..]);
      if bookings[0].endDate >= rest then bookings[0].endDate else rest
  }

  /** What one visited day contributes. */
  function DaySlots(sorted: seq<Booking>, day: int): seq<FreeTimeSlot>
  {
    var active := ActiveOn(sorted, day);
    if active == [] then [FreeDaySlot] else DailySlots(ByStartTime(active))
  }

  /** The slots of the days `first` up to but excluding `end`, day by day. */
  function SlotsOfDays(sorted: seq<Booking>, first: int, end: int): seq<FreeTimeSlot>
    decreases end - first
  {
    if end <= first then [] else SlotsOfDays(sorted, first, end - 1) + DaySlots(sorted, end - 1)
  }

  /** `analyze_free_time_slots` as a value. */
  function FreeTimeSlots(bookings: seq<Booking>): seq<FreeTimeSlot>
  {
    if bookings == [] then []
    else
      var sorted := ByStartDateTime(bookings);
      SlotsOfDays(sorted, EarliestStart(sorted), LatestEnd(sorted) + 1)
  }

  // ---------------------------------------------------------------------------
  // Day driver: the procedure

  /** `analyze_free_time_slots` */
  method AnalyzeFreeTimeSlots(bookings: seq<Booking>) returns (freeSlots: seq<FreeTimeSlot>)
    ensures freeSlots == FreeTimeSlots(bookings)
    ensures bookings == [] ==> freeSlots == []
  {
    freeSlots := [];
    if |bookings| == 0 {
      return;
    }
    var sorted := ByStartDateTime(bookings);
    var startDate := EarliestStart(sorted);
    var endDate := LatestEnd(sorted);
    freeSlots := VisitDays(sorted, startDate, endDate);
  }

  /** The driver loop of `analyze_free_time_slots`: every date from the
      earliest start to the latest end, both included, in order. */
  method VisitDays(sorted: seq<Booking>, startDate: int, endDate: int) returns (freeSlots: seq<FreeTimeSlot>)
    ensures freeSlots == SlotsOfDays(sorted, startDate, endDate + 1)
  {
    freeSlots := [];
    if endDate < startDate {
      return;
    }
    var currentDate := startDate;
    while currentDate <= endDate
      invariant startDate <= currentDate <= endDate + 1
      invariant freeSlots == SlotsOfDays(sorted, startDate, currentDate)
    {
      var daySlots := VisitDay(sorted, currentDate);
      SlotsOfDaysStep(sorted, startDate, currentDate);
      freeSlots := freeSlots + daySlots;
      currentDate := currentDate + 1;
    }
  }

  lemma SlotsOfDaysStep(sorted: seq<Booking>, first: int, day: int)
    requires first <= day
    ensures SlotsOfDays(sorted, first, day + 1) == SlotsOfDays(sorted, first, day) + DaySlots(sorted, day)
  {
  }

  /** One pass of the driver loop: the day's bookings, then either the
      free-day slot or the per-day detector. */
  method VisitDay(sorted: seq<Booking>, date: int) returns (slots: seq<FreeTimeSlot>)
    ensures slots == DaySlots(sorted, date)
  {
    var dayBookings := ActiveOn(sorted, date);
    if |dayBookings| == 0 {
      slots := [FreeDaySlot];
    } else {
      slots := FindDailyFreeSlots(dayBookings, date);
    }
  }

  // ---------------------------------------------------------------------------
  // Largest slot and the contextual message

  /** `max(free_slots, key=duration_minutes)`: Python keeps the first of
      several equally long slots. */
  function LargestSlotIndex(slots: seq<FreeTimeSlot>): (k: nat)
    requires |slots| > 0
    ensures k < |slots|
    ensures forall j :: 0 <= j < |slots| ==> slots[j].durationMinutes <= slots[k].durationMinutes
    ensures forall j :: 0 <= j < k ==> slots[j].durationMinutes < slots[k].durationMinutes
  {
    if |slots| == 1 then 0
    else
      var k := LargestSlotIndex(slots[..|slots| - 1]);
      if slots[|slots| - 1].durationMinutes > slots[k].durationMinutes then |slots| - 1 else k
  }

  const NoSlotsMessage: string := "No free time slots found in your current itinerary."

  function FallbackMessage(slot: FreeTimeSlot): string
  {
    "You've got some free time between " + slot.startTime + " and " + slot.endTime
      + ". What kind of experience are you in the mood for?"
  }

  /** `generate_contextual_message`. The text-generation call is outside the
      model: `reply` is its stripped answer, or None when it raised. */
  function ContextualMessage(slots: seq<FreeTimeSlot>, reply: Option<string>): (message: string)
    ensures slots == [] ==> message == NoSlotsMessage
    ensures slots != [] && reply.Some? ==> message == reply.value
    ensures slots != [] && reply.None? ==>
      exists k :: 0 <= k < |slots| && message == FallbackMessage(slots[k])
        && (forall j :: 0 <= j < |slots| ==> slots[j].durationMinutes <= slots[k].durationMinutes)
        && (forall j :: 0 <= j < k ==> slots[j].durationMinutes < slots[k].durationMinutes)
  {
    if slots == [] then NoSlotsMessage
    else
      match reply
      case Some(text) => text
      case None => FallbackMessage(slots[LargestSlotIndex(slots)])
  }
}
