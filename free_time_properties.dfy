/** What the free-time analyzer promises, proved about its specification
    functions: the shape and contents of one day's slots, the well-formedness
    of every slot, and how the driver chooses and orders the days. */
module FreeTimeProperties {
  import opened PyStr
  import opened Clock
  import opened Bookings
  import opened FreeTime

  // ---------------------------------------------------------------------------
  // One day

  /** A slot whose duration is at least an hour and equals the clock distance
      between its ends, and whose start sorts before its end. */
  predicate WellFormed(slot: FreeTimeSlot)
  {
    && MinGapMinutes <= slot.durationMinutes
    && slot.durationMinutes == TimeToMinutes(slot.endTime) - TimeToMinutes(slot.startTime)
    && Less(slot.startTime, slot.endTime)
  }

  /** The position of a context in a day's list: morning, gaps, evening. */
  function Rank(context: SlotContext): nat
  {
    match context
    case MorningContext => 0
    case GapContext => 1
    case EveningContext => 2
    case FreeDayContext => 3
  }

  /** There are at most as many gap slots as pairs, and each is a
      well-formed gap. */
  lemma {:induction false} GapsBeforeKinds(day: seq<Booking>, n: nat)
    requires n < |day|
    ensures |GapsBefore(day, n)| <= n
    ensures forall slot :: slot in GapsBefore(day, n) ==> slot.context == GapContext && WellFormed(slot)
  {
    if n > 0 {
      GapsBeforeKinds(day, n - 1);
      assert GapsBefore(day, n) == GapsBefore(day, n - 1) + GapSlots(day[n - 1], day[n]);
    }
  }

  /** Every gap slot comes from a free neighbour pair. */
  lemma {:induction false} GapsBeforeSound(day: seq<Booking>, n: nat)
    requires n < |day|
    ensures forall slot :: slot in GapsBefore(day, n) ==>
      exists i :: 0 <= i < n && GapFree(day[i], day[i + 1]) && slot == GapSlot(day[i], day[i + 1])
  {
    if n > 0 {
      GapsBeforeSound(day, n - 1);
      assert GapsBefore(day, n) == GapsBefore(day, n - 1) + GapSlots(day[n - 1], day[n]);
    }
  }

  /** Every free neighbour pair has its gap slot. */
  lemma {:induction false} GapsBeforeComplete(day: seq<Booking>, n: nat)
    requires n < |day|
    ensures forall i :: 0 <= i < n && GapFree(day[i], day[i + 1]) ==> GapSlot(day[i], day[i + 1]) in GapsBefore(day, n)
  {
    if n > 0 {
      var before, last := GapsBefore(day, n - 1), GapSlots(day[n - 1], day[n]);
      GapsBeforeComplete(day, n - 1);
      assert GapsBefore(day, n) == before + last;
      forall i | 0 <= i < n && GapFree(day[i], day[i + 1])
        ensures GapSlot(day[i], day[i + 1]) in before + last
      {
        if i < n - 1 {
          assert GapSlot(day[i], day[i + 1]) in before;
        } else {
          assert last == [GapSlot(day[i], day[i + 1])];
        }
      }
    }
  }

  /** Every slot of a day is one of the three kinds, and each kind appears
      exactly when its condition holds: the morning slot for the booking that
      starts first, a gap slot for each free neighbour pair in start-time
      order (and no other pair), the evening slot for the booking that
      starts last. */
  lemma DailySlotsMembers(day: seq<Booking>, slot: FreeTimeSlot)
    requires day != []
    ensures slot in DailySlots(day) <==>
      || (MorningFree(day[0]) && slot == MorningSlot(day[0]))
      || (exists i :: 0 <= i < |day| - 1 && GapFree(day[i], day[i + 1]) && slot == GapSlot(day[i], day[i + 1]))
      || (EveningFree(day[|day| - 1]) && slot == EveningSlot(day[|day| - 1]))
  {
    GapsBeforeSound(day, |day| - 1);
    GapsBeforeComplete(day, |day| - 1);
  }

  /** A day with k bookings has at most k + 1 slots, none for no bookings;
      each is an hour or more, as long as the clock distance between its
      ends, and of one of the three kinds. */
  lemma DailySlotsWellFormed(day: seq<Booking>)
    ensures |DailySlots(day)| <= |day| + 1
    ensures day == [] ==> DailySlots(day) == []
    ensures forall slot :: slot in DailySlots(day) ==> WellFormed(slot) && Rank(slot.context) < 3
  {
    if day != [] {
      var morning, gaps, evening := MorningSlots(day[0]), GapsBefore(day, |day| - 1), EveningSlots(day[|day| - 1]);
      assert DailySlots(day) == morning + gaps + evening;
      GapsBeforeKinds(day, |day| - 1);
      CheckSlotsWellFormed(day[0], day[|day| - 1]);
      ConcatWellFormed(morning, gaps);
      ConcatWellFormed(morning + gaps, evening);
    }
  }

  /** The morning and evening checks build well-formed slots. */
  lemma CheckSlotsWellFormed(first: Booking, last: Booking)
    ensures forall slot :: slot in MorningSlots(first) ==> WellFormed(slot) && slot.context == MorningContext
    ensures forall slot :: slot in EveningSlots(last) ==> WellFormed(slot) && slot.context == EveningContext
    ensures |MorningSlots(first)| <= 1 && |EveningSlots(last)| <= 1
  {
  }

  lemma ConcatWellFormed(a: seq<FreeTimeSlot>, b: seq<FreeTimeSlot>)
    requires forall x :: x in a ==> WellFormed(x) && Rank(x.context) < 3
    requires forall x :: x in b ==> WellFormed(x) && Rank(x.context) < 3
    ensures forall x :: x in a + b ==> WellFormed(x) && Rank(x.context) < 3
  {
  }

  /** Contexts never step back: morning before gaps before evening. */
  ghost predicate RanksAscending(r: seq<FreeTimeSlot>)
  {
    forall i, j :: 0 <= i < j < |r| ==> Rank(r[i].context) <= Rank(r[j].context)
  }

  lemma ConcatAscending(a: seq<FreeTimeSlot>, b: seq<FreeTimeSlot>, k: nat)
    requires RanksAscending(a) && RanksAscending(b)
    requires forall x :: x in a ==> Rank(x.context) <= k
    requires forall y :: y in b ==> k <= Rank(y.context)
    ensures RanksAscending(a + b)
  {
    var r := a + b;
    forall i, j | 0 <= i < j < |r|
      ensures Rank(r[i].context) <= Rank(r[j].context)
    {
      if j < |a| {
        assert r[i] == a[i] && r[j] == a[j];
      } else if i >= |a| {
        assert r[i] == b[i - |a|] && r[j] == b[j - |a|];
      } else {
        assert r[i] == a[i] && r[j] == b[j - |a|];
      }
    }
  }

  /** The morning slot comes first, then the gaps, then the evening slot. */
  lemma DailySlotsOrder(day: seq<Booking>)
    ensures RanksAscending(DailySlots(day))
  {
    if day != [] {
      var morning, gaps, evening := MorningSlots(day[0]), GapsBefore(day, |day| - 1), EveningSlots(day[|day| - 1]);
      GapsBeforeKinds(day, |day| - 1);
      ConcatAscending(morning, gaps, 1);
      ConcatAscending(morning + gaps, evening, 1);
      assert DailySlots(day) == morning + gaps + evening;
    }
  }

  /** The list opens with a morning slot exactly when the booking that starts
      first leaves the morning free, and that slot is the morning check's. */
  lemma DailySlotsOpens(day: seq<Booking>)
    requires day != []
    ensures MorningFree(day[0]) <==> |DailySlots(day)| > 0 && DailySlots(day)[0].context == MorningContext
    ensures MorningFree(day[0]) ==> DailySlots(day)[0] == MorningSlot(day[0])
  {
    var morning, gaps, evening := MorningSlots(day[0]), GapsBefore(day, |day| - 1), EveningSlots(day[|day| - 1]);
    assert DailySlots(day) == morning + (gaps + evening);
    GapsBeforeKinds(day, |day| - 1);
    OpensWith(morning, gaps + evening, MorningContext);
  }

  /** The list closes with an evening slot exactly when the booking that
      starts last leaves the evening free, and that slot is the evening
      check's. */
  lemma DailySlotsCloses(day: seq<Booking>)
    requires day != []
    ensures EveningFree(day[|day| - 1]) <==>
      |DailySlots(day)| > 0 && DailySlots(day)[|DailySlots(day)| - 1].context == EveningContext
    ensures EveningFree(day[|day| - 1]) ==> DailySlots(day)[|DailySlots(day)| - 1] == EveningSlot(day[|day| - 1])
  {
    var morning, gaps, evening := MorningSlots(day[0]), GapsBefore(day, |day| - 1), EveningSlots(day[|day| - 1]);
    assert DailySlots(day) == (morning + gaps) + evening;
    GapsBeforeKinds(day, |day| - 1);
    ClosesWith(morning + gaps, evening, EveningContext);
  }

  /** A list made of at most one slot of context `c` followed by slots of
      other contexts opens with context `c` exactly when that slot is there. */
  lemma OpensWith(first: seq<FreeTimeSlot>, rest: seq<FreeTimeSlot>, c: SlotContext)
    requires |first| <= 1 && forall x :: x in first ==> x.context == c
    requires forall x :: x in rest ==> x.context != c
    ensures |first| == 1 <==> |first + rest| > 0 && (first + rest)[0].context == c
    ensures |first| == 1 ==> (first + rest)[0] == first[0]
  {
    if first == [] && rest != [] {
      assert (first + rest)[0] == rest[0];
      assert rest[0] in rest;
    }
  }

  /** The mirror image: slots of other contexts followed by at most one slot
      of context `c`. */
  lemma ClosesWith(front: seq<FreeTimeSlot>, last: seq<FreeTimeSlot>, c: SlotContext)
    requires |last| <= 1 && forall x :: x in last ==> x.context == c
    requires forall x :: x in front ==> x.context != c
    ensures |last| == 1 <==> |front + last| > 0 && (front + last)[|front + last| - 1].context == c
    ensures |last| == 1 ==> (front + last)[|front + last| - 1] == last[0]
  {
    if last == [] && front != [] {
      assert front + last == front;
      assert front[|front| - 1] in front;
    }
  }

  // ---------------------------------------------------------------------------
  // One visited day

  /** A visited day gets the free-day slot if and only if none of the bookings
      covers it, and then that slot alone. */
  lemma DaySlotsFreeDay(sorted: seq<Booking>, day: int)
    ensures ActiveOn(sorted, day) == [] <==> DaySlots(sorted, day) == [FreeDaySlot]
    ensures ActiveOn(sorted, day) == [] <==> exists slot :: slot in DaySlots(sorted, day) && slot.context == FreeDayContext
  {
    var active := ActiveOn(sorted, day);
    if active != [] {
      DailySlotsWellFormed(ByStartTime(active));
    }
  }

  /** The free-day slot: nine to six, 540 minutes, and well formed. */
  lemma FreeDaySlotWellFormed()
    ensures WellFormed(FreeDaySlot)
    ensures FreeDaySlot.durationMinutes == 540
  {
    TimeToMinutesCanonical(FreeDayEnd);
    TimeToMinutesCanonical(DayStart);
  }

  /** The bookings the detector sees on a day: exactly the input's bookings
      whose date range covers that day, each as often as in the input, in
      start-time order. */
  lemma DayBookings(bookings: seq<Booking>, day: int)
    ensures forall b :: multiset(ByStartTime(ActiveOn(ByStartDateTime(bookings), day)))[b] ==
                        (if b.startDate <= day <= b.endDate then multiset(bookings)[b] else 0)
    ensures SortedBy(StartTimeKey, ByStartTime(ActiveOn(ByStartDateTime(bookings), day)))
  {
    var sorted := ByStartDateTime(bookings);
    SortPermutes(StartDateTimeKey, bookings);
    ActiveOnSelects(sorted, day);
    SortPermutes(StartTimeKey, ActiveOn(sorted, day));
    SortSorted(StartTimeKey, ActiveOn(sorted, day));
  }

  // ---------------------------------------------------------------------------
  // The days

  /** Consecutive ranges of days concatenate: the slots come day by day, in
      increasing date order. */
  lemma {:induction false} SlotsOfDaysSplit(sorted: seq<Booking>, first: int, mid: int, end: int)
    requires first <= mid <= end
    ensures SlotsOfDays(sorted, first, end) == SlotsOfDays(sorted, first, mid) + SlotsOfDays(sorted, mid, end)
    decreases end - mid
  {
    if mid < end {
      SlotsOfDaysSplit(sorted, first, mid, end - 1);
    }
  }

  /** Each day contributes its own slots at its own place: the slots of the
      days before it, then its own. */
  lemma SlotsOfDaysAt(sorted: seq<Booking>, first: int, day: int, end: int)
    requires first <= day < end
    ensures SlotsOfDays(sorted, first, end) ==
      SlotsOfDays(sorted, first, day) + DaySlots(sorted, day) + SlotsOfDays(sorted, day + 1, end)
  {
    SlotsOfDaysSplit(sorted, first, day, end);
    SlotsOfDaysSplit(sorted, day, day + 1, end);
    assert SlotsOfDays(sorted, day, day + 1) == DaySlots(sorted, day) by {
      assert SlotsOfDays(sorted, day, day) == [];
    }
    Regroup(SlotsOfDays(sorted, first, day), DaySlots(sorted, day), SlotsOfDays(sorted, day + 1, end));
  }

  lemma Regroup(a: seq<FreeTimeSlot>, b: seq<FreeTimeSlot>, c: seq<FreeTimeSlot>)
    ensures a + (b + c) == a + b + c
  {
  }

  lemma {:induction false} EarliestStartOfPermutation(a: seq<Booking>, b: seq<Booking>)
    requires |a| > 0 && multiset(a) == multiset(b)
    ensures |b| > 0
    ensures EarliestStart(a) == EarliestStart(b) && LatestEnd(a) == LatestEnd(b)
  {
    assert a[0] in multiset(b);
    var i :| 0 <= i < |a| && a[i].startDate == EarliestStart(a);
    var j :| 0 <= j < |b| && b[j].startDate == EarliestStart(b);
    assert a[i] in multiset(b) && b[j] in multiset(a);
    var k :| 0 <= k < |a| && a[k].endDate == LatestEnd(a);
    var l :| 0 <= l < |b| && b[l].endDate == LatestEnd(b);
    assert a[k] in multiset(b) && b[l] in multiset(a);
  }

  /** Sorting does not move the first and last dates. */
  lemma SortedBounds(bookings: seq<Booking>)
    requires bookings != []
    ensures ByStartDateTime(bookings) != []
    ensures EarliestStart(ByStartDateTime(bookings)) == EarliestStart(bookings)
    ensures LatestEnd(ByStartDateTime(bookings)) == LatestEnd(bookings)
  {
    SortPermutes(StartDateTimeKey, bookings);
    EarliestStartOfPermutation(bookings, ByStartDateTime(bookings));
  }

  lemma {:induction false} SlotsOfDaysWellFormed(sorted: seq<Booking>, first: int, end: int)
    ensures forall slot :: slot in SlotsOfDays(sorted, first, end) ==> WellFormed(slot)
    decreases end - first
  {
    if first < end {
      SlotsOfDaysWellFormed(sorted, first, end - 1);
      var active := ActiveOn(sorted, end - 1);
      if active == [] {
        FreeDaySlotWellFormed();
      } else {
        DailySlotsWellFormed(ByStartTime(active));
      }
    }
  }

  /** Every slot the analyzer reports lasts an hour or more, and its duration
      is the clock distance from its start to its end. */
  lemma FreeTimeSlotsWellFormed(bookings: seq<Booking>)
    ensures forall slot :: slot in FreeTimeSlots(bookings) ==> WellFormed(slot)
  {
    if bookings != [] {
      var sorted := ByStartDateTime(bookings);
      SlotsOfDaysWellFormed(sorted, EarliestStart(sorted), LatestEnd(sorted) + 1);
    }
  }

  // ---------------------------------------------------------------------------
  // Examples

  /** A booking nested inside another: only neighbours in start-time order
      are compared, and the evening check reads the end of the booking that
      starts last, so 12:00-22:00 is reported free although the outer booking
      runs until 16:00. */
  lemma NestedBookingExample()
    ensures DailySlots([Booking(1, 1, "10:00", "16:00"), Booking(1, 1, "11:00", "12:00")]) ==
      [FreeTimeSlot("09:00", "10:00", 60, MorningContext), FreeTimeSlot("12:00", "22:00", 600, EveningContext)]
  {
    var outer, inner := Booking(1, 1, "10:00", "16:00"), Booking(1, 1, "11:00", "12:00");
    var day := [outer, inner];
    assert TimeToMinutes("10:00") == 600 && TimeToMinutes("09:00") == 540;
    assert MorningSlots(outer) == [FreeTimeSlot("09:00", "10:00", 60, MorningContext)];
    assert !Less("16:00", "11:00");
    assert GapsBefore(day, 1) == GapsBefore(day, 0) + GapSlots(outer, inner) == [];
    assert TimeToMinutes("22:00") == 1320 && TimeToMinutes("12:00") == 720;
    assert EveningSlots(inner) == [FreeTimeSlot("12:00", "22:00", 600, EveningContext)];
  }

  /** The evening slot runs from the last booking's end, wherever that end
      lies: a booking over before 09:00 leaves 07:00 to 22:00 free. */
  lemma EarlyBookingExample()
    ensures DailySlots([Booking(1, 1, "06:00", "07:00")]) ==
      [FreeTimeSlot("07:00", "22:00", 900, EveningContext)]
  {
    var early := Booking(1, 1, "06:00", "07:00");
    assert !Less("09:00", "06:00");
    assert MorningSlots(early) == [];
    assert GapsBefore([early], 0) == [];
    assert TimeToMinutes("22:00") == 1320 && TimeToMinutes("07:00") == 420;
    assert EveningSlots(early) == [FreeTimeSlot("07:00", "22:00", 900, EveningContext)];
  }

  /** The morning slot runs up to the first booking's start, wherever that
      start lies: a booking at 23:00 leaves 09:00 to 23:00 free. */
  lemma LateBookingExample()
    ensures DailySlots([Booking(1, 1, "23:00", "23:30")]) ==
      [FreeTimeSlot("09:00", "23:00", 840, MorningContext)]
  {
    var late := Booking(1, 1, "23:00", "23:30");
    assert Less("09:00", "23:00");
    assert TimeToMinutes("23:00") == 1380 && TimeToMinutes("09:00") == 540;
    assert MorningSlots(late) == [FreeTimeSlot("09:00", "23:00", 840, MorningContext)];
    assert GapsBefore([late], 0) == [];
    assert !Less("23:30", "22:00");
    assert EveningSlots(late) == [];
  }

  /** The day's sort puts the earlier start first whatever the input order. */
  lemma SortByStartExample()
    ensures ByStartTime([Booking(1, 1, "11:00", "12:00"), Booking(1, 1, "10:00", "16:00")]) ==
      [Booking(1, 1, "10:00", "16:00"), Booking(1, 1, "11:00", "12:00")]
  {
    var inner, outer := Booking(1, 1, "11:00", "12:00"), Booking(1, 1, "10:00", "16:00");
    assert Sort(StartTimeKey, [inner]) == [inner] by {
      assert [inner][..0] == [];
    }
    assert [inner, outer][..1] == [inner];
    assert Before(StartTimeKey, outer, inner) by {
      assert Less("10:00", "11:00");
    }
    assert [inner][..0] == [];
    assert Insert(StartTimeKey, outer, [inner]) == [outer, inner];
  }
}
