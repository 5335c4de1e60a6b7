# Itinerary free time, suggestion queries and speech region — a Dafny model

This project models the core of a travel-itinerary backend. It has four
parts.

- **The free-time analyzer of the itinerary service**, `analyze_free_time_slots`.
  - It takes a user's bookings: hotels, flights and activities, each with a
    start and end date and a start and end time.
  - It walks every day of the trip.
  - It reports the free windows of each day:
    - a whole free day, 09:00 to 18:00;
    - otherwise, the morning before the first booking, the gaps between
      neighbouring bookings in start-time order, and the evening after the
      booking that starts last.
  - Only windows of at least an hour count. The morning window opens at
    09:00 and the evening window closes at 22:00, but their other ends are
    the first booking's start and the last booking's end, wherever those
    lie, and the gaps between bookings have no bounds at all.
- **The conversions and choices around it.**
  - `time_to_minutes` and `minutes_to_time` convert between clock text and
    minutes since midnight.
  - The contextual message picks the largest free slot.
  - The itinerary service has its own activity query builder.
- **The activity-suggestion service.**
  - The category mappings of its four queries: activities, restaurants,
    nightlife and events.
  - The WHERE conditions and driver parameters those queries build side by
    side.
  - The `duration_display` text of a suggestion.
  - The dispatch on the suggestion type, with its error result.
  - The fixed category descriptions.
- **The speech service's region extractor**, `extract_region_from_endpoint`.

The modules follow the program's structure.

- `PyStr`: Python string behaviour the code relies on. This covers `<` on
  `str`, ASCII `lower()`, `str(int)` and `str.join`.
- `Bookings`: the booking rows and Python's stable sort by key.
- `Clock`: the time conversions.
- `FreeTime`: the analyzer, the slot type and the contextual message.
- `FreeTimeProperties`: what the analyzer promises, proved about its
  specification functions.
- `SqlWhere`: conditions, parameters and `%s` placeholders.
- `Suggestions`: the suggestion service.
- `ItineraryQuery`: the itinerary service's activity query.
- `TtsRegion`: the endpoint parser.

How the source's values are represented:

- **Dates** are day numbers, so one `timedelta(days=1)` is `+ 1`.
- **Times** stay the `HH:MM` text of the rows. The source compares them as
  strings in both sorts and in the three checks of a day's scan, and the
  model does the same.
- **Loops over changing state** are methods with loop invariants: the day
  loop and the per-day scan. The WHERE builders, which append to their lists
  step by step without a loop, are methods too. Each method is proved equal
  to a specification function, and the properties are lemmas about those
  functions.
- **The text-generation service** is a parameter: `Some(reply)` for its
  stripped answer, `None` when the call raised.
- **The database** is a parameter as well. It stands for the rows a query
  returns.

## Model

| member | source | states |
|---|---|---|
| FreeTime.FindDailyFreeSlots | itinerary_ai_service.py:128-176 | the day's slots are those of the day's bookings sorted by start time: morning check, neighbour gaps, evening check (`DailySlots`); `date` plays no part |
| FreeTime.ScanDay | itinerary_ai_service.py:136-176 | the scan of bookings already in start-time order gives the morning check's slot, then the neighbour gaps, then the evening check's slot |
| FreeTime.ScanGaps | itinerary_ai_service.py:149-161 | the loop over neighbour pairs gives the gap slots of all pairs (i, i+1) in order (loop invariant: the gaps of the pairs seen so far) |
| FreeTime.CheckMorning | itinerary_ai_service.py:136-146 | a morning slot 09:00 → first start, with its minute length, exactly when the first start sorts after "09:00" as a string and lies at least 60 minutes later; otherwise none |
| FreeTime.CheckGap | itinerary_ai_service.py:149-161 | a gap slot end[i] → start[i+1] exactly when end[i] < start[i+1] as strings and the minute distance is at least 60 |
| FreeTime.CheckEvening | itinerary_ai_service.py:164-174 | an evening slot last end → 22:00 exactly when that end sorts before "22:00" and lies at least 60 minutes earlier |
| FreeTime.ContextTextInjective | itinerary_ai_service.py:13-18 | the four context texts a slot carries are pairwise different, so the text identifies the slot's kind |
| FreeTime.ActiveOn | itinerary_ai_service.py:109 | the day's filter over the sorted bookings; `FreeTime.ActiveOnSelects` states that it keeps exactly the covering bookings, with multiplicity |
| FreeTime.ActiveOnSelects | itinerary_ai_service.py:109 | a day's bookings are exactly those whose date range covers the day, each as often as in the input |
| FreeTime.EarliestStart | itinerary_ai_service.py:103 | the result is some booking's start date and no booking starts earlier |
| FreeTime.LatestEnd | itinerary_ai_service.py:104 | the result is some booking's end date and no booking ends later |
| FreeTime.AnalyzeFreeTimeSlots | itinerary_ai_service.py:92-126 | the slot list is `FreeTimeSlots(bookings)`: no bookings give no slots; otherwise the days from the earliest start to the latest end, both included, each contribute their slots in date order |
| FreeTime.VisitDays | itinerary_ai_service.py:107-124 | the day loop visits every date from start to end inclusive, once each, in increasing order (loop invariant: the slots of the days visited so far) |
| FreeTime.VisitDay | itinerary_ai_service.py:109-122 | one day: the free-day slot when no booking covers it, otherwise the gap detector's slots for its bookings |
| FreeTime.LargestSlotIndex | itinerary_ai_service.py:257 | the chosen slot is at least as long as every slot and strictly longer than every slot before it, so it is the first of the longest, as Python's `max` keeps |
| FreeTime.ContextualMessage | itinerary_ai_service.py:251-280 | no slots give the fixed "No free time slots…" text; otherwise the model's reply when there is one, else the fallback naming the first longest slot's start and end |
| FreeTimeProperties.GapsBeforeKinds | itinerary_ai_service.py:149-161 | the first n neighbour pairs give at most n gap slots, each a well-formed gap |
| FreeTimeProperties.GapsBeforeSound | itinerary_ai_service.py:149-161 | every gap slot comes from a free neighbour pair (i, i+1) |
| FreeTimeProperties.GapsBeforeComplete | itinerary_ai_service.py:149-161 | every free neighbour pair (i, i+1) has its gap slot |
| FreeTimeProperties.DailySlotsMembers | itinerary_ai_service.py:136-174 | a slot is in a day's list if and only if it is the morning slot of a first booking that leaves the morning free, or the gap slot of a free neighbour pair in start-time order, or the evening slot of the booking that starts last; non-neighbour pairs are never compared |
| FreeTimeProperties.DailySlotsWellFormed | itinerary_ai_service.py:128-176 | a day with k bookings has at most k+1 slots, none for no bookings; each lasts at least 60 minutes, equals the minute distance from start to end, starts before it ends, and is morning, gap or evening |
| FreeTimeProperties.DailySlotsOrder | itinerary_ai_service.py:136-174 | the morning slot comes first, then the gaps, then the evening slot |
| FreeTimeProperties.DailySlotsOpens | itinerary_ai_service.py:136-146 | the list opens with a morning slot if and only if the booking that starts first leaves the morning free, and that slot is the one the morning check builds |
| FreeTimeProperties.DailySlotsCloses | itinerary_ai_service.py:164-174 | the list closes with an evening slot if and only if the booking that starts last leaves the evening free, and that slot is the one the evening check builds |
| FreeTimeProperties.DaySlotsFreeDay | itinerary_ai_service.py:109-122 | a visited day gets a free-day slot if and only if no booking covers it, and then that slot alone |
| FreeTimeProperties.FreeDaySlotWellFormed | itinerary_ai_service.py:111-118 | the free-day slot runs 09:00 to 18:00, lasts 540 minutes, and its length matches its ends |
| FreeTimeProperties.DayBookings | itinerary_ai_service.py:100-133 | the bookings the detector sees on a day are exactly the input's bookings covering that day, with multiplicity, in start-time order |
| FreeTimeProperties.SlotsOfDaysSplit | itinerary_ai_service.py:107-124 | consecutive ranges of days concatenate: slots come day by day in increasing date order |
| FreeTimeProperties.SlotsOfDaysAt | itinerary_ai_service.py:107-124 | each day of the range contributes its own slots once, after those of all earlier days and before those of all later ones |
| FreeTimeProperties.SortedBounds | itinerary_ai_service.py:100-104 | sorting the bookings moves neither the earliest start date nor the latest end date |
| FreeTimeProperties.FreeTimeSlotsWellFormed | itinerary_ai_service.py:92-176 | every slot the analyzer reports lasts an hour or more, and its duration is the minute distance from its start to its end |
| FreeTimeProperties.NestedBookingExample | itinerary_ai_service.py:149-174 | for 10:00-16:00 and 11:00-12:00 on one day the analyzer reports 09:00-10:00 and 12:00-22:00: the evening check reads the end of the booking that starts last, so a reported slot can lie inside another booking |
| FreeTimeProperties.EarlyBookingExample | itinerary_ai_service.py:164-174 | a lone 06:00-07:00 booking leaves 07:00-22:00 (900 minutes) as the evening slot: the evening slot starts at the last end wherever it lies, even before 09:00 |
| FreeTimeProperties.LateBookingExample | itinerary_ai_service.py:136-146 | a lone 23:00-23:30 booking leaves 09:00-23:00 (840 minutes) as the morning slot and no evening slot: the morning slot ends at the first start, even after 22:00 |
| FreeTimeProperties.SortByStartExample | itinerary_ai_service.py:133 | the day's sort puts the earlier start first whatever the input order |
| Bookings.Sort | itinerary_ai_service.py:100 | Python's stable sort by a key, used by key (date, time) at :100 and by start time at :133; the result has the input's length, and `SortPermutes`, `SortSorted` and `SortStable` state the rest |
| Bookings.SortPermutes | itinerary_ai_service.py:100 | the sorted list holds exactly the input's bookings, with multiplicity |
| Bookings.SortSorted | itinerary_ai_service.py:100 | no booking's key is smaller than the key of a booking before it |
| Bookings.SortStable | itinerary_ai_service.py:133 | bookings with equal keys keep their input order, as Python's sort does |
| Clock.ParseClock | itinerary_ai_service.py:180-181 | an accepted time is under 24 hours' worth of minutes |
| Clock.TimeToMinutes | itinerary_ai_service.py:178-184 | the result lies in 0..1439, and any text the parser rejects gives 0 instead of an error |
| Clock.TimeToMinutesCanonical | itinerary_ai_service.py:178-184 | a zero-padded HH:MM time gives hours*60 + minutes |
| Clock.TimeToMinutesExamples | itinerary_ai_service.py:178-184 | "9:5" is 545 and "23:59" is 1439; "24:00", "12:345" and "noon" are rejected and give 0 |
| Clock.TimeToMinutesOfMinutesToTime | itinerary_ai_service.py:178-190 | for 0 <= m < 1440, `minutes_to_time(m)` is a zero-padded HH:MM time and `time_to_minutes` reads m back |
| Clock.MinutesToTimeOfTimeToMinutes | itinerary_ai_service.py:178-190 | a zero-padded HH:MM time survives the trip to minutes and back |
| Clock.MinutesToTime | itinerary_ai_service.py:186-190 | `minutes // 60` and `minutes % 60`, each written with `{:02d}`; its round trip with `time_to_minutes` is `TimeToMinutesOfMinutesToTime` and `MinutesToTimeOfTimeToMinutes`, its fields `MinutesToTimeZeroPads` |
| Clock.MinutesToTimeOfFields | itinerary_ai_service.py:186-190 | the minutes h*60+m are written as the two fields h and m |
| Clock.MinutesToTimeZeroPads | itinerary_ai_service.py:186-190 | for any minute count >= 0 the text is an hours field of two or more digits, a colon and a two-digit minutes field, reading back as `minutes // 60` and `minutes % 60` |
| Clock.Pad2 | itinerary_ai_service.py:190 | `{n:02d}` is at least two characters long |
| Clock.LessIffEarlier | itinerary_ai_service.py:137-165 | on zero-padded HH:MM times the string comparisons the detector makes agree with minute order |
| Clock.UnpaddedOrderExample | itinerary_ai_service.py:152 | outside that form they part ways: "10:00" sorts before "9:30" although it is later |
| ItineraryQuery.GetActivitySuggestions | itinerary_ai_service.py:192-213 | the conditions and parameters are `category = %s` with the category as given, `status = 'active'`, then location, duration and price where given; the WHERE clause's `%s` count equals the number of parameters |
| ItineraryQuery.ActivitySuggestionsLockStep | itinerary_ai_service.py:197-228 | every `%s` of the WHERE clause has its parameter, in order; the statement's `LIMIT 20` takes none |
| ItineraryQuery.SameFiltersAsSuggestionService | itinerary_ai_service.py:197-211 | against the suggestion service's activities query: the same conditions; the parameters differ only in the mapped category and LIMIT's trailing parameter |
| TtsRegion.NextDot | tts_service.py:19 | the first '.' at or after i, or the end of the text; nothing in between is a '.' |
| TtsRegion.MatchAt | tts_service.py:19 | a match at a given index yields a non-empty group without '.' |
| TtsRegion.SearchFrom | tts_service.py:19 | a found group is non-empty and holds no '.' |
| TtsRegion.SearchFromLeftmost | tts_service.py:19 | the search finds nothing if and only if no index matches; a result is the group of the leftmost matching index |
| TtsRegion.ExtractRegion | tts_service.py:10-23 | the region is never empty |
| TtsRegion.FalsyEndpoint | tts_service.py:15-16 | None or "" gives "southafricanorth" |
| TtsRegion.RegionIsLeftmostLabel | tts_service.py:19-23 | with no match anywhere the region is the default; with a match somewhere it is the group of the leftmost matching index; it never holds a '.' |
| TtsRegion.NoMatchGivesDefault | tts_service.py:19-23 | without "https://" or without ".api.cognitive.microsoft.com" anywhere (another scheme or domain) the default region is returned |
| TtsRegion.MatchAtStart | tts_service.py:19-21 | `https://<host>.api.cognitive.microsoft.com…` matches at its start with group `<host>`, for any non-empty host without '.' |
| TtsRegion.MatchAnywhere | tts_service.py:19-21 | the match may sit after other text: with no 'h' in front of it, `<host>` is returned |
| SqlWhere.AddLocation | activity_suggestion_service.py:66-68 | `location LIKE %s` and `%location%` are appended together when the location is truthy, nothing otherwise |
| SqlWhere.AddIntBound | activity_suggestion_service.py:70-72 | `<column> <= %s` and the bound are appended together when the bound is non-zero, nothing otherwise |
| SqlWhere.AddPriceBound | activity_suggestion_service.py:74-76 | `<column> <= %s` and the price are appended together when the price is non-zero, nothing otherwise |
| SqlWhere.AddType | activity_suggestion_service.py:141-143 | `<column> = %s` and the type are appended together unless the type is "general" |
| SqlWhere.PlaceholdersOfWhereClause | activity_suggestion_service.py:78 | joining with " AND " adds no placeholder: the clause has the sum of its conditions' `%s` |
| SqlWhere.LockStep | activity_suggestion_service.py:63-99 | a WHERE clause of filter conditions and fixed conditions without '%' has exactly one `%s` per filter |
| Suggestions.DurationDisplay | activity_suggestion_service.py:34 | "<h>h <m>m" from 60 minutes up, "<d>m" below; `DurationDisplayRoundTrip` and `DurationDisplayFields` state what it keeps |
| Suggestions.ToDict | activity_suggestion_service.py:28-44 | the dictionary keeps the minutes and carries their `duration_display` |
| Suggestions.DurationDisplayRoundTrip | activity_suggestion_service.py:34 | the display loses nothing: the minutes read back from "<h>h <m>m" or "<d>m" |
| Suggestions.DurationDisplayFields | activity_suggestion_service.py:34 | from 60 minutes up the display is "<h>h <m>m" with h >= 1, 0 <= m < 60 and d = 60h + m |
| Suggestions.ActivityCategory | activity_suggestion_service.py:53-60 | `category_mapping.get(category.lower(), category.lower())`; `ActivityCategoryValues` states its values |
| Suggestions.TypeOf | activity_suggestion_service.py:136 | `mapping.get(category.lower(), "general")`, as at :136, :211 and :286; `MappedTypesAreNotGeneral` and `TypeFilterIffMapped` state what it decides |
| Suggestions.ActivityCategoryValues | activity_suggestion_service.py:53-60 | "adventurous", "relax", "luxurious" and "cultural", in any case, map to "adventure", "relaxation", "luxury" and "culture"; any other category passes through lower-cased |
| Suggestions.QueriesIgnoreCase | activity_suggestion_service.py:53-60 | all four queries depend on the category only through its lower-cased form |
| Suggestions.MappedTypesAreNotGeneral | activity_suggestion_service.py:129-136 | no known category maps to "general" in the cuisine, venue or event mapping |
| Suggestions.TypeFilterIffMapped | activity_suggestion_service.py:136-143 | for restaurants, nightlife and events an unmapped category adds no type condition and no parameter; a mapped one adds its condition and value |
| Suggestions.ActivitiesFalsyFilters | activity_suggestion_service.py:63-78 | with every filter falsy (None, "", 0, 0.0) the activities query is its two fixed conditions with the category and LIMIT's parameter |
| Suggestions.ActivitiesLockStep | activity_suggestion_service.py:63-99 | the activities statement has exactly as many `%s` as parameters, and LIMIT's parameter is last |
| Suggestions.RestaurantsLockStep | activity_suggestion_service.py:138-174 | the same for the restaurants statement |
| Suggestions.NightlifeLockStep | activity_suggestion_service.py:213-249 | the same for the nightlife statement |
| Suggestions.EventsLockStep | activity_suggestion_service.py:288-324 | the same for the events statement, whose `event_date >= CURDATE()` adds no placeholder |
| Suggestions.ActivitiesByCategory | activity_suggestion_service.py:53-99 | builds the mapped `category = %s`, `status = 'active'` and the given filters in order, with LIMIT's parameter last, in lock step |
| Suggestions.RestaurantsByCategory | activity_suggestion_service.py:129-174 | builds `status = 'active'`, the cuisine type unless "general", location and `average_price`, with LIMIT's parameter last, in lock step |
| Suggestions.NightlifeByCategory | activity_suggestion_service.py:204-249 | the same with the venue type and `cover_charge` |
| Suggestions.EventsByCategory | activity_suggestion_service.py:279-324 | the same with both fixed conditions, the event type and `ticket_price` |
| Suggestions.KindOf | activity_suggestion_service.py:357-373 | the `suggestion_type.lower()` chain of the dispatch; `KindOfIffName` states which types it recognises |
| Suggestions.KindOfIffName | activity_suggestion_service.py:357-369 | a suggestion type is recognised if and only if its lower-cased form is one of the four names, and then it names that kind |
| Suggestions.DurationOnlyForActivities | activity_suggestion_service.py:357-372 | only the activities query receives the duration bound |
| Suggestions.Views | activity_suggestion_service.py:379 | one dictionary per suggestion, in order |
| Suggestions.SuggestionsByTypeAndCategory | activity_suggestion_service.py:357-386 | an unknown type gives "Invalid suggestion type: <type>" with an empty list and runs no query; a known one runs its kind's query and lists its suggestions with `total_suggestions` equal to their number |
| Suggestions.CategoryDescription | activity_suggestion_service.py:397-423 | `generate_category_description`: the fixed text for a known category, else the model's reply or the fallback; `KnownCategoryIgnoresModel` and `UnknownCategoryUsesModel` state both cases |
| Suggestions.KnownCategoryIgnoresModel | activity_suggestion_service.py:402-410 | the four known categories, in any case, get their fixed text whatever the model would answer |
| Suggestions.UnknownCategoryUsesModel | activity_suggestion_service.py:412-423 | any other category gets the model's reply, or a fallback naming the category as written |

## Left out

- **Database access.** The bookings SQL, the connection pool and
  `fetch_all` are not modelled, and neither is async. The bookings are an
  input. The suggestion dispatch takes the rows the chosen query returns
  as the parameter `found`. The row-to-suggestion copy loops, with their
  `.get` defaults, are not modelled: each SELECT names every column those
  loops read.
- **SQL text without placeholders.** The SELECT column lists and ORDER BY
  clauses are constants with no `%s`, so they do not affect the lock step.
- **Text generation.** The model calls, their prompts and the `strip()` of
  the reply are left out. The reply is a parameter. The message's
  `model = GenerativeModel(...)` construction could fail before the
  known-category lookup, and that failure is not modelled: the fixed
  descriptions are returned without it.
- **Speech synthesis.** The SDK calls and the backup-key retry of the
  speech service are out of scope: they are foreign and have side effects.
- **The outer `except` of `get_suggestions_by_type_and_category`.** It is
  reachable only through failures outside the model: a non-string type,
  or a failing `to_dict`.
- **`price_display` and `rating_display`.** They use floating-point
  formatting. Prices and ratings are carried as reals without NaN.
- **Clock parsing.** `ParseClock` accepts one- or two-digit ASCII fields.
  `strptime` also accepts other Unicode digits; the model does not.
- **Case folding.** `Lower` folds ASCII letters only.
- **Sorting.** `day_bookings.sort` sorts the caller's list in place. The
  model sorts a value, so the caller does not see its list reordered.
  Python's sort is modelled by a stable insertion sort, which gives the
  same order (both are stable).
- FreeTime.ContextualMessage: when the model is reached, the contract says
  only that its reply is returned; the prompt's wording is not modelled.
- TtsRegion.MatchAnywhere: requires the text in front of the match to hold
  no 'h', which rules out an earlier partial "https://"; the general
  statement, that a match anywhere yields the group of the leftmost one, is
  `TtsRegion.RegionIsLeftmostLabel`.
- Bookings.Booking: the start and end times are strings. A row whose time
  is None (a NULL column) makes the source raise TypeError in the string
  comparisons at itinerary_ai_service.py:100, 133, 138, 153 and 166, and
  `analyze_user_itinerary` (itinerary_ai_service.py:312-318) then returns
  its error result. The model has no such rows and does not model that
  error path. Only a time that is a string but not `%H:%M` falls back to 0
  minutes, in `time_to_minutes`.
- **Slot context.** `FreeTimeSlot.context` is a free string in the source;
  the model uses an enumeration of the four values the analyzer writes,
  with `ContextText` giving each one's wording.
- **Multi-day bookings.** A booking spanning several days is seen with the
  same start and end times on each of them, as in the source; nothing
  stronger is claimed about them.
