/** The activity-suggestion service: the category mappings and WHERE
    clauses of its four queries (activities, restaurants, nightlife, events),
    the `duration_display` text of a suggestion, the dispatch on the
    suggestion type, and the fixed category descriptions. */
module Suggestions {
  import opened PyStr
  import opened SqlWhere

  // ---------------------------------------------------------------------------
  // Suggestions and their dictionary form

  /** One suggestion as the queries return it (prices and ratings are the
      database's decimals). */
  datatype ActivitySuggestion = ActivitySuggestion(
    activityId: int, title: string, location: string, durationMinutes: int,
    price: real, rating: real, category: string, description: string,
    imageUrl: string, provider: string, availability: string)

  /** The dictionary `to_dict` returns, without the price and rating
      displays. */
  datatype SuggestionView = SuggestionView(
    activityId: int, title: string, location: string, durationMinutes: int,
    durationDisplay: string, price: real, rating: real, category: string,
    description: string, imageUrl: string, provider: string, availability: string)

  /** f"{d // 60}h {d % 60}m" from an hour up, f"{d}m" below it. */
  function DurationDisplay(d: int): string
  {
    if d >= 60 then IntToString(d / 60) + "h " + IntToString(d % 60) + "m" else IntToString(d) + "m"
  }

  function ToDict(a: ActivitySuggestion): (v: SuggestionView)
    ensures v.durationMinutes == a.durationMinutes && v.durationDisplay == DurationDisplay(a.durationMinutes)
  {
    SuggestionView(a.activityId, a.title, a.location, a.durationMinutes, DurationDisplay(a.durationMinutes),
                   a.price, a.rating, a.category, a.description, a.imageUrl, a.provider, a.availability)
  }

  /** The first index of `c` in `s`, if any. */
  function FindChar(s: string, c: char): (r: Option<nat>)
    ensures r.Some? ==> r.value < |s| && s[r.value] == c && c !in s[..r.value]
    ensures r.None? ==> c !in s
  {
    if s == [] then None
    else if s[0] == c then Some(0)
    else match FindChar(s[1..], c)
      case Some(i) => (assert s[..i + 1] == [s[0]] + s[1..][..i]; Some(i + 1))
      case None => None
  }

  /** Reads a duration display back: "<h>h <m>m" or "<d>m". */
  function ParseDurationDisplay(s: string): Option<int>
  {
    if |s| == 0 || s[|s| - 1] != 'm' then None
    else
      var body := s[..|s| - 1];
      match FindChar(body, 'h')
      case Some(k) =>
        if k + 1 < |body| && body[k + 1] == ' ' then
          match (ParseInt(body[..k]), ParseInt(body[k + 2..]))
          case (Some(h), Some(m)) => Some(h * 60 + m)
          case _ => None
        else None
      case None => ParseInt(body)
  }

  /** The display loses nothing: the minutes read back from it. */
  lemma DurationDisplayRoundTrip(d: int)
    ensures ParseDurationDisplay(DurationDisplay(d)) == Some(d)
  {
    var s := DurationDisplay(d);
    if d >= 60 {
      var hours, mins := IntToString(d / 60), IntToString(d % 60);
      var body := hours + "h " + mins;
      assert s[..|s| - 1] == body;
      IntToStringChars(d / 60);
      assert 'h' !in hours;
      assert body[..|hours|] == hours;
      FindFirst(body, hours, 'h');
      assert body[|hours| + 2..] == mins;
      IntToStringRoundTrip(d / 60);
      IntToStringRoundTrip(d % 60);
    } else {
      var body := IntToString(d);
      assert s[..|s| - 1] == body;
      IntToStringChars(d);
      assert 'h' !in body;
      IntToStringRoundTrip(d);
    }
  }

  lemma FindFirst(s: string, before: string, c: char)
    requires |before| < |s| && s[..|before|] == before && s[|before|] == c && c !in before
    ensures FindChar(s, c) == Some(|before|)
  {
    assert s[|before|] in s;
  }

  /** From an hour up the display shows whole hours and the remaining
      minutes, under 60. */
  lemma DurationDisplayFields(d: int)
    requires d >= 60
    ensures exists h: int, m: int :: 1 <= h && 0 <= m < 60 && d == 60 * h + m
                                     && DurationDisplay(d) == IntToString(h) + "h " + IntToString(m) + "m"
  {
    var h, m := d / 60, d % 60;
    assert 1 <= h && 0 <= m < 60 && d == 60 * h + m
           && DurationDisplay(d) == IntToString(h) + "h " + IntToString(m) + "m";
  }

  // ---------------------------------------------------------------------------
  // Category mappings, on the lower-cased category

  const ActivityCategories: map<string, string> :=
    map["adventurous" := "adventure", "relax" := "relaxation", "luxurious" := "luxury", "cultural" := "culture"]
  const CuisineTypes: map<string, string> :=
    map["adventurous" := "exotic", "relax" := "casual", "luxurious" := "fine_dining", "cultural" := "traditional"]
  const VenueTypes: map<string, string> :=
    map["adventurous" := "adventure_bar", "relax" := "lounge", "luxurious" := "upscale_club", "cultural" := "cultural_venue"]
  const EventTypes: map<string, string> :=
    map["adventurous" := "sports", "relax" := "wellness", "luxurious" := "exclusive", "cultural" := "cultural"]

  /** `mapping.get(category.lower(), category.lower())` */
  function ActivityCategory(category: string): string
  {
    var key := Lower(category);
    if key in ActivityCategories then ActivityCategories[key] else key
  }

  /** `mapping.get(category.lower(), "general")` */
  function TypeOf(mapping: map<string, string>, category: string): string
  {
    var key := Lower(category);
    if key in mapping then mapping[key] else "general"
  }

  // ---------------------------------------------------------------------------
  // The four queries: fixed conditions, then the optional filters in order,
  // with LIMIT's parameter last.

  /** Leading filters, fixed conditions, trailing filters, and LIMIT's
      parameter after all the filters' ones. */
  function Build(head: seq<Filter>, fixed: seq<string>, filters: seq<Filter>, limit: int): Query
  {
    Query(Conditions(head) + fixed + Conditions(filters), Params(head) + Params(filters) + [Int(limit)])
  }

  const Active: string := "status = 'active'"
  const Upcoming: string := "event_date >= CURDATE()"

  function ActivityFilters(location: Option<string>, durationMinutes: Option<int>, maxPrice: Option<real>): seq<Filter>
  {
    LocationFilter(location) + IntFilter("duration_minutes", durationMinutes) + PriceFilter("price", maxPrice)
  }

  /** `category = %s` with the mapped category, then `status = 'active'`,
      then the filters. */
  function ActivitiesQuery(category: string, location: Option<string>, durationMinutes: Option<int>,
                           maxPrice: Option<real>, limit: int): Query
  {
    Build([Filter("category", " = ", Text(ActivityCategory(category)))], [Active],
          ActivityFilters(location, durationMinutes, maxPrice), limit)
  }

  /** The type filter (unless "general"), then location and price. */
  function TypedFilters(typeColumn: string, typeValue: string, location: Option<string>,
                        priceColumn: string, maxPrice: Option<real>): seq<Filter>
  {
    TypeFilter(typeColumn, typeValue) + LocationFilter(location) + PriceFilter(priceColumn, maxPrice)
  }

  function RestaurantsQuery(category: string, location: Option<string>, maxPrice: Option<real>, limit: int): Query
  {
    Build([], [Active], TypedFilters("cuisine_type", TypeOf(CuisineTypes, category), location, "average_price", maxPrice),
          limit)
  }

  function NightlifeQuery(category: string, location: Option<string>, maxPrice: Option<real>, limit: int): Query
  {
    Build([], [Active], TypedFilters("venue_type", TypeOf(VenueTypes, category), location, "cover_charge", maxPrice),
          limit)
  }

  function EventsQuery(category: string, location: Option<string>, maxPrice: Option<real>, limit: int): Query
  {
    Build([], [Active, Upcoming], TypedFilters("event_type", TypeOf(EventTypes, category), location, "ticket_price", maxPrice),
          limit)
  }

  /** The statement ends in `LIMIT %s`, so it has one placeholder more than
      the WHERE clause; LIMIT's parameter is the last. */
  predicate PlaceholdersMatchParams(q: Query, limit: int)
  {
    Placeholders(WhereClause(q.conditions)) + 1 == |q.params| && q.params[|q.params| - 1] == Int(limit)
  }

  lemma BuildLockStep(head: seq<Filter>, fixed: seq<string>, filters: seq<Filter>, limit: int)
    requires PlainFilters(head) && PlainFilters(filters)
    requires forall c :: c in fixed ==> '%' !in c
    ensures PlaceholdersMatchParams(Build(head, fixed, filters, limit), limit)
  {
    LockStep(head, fixed, filters);
  }

  lemma TypedFiltersPlain(typeColumn: string, typeValue: string, location: Option<string>,
                          priceColumn: string, maxPrice: Option<real>)
    requires '%' !in typeColumn && '%' !in priceColumn
    ensures PlainFilters(TypedFilters(typeColumn, typeValue, location, priceColumn, maxPrice))
  {
    SharedFiltersPlain(typeColumn, typeValue, location, "price", None, priceColumn, maxPrice);
    PlainConcat(TypeFilter(typeColumn, typeValue), LocationFilter(location));
    PlainConcat(TypeFilter(typeColumn, typeValue) + LocationFilter(location), PriceFilter(priceColumn, maxPrice));
  }

  // Every `%s` of the four statements has its parameter, in order, and
  // LIMIT's parameter is the last.

  lemma ActivitiesLockStep(category: string, location: Option<string>, durationMinutes: Option<int>,
                           maxPrice: Option<real>, limit: int)
    ensures PlaceholdersMatchParams(ActivitiesQuery(category, location, durationMinutes, maxPrice, limit), limit)
  {
    SharedFiltersPlain("category", "", location, "duration_minutes", durationMinutes, "price", maxPrice);
    PlainConcat(LocationFilter(location), IntFilter("duration_minutes", durationMinutes));
    PlainConcat(LocationFilter(location) + IntFilter("duration_minutes", durationMinutes), PriceFilter("price", maxPrice));
    BuildLockStep([Filter("category", " = ", Text(ActivityCategory(category)))], [Active],
                  ActivityFilters(location, durationMinutes, maxPrice), limit);
  }

  lemma RestaurantsLockStep(category: string, location: Option<string>, maxPrice: Option<real>, limit: int)
    ensures PlaceholdersMatchParams(RestaurantsQuery(category, location, maxPrice, limit), limit)
  {
    var value := TypeOf(CuisineTypes, category);
    TypedFiltersPlain("cuisine_type", value, location, "average_price", maxPrice);
    BuildLockStep([], [Active], TypedFilters("cuisine_type", value, location, "average_price", maxPrice), limit);
  }

  lemma NightlifeLockStep(category: string, location: Option<string>, maxPrice: Option<real>, limit: int)
    ensures PlaceholdersMatchParams(NightlifeQuery(category, location, maxPrice, limit), limit)
  {
    var value := TypeOf(VenueTypes, category);
    TypedFiltersPlain("venue_type", value, location, "cover_charge", maxPrice);
    BuildLockStep([], [Active], TypedFilters("venue_type", value, location, "cover_charge", maxPrice), limit);
  }

  lemma EventsLockStep(category: string, location: Option<string>, maxPrice: Option<real>, limit: int)
    ensures PlaceholdersMatchParams(EventsQuery(category, location, maxPrice, limit), limit)
  {
    var value := TypeOf(EventTypes, category);
    TypedFiltersPlain("event_type", value, location, "ticket_price", maxPrice);
    BuildLockStep([], [Active, Upcoming], TypedFilters("event_type", value, location, "ticket_price", maxPrice), limit);
  }

  // ---------------------------------------------------------------------------
  // The builders: each grows the condition and parameter lists step by step.

  /** `get_activities_by_category`'s WHERE clause and parameters. */
  method ActivitiesByCategory(category: string, location: Option<string>, durationMinutes: Option<int>,
                              maxPrice: Option<real>, limit: int)
    returns (conditions: seq<string>, params: seq<SqlParam>)
    ensures Query(conditions, params) == ActivitiesQuery(category, location, durationMinutes, maxPrice, limit)
    ensures Placeholders(WhereClause(conditions)) + 1 == |params| && params[|params| - 1] == Int(limit)
  {
    var dbCategory := ActivityCategory(category);
    conditions := [Condition("category", " = "), Active];
    params := [Text(dbCategory)];
    ghost var head := [Filter("category", " = ", Text(dbCategory))];
    assert conditions == Conditions(head) + [Active] && params == Params(head);
    conditions, params := AddLocation(conditions, params, location);
    conditions, params := AddIntBound(conditions, params, "duration_minutes", durationMinutes);
    conditions, params := AddPriceBound(conditions, params, "price", maxPrice);
    params := params + [Int(limit)];
    Compose(head, [Active], LocationFilter(location), IntFilter("duration_minutes", durationMinutes),
            PriceFilter("price", maxPrice), conditions, params, limit);
    ActivitiesLockStep(category, location, durationMinutes, maxPrice, limit);
  }

  /** Three filter groups appended one after the other, then LIMIT's
      parameter, give the query of their concatenation. */
  lemma Compose(head: seq<Filter>, fixed: seq<string>, a: seq<Filter>, b: seq<Filter>, c: seq<Filter>,
                conditions: seq<string>, params: seq<SqlParam>, limit: int)
    requires conditions == Conditions(head) + fixed + Conditions(a) + Conditions(b) + Conditions(c)
    requires params == Params(head) + Params(a) + Params(b) + Params(c) + [Int(limit)]
    ensures Query(conditions, params) == Build(head, fixed, a + b + c, limit)
  {
    ThreeSteps(Conditions(head) + fixed, Params(head), a, b, c);
  }

  /** `get_restaurants_by_category`'s WHERE clause and parameters. */
  method RestaurantsByCategory(category: string, location: Option<string>, maxPrice: Option<real>, limit: int)
    returns (conditions: seq<string>, params: seq<SqlParam>)
    ensures Query(conditions, params) == RestaurantsQuery(category, location, maxPrice, limit)
    ensures Placeholders(WhereClause(conditions)) + 1 == |params| && params[|params| - 1] == Int(limit)
  {
    var cuisineType := TypeOf(CuisineTypes, category);
    conditions := [Active];
    params := [];
    conditions, params := AddType(conditions, params, "cuisine_type", cuisineType);
    conditions, params := AddLocation(conditions, params, location);
    conditions, params := AddPriceBound(conditions, params, "average_price", maxPrice);
    params := params + [Int(limit)];
    Compose([], [Active], TypeFilter("cuisine_type", cuisineType), LocationFilter(location),
            PriceFilter("average_price", maxPrice), conditions, params, limit);
    RestaurantsLockStep(category, location, maxPrice, limit);
  }

  /** `get_nightlife_by_category`'s WHERE clause and parameters. */
  method NightlifeByCategory(category: string, location: Option<string>, maxPrice: Option<real>, limit: int)
    returns (conditions: seq<string>, params: seq<SqlParam>)
    ensures Query(conditions, params) == NightlifeQuery(category, location, maxPrice, limit)
    ensures Placeholders(WhereClause(conditions)) + 1 == |params| && params[|params| - 1] == Int(limit)
  {
    var venueType := TypeOf(VenueTypes, category);
    conditions := [Active];
    params := [];
    conditions, params := AddType(conditions, params, "venue_type", venueType);
    conditions, params := AddLocation(conditions, params, location);
    conditions, params := AddPriceBound(conditions, params, "cover_charge", maxPrice);
    params := params + [Int(limit)];
    Compose([], [Active], TypeFilter("venue_type", venueType), LocationFilter(location),
            PriceFilter("cover_charge", maxPrice), conditions, params, limit);
    NightlifeLockStep(category, location, maxPrice, limit);
  }

  /** `get_events_by_category`'s WHERE clause and parameters. */
  method EventsByCategory(category: string, location: Option<string>, maxPrice: Option<real>, limit: int)
    returns (conditions: seq<string>, params: seq<SqlParam>)
    ensures Query(conditions, params) == EventsQuery(category, location, maxPrice, limit)
    ensures Placeholders(WhereClause(conditions)) + 1 == |params| && params[|params| - 1] == Int(limit)
  {
    var eventType := TypeOf(EventTypes, category);
    conditions := [Active, Upcoming];
    params := [];
    conditions, params := AddType(conditions, params, "event_type", eventType);
    conditions, params := AddLocation(conditions, params, location);
    conditions, params := AddPriceBound(conditions, params, "ticket_price", maxPrice);
    params := params + [Int(limit)];
    Compose([], [Active, Upcoming], TypeFilter("event_type", eventType), LocationFilter(location),
            PriceFilter("ticket_price", maxPrice), conditions, params, limit);
    EventsLockStep(category, location, maxPrice, limit);
  }

  // ---------------------------------------------------------------------------
  // What the mappings do to the queries

  /** The category is matched case-insensitively: only its lower-cased form
      reaches any of the four queries. */
  lemma QueriesIgnoreCase(category: string, location: Option<string>, durationMinutes: Option<int>,
                          maxPrice: Option<real>, limit: int)
    ensures ActivitiesQuery(category, location, durationMinutes, maxPrice, limit)
            == ActivitiesQuery(Lower(category), location, durationMinutes, maxPrice, limit)
    ensures RestaurantsQuery(category, location, maxPrice, limit) == RestaurantsQuery(Lower(category), location, maxPrice, limit)
    ensures NightlifeQuery(category, location, maxPrice, limit) == NightlifeQuery(Lower(category), location, maxPrice, limit)
    ensures EventsQuery(category, location, maxPrice, limit) == EventsQuery(Lower(category), location, maxPrice, limit)
  {
    LowerIdempotent(category);
  }

  /** A known category is replaced by its database value; any other
      category reaches the activities query lower-cased. */
  lemma ActivityCategoryValues(category: string)
    ensures Lower(category) == "adventurous" ==> ActivityCategory(category) == "adventure"
    ensures Lower(category) == "relax" ==> ActivityCategory(category) == "relaxation"
    ensures Lower(category) == "luxurious" ==> ActivityCategory(category) == "luxury"
    ensures Lower(category) == "cultural" ==> ActivityCategory(category) == "culture"
    ensures Lower(category) !in ActivityCategories ==> ActivityCategory(category) == Lower(category)
  {
  }

  /** No known category maps to "general", so a type condition is added
      exactly for the known categories. */
  lemma MappedTypesAreNotGeneral()
    ensures forall k :: k in CuisineTypes ==> CuisineTypes[k] != "general"
    ensures forall k :: k in VenueTypes ==> VenueTypes[k] != "general"
    ensures forall k :: k in EventTypes ==> EventTypes[k] != "general"
  {
  }

  /** For restaurants, nightlife and events an unmapped category becomes
      "general" and adds no type condition and no parameter; a mapped one
      adds its condition and its value first among the filters. */
  lemma TypeFilterIffMapped(mapping: map<string, string>, typeColumn: string, category: string)
    requires mapping == CuisineTypes || mapping == VenueTypes || mapping == EventTypes
    ensures Lower(category) !in mapping ==> TypeFilter(typeColumn, TypeOf(mapping, category)) == []
    ensures Lower(category) in mapping ==>
              TypeFilter(typeColumn, TypeOf(mapping, category)) == [Filter(typeColumn, " = ", Text(mapping[Lower(category)]))]
  {
    MappedTypesAreNotGeneral();
  }

  /** Falsy filters (None, "", 0, 0.0) add nothing: the activities query is
      then its two fixed conditions with the category and LIMIT's parameter. */
  lemma ActivitiesFalsyFilters(category: string, location: Option<string>, durationMinutes: Option<int>,
                               maxPrice: Option<real>, limit: int)
    requires !TextGiven(location) && !IntGiven(durationMinutes) && !PriceGiven(maxPrice)
    ensures ActivitiesQuery(category, location, durationMinutes, maxPrice, limit)
            == Query([Condition("category", " = "), Active], [Text(ActivityCategory(category)), Int(limit)])
  {
    var head := [Filter("category", " = ", Text(ActivityCategory(category)))];
    assert Conditions(head) == [Condition("category", " = ")];
    assert Params(head) == [Text(ActivityCategory(category))];
    assert ActivityFilters(location, durationMinutes, maxPrice) == [];
  }

  // ---------------------------------------------------------------------------
  // Dispatch on the suggestion type

  datatype SuggestionKind = ActivitiesKind | RestaurantsKind | NightlifeKind | EventsKind

  /** The type names the dispatch compares `suggestion_type.lower()` with. */
  function KindName(k: SuggestionKind): string
  {
    match k
    case ActivitiesKind => "activities"
    case RestaurantsKind => "restaurants"
    case NightlifeKind => "nightlife"
    case EventsKind => "events"
  }

  function KindOf(suggestionType: string): Option<SuggestionKind>
  {
    var t := Lower(suggestionType);
    if t == "activities" then Some(ActivitiesKind)
    else if t == "restaurants" then Some(RestaurantsKind)
    else if t == "nightlife" then Some(NightlifeKind)
    else if t == "events" then Some(EventsKind)
    else None
  }

  /** The type is recognised exactly when its lower-cased form is one of the
      four names, and then it names that kind. */
  lemma KindOfIffName(suggestionType: string, k: SuggestionKind)
    ensures KindOf(suggestionType) == Some(k) <==> Lower(suggestionType) == KindName(k)
  {
    var t := Lower(suggestionType);
    if t == KindName(k) {
      match k
      case ActivitiesKind =>
      case RestaurantsKind => assert t[0] != "activities"[0];
      case NightlifeKind => assert t[0] != "activities"[0] && t[0] != "restaurants"[0];
      case EventsKind => assert t[0] != "activities"[0] && t[0] != "restaurants"[0] && t[0] != "nightlife"[0];
    }
  }

  /** The query the dispatch runs for a kind; only activities receive the
      duration bound. */
  function QueryFor(k: SuggestionKind, category: string, location: Option<string>, durationMinutes: Option<int>,
                    maxPrice: Option<real>, limit: int): Query
  {
    match k
    case ActivitiesKind => ActivitiesQuery(category, location, durationMinutes, maxPrice, limit)
    case RestaurantsKind => RestaurantsQuery(category, location, maxPrice, limit)
    case NightlifeKind => NightlifeQuery(category, location, maxPrice, limit)
    case EventsKind => EventsQuery(category, location, maxPrice, limit)
  }

  /** Restaurants, nightlife and events are not filtered by duration. */
  lemma DurationOnlyForActivities(k: SuggestionKind, category: string, location: Option<string>,
                                  d1: Option<int>, d2: Option<int>, maxPrice: Option<real>, limit: int)
    requires k != ActivitiesKind
    ensures QueryFor(k, category, location, d1, maxPrice, limit) == QueryFor(k, category, location, d2, maxPrice, limit)
  {
  }

  /** The result dictionary: the listing, or the error for an unknown type. */
  datatype SuggestionsResult =
    | Listed(suggestionType: string, category: string, totalSuggestions: int, suggestions: seq<SuggestionView>)
    | InvalidType(error: string, suggestions: seq<SuggestionView>)

  function Views(found: seq<ActivitySuggestion>): (r: seq<SuggestionView>)
    ensures |r| == |found|
    ensures forall i :: 0 <= i < |found| ==> r[i] == ToDict(found[i])
  {
    seq(|found|, i requires 0 <= i < |found| => ToDict(found[i]))
  }

  /** `get_suggestions_by_type_and_category`. The database is not modelled:
      `found` stands for the suggestions the chosen builder returns for the
      query it runs (its rows, or [] when the query fails), and `query` is
      the WHERE clause and parameters of that query. */
  method SuggestionsByTypeAndCategory(suggestionType: string, category: string, location: Option<string>,
                                      durationMinutes: Option<int>, maxPrice: Option<real>, limit: int,
                                      found: seq<ActivitySuggestion>)
    returns (result: SuggestionsResult, query: Option<Query>)
    ensures KindOf(suggestionType).None? ==>
              result == InvalidType("Invalid suggestion type: " + suggestionType, []) && query.None?
    ensures KindOf(suggestionType).Some? ==>
              query == Some(QueryFor(KindOf(suggestionType).value, category, location, durationMinutes, maxPrice, limit))
              && result == Listed(suggestionType, category, |found|, Views(found))
    ensures result.Listed? ==> result.totalSuggestions == |result.suggestions|
    ensures result.InvalidType? ==> result.suggestions == []
  {
    var t := Lower(suggestionType);
    var conditions, params;
    if t == "activities" {
      conditions, params := ActivitiesByCategory(category, location, durationMinutes, maxPrice, limit);
    } else if t == "restaurants" {
      conditions, params := RestaurantsByCategory(category, location, maxPrice, limit);
    } else if t == "nightlife" {
      conditions, params := NightlifeByCategory(category, location, maxPrice, limit);
    } else if t == "events" {
      conditions, params := EventsByCategory(category, location, maxPrice, limit);
    } else {
      return InvalidType("Invalid suggestion type: " + suggestionType, []), None;
    }
    query := Some(Query(conditions, params));
    var suggestionsData := Views(found);
    result := Listed(suggestionType, category, |suggestionsData|, suggestionsData);
  }

  // ---------------------------------------------------------------------------
  // Category descriptions

  const CategoryDescriptions: map<string, string> := map[
    "adventurous" := "Discover unique experiences and personalized options to elevate your adventure",
    "relax" := "Unwind and rejuvenate with peaceful activities designed for relaxation",
    "luxurious" := "Indulge in premium experiences and exclusive activities for the discerning traveler",
    "cultural" := "Immerse yourself in local traditions and authentic cultural experiences"]

  /** `generate_category_description`: a fixed text for the four known
      categories; otherwise the model's stripped reply, or, when the call
      fails (`reply` is None), a fallback naming the category as given. */
  function CategoryDescription(category: string, reply: Option<string>): string
  {
    var key := Lower(category);
    if key in CategoryDescriptions then CategoryDescriptions[key]
    else match reply
      case Some(text) => text
      case None => "Explore amazing " + category + " experiences tailored just for you"
  }

  /** The four known categories, in any case, get their fixed text whatever
      the model would say: the model is not consulted. */
  lemma KnownCategoryIgnoresModel(category: string, reply1: Option<string>, reply2: Option<string>)
    requires Lower(category) in CategoryDescriptions
    ensures CategoryDescription(category, reply1) == CategoryDescription(category, reply2)
                                                   == CategoryDescriptions[Lower(category)]
  {
  }

  /** For another category the description is the model's reply, or the
      fallback, which names the category as the caller wrote it. */
  lemma UnknownCategoryUsesModel(category: string, reply: Option<string>)
    requires Lower(category) !in CategoryDescriptions
    ensures reply.Some? ==> CategoryDescription(category, reply) == reply.value
    ensures reply.None? ==> CategoryDescription(category, reply)[16..16 + |category|] == category
  {
  }
}

