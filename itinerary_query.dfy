/** The itinerary service's own activity query (`get_activity_suggestions`):
    the same filters as the suggestion service's activities query, but the
    category goes in as given and the row limit is written into the
    statement (`LIMIT 20`), so it takes no parameter. */
module ItineraryQuery {
  import opened PyStr
  import opened SqlWhere
  import opened Suggestions

  /** `category = %s` with the category unchanged, `status = 'active'`, then
      location, duration and price. */
  function ActivitySuggestionsQuery(category: string, location: Option<string>, durationMinutes: Option<int>,
                                    maxPrice: Option<real>): Query
  {
    var filters := ActivityFilters(location, durationMinutes, maxPrice);
    Query([Condition("category", " = "), Active] + Conditions(filters), [Text(category)] + Params(filters))
  }

  /** `get_activity_suggestions`'s WHERE clause and parameters. */
  method GetActivitySuggestions(category: string, location: Option<string>, durationMinutes: Option<int>,
                                maxPrice: Option<real>)
    returns (conditions: seq<string>, params: seq<SqlParam>)
    ensures Query(conditions, params) == ActivitySuggestionsQuery(category, location, durationMinutes, maxPrice)
    ensures Placeholders(WhereClause(conditions)) == |params|
  {
    conditions := [Condition("category", " = "), Active];
    params := [Text(category)];
    ghost var fixed, fixedParams := conditions, params;
    conditions, params := AddLocation(conditions, params, location);
    conditions, params := AddIntBound(conditions, params, "duration_minutes", durationMinutes);
    conditions, params := AddPriceBound(conditions, params, "price", maxPrice);
    ThreeSteps(fixed, fixedParams, LocationFilter(location), IntFilter("duration_minutes", durationMinutes),
               PriceFilter("price", maxPrice));
    ActivitySuggestionsLockStep(category, location, durationMinutes, maxPrice);
  }

  /** Every `%s` of the WHERE clause has its parameter, in order; the
      statement has no other placeholder. */
  lemma ActivitySuggestionsLockStep(category: string, location: Option<string>, durationMinutes: Option<int>,
                                    maxPrice: Option<real>)
    ensures var q := ActivitySuggestionsQuery(category, location, durationMinutes, maxPrice);
            Placeholders(WhereClause(q.conditions)) == |q.params|
  {
    var head := [Filter("category", " = ", Text(category))];
    var filters := ActivityFilters(location, durationMinutes, maxPrice);
    assert Conditions(head) == [Condition("category", " = ")];
    assert Params(head) == [Text(category)];
    SharedFiltersPlain("category", "", location, "duration_minutes", durationMinutes, "price", maxPrice);
    PlainConcat(LocationFilter(location), IntFilter("duration_minutes", durationMinutes));
    PlainConcat(LocationFilter(location) + IntFilter("duration_minutes", durationMinutes), PriceFilter("price", maxPrice));
    assert '%' !in Active;
    LockStep(head, [Active], filters);
    var q := ActivitySuggestionsQuery(category, location, durationMinutes, maxPrice);
    assert q.conditions == Conditions(head) + [Active] + Conditions(filters);
    assert |q.params| == |head| + |filters|;
  }

  /** Against the suggestion service's activities query: the same
      conditions; the parameters differ only in the category, which that
      query maps, and in LIMIT's parameter, which it adds. */
  lemma SameFiltersAsSuggestionService(category: string, location: Option<string>, durationMinutes: Option<int>,
                                       maxPrice: Option<real>, limit: int)
    ensures var q := ActivitySuggestionsQuery(category, location, durationMinutes, maxPrice);
            var s := ActivitiesQuery(category, location, durationMinutes, maxPrice, limit);
            s.conditions == q.conditions
            && s.params == [Text(ActivityCategory(category))] + q.params[1..] + [Int(limit)]
  {
    var filters := ActivityFilters(location, durationMinutes, maxPrice);
    var head := [Filter("category", " = ", Text(ActivityCategory(category)))];
    assert Conditions(head) == [Condition("category", " = ")];
    assert Params(head) == [Text(ActivityCategory(category))];
    assert ([Text(category)] + Params(filters))[1..] == Params(filters);
  }
}
