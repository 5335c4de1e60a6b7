/** The WHERE clauses the suggestion queries build: a list of condition
    texts and a list of parameters grown side by side, the conditions joined
    with " AND ", and the driver's `%s` placeholders that the parameters fill
    in order. */
module SqlWhere {
  import opened PyStr

  /** A query parameter as the driver receives it. */
  datatype SqlParam = Text(s: string) | Int(n: int) | Decimal(r: real)

  /** A condition comparing a column with a placeholder:
      `Condition("price", " <= ")` is "price <= %s". */
  function Condition(column: string, op: string): string
  {
    column + op + "%s"
  }

  /** A condition `<column><op>%s` together with the parameter that fills
      its placeholder. */
  datatype Filter = Filter(column: string, op: string, param: SqlParam)
  {
    function Text(): string
    {
      Condition(column, op)
    }
  }

  function Conditions(filters: seq<Filter>): (r: seq<string>)
    ensures |r| == |filters|
  {
    if filters == [] then [] else [filters[0].Text()] + Conditions(filters[1..])
  }

  function Params(filters: seq<Filter>): (r: seq<SqlParam>)
    ensures |r| == |filters|
  {
    if filters == [] then [] else [filters[0].param] + Params(filters[1..])
  }

  /** A query's WHERE conditions and its parameters, in order. */
  datatype Query = Query(conditions: seq<string>, params: seq<SqlParam>)

  /** Filters appended one after the other append their conditions and
      their parameters. */
  lemma {:induction false} FiltersConcat(a: seq<Filter>, b: seq<Filter>)
    ensures Conditions(a + b) == Conditions(a) + Conditions(b)
    ensures Params(a + b) == Params(a) + Params(b)
  {
    if a == [] {
      assert a + b == b;
    } else {
      assert (a + b)[0] == a[0];
      assert (a + b)[1..] == a[1..] + b;
      FiltersConcat(a[1..], b);
    }
  }

  /** Appending three filter groups one after the other appends their
      concatenation. */
  lemma ThreeSteps(fixed: seq<string>, fixedParams: seq<SqlParam>, a: seq<Filter>, b: seq<Filter>, c: seq<Filter>)
    ensures fixed + Conditions(a) + Conditions(b) + Conditions(c) == fixed + Conditions(a + b + c)
    ensures fixedParams + Params(a) + Params(b) + Params(c) == fixedParams + Params(a + b + c)
  {
    FiltersConcat(a, b);
    FiltersConcat(a + b, c);
    Associative(fixed, Conditions(a) + Conditions(b), Conditions(c));
    Associative(fixed, Conditions(a), Conditions(b));
    Associative(fixedParams, Params(a) + Params(b), Params(c));
    Associative(fixedParams, Params(a), Params(b));
  }

  lemma Associative<T>(x: seq<T>, y: seq<T>, z: seq<T>)
    ensures x + y + z == x + (y + z)
  {
  }

  /** `" AND ".join(where_conditions)` */
  function WhereClause(conditions: seq<string>): string
  {
    Join(conditions, " AND ")
  }

  // ---------------------------------------------------------------------------
  // Python truthiness of the optional filters

  /** `if location:` — None and "" add no condition. */
  predicate TextGiven(x: Option<string>)
  {
    x.Some? && x.value != ""
  }

  /** `if duration_minutes:` — None and 0 add no condition. */
  predicate IntGiven(x: Option<int>)
  {
    x.Some? && x.value != 0
  }

  /** `if max_price:` — None and 0.0 add no condition. */
  predicate PriceGiven(x: Option<real>)
  {
    x.Some? && x.value != 0.0
  }

  /** f"%{location}%": a substring match for LIKE. */
  function LikePattern(location: string): string
  {
    "%" + location + "%"
  }

  // The optional filters the builders share.

  /** `location LIKE %s` with f"%{location}%", when a location is given. */
  function LocationFilter(location: Option<string>): seq<Filter>
  {
    if TextGiven(location) then [Filter("location", " LIKE ", Text(LikePattern(location.value)))] else []
  }

  /** `<column> <= %s`, when a non-zero bound is given. */
  function IntFilter(column: string, x: Option<int>): seq<Filter>
  {
    if IntGiven(x) then [Filter(column, " <= ", Int(x.value))] else []
  }

  /** `<column> <= %s`, when a non-zero price bound is given. */
  function PriceFilter(column: string, x: Option<real>): seq<Filter>
  {
    if PriceGiven(x) then [Filter(column, " <= ", Decimal(x.value))] else []
  }

  /** `<column> = %s`, added unless the mapping fell back to "general". */
  function TypeFilter(column: string, value: string): seq<Filter>
  {
    if value != "general" then [Filter(column, " = ", Text(value))] else []
  }

  // The builders' steps: each appends a filter's condition and its parameter
  // together, or nothing when the filter is not given.

  /** `if location:` append `location LIKE %s` and f"%{location}%". */
  method AddLocation(conditions: seq<string>, params: seq<SqlParam>, location: Option<string>)
    returns (conditions': seq<string>, params': seq<SqlParam>)
    ensures conditions' == conditions + Conditions(LocationFilter(location))
    ensures params' == params + Params(LocationFilter(location))
  {
    conditions', params' := conditions, params;
    if TextGiven(location) {
      conditions' := conditions' + [Condition("location", " LIKE ")];
      params' := params' + [Text(LikePattern(location.value))];
    }
  }

  /** `if duration_minutes:` append `<column> <= %s` and the bound. */
  method AddIntBound(conditions: seq<string>, params: seq<SqlParam>, column: string, x: Option<int>)
    returns (conditions': seq<string>, params': seq<SqlParam>)
    ensures conditions' == conditions + Conditions(IntFilter(column, x))
    ensures params' == params + Params(IntFilter(column, x))
  {
    conditions', params' := conditions, params;
    if IntGiven(x) {
      conditions' := conditions' + [Condition(column, " <= ")];
      params' := params' + [Int(x.value)];
    }
  }

  /** `if max_price:` append `<column> <= %s` and the price. */
  method AddPriceBound(conditions: seq<string>, params: seq<SqlParam>, column: string, x: Option<real>)
    returns (conditions': seq<string>, params': seq<SqlParam>)
    ensures conditions' == conditions + Conditions(PriceFilter(column, x))
    ensures params' == params + Params(PriceFilter(column, x))
  {
    conditions', params' := conditions, params;
    if PriceGiven(x) {
      conditions' := conditions' + [Condition(column, " <= ")];
      params' := params' + [Decimal(x.value)];
    }
  }

  /** `if <type> != "general":` append `<column> = %s` and the type. */
  method AddType(conditions: seq<string>, params: seq<SqlParam>, column: string, value: string)
    returns (conditions': seq<string>, params': seq<SqlParam>)
    ensures conditions' == conditions + Conditions(TypeFilter(column, value))
    ensures params' == params + Params(TypeFilter(column, value))
  {
    conditions', params' := conditions, params;
    if value != "general" {
      conditions' := conditions' + [Condition(column, " = ")];
      params' := params' + [Text(value)];
    }
  }

  // ---------------------------------------------------------------------------
  // Placeholders, as Python's `%` formatting of the statement counts them:
  // `%s` takes one argument, `%%` is a literal percent sign.

  function Placeholders(s: string): nat
  {
    if |s| < 2 then 0
    else if s[0] == '%' && s[1] == 's' then 1 + Placeholders(s[2..])
    else if s[0] == '%' && s[1] == '%' then Placeholders(s[2..])
    else Placeholders(s[1..])
  }

  /** Every '%' in `s` opens a `%s`. */
  predicate PercentOnlyInPlaceholders(s: string)
  {
    forall i :: 0 <= i < |s| && s[i] == '%' ==> i + 1 < |s| && s[i + 1] == 's'
  }

  function SumPlaceholders(conditions: seq<string>): nat
  {
    if conditions == [] then 0 else Placeholders(conditions[0]) + SumPlaceholders(conditions[1..])
  }

  /** Counting splits over a concatenation when the left part leaves no '%'
      dangling. */
  lemma {:induction false} PlaceholdersConcat(a: string, b: string)
    requires PercentOnlyInPlaceholders(a)
    ensures Placeholders(a + b) == Placeholders(a) + Placeholders(b)
    decreases |a|
  {
    if a == [] {
      assert a + b == b;
    } else if a[0] == '%' {
      assert a[1] == 's';
      assert (a + b)[2..] == a[2..] + b;
      PlaceholdersConcat(a[2..], b);
    } else {
      assert (a + b)[1..] == a[1..] + b;
      if |a| == 1 {
        assert |a + b| < 2 || (a + b)[0] != '%';
        assert a[1..] == [];
      }
      PlaceholdersConcat(a[1..], b);
    }
  }

  lemma {:induction false} JoinPercentOnlyInPlaceholders(conditions: seq<string>)
    requires forall c :: c in conditions ==> PercentOnlyInPlaceholders(c)
    ensures PercentOnlyInPlaceholders(WhereClause(conditions))
    decreases |conditions|
  {
    if |conditions| == 1 {
      assert conditions[0] in conditions;
    } else if |conditions| > 1 {
      assert conditions[0] in conditions;
      JoinPercentOnlyInPlaceholders(conditions[1..]);
      var head, rest := conditions[0], WhereClause(conditions[1..]);
      var s := head + " AND " + rest;
      forall i | 0 <= i < |s| && s[i] == '%'
        ensures i + 1 < |s| && s[i + 1] == 's'
      {
        if i < |head| {
          assert head[i] == '%';
          assert i + 1 < |head|;
          assert s[i + 1] == head[i + 1];
        } else if i >= |head| + 5 {
          assert s[i] == rest[i - |head| - 5];
        }
      }
    }
  }

  /** The placeholders of the WHERE clause are those of its conditions: the
      separator adds none. */
  lemma {:induction false} PlaceholdersOfWhereClause(conditions: seq<string>)
    requires forall c :: c in conditions ==> PercentOnlyInPlaceholders(c)
    ensures Placeholders(WhereClause(conditions)) == SumPlaceholders(conditions)
    decreases |conditions|
  {
    if |conditions| == 1 {
      assert conditions[1..] == [];
    } else if |conditions| > 1 {
      var head, rest := conditions[0], WhereClause(conditions[1..]);
      PlaceholdersOfWhereClause(conditions[1..]);
      JoinPercentOnlyInPlaceholders(conditions[1..]);
      assert head + " AND " + rest == head + (" AND " + rest);
      PlaceholdersConcat(head, " AND " + rest);
      PlaceholdersConcat(" AND ", rest);
    }
  }

  lemma {:induction false} SumConcat(a: seq<string>, b: seq<string>)
    ensures SumPlaceholders(a + b) == SumPlaceholders(a) + SumPlaceholders(b)
  {
    if a == [] {
      assert a + b == b;
    } else {
      assert (a + b)[0] == a[0];
      assert (a + b)[1..] == a[1..] + b;
      SumConcat(a[1..], b);
    }
  }

  lemma {:induction false} NoPercent(s: string)
    requires '%' !in s
    ensures Placeholders(s) == 0 && PercentOnlyInPlaceholders(s)
  {
    if |s| >= 2 {
      assert s[0] in s;
      assert s[1..] == s[1..];
      NoPercent(s[1..]);
    }
  }

  lemma ConditionOnePlaceholder(column: string, op: string)
    requires '%' !in column && '%' !in op
    ensures Placeholders(Condition(column, op)) == 1
    ensures PercentOnlyInPlaceholders(Condition(column, op))
  {
    var text := column + op;
    assert '%' !in text;
    NoPercent(text);
    PlaceholdersConcat(text, "%s");
    assert Placeholders("%s") == 1 + Placeholders("");
  }

  /** Filters whose column and operator hold no '%'. */
  predicate PlainFilters(filters: seq<Filter>)
  {
    forall f :: f in filters ==> '%' !in f.column && '%' !in f.op
  }

  lemma {:induction false} SumOfFilters(filters: seq<Filter>)
    requires PlainFilters(filters)
    ensures SumPlaceholders(Conditions(filters)) == |filters|
    ensures forall c :: c in Conditions(filters) ==> PercentOnlyInPlaceholders(c)
  {
    if filters != [] {
      assert filters[0] in filters;
      ConditionOnePlaceholder(filters[0].column, filters[0].op);
      SumOfFilters(filters[1..]);
    }
  }

  lemma {:induction false} SumOfPlain(fixed: seq<string>)
    requires forall c :: c in fixed ==> '%' !in c
    ensures SumPlaceholders(fixed) == 0
    ensures forall c :: c in fixed ==> PercentOnlyInPlaceholders(c)
  {
    if fixed != [] {
      assert fixed[0] in fixed;
      NoPercent(fixed[0]);
      SumOfPlain(fixed[1..]);
      forall c | c in fixed
        ensures PercentOnlyInPlaceholders(c)
      {
        NoPercent(c);
      }
    }
  }

  /** Conditions and parameters in lock step: a WHERE clause made of leading
      filters, fixed conditions without placeholders and trailing filters has
      exactly one placeholder per filter, so the filters' parameters, in the
      same order, fill it. */
  lemma LockStep(head: seq<Filter>, fixed: seq<string>, filters: seq<Filter>)
    requires PlainFilters(head) && PlainFilters(filters)
    requires forall c :: c in fixed ==> '%' !in c
    ensures Placeholders(WhereClause(Conditions(head) + fixed + Conditions(filters))) == |head| + |filters|
  {
    SumOfFilters(head);
    SumOfFilters(filters);
    SumOfPlain(fixed);
    PlaceholdersOfWhereClause(Conditions(head) + fixed + Conditions(filters));
    SumConcat(Conditions(head), fixed);
    SumConcat(Conditions(head) + fixed, Conditions(filters));
  }

  /** The shared filters hold no stray '%'. */
  lemma SharedFiltersPlain(typeColumn: string, value: string, location: Option<string>,
                           intColumn: string, x: Option<int>, priceColumn: string, p: Option<real>)
    requires '%' !in typeColumn && '%' !in intColumn && '%' !in priceColumn
    ensures PlainFilters(TypeFilter(typeColumn, value))
    ensures PlainFilters(LocationFilter(location))
    ensures PlainFilters(IntFilter(intColumn, x))
    ensures PlainFilters(PriceFilter(priceColumn, p))
  {
  }

  lemma PlainConcat(a: seq<Filter>, b: seq<Filter>)
    requires PlainFilters(a) && PlainFilters(b)
    ensures PlainFilters(a + b)
  {
  }
}
