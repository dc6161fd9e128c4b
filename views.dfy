/**
 * The list and write views: the order in which the list view narrows its
 * queryset, finding the page that shows a requested record, the paginator
 * that returns that page, the serializer field list of the write views, and
 * the audit fields they stamp.
 */
module Views {
  import opened Wrappers
  import opened Strings
  import opened Predicates
  import opened SearchHelpers
  import opened FieldFilters

  // ---------------------------------------------------------------------------
  // ItemList.get_queryset

  /** One queryset call: `filter(q)`, `exclude(q)`, `distinct()` or `order_by(*keys)`. */
  datatype Step = FilterStep(q: Q) | ExcludeStep(q: Q) | DistinctStep | OrderByStep(keys: seq<string>)

  function FilterSteps(qs: seq<Q>): (steps: seq<Step>)
    ensures |steps| == |qs|
  {
    if qs == [] then [] else [FilterStep(qs[0])] + FilterSteps(qs[1..])
  }

  function ExcludeSteps(qs: seq<Q>): (steps: seq<Step>)
    ensures |steps| == |qs|
  {
    if qs == [] then [] else [ExcludeStep(qs[0])] + ExcludeSteps(qs[1..])
  }

  /** The `i`-th call of either chain applies the `i`-th entry. */
  lemma {:induction false} StepsAt(qs: seq<Q>)
    ensures forall i :: 0 <= i < |qs| ==> FilterSteps(qs)[i] == FilterStep(qs[i])
    ensures forall i :: 0 <= i < |qs| ==> ExcludeSteps(qs)[i] == ExcludeStep(qs[i])
  {
    if qs != [] {
      StepsAt(qs[1..]);
    }
  }

  lemma FilterStepsSnoc(qs: seq<Q>, q: Q)
    ensures FilterSteps(qs + [q]) == FilterSteps(qs) + [FilterStep(q)]
  {
    StepsAt(qs + [q]);
    StepsAt(qs);
  }

  lemma ExcludeStepsSnoc(qs: seq<Q>, q: Q)
    ensures ExcludeSteps(qs + [q]) == ExcludeSteps(qs) + [ExcludeStep(q)]
  {
    StepsAt(qs + [q]);
    StepsAt(qs);
  }

  /**
   * The calls made on `target.objects.all()`, in order: the access filter when
   * one was supplied; `exclude(E[0])`, `filter(F[0])`, `distinct()`; each
   * further filter entry; each further exclude entry; `order_by` on the
   * comma-separated `_sort` keys when `_sort` is given.
   */
  function QueryPlan(supplied: Option<Q>, filters: seq<Q>, excludes: seq<Q>, sort: Option<string>): seq<Step>
    requires |filters| >= 1 && |excludes| >= 1
  {
    (if supplied.Some? then [FilterStep(supplied.value)] else [])
    + [ExcludeStep(excludes[0]), FilterStep(filters[0]), DistinctStep]
    + FilterSteps(filters[1..]) + ExcludeSteps(excludes[1..])
    + (if sort.Some? then [OrderByStep(SortKeys(sort.value))] else [])
  }

  /** The keys of `_sort`, split at commas. */
  function SortKeys(sort: string): seq<string>
  {
    Split(sort, ",")
  }

  /**
   * `get_queryset`: the query parameters are compiled once for each side and
   * the calls are chained onto the queryset; `sort` is the value of `_sort`.
   */
  method GetQueryset(reg: Registry, info: ModelInfo, supplied: Option<Q>, requestQuery: QueryDict, sort: Option<string>)
    returns (hits: seq<Step>)
    requires forall e :: e in requestQuery ==> e.0 != ""
    ensures hits == QueryPlan(supplied, FieldFilters.CompileQuery(reg, info, requestQuery, FilterMode),
                              FieldFilters.CompileQuery(reg, info, requestQuery, ExcludeMode), sort)
  {
    var filterQueries := GetFieldFilters(reg, info, requestQuery, FilterMode);
    var excludeQueries := GetFieldFilters(reg, info, requestQuery, ExcludeMode);
    hits := ChainSteps(supplied, filterQueries, excludeQueries, sort);
  }

  /** The chaining part of `get_queryset`, once both predicate lists are compiled. */
  method ChainSteps(supplied: Option<Q>, filterQueries: seq<Q>, excludeQueries: seq<Q>, sort: Option<string>)
    returns (hits: seq<Step>)
    requires |filterQueries| >= 1 && |excludeQueries| >= 1
    ensures hits == QueryPlan(supplied, filterQueries, excludeQueries, sort)
  {
    hits := [];
    if supplied.Some? {
      hits := hits + [FilterStep(supplied.value)];
    }
    hits := hits + [ExcludeStep(excludeQueries[0]), FilterStep(filterQueries[0]), DistinctStep];
    hits := ApplyFilters(hits, filterQueries[1..]);
    hits := ApplyExcludes(hits, excludeQueries[1..]);
    if sort.Some? {
      hits := hits + [OrderByStep(SortKeys(sort.value))];
    }
  }

  /** `for q in qs: hits = hits.filter(q)` */
  method ApplyFilters(start: seq<Step>, qs: seq<Q>) returns (hits: seq<Step>)
    ensures hits == start + FilterSteps(qs)
  {
    hits := start;
    var i := 0;
    while i < |qs|
      invariant 0 <= i <= |qs|
      invariant hits == start + FilterSteps(qs[..i])
    {
      assert qs[..i + 1] == qs[..i] + [qs[i]];
      FilterStepsSnoc(qs[..i], qs[i]);
      hits := hits + [FilterStep(qs[i])];
      i := i + 1;
    }
    assert qs[..i] == qs;
  }

  /** `for q in qs: hits = hits.exclude(q)` */
  method ApplyExcludes(start: seq<Step>, qs: seq<Q>) returns (hits: seq<Step>)
    ensures hits == start + ExcludeSteps(qs)
  {
    hits := start;
    var i := 0;
    while i < |qs|
      invariant 0 <= i <= |qs|
      invariant hits == start + ExcludeSteps(qs[..i])
    {
      assert qs[..i + 1] == qs[..i] + [qs[i]];
      ExcludeStepsSnoc(qs[..i], qs[i]);
      hits := hits + [ExcludeStep(qs[i])];
      i := i + 1;
    }
    assert qs[..i] == qs;
  }

  /** `exclude(q)` removes the rows `q` holds of; `exclude(Q())` removes nothing. */
  predicate Excluded<R>(q: Q, row: R, sat: (R, string, Value) -> bool)
  {
    q != Empty && Eval(q, row, sat)
  }

  predicate StepKeeps<R>(step: Step, row: R, sat: (R, string, Value) -> bool)
  {
    match step
    case FilterStep(q) => Eval(q, row, sat)
    case ExcludeStep(q) => !Excluded(q, row, sat)
    case DistinctStep => true
    case OrderByStep(_) => true
  }

  /** A row survives the chain when every call keeps it. */
  predicate Kept<R>(plan: seq<Step>, row: R, sat: (R, string, Value) -> bool)
  {
    forall i :: 0 <= i < |plan| ==> StepKeeps(plan[i], row, sat)
  }

  /**
   * The rows the list view returns: those the access filter admits, that no
   * exclude entry removes and that every filter entry admits.
   */
  lemma QueryPlanMeaning<R>(supplied: Option<Q>, filters: seq<Q>, excludes: seq<Q>, sort: Option<string>,
                            row: R, sat: (R, string, Value) -> bool)
    requires |filters| >= 1 && |excludes| >= 1
    ensures Kept(QueryPlan(supplied, filters, excludes, sort), row, sat) <==>
      && (supplied.Some? ==> Eval(supplied.value, row, sat))
      && (forall j :: 0 <= j < |filters| ==> Eval(filters[j], row, sat))
      && (forall j :: 0 <= j < |excludes| ==> !Excluded(excludes[j], row, sat))
  {
    var access: seq<Step> := if supplied.Some? then [FilterStep(supplied.value)] else [];
    var head := [ExcludeStep(excludes[0]), FilterStep(filters[0]), DistinctStep];
    var order: seq<Step> := if sort.Some? then [OrderByStep(SortKeys(sort.value))] else [];
    var fs, es := FilterSteps(filters[1..]), ExcludeSteps(excludes[1..]);
    KeptConcat(access + head + fs + es, order, row, sat);
    KeptConcat(access + head + fs, es, row, sat);
    KeptConcat(access + head, fs, row, sat);
    KeptConcat(access, head, row, sat);
    KeptFilters(filters[1..], row, sat);
    KeptExcludes(excludes[1..], row, sat);
    assert Kept(head, row, sat) <==> !Excluded(excludes[0], row, sat) && Eval(filters[0], row, sat) by {
      assert head[0] == ExcludeStep(excludes[0]) && head[1] == FilterStep(filters[0]) && head[2] == DistinctStep;
    }
    assert Kept(order, row, sat);
    assert Kept(access, row, sat) <==> (supplied.Some? ==> Eval(supplied.value, row, sat)) by {
      if supplied.Some? { assert access[0] == FilterStep(supplied.value); }
    }
    assert forall j :: 1 <= j < |filters| ==> filters[1..][j - 1] == filters[j];
    assert forall j :: 1 <= j < |excludes| ==> excludes[1..][j - 1] == excludes[j];
  }

  /** A chain keeps a row exactly when both of its halves do. */
  lemma KeptConcat<R>(a: seq<Step>, b: seq<Step>, row: R, sat: (R, string, Value) -> bool)
    ensures Kept(a + b, row, sat) <==> Kept(a, row, sat) && Kept(b, row, sat)
  {
    if Kept(a, row, sat) && Kept(b, row, sat) {
      forall i | 0 <= i < |a + b| ensures StepKeeps((a + b)[i], row, sat) {
        if i < |a| { assert (a + b)[i] == a[i]; } else { assert (a + b)[i] == b[i - |a|]; }
      }
    }
    if Kept(a + b, row, sat) {
      forall i | 0 <= i < |a| ensures StepKeeps(a[i], row, sat) {
        assert (a + b)[i] == a[i];
      }
      forall i | 0 <= i < |b| ensures StepKeeps(b[i], row, sat) {
        assert (a + b)[|a| + i] == b[i];
      }
    }
  }

  lemma KeptFilters<R>(qs: seq<Q>, row: R, sat: (R, string, Value) -> bool)
    ensures Kept(FilterSteps(qs), row, sat) <==> forall j :: 0 <= j < |qs| ==> Eval(qs[j], row, sat)
  {
    StepsAt(qs);
  }

  lemma KeptExcludes<R>(qs: seq<Q>, row: R, sat: (R, string, Value) -> bool)
    ensures Kept(ExcludeSteps(qs), row, sat) <==> forall j :: 0 <= j < |qs| ==> !Excluded(qs[j], row, sat)
  {
    StepsAt(qs);
  }

  /** With no filterable parameter and no access filter, the list view keeps every row. */
  lemma NoParametersKeepsAll<R>(reg: Registry, info: ModelInfo, requestQuery: QueryDict, sort: Option<string>,
                                row: R, sat: (R, string, Value) -> bool)
    requires Unreserved(requestQuery) == []
    ensures Kept(QueryPlan(None, FieldFilters.CompileQuery(reg, info, requestQuery, FilterMode),
                           FieldFilters.CompileQuery(reg, info, requestQuery, ExcludeMode), sort), row, sat)
  {
    ReservedKeysIgnored(reg, info, requestQuery, FilterMode);
    ReservedKeysIgnored(reg, info, requestQuery, ExcludeMode);
    QueryPlanMeaning(None, [Empty], [Empty], sort, row, sat);
  }

  // ---------------------------------------------------------------------------
  // ItemList._get_offset_required

  /** Python's `int(s)` on an optional sign followed by ASCII digits; anything else raises (`None`). */
  function ParseInt(s: string): (r: Option<int>)
    ensures r.Some? <==> |s| > 0 && (AllDigits(s) || (|s| > 1 && (s[0] == '-' || s[0] == '+') && AllDigits(s[1..])))
    ensures |s| > 0 && AllDigits(s) ==> r == Some(DigitsValue(s))
    ensures |s| > 1 && s[0] == '+' && AllDigits(s[1..]) ==> r.Some? && r.value == DigitsValue(s[1..])
    ensures |s| > 1 && s[0] == '-' && AllDigits(s[1..]) ==> r.Some? && -r.value == DigitsValue(s[1..])
  {
    if |s| > 1 && (s[0] == '-' || s[0] == '+') && AllDigits(s[1..]) then
      var magnitude: int := DigitsValue(s[1..]);
      Some(if s[0] == '-' then -magnitude else magnitude)
    else if |s| > 0 && AllDigits(s) then Some(DigitsValue(s))
    else None
  }

  function Digit(d: nat): char
    requires d < 10
  {
    ('0' as int + d) as char
  }

  /** `str(n)` for a natural number. */
  function Decimal(n: nat): (s: string)
    ensures |s| > 0 && AllDigits(s)
  {
    if n < 10 then [Digit(n)] else Decimal(n / 10) + [Digit(n % 10)]
  }

  /** `str(n)`. */
  function IntText(n: int): string
  {
    if n < 0 then "-" + Decimal(-n) else Decimal(n)
  }

  lemma {:induction false} DecimalValue(n: nat)
    ensures DigitsValue(Decimal(n)) == n
  {
    if n >= 10 {
      var s := Decimal(n);
      assert s[..|s| - 1] == Decimal(n / 10);
      DecimalValue(n / 10);
    }
  }

  /** `int(str(n)) == n`. */
  lemma ParseIntText(n: int)
    ensures ParseInt(IntText(n)) == Some(n)
  {
    var s := IntText(n);
    if n < 0 {
      var d := Decimal(-n);
      assert s == "-" + d;
      assert s[1..] == d && s[0] == '-' && |s| > 1;
      DecimalValue(-n);
    } else {
      assert s == Decimal(n);
      assert IsDigit(s[0]);
      DecimalValue(n);
    }
  }

  /** `ids.index(v)`: the first position holding `v`. */
  function FirstIndex(ids: seq<int>, v: int): (r: Option<nat>)
    ensures r.Some? ==> r.value < |ids| && ids[r.value] == v && forall j :: 0 <= j < r.value ==> ids[j] != v
    ensures r.None? ==> v !in ids
  {
    if ids == [] then None
    else if ids[0] == v then Some(0)
    else match FirstIndex(ids[1..], v)
      case None => None
      case Some(k) => Some(k + 1)
  }

  /**
   * `_get_offset_required`: the position of the first row whose id is
   * `int(item_id)`, or 0 when `item_id` is not an integer or no row has it.
   */
  function OffsetRequired(ids: seq<int>, itemId: string): (index: nat)
    ensures ParseInt(itemId).Some? && ParseInt(itemId).value in ids ==>
      index < |ids| && ids[index] == ParseInt(itemId).value && forall j :: 0 <= j < index ==> ids[j] != ids[index]
    ensures ParseInt(itemId).None? || ParseInt(itemId).value !in ids ==> index == 0
  {
    match ParseInt(itemId)
    case None => 0
    case Some(v) =>
      match FirstIndex(ids, v)
      case None => 0
      case Some(k) => k
  }

  // ---------------------------------------------------------------------------
  // SelectPagePaginator

  /** What `paginate_queryset_and_get_page` returns: `None`, `[]`, or a page with its offset. */
  datatype PageResult<T> = NoPagination | EmptyPage | Page(items: seq<T>, offset: nat)

  /** The start of the page of `limit` rows that holds position `index`: `int(index / limit) * limit`. */
  function JumpOffset(index: nat, limit: nat): (offset: nat)
    requires limit > 0
    ensures offset % limit == 0 && offset <= index < offset + limit
  {
    var page := index / limit;
    assert index == page * limit + index % limit;
    DivUnique(page * limit, limit, page, 0);
    page * limit
  }

  lemma MulMono(a: nat, b: nat, m: nat)
    requires a <= b
    ensures a * m <= b * m
  {
  }

  /** Quotient and remainder are determined by any decomposition `x == k * m + r` with `r < m`. */
  lemma {:induction false} DivUnique(x: nat, m: nat, k: nat, r: nat)
    requires r < m && x == k * m + r
    ensures x / m == k && x % m == r
  {
    var q := x / m;
    assert x == q * m + x % m;
    if q < k {
      MulMono(q + 1, k, m);
    } else if q > k {
      MulMono(k + 1, q, m);
    }
  }

  /** Only one multiple of `limit` starts a page holding `index`. */
  lemma JumpOffsetUnique(index: nat, limit: nat, offset: nat)
    requires limit > 0 && offset % limit == 0 && offset <= index < offset + limit
    ensures offset == JumpOffset(index, limit)
  {
    var a := offset / limit;
    assert offset == a * limit + offset % limit;
    DivUnique(index, limit, a, index - offset);
  }

  /** The page of `queryset[offset:offset + limit]`, or `[]` when the set is empty or the offset lies past its end. */
  function PageOf<T>(queryset: seq<T>, limit: nat, offset: nat): (p: PageResult<T>)
    ensures p.EmptyPage? <==> |queryset| == 0 || offset > |queryset|
    ensures p.Page? ==> p.offset == offset && |p.items| <= limit && offset + |p.items| <= |queryset|
    ensures p.Page? ==> forall i :: 0 <= i < |p.items| ==> p.items[i] == queryset[offset + i]
    ensures p.Page? ==> |p.items| == if offset + limit <= |queryset| then limit else |queryset| - offset
    ensures !p.NoPagination?
  {
    if |queryset| == 0 || offset > |queryset| then EmptyPage
    else Page(queryset[offset..if offset + limit < |queryset| then offset + limit else |queryset|], offset)
  }

  /** The page chosen to show position `index` contains the row at `index`. */
  lemma JumpPageHoldsTarget<T>(queryset: seq<T>, limit: nat, index: nat)
    requires limit > 0 && index < |queryset|
    ensures var p := PageOf(queryset, limit, JumpOffset(index, limit));
      p.Page? && p.offset <= index < p.offset + |p.items| && p.items[index - p.offset] == queryset[index]
  {
  }

  /**
   * Showing a record: when the request's `_show` is the id of a row, the page
   * returned holds that row's first occurrence.
   */
  lemma ShowRecordPage(ids: seq<int>, limit: nat, id: int)
    requires limit > 0 && id in ids
    ensures var index := OffsetRequired(ids, IntText(id));
      var p := PageOf(ids, limit, JumpOffset(index, limit));
      ids[index] == id && p.Page? && id in p.items
  {
    ParseIntText(id);
    var index := OffsetRequired(ids, IntText(id));
    JumpPageHoldsTarget(ids, limit, index);
    var p := PageOf(ids, limit, JumpOffset(index, limit));
    assert p.items[index - p.offset] == id;
  }

  /** DRF's `LimitOffsetPagination` state, as this paginator sets it. */
  class SelectPagePaginator {
    var limit: Option<nat>
    var offset: nat
    var count: nat

    constructor ()
      ensures limit == None && offset == 0 && count == 0
    {
      limit := None;
      offset := 0;
      count := 0;
    }

    /**
     * `paginate_queryset_and_get_page`: `requestLimit` and `requestOffset`
     * are what `get_limit` and `get_offset` read from the request; with
     * `indexRequired`, the offset moves to the start of the page holding it.
     */
    method PaginateQuerysetAndGetPage<T>(queryset: seq<T>, requestLimit: Option<nat>, requestOffset: nat,
                                         indexRequired: Option<nat>) returns (page: PageResult<T>)
      requires requestLimit.Some? ==> requestLimit.value > 0
      modifies this
      ensures limit == requestLimit
      ensures requestLimit.None? ==> page == NoPagination && offset == old(offset) && count == old(count)
      ensures requestLimit.Some? ==>
        && count == |queryset|
        && offset == (if indexRequired.Some? then JumpOffset(indexRequired.value, requestLimit.value) else requestOffset)
        && page == PageOf(queryset, requestLimit.value, offset)
    {
      limit := requestLimit;
      if limit.None? {
        return NoPagination;
      }
      offset := requestOffset;
      count := |queryset|;
      if indexRequired.Some? {
        var pageNumber := indexRequired.value / limit.value;
        offset := pageNumber * limit.value;
      }
      if count == 0 || offset > count {
        return EmptyPage;
      }
      var end := if offset + limit.value < count then offset + limit.value else count;
      return Page(queryset[offset..end], offset);
    }
  }

  // ---------------------------------------------------------------------------
  // ItemCreate / ItemUpdate.get_serializer

  /** `fields` after appending, in order, each key of `keys` it does not hold yet. */
  function Merged(fields: seq<string>, keys: seq<string>): seq<string>
    decreases |keys|
  {
    if keys == [] then fields
    else Merged(if keys[0] in fields then fields else fields + [keys[0]], keys[1..])
  }

  /** The serializer field list: `REQUIRED_FIELDS`, then each request-data key not already present. */
  method MergeFields(required: seq<string>, dataKeys: seq<string>) returns (fields: seq<string>)
    ensures fields == Merged(required, dataKeys)
  {
    fields := required;
    var i := 0;
    while i < |dataKeys|
      invariant 0 <= i <= |dataKeys|
      invariant Merged(fields, dataKeys[i..]) == Merged(required, dataKeys)
    {
      assert dataKeys[i..][1..] == dataKeys[i + 1..];
      var key := dataKeys[i];
      if key !in fields {
        fields := fields + [key];
      }
      i := i + 1;
    }
    assert dataKeys[i..] == [];
  }

  predicate Distinct(s: seq<string>)
  {
    forall i, j :: 0 <= i < j < |s| ==> s[i] != s[j]
  }

  /**
   * The merged list starts with the required fields in their order, holds
   * exactly the required fields and the data keys, and what it appends is
   * free of repeats and of required fields: it repeats nothing that the
   * required fields did not already repeat.
   */
  lemma {:induction false} MergedFields(fields: seq<string>, keys: seq<string>)
    ensures |fields| <= |Merged(fields, keys)| && Merged(fields, keys)[..|fields|] == fields
    ensures forall x :: x in Merged(fields, keys) <==> x in fields || x in keys
    ensures var added := Merged(fields, keys)[|fields|..];
      Distinct(added) && forall x :: x in added ==> x !in fields
    ensures Distinct(fields) ==> Distinct(Merged(fields, keys))
    decreases |keys|
  {
    if keys != [] {
      var next := if keys[0] in fields then fields else fields + [keys[0]];
      MergedFields(next, keys[1..]);
      assert next[..|fields|] == fields;
      assert forall x :: x in keys <==> x == keys[0] || x in keys[1..];
      var m := Merged(fields, keys);
      assert m == Merged(next, keys[1..]);
      if next != fields {
        var tail := m[|next|..];
        assert m[|fields|..] == [keys[0]] + tail by {
          assert m[..|next|] == next;
        }
        assert keys[0] !in tail by { assert keys[0] in next; }
        AppendDistinct(keys[0], tail);
      }
    }
  }

  /** Putting an absent element in front of a list without repeats gives a list without repeats. */
  lemma AppendDistinct(x: string, tail: seq<string>)
    requires Distinct(tail) && x !in tail
    ensures Distinct([x] + tail)
  {
    var s := [x] + tail;
    forall i, j | 0 <= i < j < |s| ensures s[i] != s[j] {
      assert s[j] == tail[j - 1];
      if i > 0 { assert s[i] == tail[i - 1]; }
    }
  }

  // ---------------------------------------------------------------------------
  // Audit fields

  /** The parts of `request.user` the stamps read: its username and its other attributes. */
  datatype User = User(username: string, attributes: map<string, string>)

  /** `USER_IDENTIFIER_FIELD` is set, and the user has a non-empty attribute of that name. */
  predicate HasIdentifier(identifierField: Option<string>, user: User)
  {
    && identifierField.Some? && identifierField.value != ""
    && identifierField.value in user.attributes && user.attributes[identifierField.value] != ""
  }

  /**
   * `created_by` / `last_modified_by`: the value of the `USER_IDENTIFIER_FIELD`
   * attribute when that setting is set and the user has a non-empty value for
   * it, the username otherwise.
   */
  function AuditIdentity(identifierField: Option<string>, user: User): (name: string)
    ensures name == user.username || name in user.attributes.Values
    ensures user.username != "" ==> name != ""
  {
    if HasIdentifier(identifierField, user) then user.attributes[identifierField.value] else user.username
  }

  /**
   * The identifier attribute is chosen exactly when it is usable, and the
   * username in every other case, in particular when the setting is `None`
   * or empty (`None` here stands for a setting whose value is `None`).
   */
  lemma AuditIdentityChoice(identifierField: Option<string>, user: User)
    ensures HasIdentifier(identifierField, user) ==> AuditIdentity(identifierField, user) == user.attributes[identifierField.value]
    ensures !HasIdentifier(identifierField, user) ==> AuditIdentity(identifierField, user) == user.username
    ensures identifierField.None? || identifierField == Some("") ==> AuditIdentity(identifierField, user) == user.username
  {
  }

  /** A value of the submitted data: text, a timestamp, or anything else (by an opaque code). */
  datatype Datum = Text(text: string) | Timestamp(time: int) | Other(code: int)

  type Data = map<string, Datum>

  const CreatedTime := "created_time"
  const CreatedBy := "created_by"
  const LastModifiedTime := "last_modified_time"
  const LastModifiedBy := "last_modified_by"

  /**
   * Stamping the submitted data: the time key is set to `now` and the user
   * key to `identity`; `create` stamps `created_*`, `update` `last_modified_*`.
   */
  function Stamp(data: Data, timeKey: string, byKey: string, now: int, identity: string): (r: Data)
    requires timeKey != byKey
    ensures r.Keys == data.Keys + {timeKey, byKey}
    ensures r[timeKey] == Timestamp(now) && r[byKey] == Text(identity)
    ensures forall k :: k in data && k != timeKey && k != byKey ==> r[k] == data[k]
  {
    data[timeKey := Timestamp(now)][byKey := Text(identity)]
  }

  /**
   * `update`: a partial update always stamps; a full update stamps only when
   * the stored item's serialization differs from the submitted data. No
   * submitted key other than the two stamps is ever changed or dropped.
   */
  function StampUpdate(data: Data, stored: Data, partial: bool, now: int, identity: string): (r: Data)
    ensures data.Keys <= r.Keys
    ensures forall k :: k in data && k != LastModifiedTime && k != LastModifiedBy ==> r[k] == data[k]
  {
    if partial || stored != data then Stamp(data, LastModifiedTime, LastModifiedBy, now, identity) else data
  }

  /** A full update that resubmits the stored item unchanged leaves the data as submitted; any other update is stamped. */
  lemma UpdateStamping(data: Data, stored: Data, partial: bool, now: int, identity: string)
    ensures !partial && stored == data ==> StampUpdate(data, stored, partial, now, identity) == data
    ensures partial || stored != data ==>
      var r := StampUpdate(data, stored, partial, now, identity);
      r[LastModifiedTime] == Timestamp(now) && r[LastModifiedBy] == Text(identity)
  {
  }
}
