/**
 * `get_field_filters(queryDict, model, type)`: compiles every filterable key
 * of a request's query parameters into one main predicate tree plus a list of
 * auxiliary trees, each of which the caller applies separately.
 */
module FieldFilters {
  import opened Wrappers
  import opened Strings
  import opened Predicates
  import opened SearchHelpers

  /** Whether the compiler builds the filter or the exclude side. */
  datatype Mode = FilterMode | ExcludeMode

  /** The query parameters: each key with its list of raw values, in request order. */
  type QueryDict = seq<(string, seq<string>)>

  /** Keys that are never fields: `offset`, `limit` and anything starting with `_`. */
  predicate Reserved(key: string)
  {
    key == "offset" || key == "limit" || (|key| > 0 && key[0] == '_')
  }

  function FirstSegment(field: string): string { Split(field, "__")[0] }

  /**
   * The type a key filters on, and whether its first segment is a relation:
   * the key itself, or its first segment when the key has a `__`; a relation
   * is resolved through `get_related_field_type`, that is, by walking the
   * path's segments.
   */
  function ResolveFieldType(reg: Registry, info: ModelInfo, field: string): (r: (Option<string>, bool))
    ensures r.0.Some? ==> !IsRelationType(r.0.value)
    ensures r.1 <==> (field in info.fields && IsRelationType(info.fields[field])) ||
                     (field !in info.fields && Contains(field, "__") && FirstSegment(field) in info.fields
                      && IsRelationType(info.fields[FirstSegment(field)]))
    ensures field in info.fields && !IsRelationType(info.fields[field]) ==> r == (Some(info.fields[field]), false)
    ensures (field !in info.fields && Contains(field, "__") && FirstSegment(field) in info.fields
             && !IsRelationType(info.fields[FirstSegment(field)])) ==> r == (Some(info.fields[FirstSegment(field)]), false)
    ensures field !in info.fields && !(Contains(field, "__") && FirstSegment(field) in info.fields) ==> r == (None, false)
    ensures r.1 ==> r.0 == ResolvePath(reg, info, Split(field, "__"))
  {
    var declared :=
      if field in info.fields then Some(info.fields[field])
      else if Contains(field, "__") && FirstSegment(field) in info.fields then Some(info.fields[FirstSegment(field)])
      else None;
    if declared.Some? && IsRelationType(declared.value) then
      RelatedFieldTypeWalksPath(reg, info, field);
      (GetRelatedFieldType(reg, info, field), true)
    else (declared, false)
  }

  /** The variables of the compiler's loops: the main tree, the auxiliary list, the carried tuple and the relation keys seen. */
  datatype State = State(query: Q, additional: seq<Q>, queryTuple: Option<Lookup>, m2mList: seq<string>)

  const Start := State(Empty, [], None, [])

  /** The comma-separated parts of one filter-mode value, ORed together; the carried tuple ends as `None` once a part was compiled. */
  function PartsFold(fieldType: Option<string>, field: string, sub: Q, tuple: Option<Lookup>, parts: seq<string>): (Q, Option<Lookup>)
    decreases |parts|
  {
    if parts == [] then (sub, tuple)
    else if parts[0] == "" then PartsFold(fieldType, field, sub, tuple, parts[1..])
    else
      var t := GetQueryTuple(fieldType, field, parts[0]);
      if t.Some? then PartsFold(fieldType, field, OrQ(sub, LeafOf(t.value)), None, parts[1..])
      else PartsFold(fieldType, field, sub, t, parts[1..])
  }

  /** One value at position `i` of a key's value list. */
  function ValueStep(mode: Mode, fieldType: Option<string>, field: string, st: State, i: nat, value: string): State
  {
    if Contains(value, ",") then
      if mode == FilterMode then CommaStep(fieldType, field, st, value) else st
    else if value == "" then st
    else Place(st, field, i, SingleTuple(mode, fieldType, field, st.queryTuple, value))
  }

  /** A comma value in filter mode: the OR of its parts is ANDed into the main tree. */
  function CommaStep(fieldType: Option<string>, field: string, st: State, value: string): State
  {
    var (sub, tuple) := PartsFold(fieldType, field, Empty, st.queryTuple, Split(value, ","));
    st.(query := AndQ(st.query, sub), queryTuple := tuple)
  }

  /**
   * The tuple a single non-empty value leaves behind: its compilation when
   * this mode takes it (`!v` on the exclude side, `v` on the filter side),
   * otherwise the carried one.
   */
  function SingleTuple(mode: Mode, fieldType: Option<string>, field: string, carried: Option<Lookup>, value: string): Option<Lookup>
    requires value != ""
  {
    if mode == ExcludeMode && value[0] == '!' then GetQueryTuple(fieldType, field, value[1..])
    else if mode == FilterMode && value[0] != '!' then GetQueryTuple(fieldType, field, value)
    else carried
  }

  /** Where the tuple goes: the main tree, unless it follows the first value of a relation key. */
  function Place(st: State, field: string, i: nat, tuple: Option<Lookup>): State
  {
    if tuple.Some? && (i == 0 || FirstSegment(field) !in st.m2mList) then
      st.(query := AndQ(st.query, LeafOf(tuple.value)), queryTuple := None)
    else if tuple.Some? then
      st.(additional := st.additional + [LeafOf(tuple.value)], queryTuple := tuple)
    else st.(queryTuple := tuple)
  }

  function ValuesFold(mode: Mode, fieldType: Option<string>, field: string, st: State, values: seq<string>, i: nat): State
    decreases |values| - i
  {
    if i >= |values| then st
    else ValuesFold(mode, fieldType, field, ValueStep(mode, fieldType, field, st, i, values[i]), values, i + 1)
  }

  /** One key of the query dictionary with its values. */
  function FieldStep(reg: Registry, info: ModelInfo, mode: Mode, st: State, field: string, values: seq<string>): State
  {
    if Reserved(field) then st
    else
      var (fieldType, isRelation) := ResolveFieldType(reg, info, field);
      var st' := if isRelation then st.(m2mList := st.m2mList + [FirstSegment(field)]) else st;
      ValuesFold(mode, fieldType, field, st', values, 0)
  }

  function FieldsFold(reg: Registry, info: ModelInfo, mode: Mode, st: State, dict: QueryDict): State
    decreases |dict|
  {
    if dict == [] then st
    else FieldsFold(reg, info, mode, FieldStep(reg, info, mode, st, dict[0].0, dict[0].1), dict[1..])
  }

  /** What `get_field_filters` returns: the main tree, then the auxiliary trees in the order they were added. */
  function CompileQuery(reg: Registry, info: ModelInfo, dict: QueryDict, mode: Mode): seq<Q>
  {
    var st := FieldsFold(reg, info, mode, Start, dict);
    [st.query] + st.additional
  }

  /**
   * The compiler's nested loops. The carried `queryTuple` is loop state: it
   * is reset only after being ANDed into the main tree, so a value skipped in
   * this mode reuses whatever tuple the previous value left behind.
   */
  method GetFieldFilters(reg: Registry, info: ModelInfo, queryDict: QueryDict, mode: Mode) returns (queries: seq<Q>)
    requires forall e :: e in queryDict ==> e.0 != ""
    ensures queries == CompileQuery(reg, info, queryDict, mode)
    ensures |queries| >= 1
  {
    var query := Empty;
    var additional: seq<Q> := [];
    var queryTuple: Option<Lookup> := None;
    var m2mList: seq<string> := [];
    var k := 0;
    while k < |queryDict|
      invariant 0 <= k <= |queryDict|
      invariant FieldsFold(reg, info, mode, State(query, additional, queryTuple, m2mList), queryDict[k..])
             == FieldsFold(reg, info, mode, Start, queryDict)
    {
      var field, valueList := queryDict[k].0, queryDict[k].1;
      ghost var before := State(query, additional, queryTuple, m2mList);
      assert queryDict[k..][1..] == queryDict[k + 1..];
      if field != "offset" && field != "limit" && field[0] != '_' {
        var fieldType, isRelation := ResolveFieldType(reg, info, field).0, ResolveFieldType(reg, info, field).1;
        if isRelation {
          m2mList := m2mList + [FirstSegment(field)];
        }
        var st := CompileValues(mode, fieldType, field, State(query, additional, queryTuple, m2mList), valueList);
        query, additional, queryTuple, m2mList := st.query, st.additional, st.queryTuple, st.m2mList;
      }
      assert State(query, additional, queryTuple, m2mList) == FieldStep(reg, info, mode, before, field, valueList);
      k := k + 1;
    }
    queries := [query] + additional;
  }

  /** The middle loop: the values given for one key, in order. */
  method CompileValues(mode: Mode, fieldType: Option<string>, field: string, entry: State, valueList: seq<string>)
    returns (st: State)
    ensures st == ValuesFold(mode, fieldType, field, entry, valueList, 0)
  {
    st := entry;
    var i := 0;
    while i < |valueList|
      invariant 0 <= i <= |valueList|
      invariant ValuesFold(mode, fieldType, field, st, valueList, i) == ValuesFold(mode, fieldType, field, entry, valueList, 0)
    {
      st := CompileValue(mode, fieldType, field, st, i, valueList[i]);
      i := i + 1;
    }
  }

  /** The body of the middle loop: one value of a key. */
  method CompileValue(mode: Mode, fieldType: Option<string>, field: string, st: State, i: nat, value: string)
    returns (next: State)
    ensures next == ValueStep(mode, fieldType, field, st, i, value)
  {
    var query, additional, queryTuple, m2mList := st.query, st.additional, st.queryTuple, st.m2mList;
    if Contains(value, ",") {
      if mode == FilterMode {
        var subquery;
        subquery, queryTuple := CompileParts(fieldType, field, queryTuple, Split(value, ","));
        query := AndQ(query, subquery);
      }
    } else if value != "" {
      if mode == ExcludeMode && value[0] == '!' {
        queryTuple := GetQueryTuple(fieldType, field, value[1..]);
      } else if mode == FilterMode && value[0] != '!' {
        queryTuple := GetQueryTuple(fieldType, field, value);
      }
      if queryTuple.Some? && (i == 0 || FirstSegment(field) !in m2mList) {
        query := AndQ(query, LeafOf(queryTuple.value));
        queryTuple := None;
      } else if queryTuple.Some? {
        additional := additional + [LeafOf(queryTuple.value)];
      }
    }
    next := State(query, additional, queryTuple, m2mList);
  }

  /** The innermost loop: the comma-separated parts of one value, ORed together. */
  method CompileParts(fieldType: Option<string>, field: string, carried: Option<Lookup>, parts: seq<string>)
    returns (subquery: Q, queryTuple: Option<Lookup>)
    ensures (subquery, queryTuple) == PartsFold(fieldType, field, Empty, carried, parts)
  {
    subquery, queryTuple := Empty, carried;
    var j := 0;
    while j < |parts|
      invariant 0 <= j <= |parts|
      invariant PartsFold(fieldType, field, subquery, queryTuple, parts[j..])
             == PartsFold(fieldType, field, Empty, carried, parts)
    {
      assert parts[j..][1..] == parts[j + 1..];
      var part := parts[j];
      if part != "" {
        queryTuple := GetQueryTuple(fieldType, field, part);
        if queryTuple.Some? {
          subquery := OrQ(subquery, LeafOf(queryTuple.value));
          queryTuple := None;
        }
      }
      j := j + 1;
    }
  }

  // ---------------------------------------------------------------------------
  // Reserved keys

  /** The query dictionary without its reserved keys, in the same order. */
  function Unreserved(dict: QueryDict): (r: QueryDict)
    ensures forall e :: e in r ==> e in dict && !Reserved(e.0)
    ensures forall e :: e in dict && !Reserved(e.0) ==> e in r
    decreases |dict|
  {
    if dict == [] then []
    else if Reserved(dict[0].0) then Unreserved(dict[1..])
    else [dict[0]] + Unreserved(dict[1..])
  }

  lemma {:induction false} UnreservedFold(reg: Registry, info: ModelInfo, mode: Mode, st: State, dict: QueryDict)
    ensures FieldsFold(reg, info, mode, st, dict) == FieldsFold(reg, info, mode, st, Unreserved(dict))
    decreases |dict|
  {
    if dict != [] {
      if Reserved(dict[0].0) {
        UnreservedFold(reg, info, mode, st, dict[1..]);
      } else {
        var next := FieldStep(reg, info, mode, st, dict[0].0, dict[0].1);
        UnreservedFold(reg, info, mode, next, dict[1..]);
        var u := [dict[0]] + Unreserved(dict[1..]);
        assert u[0] == dict[0] && u[1..] == Unreserved(dict[1..]);
      }
    }
  }

  /** `offset`, `limit` and `_`-prefixed keys contribute nothing, wherever they appear. */
  lemma ReservedKeysIgnored(reg: Registry, info: ModelInfo, dict: QueryDict, mode: Mode)
    ensures CompileQuery(reg, info, dict, mode) == CompileQuery(reg, info, Unreserved(dict), mode)
  {
    UnreservedFold(reg, info, mode, Start, dict);
  }

  // ---------------------------------------------------------------------------
  // The shape of what is compiled

  /** No negation anywhere, no OR on the exclude side, and single leaves in the auxiliary list. */
  predicate Shaped(mode: Mode, st: State)
  {
    && NegationFree(st.query)
    && (mode == ExcludeMode ==> AndOfLeaves(st.query))
    && forall q :: q in st.additional ==> q.Leaf?
  }

  lemma {:induction false} PartsFoldOrOfLeaves(fieldType: Option<string>, field: string, sub: Q, tuple: Option<Lookup>, parts: seq<string>)
    requires OrOfLeaves(sub)
    ensures OrOfLeaves(PartsFold(fieldType, field, sub, tuple, parts).0)
    decreases |parts|
  {
    if parts != [] {
      if parts[0] == "" {
        PartsFoldOrOfLeaves(fieldType, field, sub, tuple, parts[1..]);
      } else {
        var t := GetQueryTuple(fieldType, field, parts[0]);
        if t.Some? {
          PartsFoldOrOfLeaves(fieldType, field, OrQ(sub, LeafOf(t.value)), None, parts[1..]);
        } else {
          PartsFoldOrOfLeaves(fieldType, field, sub, t, parts[1..]);
        }
      }
    }
  }

  lemma ValueStepShaped(mode: Mode, fieldType: Option<string>, field: string, st: State, i: nat, value: string)
    requires Shaped(mode, st)
    ensures Shaped(mode, ValueStep(mode, fieldType, field, st, i, value))
  {
    if Contains(value, ",") && mode == FilterMode {
      PartsFoldOrOfLeaves(fieldType, field, Empty, st.queryTuple, Split(value, ","));
      OrOfLeavesIsNegationFree(PartsFold(fieldType, field, Empty, st.queryTuple, Split(value, ",")).0);
    }
  }

  lemma {:induction false} ValuesFoldShaped(mode: Mode, fieldType: Option<string>, field: string, st: State, values: seq<string>, i: nat)
    requires Shaped(mode, st)
    ensures Shaped(mode, ValuesFold(mode, fieldType, field, st, values, i))
    decreases |values| - i
  {
    if i < |values| {
      ValueStepShaped(mode, fieldType, field, st, i, values[i]);
      ValuesFoldShaped(mode, fieldType, field, ValueStep(mode, fieldType, field, st, i, values[i]), values, i + 1);
    }
  }

  lemma {:induction false} FieldsFoldShaped(reg: Registry, info: ModelInfo, mode: Mode, st: State, dict: QueryDict)
    requires Shaped(mode, st)
    ensures Shaped(mode, FieldsFold(reg, info, mode, st, dict))
    decreases |dict|
  {
    if dict != [] {
      var field := dict[0].0;
      if !Reserved(field) {
        var (fieldType, isRelation) := ResolveFieldType(reg, info, field);
        var st' := if isRelation then st.(m2mList := st.m2mList + [FirstSegment(field)]) else st;
        ValuesFoldShaped(mode, fieldType, field, st', dict[0].1, 0);
      }
      FieldsFoldShaped(reg, info, mode, FieldStep(reg, info, mode, st, field, dict[0].1), dict[1..]);
    }
  }

  /**
   * Negation is never built into a tree (it is expressed only by which side,
   * filter or exclude, a tree goes to); the exclude side never builds an OR,
   * since comma values are skipped there; every auxiliary tree is one leaf.
   */
  lemma FieldFiltersShape(reg: Registry, info: ModelInfo, dict: QueryDict, mode: Mode)
    ensures var qs := CompileQuery(reg, info, dict, mode);
      && NegationFree(qs[0])
      && (mode == ExcludeMode ==> AndOfLeaves(qs[0]))
      && forall j :: 1 <= j < |qs| ==> qs[j].Leaf?
  {
    FieldsFoldShaped(reg, info, mode, Start, dict);
  }

  // ---------------------------------------------------------------------------
  // Where the leaves come from

  /** `l` is what `get_query_tuple` makes of some string for one of the non-reserved `keys`, typed as that key resolves. */
  ghost predicate Compiled(reg: Registry, info: ModelInfo, keys: set<string>, l: Lookup)
  {
    exists f, s :: f in keys && !Reserved(f) && GetQueryTuple(ResolveFieldType(reg, info, f).0, f, s) == Some(l)
  }

  /** `l` is what `get_query_tuple` makes of some string for `field` with type `fieldType`. */
  ghost predicate From(fieldType: Option<string>, field: string, l: Lookup)
  {
    exists s :: GetQueryTuple(fieldType, field, s) == Some(l)
  }

  ghost predicate Sourced(reg: Registry, info: ModelInfo, keys: set<string>, st: State)
  {
    && (forall l :: l in Leaves(st.query) ==> Compiled(reg, info, keys, l))
    && (forall q, l :: q in st.additional && l in Leaves(q) ==> Compiled(reg, info, keys, l))
    && (st.queryTuple.Some? ==> Compiled(reg, info, keys, st.queryTuple.value))
  }

  lemma FromCompiled(reg: Registry, info: ModelInfo, keys: set<string>, field: string, l: Lookup)
    requires field in keys && !Reserved(field) && From(ResolveFieldType(reg, info, field).0, field, l)
    ensures Compiled(reg, info, keys, l)
  {
  }

  /** The comma parts add only leaves compiled for `field`, and leave behind the carried tuple or one such leaf. */
  lemma {:induction false} PartsFoldFrom(fieldType: Option<string>, field: string, sub: Q, tuple: Option<Lookup>, parts: seq<string>)
    ensures var (sub', tuple') := PartsFold(fieldType, field, sub, tuple, parts);
      && (forall l :: l in Leaves(sub') ==> l in Leaves(sub) || From(fieldType, field, l))
      && (tuple'.Some? ==> tuple' == tuple || From(fieldType, field, tuple'.value))
    decreases |parts|
  {
    if parts != [] {
      if parts[0] == "" {
        PartsFoldFrom(fieldType, field, sub, tuple, parts[1..]);
      } else {
        var t := GetQueryTuple(fieldType, field, parts[0]);
        if t.Some? {
          assert From(fieldType, field, t.value);
          CombinedLeaves(sub, LeafOf(t.value));
          PartsFoldFrom(fieldType, field, OrQ(sub, LeafOf(t.value)), None, parts[1..]);
        } else {
          PartsFoldFrom(fieldType, field, sub, t, parts[1..]);
        }
      }
    }
  }

  lemma PlaceSourced(reg: Registry, info: ModelInfo, keys: set<string>, st: State, field: string, i: nat, tuple: Option<Lookup>)
    requires Sourced(reg, info, keys, st)
    requires tuple.Some? ==> Compiled(reg, info, keys, tuple.value)
    ensures Sourced(reg, info, keys, Place(st, field, i, tuple))
  {
    if tuple.Some? {
      CombinedLeaves(st.query, LeafOf(tuple.value));
    }
  }

  lemma CommaStepSourced(reg: Registry, info: ModelInfo, keys: set<string>, field: string, st: State, value: string)
    requires field in keys && !Reserved(field)
    requires Sourced(reg, info, keys, st)
    ensures Sourced(reg, info, keys, CommaStep(ResolveFieldType(reg, info, field).0, field, st, value))
  {
    var fieldType := ResolveFieldType(reg, info, field).0;
    var parts := Split(value, ",");
    var (sub', tuple') := PartsFold(fieldType, field, Empty, st.queryTuple, parts);
    PartsFoldFrom(fieldType, field, Empty, st.queryTuple, parts);
    forall l | l in Leaves(sub') ensures Compiled(reg, info, keys, l) {
      FromCompiled(reg, info, keys, field, l);
    }
    if tuple'.Some? && tuple' != st.queryTuple {
      FromCompiled(reg, info, keys, field, tuple'.value);
    }
    CombinedLeaves(st.query, sub');
  }

  lemma SingleTupleSourced(reg: Registry, info: ModelInfo, keys: set<string>, mode: Mode, field: string, st: State, value: string)
    requires field in keys && !Reserved(field) && value != ""
    requires Sourced(reg, info, keys, st)
    ensures var tuple := SingleTuple(mode, ResolveFieldType(reg, info, field).0, field, st.queryTuple, value);
      tuple.Some? ==> Compiled(reg, info, keys, tuple.value)
  {
    var fieldType := ResolveFieldType(reg, info, field).0;
    var tuple := SingleTuple(mode, fieldType, field, st.queryTuple, value);
    if tuple.Some? && tuple != st.queryTuple {
      if mode == ExcludeMode && value[0] == '!' {
        assert From(fieldType, field, tuple.value);
      } else {
        assert From(fieldType, field, tuple.value);
      }
      FromCompiled(reg, info, keys, field, tuple.value);
    }
  }

  lemma ValueStepSourced(reg: Registry, info: ModelInfo, keys: set<string>, mode: Mode, field: string, st: State, i: nat, value: string)
    requires field in keys && !Reserved(field)
    requires Sourced(reg, info, keys, st)
    ensures Sourced(reg, info, keys, ValueStep(mode, ResolveFieldType(reg, info, field).0, field, st, i, value))
  {
    var fieldType := ResolveFieldType(reg, info, field).0;
    if Contains(value, ",") {
      if mode == FilterMode {
        CommaStepSourced(reg, info, keys, field, st, value);
      }
    } else if value != "" {
      SingleTupleSourced(reg, info, keys, mode, field, st, value);
      PlaceSourced(reg, info, keys, st, field, i, SingleTuple(mode, fieldType, field, st.queryTuple, value));
    }
  }

  lemma {:induction false} ValuesFoldSourced(reg: Registry, info: ModelInfo, keys: set<string>, mode: Mode, field: string,
                                             st: State, values: seq<string>, i: nat)
    requires field in keys && !Reserved(field)
    requires Sourced(reg, info, keys, st)
    ensures Sourced(reg, info, keys, ValuesFold(mode, ResolveFieldType(reg, info, field).0, field, st, values, i))
    decreases |values| - i
  {
    if i < |values| {
      var fieldType := ResolveFieldType(reg, info, field).0;
      ValueStepSourced(reg, info, keys, mode, field, st, i, values[i]);
      ValuesFoldSourced(reg, info, keys, mode, field, ValueStep(mode, fieldType, field, st, i, values[i]), values, i + 1);
    }
  }

  lemma {:induction false} FieldsFoldSourced(reg: Registry, info: ModelInfo, keys: set<string>, mode: Mode, st: State, dict: QueryDict)
    requires forall e :: e in dict ==> e.0 in keys
    requires Sourced(reg, info, keys, st)
    ensures Sourced(reg, info, keys, FieldsFold(reg, info, mode, st, dict))
    decreases |dict|
  {
    if dict != [] {
      var field := dict[0].0;
      if !Reserved(field) {
        var (fieldType, isRelation) := ResolveFieldType(reg, info, field);
        var st' := if isRelation then st.(m2mList := st.m2mList + [FirstSegment(field)]) else st;
        ValuesFoldSourced(reg, info, keys, mode, field, st', dict[0].1, 0);
      }
      assert forall e :: e in dict[1..] ==> e in dict;
      FieldsFoldSourced(reg, info, keys, mode, FieldStep(reg, info, mode, st, field, dict[0].1), dict[1..]);
    }
  }

  /**
   * Every leaf of every returned tree is what `get_query_tuple` compiled from
   * some string for one of the request's non-reserved keys, using the type
   * that key resolves to; in particular no leaf is made for a key whose type
   * does not resolve.
   */
  lemma FieldFiltersLeavesCompiled(reg: Registry, info: ModelInfo, dict: QueryDict, mode: Mode)
    ensures var keys := set e | e in dict :: e.0;
      forall q, l :: q in CompileQuery(reg, info, dict, mode) && l in Leaves(q) ==> Compiled(reg, info, keys, l)
  {
    var keys := set e | e in dict :: e.0;
    FieldsFoldSourced(reg, info, keys, mode, Start, dict);
  }

  // ---------------------------------------------------------------------------
  // Worked requests

  /** A model with a text field, a many-to-many relation to `Tag` and a foreign key to `Project`. */
  const Item := ModelInfo(map["status" := CharField, "tags" := ManyToManyField, "project" := ForeignKey],
                          map["tags" := "Tag", "project" := "Project"])
  const Models: Registry := map["Tag" := ModelInfo(map["name" := CharField], map[])]

  /** A value free of `,`, `*` and `|`, not starting with `!`. */
  predicate Plain(v: string)
  {
    v != "" && v[0] != '!' && AllIn(v, NoStarOrBar) && forall i :: 0 <= i < |v| ==> v[i] != ','
  }

  lemma SplitPair(a: string, b: string)
    requires Plain(a) && Plain(b)
    ensures Contains(a + "," + b, ",")
    ensures Split(a + "," + b, ",") == [a, b]
  {
    var s := a + "," + b;
    FirstCharAt(s, ',', |a|);
    assert s[..|a|] == a && s[|a| + 1..] == b;
    MissingCharNotFound(b, ",", 0);
  }

  lemma StatusResolves()
    ensures ResolveFieldType(Models, Item, "status") == (Some(CharField), false)
  {
  }

  /** A one-key request is that key's step from the start state. */
  lemma SingleKey(reg: Registry, info: ModelInfo, mode: Mode, field: string, values: seq<string>)
    ensures CompileQuery(reg, info, [(field, values)], mode)
         == var st := FieldStep(reg, info, mode, Start, field, values); [st.query] + st.additional
  {
    var dict := [(field, values)];
    assert dict[0] == (field, values) && dict[1..] == [];
    assert FieldsFold(reg, info, mode, Start, dict) == FieldsFold(reg, info, mode, FieldStep(reg, info, mode, Start, field, values), []);
  }

  lemma SingleValue(mode: Mode, fieldType: Option<string>, field: string, st: State, value: string)
    ensures ValuesFold(mode, fieldType, field, st, [value], 0) == ValueStep(mode, fieldType, field, st, 0, value)
  {
  }

  /** `?status=a,b` filters on `status = a OR status = b`. */
  lemma CommaValueIsDisjunction(a: string, b: string)
    requires Plain(a) && Plain(b)
    ensures CompileQuery(Models, Item, [("status", [a + "," + b])], FilterMode)
         == [Or(Leaf("status", Str(a)), Leaf("status", Str(b)))]
  {
    SingleKey(Models, Item, FilterMode, "status", [a + "," + b]);
    StatusResolves();
    SingleValue(FilterMode, Some(CharField), "status", Start, a + "," + b);
    SplitPair(a, b);
    TextUnmarked(CharField, "status", a);
    TextUnmarked(CharField, "status", b);
    var la, lb := Leaf("status", Str(a)), Leaf("status", Str(b));
    assert [a, b][1..] == [b] && [b][1..] == [];
    assert PartsFold(Some(CharField), "status", Empty, None, [a, b])
        == PartsFold(Some(CharField), "status", la, None, [b]);
    assert PartsFold(Some(CharField), "status", la, None, [b]) == (Or(la, lb), None);
  }

  /** On the exclude side a comma value is skipped altogether. */
  lemma CommaValueNotExcluded(a: string, b: string)
    requires Plain(a) && Plain(b)
    ensures CompileQuery(Models, Item, [("status", [a + "," + b])], ExcludeMode) == [Empty]
  {
    SingleKey(Models, Item, ExcludeMode, "status", [a + "," + b]);
    StatusResolves();
    SingleValue(ExcludeMode, Some(CharField), "status", Start, a + "," + b);
    SplitPair(a, b);
  }

  /** `?status=!v` excludes `status = v`, and contributes nothing on the filter side. */
  lemma BangValueIsExclusion(v: string)
    requires Plain(v)
    ensures CompileQuery(Models, Item, [("status", ["!" + v])], ExcludeMode) == [Leaf("status", Str(v))]
    ensures CompileQuery(Models, Item, [("status", ["!" + v])], FilterMode) == [Empty]
  {
    StatusResolves();
    var w := "!" + v;
    assert w[1..] == v && w[0] == '!';
    assert !Contains(w, ",") by { MissingCharNotFound(w, ",", 0); }
    SingleKey(Models, Item, ExcludeMode, "status", [w]);
    SingleValue(ExcludeMode, Some(CharField), "status", Start, w);
    SingleKey(Models, Item, FilterMode, "status", [w]);
    SingleValue(FilterMode, Some(CharField), "status", Start, w);
    TextUnmarked(CharField, "status", v);
  }

  /** A name with no `_` in it. */
  predicate Segment(n: string)
  {
    n != "" && forall i :: 0 <= i < |n| ==> n[i] != '_'
  }

  lemma SplitPath(r: string, f: string)
    requires Segment(r) && Segment(f)
    ensures Contains(r + "__" + f, "__")
    ensures Split(r + "__" + f, "__") == [r, f]
  {
    var s := r + "__" + f;
    forall j | 0 <= j < |r| ensures !OccursAt(s, "__", j) {
      assert s[j..j + 2][0] == s[j] == r[j];
    }
    assert s[|r|..|r| + 2] == "__";
    FirstOccurrence(s, "__", |r|);
    assert s[..|r|] == r && s[|r| + 2..] == f;
    MissingCharNotFound(f, "__", 0);
  }

  /** `r` is a relation of `info` to a model (other than `User`) whose field `f` is a text field. */
  predicate TextThroughRelation(reg: Registry, info: ModelInfo, r: string, f: string)
  {
    && r in info.fields && IsRelationType(info.fields[r])
    && r in info.relations && info.relations[r] != "User" && info.relations[r] in reg
    && f in reg[info.relations[r]].fields && IsTextType(reg[info.relations[r]].fields[f])
  }

  lemma PathResolves(reg: Registry, info: ModelInfo, r: string, f: string)
    requires Segment(r) && Segment(f) && r + "__" + f !in info.fields
    requires TextThroughRelation(reg, info, r, f)
    ensures FirstSegment(r + "__" + f) == r
    ensures ResolveFieldType(reg, info, r + "__" + f) == (Some(reg[info.relations[r]].fields[f]), true)
  {
    SplitPath(r, f);
  }

  lemma PlainCompiles(t: string, field: string, v: string)
    requires IsTextType(t) && field != "" && Plain(v)
    ensures !Contains(v, ",")
    ensures GetQueryTuple(Some(t), field, v) == Some((field, Str(v)))
  {
    MissingCharNotFound(v, ",", 0);
    TextUnmarked(t, field, v);
  }

  /** A plain value on the filter side: ANDed into the main tree, or added to the auxiliary list for a later value of a relation path. */
  lemma PlainFilterStep(t: string, field: string, st: State, i: nat, v: string)
    requires IsTextType(t) && field != "" && Plain(v)
    ensures ValueStep(FilterMode, Some(t), field, st, i, v)
         == if i == 0 || FirstSegment(field) !in st.m2mList then st.(query := AndQ(st.query, Leaf(field, Str(v))), queryTuple := None)
            else st.(additional := st.additional + [Leaf(field, Str(v))], queryTuple := Some((field, Str(v))))
  {
    PlainCompiles(t, field, v);
  }

  /** A `!` value on the filter side compiles nothing and falls back on the carried tuple. */
  lemma BangFilterStep(fieldType: Option<string>, field: string, st: State, c: string)
    requires Plain(c)
    ensures ValueStep(FilterMode, fieldType, field, st, 0, "!" + c)
         == if st.queryTuple.Some? then st.(query := AndQ(st.query, LeafOf(st.queryTuple.value)), queryTuple := None) else st
  {
    var w := "!" + c;
    assert w[0] == '!';
    assert !Contains(w, ",") by { MissingCharNotFound(w, ",", 0); }
  }

  /** A key with an underscore after its first character is not reserved. */
  lemma UnderscoreNotReserved(s: string, k: nat)
    requires 0 < k < |s| && s[k] == '_' && s[0] != '_'
    ensures !Reserved(s)
  {
    var o, l := "offset", "limit";
    assert forall i :: 0 <= i < |o| ==> o[i] != '_';
    assert forall i :: 0 <= i < |l| ==> l[i] != '_';
  }

  lemma FieldStepOf(reg: Registry, info: ModelInfo, mode: Mode, st: State, field: string, values: seq<string>)
    requires !Reserved(field)
    ensures var (fieldType, isRelation) := ResolveFieldType(reg, info, field);
      FieldStep(reg, info, mode, st, field, values)
        == ValuesFold(mode, fieldType, field, if isRelation then st.(m2mList := st.m2mList + [FirstSegment(field)]) else st, values, 0)
  {
  }

  lemma PairValues(mode: Mode, fieldType: Option<string>, field: string, st: State, a: string, b: string)
    ensures ValuesFold(mode, fieldType, field, st, [a, b], 0)
         == ValueStep(mode, fieldType, field, ValueStep(mode, fieldType, field, st, 0, a), 1, b)
  {
    var values := [a, b];
    var st1 := ValueStep(mode, fieldType, field, st, 0, a);
    var st2 := ValueStep(mode, fieldType, field, st1, 1, b);
    assert ValuesFold(mode, fieldType, field, st2, values, 2) == st2;
    assert ValuesFold(mode, fieldType, field, st1, values, 1) == ValuesFold(mode, fieldType, field, st2, values, 2);
    assert ValuesFold(mode, fieldType, field, st, values, 0) == ValuesFold(mode, fieldType, field, st1, values, 1);
  }

  /** The state after `?r__f=a&r__f=b` on the filter side. */
  lemma RelationPathStep(reg: Registry, info: ModelInfo, mode: Mode, r: string, f: string, values: seq<string>)
    requires Segment(r) && Segment(f) && r + "__" + f !in info.fields
    requires TextThroughRelation(reg, info, r, f)
    ensures FieldStep(reg, info, mode, Start, r + "__" + f, values)
         == ValuesFold(mode, Some(reg[info.relations[r]].fields[f]), r + "__" + f, Start.(m2mList := [r]), values, 0)
  {
    var path := r + "__" + f;
    PathResolves(reg, info, r, f);
    assert path[|r|] == '_' && path[0] == r[0];
    UnderscoreNotReserved(path, |r|);
    FieldStepOf(reg, info, mode, Start, path, values);
    assert ResolveFieldType(reg, info, path).1;
    assert ResolveFieldType(reg, info, path).0 == Some(reg[info.relations[r]].fields[f]);
    assert Start.m2mList + [FirstSegment(path)] == [r];
  }

  lemma RelationPair(reg: Registry, info: ModelInfo, r: string, f: string, a: string, b: string)
    requires Segment(r) && Segment(f) && r + "__" + f !in info.fields
    requires TextThroughRelation(reg, info, r, f)
    requires Plain(a) && Plain(b)
    ensures var path := r + "__" + f;
      FieldStep(reg, info, FilterMode, Start, path, [a, b])
        == State(Leaf(path, Str(a)), [Leaf(path, Str(b))], Some((path, Str(b))), [r])
  {
    var path := r + "__" + f;
    var t := reg[info.relations[r]].fields[f];
    var st1 := Start.(m2mList := [r]);
    var st2 := State(Leaf(path, Str(a)), [], None, [r]);
    var st3 := State(Leaf(path, Str(a)), [Leaf(path, Str(b))], Some((path, Str(b))), [r]);
    RelationPathStep(reg, info, FilterMode, r, f, [a, b]);
    assert ValueStep(FilterMode, Some(t), path, st1, 0, a) == st2 by {
      PlainFilterStep(t, path, st1, 0, a);
    }
    assert ValueStep(FilterMode, Some(t), path, st2, 1, b) == st3 by {
      PathResolves(reg, info, r, f);
      PlainFilterStep(t, path, st2, 1, b);
    }
    PairValues(FilterMode, Some(t), path, st1, a, b);
  }

  /**
   * `?tags__name=a&tags__name=b`: the first value of a relation path goes
   * into the main tree, a later one into the auxiliary list, so that the two
   * conditions may be met by different related rows.
   */
  lemma RelationValuesGoToAuxiliary(reg: Registry, info: ModelInfo, r: string, f: string, a: string, b: string)
    requires Segment(r) && Segment(f) && r + "__" + f !in info.fields
    requires TextThroughRelation(reg, info, r, f)
    requires Plain(a) && Plain(b)
    ensures var path := r + "__" + f;
      CompileQuery(reg, info, [(path, [a, b])], FilterMode) == [Leaf(path, Str(a)), Leaf(path, Str(b))]
  {
    SingleKey(reg, info, FilterMode, r + "__" + f, [a, b]);
    RelationPair(reg, info, r, f, a, b);
  }

  /**
   * The carried tuple: after the request above, a following `?status=!c`
   * compiles nothing on the filter side, yet the tuple left over from the
   * relation's last value is ANDed into the main tree, so that lookup appears
   * both there and in the auxiliary list.
   */
  lemma CarriedTupleReused(reg: Registry, info: ModelInfo, r: string, f: string, a: string, b: string, key: string, c: string)
    requires Segment(r) && Segment(f) && r + "__" + f !in info.fields
    requires TextThroughRelation(reg, info, r, f)
    requires Plain(a) && Plain(b) && Plain(c)
    requires Segment(key) && key != "offset" && key != "limit"
    ensures var path := r + "__" + f;
      CompileQuery(reg, info, [(path, [a, b]), (key, ["!" + c])], FilterMode)
        == [And(Leaf(path, Str(a)), Leaf(path, Str(b))), Leaf(path, Str(b))]
  {
    var path := r + "__" + f;
    RelationPair(reg, info, r, f, a, b);
    var st3 := State(Leaf(path, Str(a)), [Leaf(path, Str(b))], Some((path, Str(b))), [r]);
    var w := "!" + c;
    var (keyType, keyIsRelation) := ResolveFieldType(reg, info, key);
    var st3' := if keyIsRelation then st3.(m2mList := st3.m2mList + [FirstSegment(key)]) else st3;
    BangFilterStep(keyType, key, st3', c);
    SingleValue(FilterMode, keyType, key, st3', w);
    assert !Reserved(key);
    assert FieldStep(reg, info, FilterMode, st3, key, [w]) == ValueStep(FilterMode, keyType, key, st3', 0, w);
    assert FieldStep(reg, info, FilterMode, st3, key, [w]).query == And(Leaf(path, Str(a)), Leaf(path, Str(b)));
    assert FieldStep(reg, info, FilterMode, st3, key, [w]).additional == [Leaf(path, Str(b))];
    var dict := [(path, [a, b]), (key, [w])];
    assert dict[0] == (path, [a, b]) && dict[1..][0] == (key, [w]) && dict[1..][1..] == [];
    var st4 := FieldStep(reg, info, FilterMode, st3, key, [w]);
    assert FieldsFold(reg, info, FilterMode, st3, dict[1..]) == FieldsFold(reg, info, FilterMode, st4, []);
    assert FieldsFold(reg, info, FilterMode, Start, dict) == st4;
  }

  lemma {:induction false} UntypedParts(field: string, parts: seq<string>)
    ensures PartsFold(None, field, Empty, None, parts) == (Empty, None)
    decreases |parts|
  {
    if parts != [] {
      UntypedParts(field, parts[1..]);
    }
  }

  /**
   * With no tuple carried, the values of a key with no type change nothing.
   * (With a tuple carried, a filter-side `!` value still ANDs it in: see
   * `CarriedTupleReused`.)
   */
  lemma {:induction false} UntypedValues(mode: Mode, field: string, st: State, values: seq<string>, i: nat)
    requires st.queryTuple == None
    ensures ValuesFold(mode, None, field, st, values, i) == st
    decreases |values| - i
  {
    if i < |values| {
      if Contains(values[i], ",") && mode == FilterMode {
        UntypedParts(field, Split(values[i], ","));
      }
      UntypedValues(mode, field, ValueStep(mode, None, field, st, i, values[i]), values, i + 1);
    }
  }

  /**
   * A key whose type does not resolve, met with no tuple carried, leaves the
   * trees as they were, whatever its values; in particular it contributes
   * nothing as the only key of a request.
   */
  lemma UntypedKeyContributesNothing(reg: Registry, info: ModelInfo, st: State, field: string, values: seq<string>, mode: Mode)
    requires ResolveFieldType(reg, info, field).0 == None && st.queryTuple == None
    ensures var st' := FieldStep(reg, info, mode, st, field, values);
      st'.query == st.query && st'.additional == st.additional && st'.queryTuple == None
    ensures CompileQuery(reg, info, [(field, values)], mode) == [Empty]
  {
    SingleKey(reg, info, mode, field, values);
    if !Reserved(field) {
      var isRelation := ResolveFieldType(reg, info, field).1;
      var st0 := if isRelation then Start.(m2mList := Start.m2mList + [FirstSegment(field)]) else Start;
      UntypedValues(mode, field, st0, values, 0);
      var st1 := if isRelation then st.(m2mList := st.m2mList + [FirstSegment(field)]) else st;
      UntypedValues(mode, field, st1, values, 0);
    }
  }

  /**
   * `?project=5`: a bare relation key resolves to no type (it is still
   * recorded as a relation key), so it compiles to nothing.
   */
  lemma BareRelationKeyCompilesNothing(reg: Registry, info: ModelInfo, r: string, values: seq<string>, mode: Mode)
    requires Segment(r) && r in info.fields && IsRelationType(info.fields[r])
    ensures ResolveFieldType(reg, info, r) == (None, true)
    ensures CompileQuery(reg, info, [(r, values)], mode) == [Empty]
  {
    MissingCharNotFound(r, "__", 0);
    UntypedKeyContributesNothing(reg, info, Start, r, values, mode);
  }
}
