# django_wce_api: the generic read API, modelled in Dafny

django_wce_api serves the models of a Django project through one generic
REST API. This project models three parts of it:

- **The filter expression compiler** (`search_helpers.py`). It turns the
  query parameters of a list request into Django `Q` predicate trees.
  `get_query_tuple` is a table-driven wire grammar: the field's type picks a
  table of regular expressions, and the first one that matches the raw value
  decides the lookup suffix and the value. Examples are `abc*` →
  `name__startswith abc`, `>=1900` on a date → `__gte 1900-01-01`, and `_gt3`
  on an array → `__len__gt 3`. `get_field_filters` runs this over every key
  and value. Comma values become ORs, `!`-values feed the exclude side, and
  later values of a relation path go to a list of auxiliary trees.
- **The access policy** (`apply_model_get_restrictions` in `decorators.py`).
  From the model's availability tier, its fields, the requester and the
  query keys, it decides one of three outcomes:
  - refuse the request with a status and a message;
  - call the view with no restriction;
  - call it with a `supplied_filter` that limits the rows the requester may
    read.
- **The list view and its paging, and the write views' bookkeeping**
  (`views.py`):
  - the order in which `get_queryset` narrows the queryset;
  - finding the position of a requested record;
  - the paginator that returns the page holding it;
  - the serializer field list of the write views;
  - the audit fields they stamp.

The Django ORM is replaced by values:
- A model's schema is a map from field name to type name, plus a map from
  relation field to target model.
- A `Q` object is a datatype `Empty | Leaf | And | Or | Not`, with Django's
  rule that `&` and `|` drop an empty operand.
- A queryset is the ordered list of calls made on it.
- A row's membership in a filtered queryset is `Eval` over an abstract row
  type, given what each lookup leaf means for a row.
- Each regular expression of the grammar is an explicit pattern: a literal
  prefix, a non-empty run of one character class, and a literal suffix; or a
  set of words.

Files:
- `wrappers.dfy` (`Option`)
- `strings.dfy`: the Python `str` operations used — `in`, `split`, `join`
  and `replace`.
- `predicates.dfy`: `Q`, its values, and their meaning.
- `search_helpers.dfy`: the grammar, the year-to-date helper and the
  relation walk.
- `field_filters.dfy`: `get_field_filters`.
- `decorators.dfy`: the access policy.
- `views.dfy`: query plan, paging, field merge and audit stamps.

Each loop of the source is a method with its invariants:
- `get_field_filters`' three nested loops;
- the membership loop of the access policy;
- the two auxiliary-list loops of `get_queryset`;
- the serializer field merge.

Each of these methods is proved equal to a fold function. The properties
are lemmas about those functions. The paginator is a class whose method
updates `limit`, `offset` and `count`.

The compiler's `query_tuple` is modelled as written. It is loop state that
survives from one value, and one key, to the next. It is reset only after
being ANDed into the main tree. So a value that the current mode skips
reuses the tuple left by the previous value. `FieldFilters.CarriedTupleReused`
shows a request where, because of this, one lookup lands both in the main
tree and in the auxiliary list.

## Model

| member | source | states |
|---|---|---|
| Strings.JoinSplit | search_helpers.py:58 | joining the pieces of `s.split(sep)` with `sep` gives `s` back |
| Strings.TailAfterFirst | search_helpers.py:58 | the rejoined tail after the first `__` is strictly shorter than the path (so the walk terminates) and splits into exactly the remaining segments |
| Predicates.AndQMeansConjunction | search_helpers.py:197 | `query &= q` means the conjunction, also when either side is `Q()` |
| Predicates.OrQMeansDisjunction | decorators.py:77-78 | `query \|= q` means the disjunction of two non-empty trees; an empty `Q()` operand is dropped instead of making the result hold everywhere |
| Predicates.DisjunctionMeaning | decorators.py:79-81 | a tree of leaves joined by OR holds of a row exactly when one of its leaves does |
| SearchHelpers.ParseYear | search_helpers.py:10 | `strptime(s, '%Y')` succeeds exactly on four digits naming a year 1..9999, and yields that year |
| SearchHelpers.RemoveOperator | search_helpers.py:8 | removing the operator from `op + digits` leaves exactly the digits |
| SearchHelpers.DateValue | search_helpers.py:7-15 | `_get_date_field(op, op + n)` is the date of year `n` (Dec 31 for `<`, `<=`, Jan 1 otherwise), or the digit string when `n` is not a valid year |
| SearchHelpers.GetRelatedModel | search_helpers.py:18-31 | a target exists exactly when the path's first segment is a relation field, and it is that relation's model; a path without `__` looks up the whole name |
| SearchHelpers.GetRelatedFieldType | search_helpers.py:34-60 | a one-segment path gives None; the result is never ForeignKey or ManyToManyField; through `User` only `id` (AutoField) resolves |
| SearchHelpers.RelatedFieldTypeWalksPath | search_helpers.py:44-60 | the string recursion equals a walk over the segment list: relation, field of its target, and recursion from the target on a relation |
| SearchHelpers.Match | search_helpers.py:128 | a match of `^pre(c+)suf$` means the value is prefix + a non-empty run of class `c` + suffix, and the run is the captured group |
| SearchHelpers.MatchRun | search_helpers.py:128 | conversely, every prefix + non-empty run + suffix is matched, capturing the run |
| SearchHelpers.FirstMatch | search_helpers.py:127-128 | the entry chosen matches and no earlier entry does; no result means no entry matches |
| SearchHelpers.FirstMatchIsUnique | search_helpers.py:127-137 | an entry that matches after non-matching entries is the one chosen |
| SearchHelpers.GetQueryTuple | search_helpers.py:63-140 | an unresolved type yields no leaf; every leaf's key starts with the field name |
| SearchHelpers.Apply | search_helpers.py:129-137 | the leaf built by a matching entry has key `field + suffix` |
| SearchHelpers.DateRulesNamed | search_helpers.py:99-104 | every date entry names a non-empty operator |
| SearchHelpers.Fallback | search_helpers.py:138-140 | with no matching entry, the leaf is `(field, value)` exactly when value, field and type are non-empty, and none otherwise |
| SearchHelpers.TextRulesTable | search_helpers.py:75-92 | the text table's entries are, in order, the seven marked forms with their lookups |
| SearchHelpers.MarksDetermined | search_helpers.py:75-92 | the marks around a run free of `*` and `\|` can be read back off the written value |
| SearchHelpers.MarksInjective | search_helpers.py:75-92 | no two forms share both their leading and their trailing mark |
| SearchHelpers.TextOnlyOwnRuleMatches | search_helpers.py:75-92 | a value written in one form is matched by that form's entry and by no other |
| SearchHelpers.TextIndex | search_helpers.py:75-92 | each form has an entry in the text table |
| SearchHelpers.TextIndexInverse | search_helpers.py:75-92 | the entry of the form of entry `j` is `j` |
| SearchHelpers.TextGrammar | search_helpers.py:111-119 | on Char/Text/JSON fields `v*`, `v*\|i`, `*v`, `*v\|i`, `*v*`, `*v*\|i`, `v\|i` compile to the matching lookup with value `v` |
| SearchHelpers.TextGrammarOnly | search_helpers.py:127-140 | conversely, a text leaf is the exact lookup of the whole value or one of the seven forms, whose value never holds `*` or `\|`; an empty value gives no leaf |
| SearchHelpers.TextUnmarked | search_helpers.py:138-139 | a non-empty value without `*` or `\|` is the exact lookup of the whole value |
| SearchHelpers.ComparisonIndex | search_helpers.py:93-98 | each comparison has an entry in the integer and date tables |
| SearchHelpers.ComparisonRulesTable | search_helpers.py:93-104 | the integer and date tables hold, in order, the entries for `>`, `>=`, `<`, `<=` |
| SearchHelpers.ComparisonOnlyOwnRuleMatches | search_helpers.py:93-98 | `op + digits` is matched by the entry for `op` only (`>` never swallows `>=`) |
| SearchHelpers.ComparisonFirstMatch | search_helpers.py:93-104 | the first matching comparison entry is the one for the written operator, capturing the digits |
| SearchHelpers.IntegerGrammar | search_helpers.py:93-98 | `>n`, `>=n`, `<n`, `<=n` on an integer field give `__gt`, `__gte`, `__lt`, `__lte` with the digit string |
| SearchHelpers.DateGrammar | search_helpers.py:99-104 | the same operators on a date field compare with Jan 1 of year `n` (Dec 31 for `<`, `<=`), or the digit string when `n` is no valid year |
| SearchHelpers.BooleanGrammar | search_helpers.py:106-107 | `true`/`True` → true, `false`/`False` → false (null on a nullable boolean), key unchanged; any other value is the plain exact lookup |
| SearchHelpers.BooleanTables | search_helpers.py:106-107 | the two boolean tables share their `true` entry and differ in the value for `false` |
| SearchHelpers.ArrayLengthGrammar | search_helpers.py:105 | `_eq<digits>` on an array field gives `__len` with the digits |
| SearchHelpers.ArrayLongerGrammar | search_helpers.py:105 | `_gt<digits>` gives `__len__gt` with the digits |
| SearchHelpers.ArrayContainsGrammar | search_helpers.py:134-135 | any other non-empty one-line value gives `__contains` with the one-element list `[value]` |
| SearchHelpers.CaptureLookup | search_helpers.py:134-137 | a capturing entry gives `[value]` on an array containment and the captured group otherwise |
| SearchHelpers.LengthRuleOnly | search_helpers.py:105 | the length entries match only `_eq`/`_gt` followed by digits |
| SearchHelpers.NoLengthInContains | search_helpers.py:134 | the `__contains` lookup does not contain `__len`, so array containment wraps the value in a list |
| FieldFilters.ResolveFieldType | search_helpers.py:165-173 | a declared non-relation key filters on its own type, and an undeclared `a__b` key on the type of `a`; any other undeclared key has no type; a relation key (itself or its first segment a relation) takes the type found by walking its path segments, and a resolved type is never a relation |
| FieldFilters.GetFieldFilters | search_helpers.py:143-204 | the nested loops compute the fold over keys, values and comma parts; the result is never empty |
| FieldFilters.CompileValues | search_helpers.py:177-200 | the loop over one key's values computes the fold over them, in order |
| FieldFilters.CompileValue | search_helpers.py:179-200 | one value: comma value (filter side only), skipped empty value, or compiled single value placed in the main tree or the auxiliary list |
| FieldFilters.CompileParts | search_helpers.py:181-188 | the loop over comma parts ORs the compiled non-empty parts; the carried tuple is reset after each compiled part |
| FieldFilters.Unreserved | search_helpers.py:164 | keeps exactly the keys other than `offset`, `limit` and `_`-prefixed ones |
| FieldFilters.ReservedKeysIgnored | search_helpers.py:164 | reserved keys contribute nothing wherever they appear in the request |
| FieldFilters.FieldFiltersShape | search_helpers.py:175-200 | no tree ever holds a negation; the exclude side never builds an OR; every auxiliary tree is a single leaf |
| FieldFilters.PartsFoldOrOfLeaves | search_helpers.py:181-188 | the OR of comma parts is `Q()` or a disjunction of leaves |
| FieldFilters.ValueStepShaped | search_helpers.py:179-200 | one value keeps the trees negation-free, the exclude side OR-free and the auxiliary trees single leaves |
| FieldFilters.ValuesFoldShaped | search_helpers.py:177-200 | so does the loop over a key's values |
| FieldFilters.FieldsFoldShaped | search_helpers.py:159-200 | and the loop over the keys |
| FieldFilters.FieldFiltersLeavesCompiled | search_helpers.py:143-204 | every leaf returned is what `get_query_tuple` made of some string for one of the request's non-reserved keys, with that key's resolved type |
| FieldFilters.PartsFoldFrom | search_helpers.py:181-188 | comma parts add only leaves compiled for the key, and leave the carried tuple or such a leaf behind |
| FieldFilters.PlaceSourced | search_helpers.py:196-200 | placing a compiled tuple in the main tree or the auxiliary list adds only that leaf |
| FieldFilters.CommaStepSourced | search_helpers.py:179-188 | a comma value adds only leaves compiled for its key |
| FieldFilters.SingleTupleSourced | search_helpers.py:191-195 | a single value's tuple is compiled for its key, or is the carried one |
| FieldFilters.ValueStepSourced | search_helpers.py:179-200 | one value adds only leaves compiled for the request's keys |
| FieldFilters.ValuesFoldSourced | search_helpers.py:177-200 | so does the loop over a key's values |
| FieldFilters.FieldsFoldSourced | search_helpers.py:159-200 | and the loop over the keys |
| FieldFilters.SingleKey | search_helpers.py:159-204 | a one-key request is that key's step from the initial state |
| FieldFilters.SingleValue | search_helpers.py:177 | a one-value list is that value's step |
| FieldFilters.PairValues | search_helpers.py:177 | a two-value list is the two steps in order, at positions 0 and 1 |
| FieldFilters.FieldStepOf | search_helpers.py:164-177 | a non-reserved key records a relation key, then folds its values with its resolved type |
| FieldFilters.CommaValueIsDisjunction | search_helpers.py:179-188 | `?status=a,b` filters on `status = a OR status = b` |
| FieldFilters.CommaValueNotExcluded | search_helpers.py:179-180 | on the exclude side a comma value adds nothing |
| FieldFilters.BangValueIsExclusion | search_helpers.py:192-195 | `?status=!v` excludes `status = v` and adds nothing on the filter side |
| FieldFilters.PathResolves | search_helpers.py:165-173 | a `relation__field` key resolves to the related text field's type and counts as a relation key |
| FieldFilters.PlainCompiles | search_helpers.py:138-139 | a plain text value is the exact lookup of the whole value |
| FieldFilters.PlainFilterStep | search_helpers.py:194-200 | a plain value on the filter side is ANDed into the main tree, or added to the auxiliary list for a later value of a relation key |
| FieldFilters.BangFilterStep | search_helpers.py:192-198 | a `!` value on the filter side compiles nothing and ANDs in the carried tuple, if there is one |
| FieldFilters.UnderscoreNotReserved | search_helpers.py:164 | a key with `_` after its first character is not reserved |
| FieldFilters.RelationPathStep | search_helpers.py:171-177 | a relation path key records its first segment and folds its values with the related field's type |
| FieldFilters.RelationPair | search_helpers.py:196-200 | `?r__f=a&r__f=b`: `a` in the main tree, `b` in the auxiliary list, and `b`'s tuple still carried |
| FieldFilters.RelationValuesGoToAuxiliary | search_helpers.py:196-204 | that request returns `[r__f = a, r__f = b]`, so the two conditions may be met by different related rows |
| FieldFilters.CarriedTupleReused | search_helpers.py:192-200 | a following filter-side `!c` compiles nothing, yet ANDs the carried `r__f = b` into the main tree, which then also holds the auxiliary lookup |
| FieldFilters.UntypedParts | search_helpers.py:181-187 | comma parts of a key with no type compile to nothing |
| FieldFilters.UntypedValues | search_helpers.py:177-200 | when no tuple is carried, the values of a key with no type leave the whole state unchanged |
| FieldFilters.UntypedKeyContributesNothing | search_helpers.py:138-140 | a key whose type does not resolve, met with no tuple carried, leaves the trees as they were, and as the only key of a request it gives `[Q()]` |
| FieldFilters.BareRelationKeyCompilesNothing | search_helpers.py:171-173 | `?project=5` resolves to no type although it is recorded as a relation key, and compiles to nothing |
| Decorators.UserTuple | decorators.py:80 | `get_query_tuple` on the user object gives `(field, requester)` or fails |
| Decorators.AccumulateMembership | decorators.py:79-81 | the `query \|= ...` loop over the user fields computes the membership fold, failing when one field's tuple fails |
| Decorators.Decide | decorators.py:13-202 | refusals only ever carry 400, 401, 404 or 500; an unrestricted call needs an existing item and an open tier (`public`, `logged_in`) or a superuser; an anonymous requester never raises and, outside `public`, only reaches rows filtered to `public=True` |
| Decorators.Wrap | decorators.py:13-202 | the tier dispatch returns exactly the decision table's outcome |
| Decorators.MembershipRaisesUnlessComparable | decorators.py:79-81 | the membership loop raises exactly when some user field has an option table, an empty name or an empty type |
| Decorators.MembershipMeaning | decorators.py:77-83 | the loop builds a disjunction of leaves that holds exactly when the start filter does or the row's project lists the requester in some user field |
| Decorators.ShiftInProject | decorators.py:79-81 | some user field lists the requester exactly when the first or one of the rest does |
| Decorators.MembershipShape | decorators.py:77-83 | the membership filter stays a disjunction of leaves, each `public = True` or naming the requester |
| Decorators.MissingItemFirst | decorators.py:16-21 | a named item that does not exist gives 404 "Item does not exist", whatever the tier or requester |
| Decorators.DefaultIsPrivate | decorators.py:26-33 | a missing or None availability behaves exactly as `private` |
| Decorators.UnknownTier | decorators.py:198-202 | any availability outside the seven names gives 500 code 10005 |
| Decorators.OpenTiers | decorators.py:35-43 | `public` calls the view unrestricted; `logged_in` does so when authenticated and gives 401 otherwise |
| Decorators.PublicOrProjectTier | decorators.py:45-84 | a missing `public` or `project` field is 10002, before authentication; anonymous or no project key sees public rows; a superuser sees all; otherwise the view is called exactly when the app has a Project model whose user fields all compare with a user, and a row is shown when public or its project lists the requester |
| Decorators.ProjectTiersOrder | decorators.py:86-143 | in `project` and `project_or_user`: anonymous 401, then no `project` field 10003, then no project key 400 even for a superuser, then a superuser sees all |
| Decorators.ProjectTierFilter | decorators.py:107-125 | the `project` filter starts from `Q()`: no user fields means no restriction; it is supplied exactly when every user field is comparable, and admits a row exactly when its project lists the requester |
| Decorators.ProjectOrUserFilter | decorators.py:127-156 | the `project_or_user` view is called exactly when the app has a Project model whose user fields all compare with a user, and its filter admits a row owned by the requester or whose project lists the requester |
| Decorators.OwnerTiers | decorators.py:158-196 | `public_or_user`: 10004 without `public`, anonymous sees public rows, superuser all, others public or own rows; `private`: 401, all, or own rows |
| Decorators.AnonymousSeesOnlyPublic | decorators.py:26-202 | an anonymous requester reads unrestricted only on `public`, is otherwise limited to `public = True` or refused, and never makes the policy raise |
| Decorators.SuppliedFilterShape | decorators.py:45-196 | every supplied filter is a negation-free disjunction of leaves, each `public = True` or naming the requester |
| Views.StepsAt | views.py:127-132 | the `i`-th call of each auxiliary chain applies the `i`-th list entry |
| Views.GetQueryset | views.py:107-143 | the calls made are the query plan of the supplied filter and the two compiled lists |
| Views.ChainSteps | views.py:117-142 | supplied filter, `exclude(E[0])`, `filter(F[0])`, `distinct()`, further filters, further excludes, then `order_by` on the `_sort` keys |
| Views.ApplyFilters | views.py:127-129 | each further filter entry is applied with `filter`, in order |
| Views.ApplyExcludes | views.py:130-132 | each further exclude entry is applied with `exclude`, in order |
| Views.QueryPlanMeaning | views.py:117-132 | a row is listed exactly when the supplied filter admits it, every filter entry admits it and no non-empty exclude entry holds of it |
| Views.KeptFilters | views.py:127-129 | the filter chain keeps a row exactly when every entry admits it |
| Views.KeptExcludes | views.py:130-132 | the exclude chain keeps a row exactly when no non-empty entry holds of it |
| Views.NoParametersKeepsAll | views.py:122-126 | with no filterable parameter and no access filter, every row is listed |
| Views.ParseInt | views.py:155 | `int(s)` succeeds exactly on ASCII digits with an optional `+`/`-` sign, and yields their decimal value with that sign; any other text fails |
| Views.ParseIntText | views.py:155 | `int(str(n)) == n` |
| Views.FirstIndex | views.py:155 | `list.index(v)` gives the first position holding `v`, and fails exactly when `v` is absent |
| Views.OffsetRequired | views.py:152-158 | the position of the first row whose id is `int(item_id)`, or 0 when `item_id` is no integer or no row has it |
| Views.JumpOffset | views.py:59-61 | the page offset is a multiple of the limit and `offset <= index < offset + limit` |
| Views.JumpOffsetUnique | views.py:59-61 | it is the only such multiple |
| Views.PageOf | views.py:67-70 | `[]` exactly when the set is empty or the offset is past its end; otherwise the rows from the offset on, in order, exactly `limit` of them when enough remain and all that remain otherwise |
| Views.JumpPageHoldsTarget | views.py:59-70 | the page chosen for a position holds the row at that position |
| Views.ShowRecordPage | views.py:186-188 | `_show=<id>` of a listed row returns a page holding that row |
| Views.SelectPagePaginator.PaginateQuerysetAndGetPage | views.py:49-70 | no limit: None with offset and count untouched; otherwise count is the set's size, the offset is the request's or the jump offset, and the page is that offset's page |
| Views.MergeFields | views.py:313-317 | the loop computes `REQUIRED_FIELDS` followed by each new data key in order |
| Views.MergedFields | views.py:396-400 | the merged list starts with the required fields, holds exactly the required fields and the data keys, and what it appends has no repeat and no required field |
| Views.AuditIdentity | views.py:341-347 | the identity is the username or one of the user's attribute values, and is never empty when the username is not |
| Views.AuditIdentityChoice | views.py:341-347 | the identity is the `USER_IDENTIFIER_FIELD` attribute exactly when that setting is set and the attribute is present and non-empty, and the username in every other case |
| Views.Stamp | views.py:412-419 | stamping (`created_*` on create, `last_modified_*` on update) sets the time key to now and the user key to the identity, adds no other key and changes no other value |
| Views.StampUpdate | views.py:331-356 | an update never drops a submitted key and never changes a submitted value other than the two `last_modified_*` stamps |
| Views.UpdateStamping | views.py:331-356 | a full update that resubmits the stored item is not stamped; a partial or changed update is |

## Left out

- ORM execution is not modelled: `objects.get`, `select_related`/`prefetch_related`, and the join semantics of `filter`, `exclude` and `distinct` on multi-valued relations. A queryset is its list of calls, and a row's fate is `Eval` over an abstract row.
- `apps.get_model` (decorators.py:14, views.py:109) and the `importlib` serializer loading are left out. The target model, the registry and the apps' Project user fields are inputs. A failed Project lookup is the `Raises` outcome. The `PROJECT_APP` fallback of the `project` tier is modelled, as a second lookup.
- Whether a named item exists (decorators.py:17-21) is an input.
- The requester's group membership is a set of group names.
- Regular expressions: `$` also matches before a trailing newline; the model treats it as end of string. `\d` is ASCII digits only.
- Python's `int()` also accepts surrounding whitespace, `_` between digits and non-ASCII Unicode decimal digits. `ParseInt` only takes an optional sign followed by ASCII digits.
- `SearchHelpers.GetRelatedFieldType` assumes that the registry holds every relation target other than `User`. A relation to any other model resolves to no type here, so the key compiles to nothing. The source instead raises `AttributeError` at `related_model.get_fields()` (search_helpers.py:52) for a model without that classmethod. The `FieldDoesNotExist` that `_meta.get_field` raises (search_helpers.py:31) is not modelled either: a first segment that is not a relation field gives no target.
- `Views.AuditIdentity` takes `USER_IDENTIFIER_FIELD` as an optional input. A settings module that does not define it makes the source raise `AttributeError` (views.py:341); that case is not modelled. `None` stands for a setting whose value is `None`.
- `Views.Stamp` and `Views.MergeFields` work on values. The source writes the stamps into `request.data` in place (views.py:340-347, 412-419), and `get_serializer` then lists that same dictionary's keys (views.py:314, 397), so the stamp keys join the serializer's field list. The model returns a new map, and `MergeFields` takes the data keys as a separate input, so that aliasing is not captured.
- `strptime('%Y')` is modelled as exactly four digits naming a year from 1 to 9999. The values `Date` carries are a year, month and day triple.
- Non-string values passed to `get_query_tuple` by the access policy (the user object) are modelled by `Decorators.UserTuple`: a type with an option table raises, and the fallback gives `(field, requester)`.
- `print` warnings (decorators.py:101-102, search_helpers.py:160-163) are left out.
- `FieldFilters.GetFieldFilters` and `Views.GetQueryset` require non-empty keys, because `field[0]` raises on an empty key.
- HTTP and DRF plumbing is left out: JSON responses, `_get_etag`, `get_user`, `get`/`list`/`retrieve`, `ItemDetail`, `ItemDelete`, `perform_create`/`perform_update`, and serializer validation. DRF's `get_limit`/`get_offset` parsing is not modelled; their results are parameters.
- `Views.SelectPagePaginator.PaginateQuerysetAndGetPage` does not model `self.request`, `display_page_controls` or the template check (views.py:63-65).
- `int(index_required / self.limit)` is float division in the source. It is modelled as integer division on naturals, so very large positions, where the float rounds, are not modelled.
- `_sort` and `_fields` are parameters. The `fields` override of `get_queryset` (views.py:134-138) only writes the view's kwargs and is left out.
- `Views.UpdateStamping`: the JSON `dumps` comparison of the stored and submitted item is modelled as equality of the two data maps. The `KeyError` on a missing `data['id']` is not modelled.
- `datetime.now()` is a parameter. User attributes are modelled as strings.
- The M2M unlink view stamps `last_modified_*` on the instance the same way (views.py:472-479). The unlink itself and `save()` are not modelled.
- serializers.py, urls.py and models.py are framework declarations; they are not part of this model.
