/**
 * `apply_model_get_restrictions`: before a read view runs, decide from the
 * model's availability tier, its fields, the requester and the query keys
 * whether to refuse the request, call the view unrestricted, or call it with
 * a `supplied_filter` that limits the rows the requester may read.
 */
module Decorators {
  import opened Wrappers
  import opened Predicates
  import opened SearchHelpers

  /** `request.user`: anonymous, or logged in with an id and the names of the groups it belongs to. */
  datatype Requester = Anonymous | Authenticated(id: UserId, groups: set<string>)

  /** Whether the URL names an item (`pk`) and, if so, whether that item exists. */
  datatype ItemLookup = NoPk | Found | NotFound

  datatype Request = Request(app: string, item: ItemLookup, user: Requester, queryKeys: set<string>)

  /**
   * The model the URL names: its `AVAILABILITY` (`None` when the attribute
   * is absent or `None`), the names of its fields, and its `PROJECT_APP`.
   */
  datatype Target = Target(availability: Option<string>, fields: set<string>, projectApp: Option<string>)

  /** For each app that has a `Project` model, its `get_user_fields()`: field name and type name, in order. */
  type Projects = map<string, seq<(string, string)>>

  /** A JSON error response, a call of the wrapped view (with or without `supplied_filter`), or an exception. */
  datatype Outcome = Deny(status: nat, message: string) | CallView(supplied: Option<Q>) | Raises

  const ItemMissing := "Item does not exist"
  const AuthenticationRequired := "Authentication required"
  const ProjectRequired := "Query not complete - Project must be specified"
  const Code10002 := "Internal server error - model configuation incompatible with API (code 10002)"
  const Code10003 := "Internal server error - model configuation incompatible with API (code 10003)"
  const Code10004 := "Internal server error - model configuation incompatible with API (code 10004)"
  const Code10005 := "Internal server error - model availability incompatible with API (code 10005)"

  const PublicOnly := Leaf("public", Bool(true))

  function OwnerOnly(id: UserId): Q { Leaf("user", Requester(id)) }

  /** Member of the group `<app>_superusers`. */
  predicate IsSuperuser(req: Request)
  {
    req.user.Authenticated? && req.app + "_superusers" in req.user.groups
  }

  /** The query names a project: `project__id` or `project` is one of its keys. */
  predicate HasSelector(req: Request)
  {
    "project__id" in req.queryKeys || "project" in req.queryKeys
  }

  /**
   * `get_query_tuple(field_type, field, request.user)`: a type with an option
   * table tries its patterns on the user object, which raises (`None` here);
   * otherwise the fallback gives `(field, user)` when the field and the type
   * are non-empty, and `None`, whose subscript then raises.
   */
  function UserTuple(fieldType: string, field: string, id: UserId): (r: Option<Lookup>)
    ensures r.Some? ==> r.value == (field, Requester(id))
  {
    if OperatorLookup(Some(fieldType)) == [] && field != "" && fieldType != "" then Some((field, Requester(id)))
    else None
  }

  /** The `project__<field> = requester` leaves ORed onto `start`, one per user field; `None` when one raises. */
  function Membership(start: Q, userFields: seq<(string, string)>, id: UserId): Option<Q>
    decreases |userFields|
  {
    if userFields == [] then Some(start)
    else
      match UserTuple(userFields[0].1, userFields[0].0, id)
      case None => None
      case Some(t) => Membership(OrQ(start, Leaf("project__" + t.0, t.1)), userFields[1..], id)
  }

  function WithFilter(q: Option<Q>): Outcome
  {
    match q
    case None => Raises
    case Some(f) => CallView(Some(f))
  }

  /** `apps.get_model(app, 'Project')`, falling back on the target's `PROJECT_APP`; `None` when both fail. */
  function ProjectUserFields(req: Request, target: Target, projects: Projects): Option<seq<(string, string)>>
  {
    if req.app in projects then Some(projects[req.app])
    else if target.projectApp.Some? && target.projectApp.value in projects then Some(projects[target.projectApp.value])
    else None
  }

  /** The tier in force: a missing or `None` availability is `private`. */
  function Tier(target: Target): string
  {
    if target.availability.Some? then target.availability.value else "private"
  }

  /**
   * The decision of `wrap`, branch by branch in the order the source tests
   * them. Whatever the tier: refusals use only the statuses 400, 401, 404 and
   * 500; an unrestricted call happens only for an existing item of an open
   * tier or for a superuser; and an anonymous requester is never let through
   * a restricted tier except to rows marked public.
   */
  function Decide(req: Request, target: Target, projects: Projects): (outcome: Outcome)
    ensures outcome.Deny? ==> outcome.status in {400, 401, 404, 500}
    ensures outcome == CallView(None) ==>
      req.item != NotFound && (Tier(target) in {"public", "logged_in"} || IsSuperuser(req))
    ensures req.user.Anonymous? && outcome.CallView? && Tier(target) != "public" ==> outcome.supplied == Some(PublicOnly)
    ensures req.user.Anonymous? ==> !outcome.Raises?
  {
    var tier := Tier(target);
    if req.item == NotFound then Deny(404, ItemMissing)
    else if tier == "public" then CallView(None)
    else if tier == "logged_in" then
      if req.user.Authenticated? then CallView(None) else Deny(401, AuthenticationRequired)
    else if tier == "public_or_project" then
      if "public" !in target.fields || "project" !in target.fields then Deny(500, Code10002)
      else if req.user.Anonymous? then CallView(Some(PublicOnly))
      else if IsSuperuser(req) then CallView(None)
      else if !HasSelector(req) then CallView(Some(PublicOnly))
      else if req.app !in projects then Raises
      else WithFilter(Membership(OrQ(Empty, PublicOnly), projects[req.app], req.user.id))
    else if tier == "project" then
      if req.user.Anonymous? then Deny(401, AuthenticationRequired)
      else if "project" !in target.fields then Deny(500, Code10003)
      else if !HasSelector(req) then Deny(400, ProjectRequired)
      else if IsSuperuser(req) then CallView(None)
      else
        match ProjectUserFields(req, target, projects)
        case None => Raises
        case Some(userFields) => WithFilter(Membership(Empty, userFields, req.user.id))
    else if tier == "project_or_user" then
      if req.user.Anonymous? then Deny(401, AuthenticationRequired)
      else if "project" !in target.fields then Deny(500, Code10003)
      else if !HasSelector(req) then Deny(400, ProjectRequired)
      else if IsSuperuser(req) then CallView(None)
      else if req.app !in projects then Raises
      else WithFilter(Membership(OwnerOnly(req.user.id), projects[req.app], req.user.id))
    else if tier == "public_or_user" then
      if "public" !in target.fields then Deny(500, Code10004)
      else if req.user.Anonymous? then CallView(Some(PublicOnly))
      else if IsSuperuser(req) then CallView(None)
      else CallView(Some(OrQ(OrQ(Empty, PublicOnly), OwnerOnly(req.user.id))))
    else if tier == "private" then
      if req.user.Anonymous? then Deny(401, AuthenticationRequired)
      else if IsSuperuser(req) then CallView(None)
      else CallView(Some(OwnerOnly(req.user.id)))
    else Deny(500, Code10005)
  }

  /** The `query |= Q(('project__%s' % ...))` loop over the user fields. */
  method AccumulateMembership(start: Q, userFields: seq<(string, string)>, id: UserId) returns (r: Option<Q>)
    ensures r == Membership(start, userFields, id)
  {
    var query := start;
    var i := 0;
    while i < |userFields|
      invariant 0 <= i <= |userFields|
      invariant Membership(query, userFields[i..], id) == Membership(start, userFields, id)
    {
      assert userFields[i..][1..] == userFields[i + 1..];
      var field, fieldType := userFields[i].0, userFields[i].1;
      var queryTuple := UserTuple(fieldType, field, id);
      if queryTuple.None? {
        return None;
      }
      query := OrQ(query, Leaf("project__" + queryTuple.value.0, queryTuple.value.1));
      i := i + 1;
    }
    return Some(query);
  }

  /** `wrap(request, ...)`: the tier dispatch, with the membership filters built by the loop above. */
  method Wrap(req: Request, target: Target, projects: Projects) returns (outcome: Outcome)
    ensures outcome == Decide(req, target, projects)
  {
    if req.item == NotFound {
      return Deny(404, ItemMissing);
    }
    var availability := if target.availability.Some? then target.availability.value else "private";
    if availability == "public" {
      outcome := CallView(None);
    } else if availability == "logged_in" {
      outcome := if req.user.Authenticated? then CallView(None) else Deny(401, AuthenticationRequired);
    } else if availability == "public_or_project" {
      if "public" !in target.fields || "project" !in target.fields {
        return Deny(500, Code10002);
      }
      if req.user.Anonymous? {
        return CallView(Some(PublicOnly));
      }
      if IsSuperuser(req) {
        return CallView(None);
      }
      if !HasSelector(req) {
        return CallView(Some(PublicOnly));
      }
      if req.app !in projects {
        return Raises;
      }
      var query := Empty;
      query := OrQ(query, PublicOnly);
      var filter := AccumulateMembership(query, projects[req.app], req.user.id);
      outcome := WithFilter(filter);
    } else if availability == "project" {
      if req.user.Anonymous? {
        return Deny(401, AuthenticationRequired);
      }
      if "project" !in target.fields {
        return Deny(500, Code10003);
      }
      if !HasSelector(req) {
        return Deny(400, ProjectRequired);
      }
      if IsSuperuser(req) {
        return CallView(None);
      }
      var userFields := ProjectUserFields(req, target, projects);
      if userFields.None? {
        return Raises;
      }
      var filter := AccumulateMembership(Empty, userFields.value, req.user.id);
      outcome := WithFilter(filter);
    } else if availability == "project_or_user" {
      if req.user.Anonymous? {
        return Deny(401, AuthenticationRequired);
      }
      if "project" !in target.fields {
        return Deny(500, Code10003);
      }
      if !HasSelector(req) {
        return Deny(400, ProjectRequired);
      }
      if IsSuperuser(req) {
        return CallView(None);
      }
      if req.app !in projects {
        return Raises;
      }
      var filter := AccumulateMembership(OwnerOnly(req.user.id), projects[req.app], req.user.id);
      outcome := WithFilter(filter);
    } else if availability == "public_or_user" {
      if "public" !in target.fields {
        return Deny(500, Code10004);
      }
      if req.user.Anonymous? {
        return CallView(Some(PublicOnly));
      }
      if IsSuperuser(req) {
        return CallView(None);
      }
      var query := Empty;
      query := OrQ(query, PublicOnly);
      query := OrQ(query, OwnerOnly(req.user.id));
      outcome := CallView(Some(query));
    } else if availability == "private" {
      if req.user.Anonymous? {
        return Deny(401, AuthenticationRequired);
      }
      if IsSuperuser(req) {
        return CallView(None);
      }
      outcome := CallView(Some(OwnerOnly(req.user.id)));
    } else {
      outcome := Deny(500, Code10005);
    }
  }

  // ---------------------------------------------------------------------------
  // The membership filter

  /** A user field `get_query_tuple` accepts a user object for: no option table, non-empty name and type. */
  predicate UserComparable(userField: (string, string))
  {
    userField.0 != "" && userField.1 != "" && OperatorLookup(Some(userField.1)) == []
  }

  /** The membership loop raises exactly when some user field is not comparable with a user. */
  lemma {:induction false} MembershipRaisesUnlessComparable(start: Q, userFields: seq<(string, string)>, id: UserId)
    ensures Membership(start, userFields, id).Some? <==> forall k :: 0 <= k < |userFields| ==> UserComparable(userFields[k])
    decreases |userFields|
  {
    if userFields != [] {
      var t := UserTuple(userFields[0].1, userFields[0].0, id);
      if t.Some? {
        MembershipRaisesUnlessComparable(OrQ(start, Leaf("project__" + t.value.0, t.value.1)), userFields[1..], id);
        forall k | 0 <= k < |userFields[1..]| ensures userFields[1..][k] == userFields[k + 1] { }
      }
    }
  }

  /** The row's project lists the requester in user field number `k`. */
  predicate InProject<R>(row: R, sat: (R, string, Value) -> bool, userFields: seq<(string, string)>, id: UserId, k: int)
  {
    0 <= k < |userFields| && sat(row, "project__" + userFields[k].0, Requester(id))
  }

  /**
   * What the loop builds from a disjunction `start`: a disjunction of leaves
   * that holds of a row exactly when `start` does or the row's project lists
   * the requester in one of the user fields.
   */
  lemma {:induction false} MembershipMeaning<R>(start: Q, userFields: seq<(string, string)>, id: UserId,
                                                 row: R, sat: (R, string, Value) -> bool)
    requires LeafDisjunction(start) && Membership(start, userFields, id).Some?
    ensures var q := Membership(start, userFields, id).value;
      && LeafDisjunction(q)
      && (Eval(q, row, sat) <==> Eval(start, row, sat) || exists k :: InProject(row, sat, userFields, id, k))
    decreases |userFields|
  {
    if userFields == [] {
      assert !exists k :: InProject(row, sat, userFields, id, k);
    } else {
      var leaf := Leaf("project__" + userFields[0].0, Requester(id));
      assert UserTuple(userFields[0].1, userFields[0].0, id) == Some((userFields[0].0, Requester(id)));
      var next := OrQ(start, leaf);
      assert next == Or(start, leaf);
      MembershipMeaning(next, userFields[1..], id, row, sat);
      assert Eval(next, row, sat) <==> Eval(start, row, sat) || InProject(row, sat, userFields, id, 0);
      ShiftInProject(row, sat, userFields, id);
    }
  }

  /** Some user field lists the requester: the first one, or one of the rest. */
  lemma ShiftInProject<R>(row: R, sat: (R, string, Value) -> bool, userFields: seq<(string, string)>, id: UserId)
    requires userFields != []
    ensures (exists k :: InProject(row, sat, userFields, id, k))
        <==> InProject(row, sat, userFields, id, 0) || exists k :: InProject(row, sat, userFields[1..], id, k)
  {
    if exists k :: InProject(row, sat, userFields[1..], id, k) {
      var k :| InProject(row, sat, userFields[1..], id, k);
      assert InProject(row, sat, userFields, id, k + 1);
    }
    if exists k :: InProject(row, sat, userFields, id, k) {
      var k :| InProject(row, sat, userFields, id, k);
      if k > 0 {
        assert InProject(row, sat, userFields[1..], id, k - 1);
      }
    }
  }

  // ---------------------------------------------------------------------------
  // The decision table

  /** A missing or `None` availability is treated exactly as `private`. */
  lemma DefaultIsPrivate(req: Request, target: Target, projects: Projects)
    requires target.availability.None?
    ensures Decide(req, target, projects) == Decide(req, target.(availability := Some("private")), projects)
    ensures req.item != NotFound && req.user.Anonymous? ==> Decide(req, target, projects) == Deny(401, AuthenticationRequired)
  {
  }

  /** A named item that does not exist is answered 404 whatever the tier, the requester or the query. */
  lemma MissingItemFirst(req: Request, target: Target, projects: Projects)
    requires req.item == NotFound
    ensures Decide(req, target, projects) == Deny(404, ItemMissing)
  {
  }

  /** An availability outside the seven tiers is a server error 10005. */
  lemma UnknownTier(req: Request, target: Target, projects: Projects)
    requires req.item != NotFound
    requires Tier(target) !in {"public", "logged_in", "public_or_project", "project", "project_or_user", "public_or_user", "private"}
    ensures Decide(req, target, projects) == Deny(500, Code10005)
  {
  }

  /** `public` calls the view unrestricted; `logged_in` does so for an authenticated requester and answers 401 otherwise. */
  lemma OpenTiers(req: Request, target: Target, projects: Projects)
    requires req.item != NotFound
    ensures Tier(target) == "public" ==> Decide(req, target, projects) == CallView(None)
    ensures Tier(target) == "logged_in" ==>
      Decide(req, target, projects) == if req.user.Anonymous? then Deny(401, AuthenticationRequired) else CallView(None)
  {
  }

  /**
   * `public_or_project`: both a `public` and a `project` field are required
   * (10002, before anything about the requester); an anonymous requester or
   * a query without a project key sees the public rows; a superuser sees
   * everything; otherwise the filter admits a row when it is public or its
   * project lists the requester.
   */
  lemma PublicOrProjectTier<R>(req: Request, target: Target, projects: Projects, row: R, sat: (R, string, Value) -> bool)
    requires req.item != NotFound && Tier(target) == "public_or_project"
    ensures "public" !in target.fields || "project" !in target.fields ==> Decide(req, target, projects) == Deny(500, Code10002)
    ensures "public" in target.fields && "project" in target.fields ==>
      && (req.user.Anonymous? ==> Decide(req, target, projects) == CallView(Some(PublicOnly)))
      && (IsSuperuser(req) ==> Decide(req, target, projects) == CallView(None))
      && (req.user.Authenticated? && !IsSuperuser(req) && !HasSelector(req) ==> Decide(req, target, projects) == CallView(Some(PublicOnly)))
    ensures "public" in target.fields && "project" in target.fields && req.user.Authenticated? && !IsSuperuser(req) && HasSelector(req) ==>
      (Decide(req, target, projects).CallView? <==>
         req.app in projects && forall k :: 0 <= k < |projects[req.app]| ==> UserComparable(projects[req.app][k]))
    ensures Decide(req, target, projects).CallView? && Decide(req, target, projects).supplied.Some? && HasSelector(req) && req.user.Authenticated? ==>
      var q := Decide(req, target, projects).supplied.value;
      Eval(q, row, sat) <==> sat(row, "public", Bool(true)) || exists k :: InProject(row, sat, projects[req.app], req.user.id, k)
  {
    if req.user.Authenticated? && "public" in target.fields && "project" in target.fields && !IsSuperuser(req) && HasSelector(req) && req.app in projects {
      MembershipRaisesUnlessComparable(PublicOnly, projects[req.app], req.user.id);
      if Membership(PublicOnly, projects[req.app], req.user.id).Some? {
        MembershipMeaning(PublicOnly, projects[req.app], req.user.id, row, sat);
      }
    }
  }

  /**
   * `project` and `project_or_user`, in this order: anonymous is 401, a model
   * without a `project` field is 10003, a query without a project key is 400
   * even for a superuser, and only then does a superuser see everything.
   */
  lemma ProjectTiersOrder(req: Request, target: Target, projects: Projects)
    requires req.item != NotFound && Tier(target) in {"project", "project_or_user"}
    ensures req.user.Anonymous? ==> Decide(req, target, projects) == Deny(401, AuthenticationRequired)
    ensures req.user.Authenticated? && "project" !in target.fields ==> Decide(req, target, projects) == Deny(500, Code10003)
    ensures req.user.Authenticated? && "project" in target.fields && !HasSelector(req) ==> Decide(req, target, projects) == Deny(400, ProjectRequired)
    ensures IsSuperuser(req) && "project" in target.fields && HasSelector(req) ==> Decide(req, target, projects) == CallView(None)
  {
  }

  /**
   * The `project` filter starts from `Q()`: with no user fields it restricts
   * nothing, otherwise it admits a row exactly when the row's project lists
   * the requester in one of them.
   */
  lemma ProjectTierFilter<R>(req: Request, target: Target, projects: Projects, userFields: seq<(string, string)>,
                             row: R, sat: (R, string, Value) -> bool)
    requires req.item != NotFound && Tier(target) == "project"
    requires req.user.Authenticated? && !IsSuperuser(req) && "project" in target.fields && HasSelector(req)
    requires ProjectUserFields(req, target, projects) == Some(userFields)
    ensures userFields == [] ==> Decide(req, target, projects) == CallView(Some(Empty))
    ensures Decide(req, target, projects).CallView? <==> forall k :: 0 <= k < |userFields| ==> UserComparable(userFields[k])
    ensures userFields != [] && Decide(req, target, projects).CallView? ==>
      var q := Decide(req, target, projects).supplied.value;
      Eval(q, row, sat) <==> exists k :: InProject(row, sat, userFields, req.user.id, k)
  {
    var id := req.user.id;
    MembershipRaisesUnlessComparable(Empty, userFields, id);
    if userFields != [] && Membership(Empty, userFields, id).Some? {
      var leaf := Leaf("project__" + userFields[0].0, Requester(id));
      assert UserTuple(userFields[0].1, userFields[0].0, id) == Some((userFields[0].0, Requester(id)));
      assert Membership(Empty, userFields, id) == Membership(leaf, userFields[1..], id);
      MembershipMeaning(leaf, userFields[1..], id, row, sat);
      ShiftInProject(row, sat, userFields, id);
    }
  }

  /**
   * The `project_or_user` view is called exactly when the app has a Project
   * model whose user fields are all comparable with a user, and its filter
   * admits a row owned by the requester or whose project lists the requester.
   */
  lemma ProjectOrUserFilter<R>(req: Request, target: Target, projects: Projects, row: R, sat: (R, string, Value) -> bool)
    requires req.item != NotFound && Tier(target) == "project_or_user"
    requires req.user.Authenticated? && !IsSuperuser(req) && "project" in target.fields && HasSelector(req)
    ensures Decide(req, target, projects).CallView? <==>
      req.app in projects && forall k :: 0 <= k < |projects[req.app]| ==> UserComparable(projects[req.app][k])
    ensures Decide(req, target, projects).CallView? ==>
      req.app in projects &&
      var q := Decide(req, target, projects).supplied.value;
      Eval(q, row, sat) <==> sat(row, "user", Requester(req.user.id)) || exists k :: InProject(row, sat, projects[req.app], req.user.id, k)
  {
    if req.app in projects {
      MembershipRaisesUnlessComparable(OwnerOnly(req.user.id), projects[req.app], req.user.id);
    }
    if req.app in projects && Membership(OwnerOnly(req.user.id), projects[req.app], req.user.id).Some? {
      MembershipMeaning(OwnerOnly(req.user.id), projects[req.app], req.user.id, row, sat);
    }
  }

  /**
   * `public_or_user` (a `public` field is required, 10004) and `private`:
   * anonymous sees the public rows or is refused; a superuser sees
   * everything; anyone else sees the public rows or their own, or only their own.
   */
  lemma OwnerTiers(req: Request, target: Target, projects: Projects)
    requires req.item != NotFound
    ensures Tier(target) == "public_or_user" ==>
      Decide(req, target, projects) ==
        if "public" !in target.fields then Deny(500, Code10004)
        else if req.user.Anonymous? then CallView(Some(PublicOnly))
        else if IsSuperuser(req) then CallView(None)
        else CallView(Some(Or(PublicOnly, OwnerOnly(req.user.id))))
    ensures Tier(target) == "private" ==>
      Decide(req, target, projects) ==
        if req.user.Anonymous? then Deny(401, AuthenticationRequired)
        else if IsSuperuser(req) then CallView(None)
        else CallView(Some(OwnerOnly(req.user.id)))
  {
  }

  // ---------------------------------------------------------------------------
  // Properties across the tiers

  /** An anonymous requester reads unrestricted only on the `public` tier, and otherwise at most the public rows. */
  lemma AnonymousSeesOnlyPublic(req: Request, target: Target, projects: Projects)
    requires req.user.Anonymous?
    ensures Decide(req, target, projects) == CallView(None) ==> Tier(target) == "public"
    ensures Decide(req, target, projects).CallView? && Decide(req, target, projects).supplied.Some? ==>
      Decide(req, target, projects).supplied.value == PublicOnly
    ensures !Decide(req, target, projects).Raises?
  {
  }

  /**
   * Every supplied filter is a disjunction of leaves, built with OR only and
   * never negated, and each leaf is `public = True` or names the requester.
   */
  lemma SuppliedFilterShape(req: Request, target: Target, projects: Projects)
    ensures Decide(req, target, projects).CallView? && Decide(req, target, projects).supplied.Some? ==>
      var q := Decide(req, target, projects).supplied.value;
      && OrOfLeaves(q) && NegationFree(q)
      && forall l :: l in Leaves(q) ==> l == ("public", Bool(true)) || l.1 == Requester(req.user.id)
  {
    var o := Decide(req, target, projects);
    if o.CallView? && o.supplied.Some? {
      var q := o.supplied.value;
      if q != PublicOnly && q != OwnerOnly(req.user.id) && q != Or(PublicOnly, OwnerOnly(req.user.id)) {
        var id := req.user.id;
        var uf := if Tier(target) == "project" then ProjectUserFields(req, target, projects).value else projects[req.app];
        var start := if Tier(target) == "public_or_project" then PublicOnly else if Tier(target) == "project" then Empty else OwnerOnly(id);
        assert Membership(start, uf, id) == Some(q);
        MembershipShape(start, uf, id);
      }
      OrOfLeavesIsNegationFree(q);
    }
  }

  lemma {:induction false} MembershipShape(start: Q, userFields: seq<(string, string)>, id: UserId)
    requires OrOfLeaves(start) && Membership(start, userFields, id).Some?
    requires forall l :: l in Leaves(start) ==> l == ("public", Bool(true)) || l.1 == Requester(id)
    ensures var q := Membership(start, userFields, id).value;
      OrOfLeaves(q) && forall l :: l in Leaves(q) ==> l == ("public", Bool(true)) || l.1 == Requester(id)
    decreases |userFields|
  {
    if userFields != [] {
      var t := UserTuple(userFields[0].1, userFields[0].0, id).value;
      OrLeaf(start, "project__" + t.0, t.1);
      CombinedLeaves(start, Leaf("project__" + t.0, t.1));
      MembershipShape(OrQ(start, Leaf("project__" + t.0, t.1)), userFields[1..], id);
    }
  }
}
