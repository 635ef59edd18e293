/**
 * A user's restriction of a capability review, and the check that an edited
 * review asks for nothing its baseline did not.
 */
module Restriction {
  import opened Wrappers
  import CanonicalJson
  import Caveats

  datatype Action = Action(id: string, ability: string, required: bool, selected: bool, caveats: seq<CanonicalJson.Json>)

  datatype Grant = Grant(id: string, service: string, space: string, path: string, actions: seq<Action>)

  datatype Protocol = Recap | Other

  datatype Header = Header(address: string, chainId: string, domain: string, issuedAt: string,
                           expirationTime: string, spaceId: string, nonce: string)

  datatype Model = Model(protocol: Protocol, rawMessage: string, immutable: Option<Header>, permissions: seq<Grant>)

  // ---- restriction ----

  function RestrictedActions(actions: seq<Action>, chosen: set<string>): seq<Action> {
    if actions == [] then []
    else
      var a := actions[0];
      var rest := RestrictedActions(actions[1..], chosen);
      if a.required || a.id in chosen then [a.(selected := true)] + rest else rest
  }

  function RestrictedGrants(grants: seq<Grant>, chosen: set<string>): seq<Grant> {
    if grants == [] then []
    else
      var actions := RestrictedActions(grants[0].actions, chosen);
      var rest := RestrictedGrants(grants[1..], chosen);
      if actions == [] then rest else [grants[0].(actions := actions)] + rest
  }

  function Restricted(m: Model, chosen: set<string>): Model {
    if m.protocol != Recap then m else m.(permissions := RestrictedGrants(m.permissions, chosen))
  }

  method RestrictModel(baseline: Model, chosen: set<string>) returns (restricted: Model)
    ensures restricted == Restricted(baseline, chosen)
  {
    if baseline.protocol != Recap {
      return baseline;
    }
    var permissions: seq<Grant> := [];
    assert baseline.permissions[0..] == baseline.permissions;
    for i := 0 to |baseline.permissions|
      invariant permissions + RestrictedGrants(baseline.permissions[i..], chosen)
             == RestrictedGrants(baseline.permissions, chosen)
    {
      var grant := baseline.permissions[i];
      assert baseline.permissions[i..][1..] == baseline.permissions[i + 1..];
      var actions := RestrictedActions(grant.actions, chosen);
      if actions != [] {
        permissions := permissions + [grant.(actions := actions)];
      }
    }
    restricted := baseline.(permissions := permissions);
  }

  // ---- the subset check ----

  /** `new Map(...)`: of two entries with one key the later wins. */
  function LastGrant(grants: seq<Grant>, id: string): (r: Option<Grant>)
    ensures r.Some? ==> r.value in grants && r.value.id == id
    ensures r.None? ==> forall g :: g in grants ==> g.id != id
  {
    if grants == [] then None
    else if grants[|grants| - 1].id == id then Some(grants[|grants| - 1])
    else LastGrant(grants[..|grants| - 1], id)
  }

  function LastAction(actions: seq<Action>, ability: string): (r: Option<Action>)
    ensures r.Some? ==> r.value in actions && r.value.ability == ability
    ensures r.None? ==> forall a :: a in actions ==> a.ability != ability
  {
    if actions == [] then None
    else if actions[|actions| - 1].ability == ability then Some(actions[|actions| - 1])
    else LastAction(actions[..|actions| - 1], ability)
  }

  /** `find`: the first grant with the id. */
  function FirstGrant(grants: seq<Grant>, id: string): (r: Option<Grant>)
    ensures r.Some? ==> r.value in grants && r.value.id == id
    ensures r.None? ==> forall g :: g in grants ==> g.id != id
  {
    if grants == [] then None
    else if grants[0].id == id then Some(grants[0])
    else FirstGrant(grants[1..], id)
  }

  ghost predicate ActionWithin(base: Grant, a: Action) {
    var b := LastAction(base.actions, a.ability);
    b.Some? && Caveats.SameCaveats(b.value.caveats, a.caveats)
  }

  ghost predicate GrantWithin(baseline: Model, g: Grant) {
    var base := LastGrant(baseline.permissions, g.id);
    base.Some? && forall i :: 0 <= i < |g.actions| ==> ActionWithin(base.value, g.actions[i])
  }

  predicate Present(candidate: Model, id: string, ability: string) {
    var g := FirstGrant(candidate.permissions, id);
    g.Some? && exists i :: 0 <= i < |g.value.actions| && g.value.actions[i].ability == ability && g.value.actions[i].selected
  }

  predicate RequiredPresent(base: Grant, candidate: Model) {
    forall i :: 0 <= i < |base.actions| && base.actions[i].required ==> Present(candidate, base.id, base.actions[i].ability)
  }

  /** The candidate asks for nothing the baseline did not, and keeps what it requires. */
  ghost predicate Subset(baseline: Model, candidate: Model) {
    if baseline.protocol != Recap then candidate.rawMessage == baseline.rawMessage
    else
      && (baseline.immutable.Some? ==> candidate.immutable == baseline.immutable)
      && (forall i :: 0 <= i < |candidate.permissions| ==> GrantWithin(baseline, candidate.permissions[i]))
      && (forall i :: 0 <= i < |baseline.permissions| ==> RequiredPresent(baseline.permissions[i], candidate))
  }

  datatype Violation =
    | ChangedMessage
    | ChangedField(name: string)
    | DroppedHeader
    | AddedGrant(id: string)
    | AddedAction(id: string, ability: string)
    | BroadenedCaveat(id: string, ability: string)
    | RemovedRequired(id: string, ability: string)

  /** Caveats are JSON values. */
  predicate ValidCaveats(a: Action) {
    forall i :: 0 <= i < |a.caveats| ==> CanonicalJson.Valid(a.caveats[i])
  }

  predicate ValidActions(actions: seq<Action>) {
    forall a :: a in actions ==> ValidCaveats(a)
  }

  predicate ValidGrants(grants: seq<Grant>) {
    forall g :: g in grants ==> ValidActions(g.actions)
  }

  method CheckHeader(b: Header, c: Header) returns (violations: seq<Violation>)
    ensures violations == [] <==> b == c
  {
    violations := [];
    if b.address != c.address { violations := violations + [ChangedField("address")]; }
    if b.chainId != c.chainId { violations := violations + [ChangedField("chainId")]; }
    if b.domain != c.domain { violations := violations + [ChangedField("domain")]; }
    if b.issuedAt != c.issuedAt { violations := violations + [ChangedField("issuedAt")]; }
    if b.expirationTime != c.expirationTime { violations := violations + [ChangedField("expirationTime")]; }
    if b.spaceId != c.spaceId { violations := violations + [ChangedField("spaceId")]; }
    if b.nonce != c.nonce { violations := violations + [ChangedField("nonce")]; }
  }

  method CheckAction(base: Grant, id: string, a: Action) returns (violation: Option<Violation>)
    requires ValidActions(base.actions) && ValidCaveats(a)
    ensures violation.None? <==> ActionWithin(base, a)
  {
    var b := LastAction(base.actions, a.ability);
    if b.None? {
      return Some(AddedAction(id, a.ability));
    }
    var equal := Caveats.CanonicalMultisetEqual(b.value.caveats, a.caveats);
    violation := if equal then None else Some(BroadenedCaveat(id, a.ability));
  }

  method CheckActions(base: Grant, g: Grant) returns (violations: seq<Violation>)
    requires ValidActions(base.actions) && ValidActions(g.actions)
    ensures violations == [] <==> forall i :: 0 <= i < |g.actions| ==> ActionWithin(base, g.actions[i])
  {
    violations := [];
    for i := 0 to |g.actions|
      invariant violations == [] <==> forall k :: 0 <= k < i ==> ActionWithin(base, g.actions[k])
    {
      var violation := CheckAction(base, g.id, g.actions[i]);
      if violation.Some? { violations := violations + [violation.value]; }
    }
  }

  method CheckGrants(baseline: Model, candidate: Model) returns (violations: seq<Violation>)
    requires ValidGrants(baseline.permissions) && ValidGrants(candidate.permissions)
    ensures violations == [] <==>
      forall i :: 0 <= i < |candidate.permissions| ==> GrantWithin(baseline, candidate.permissions[i])
  {
    violations := [];
    for i := 0 to |candidate.permissions|
      invariant violations == [] <==> forall k :: 0 <= k < i ==> GrantWithin(baseline, candidate.permissions[k])
    {
      var g := candidate.permissions[i];
      var base := LastGrant(baseline.permissions, g.id);
      if base.None? {
        violations := violations + [AddedGrant(g.id)];
      } else {
        var more := CheckActions(base.value, g);
        violations := violations + more;
      }
    }
  }

  method CheckRequired(base: Grant, candidate: Model) returns (violations: seq<Violation>)
    ensures violations == [] <==> RequiredPresent(base, candidate)
  {
    violations := [];
    for i := 0 to |base.actions|
      invariant violations == [] <==>
        forall k :: 0 <= k < i && base.actions[k].required ==> Present(candidate, base.id, base.actions[k].ability)
    {
      var a := base.actions[i];
      if a.required && !Present(candidate, base.id, a.ability) {
        violations := violations + [RemovedRequired(base.id, a.ability)];
      }
    }
  }

  method AssertBaselineSubset(baseline: Model, candidate: Model) returns (violations: seq<Violation>)
    requires ValidGrants(baseline.permissions) && ValidGrants(candidate.permissions)
    ensures violations == [] <==> Subset(baseline, candidate)
  {
    if baseline.protocol != Recap {
      return if candidate.rawMessage != baseline.rawMessage then [ChangedMessage] else [];
    }
    violations := [];
    if baseline.immutable.Some? {
      if candidate.immutable.Some? {
        violations := CheckHeader(baseline.immutable.value, candidate.immutable.value);
      } else {
        violations := [DroppedHeader];
      }
    }
    var more := CheckGrants(baseline, candidate);
    violations := violations + more;
    ghost var before := violations;
    for i := 0 to |baseline.permissions|
      invariant violations == [] <==>
        before == [] && forall k :: 0 <= k < i ==> RequiredPresent(baseline.permissions[k], candidate)
    {
      more := CheckRequired(baseline.permissions[i], candidate);
      violations := violations + more;
    }
  }

  // ---- restriction passes the check ----

  predicate DistinctAbilities(actions: seq<Action>) {
    forall i, j :: 0 <= i < j < |actions| ==> actions[i].ability != actions[j].ability
  }

  /** No two grants share an id, and no two actions of a grant an ability. */
  predicate Distinct(grants: seq<Grant>) {
    && (forall i, j :: 0 <= i < j < |grants| ==> grants[i].id != grants[j].id)
    && (forall i :: 0 <= i < |grants| ==> DistinctAbilities(grants[i].actions))
  }

  /** Every restricted action is one of the original's, selected; the required ones are all there. */
  lemma {:induction false} ActionsKept(actions: seq<Action>, chosen: set<string>)
    ensures forall a :: a in RestrictedActions(actions, chosen) ==>
      a.selected && exists b :: b in actions && a == b.(selected := true)
    ensures forall b :: b in actions && (b.required || b.id in chosen) ==>
      b.(selected := true) in RestrictedActions(actions, chosen)
  {
    if actions != [] {
      ActionsKept(actions[1..], chosen);
      assert actions == [actions[0]] + actions[1..];
    }
  }

  /** Every restricted grant is an original grant with its actions restricted, and none with an action left is lost. */
  lemma {:induction false} GrantsKept(grants: seq<Grant>, chosen: set<string>)
    ensures forall r :: r in RestrictedGrants(grants, chosen) ==>
      exists g :: g in grants && r == g.(actions := RestrictedActions(g.actions, chosen))
    ensures forall g :: g in grants && RestrictedActions(g.actions, chosen) != [] ==>
      g.(actions := RestrictedActions(g.actions, chosen)) in RestrictedGrants(grants, chosen)
  {
    if grants != [] {
      GrantsKept(grants[1..], chosen);
      assert grants == [grants[0]] + grants[1..];
    }
  }

  lemma LastGrantIs(grants: seq<Grant>, g: Grant)
    requires Distinct(grants) && g in grants
    ensures LastGrant(grants, g.id) == Some(g)
  {
  }

  lemma LastActionIs(actions: seq<Action>, a: Action)
    requires DistinctAbilities(actions) && a in actions
    ensures LastAction(actions, a.ability) == Some(a)
  {
  }

  lemma RestrictedWithin(m: Model, chosen: set<string>, r: Grant)
    requires Distinct(m.permissions) && r in RestrictedGrants(m.permissions, chosen)
    ensures GrantWithin(m, r)
  {
    GrantsKept(m.permissions, chosen);
    var g :| g in m.permissions && r == g.(actions := RestrictedActions(g.actions, chosen));
    LastGrantIs(m.permissions, g);
    ActionsKept(g.actions, chosen);
    forall i | 0 <= i < |r.actions|
      ensures ActionWithin(g, r.actions[i])
    {
      assert r.actions[i] in RestrictedActions(g.actions, chosen);
      var b :| b in g.actions && r.actions[i] == b.(selected := true);
      LastActionIs(g.actions, b);
    }
  }

  /** Restriction keeps ids distinct, so a lookup by id finds the restricted grant. */
  lemma RestrictedLookup(grants: seq<Grant>, chosen: set<string>, g: Grant)
    requires Distinct(grants) && g in grants && RestrictedActions(g.actions, chosen) != []
    ensures FirstGrant(RestrictedGrants(grants, chosen), g.id) == Some(g.(actions := RestrictedActions(g.actions, chosen)))
  {
    GrantsKept(grants, chosen);
    var found := FirstGrant(RestrictedGrants(grants, chosen), g.id);
    assert g.(actions := RestrictedActions(g.actions, chosen)) in RestrictedGrants(grants, chosen);
    var h :| h in grants && found.value == h.(actions := RestrictedActions(h.actions, chosen));
    LastGrantIs(grants, g);
    LastGrantIs(grants, h);
  }

  lemma RequiredStays(m: Model, chosen: set<string>, base: Grant)
    requires m.protocol == Recap && Distinct(m.permissions) && base in m.permissions
    ensures RequiredPresent(base, Restricted(m, chosen))
  {
    ActionsKept(base.actions, chosen);
    forall i | 0 <= i < |base.actions| && base.actions[i].required
      ensures Present(Restricted(m, chosen), base.id, base.actions[i].ability)
    {
      var a := base.actions[i].(selected := true);
      assert base.actions[i] in base.actions && a in RestrictedActions(base.actions, chosen);
      RestrictedLookup(m.permissions, chosen, base);
      var k :| 0 <= k < |RestrictedActions(base.actions, chosen)| && RestrictedActions(base.actions, chosen)[k] == a;
    }
  }

  /** Whatever the user unchecks, the restricted review passes the check against its baseline. */
  lemma RestrictionPasses(m: Model, chosen: set<string>)
    requires Distinct(m.permissions)
    ensures Subset(m, Restricted(m, chosen))
  {
    if m.protocol == Recap {
      var r := Restricted(m, chosen);
      forall i | 0 <= i < |r.permissions|
        ensures GrantWithin(m, r.permissions[i])
      {
        RestrictedWithin(m, chosen, r.permissions[i]);
      }
      forall i | 0 <= i < |m.permissions|
        ensures RequiredPresent(m.permissions[i], r)
      {
        RequiredStays(m, chosen, m.permissions[i]);
      }
    }
  }

  // ---- composition ----

  lemma {:induction false} ActionsCompose(actions: seq<Action>, s: set<string>, t: set<string>)
    ensures RestrictedActions(RestrictedActions(actions, s), t) == RestrictedActions(actions, s * t)
  {
    if actions != [] {
      ActionsCompose(actions[1..], s, t);
      var a, rest := actions[0], RestrictedActions(actions[1..], s);
      assert ([a.(selected := true)] + rest)[1..] == rest;
    }
  }

  lemma {:induction false} GrantsCompose(grants: seq<Grant>, s: set<string>, t: set<string>)
    ensures RestrictedGrants(RestrictedGrants(grants, s), t) == RestrictedGrants(grants, s * t)
  {
    if grants != [] {
      GrantsCompose(grants[1..], s, t);
      ActionsCompose(grants[0].actions, s, t);
      var g, rest := grants[0].(actions := RestrictedActions(grants[0].actions, s)), RestrictedGrants(grants[1..], s);
      assert ([g] + rest)[1..] == rest;
      assert RestrictedActions([], t) == [];
    }
  }

  /** Restricting twice is restricting by what both selections hold. */
  lemma RestrictionComposes(m: Model, s: set<string>, t: set<string>)
    ensures Restricted(Restricted(m, s), t) == Restricted(m, s * t)
  {
    GrantsCompose(m.permissions, s, t);
  }

  lemma {:induction false} AbilitiesStayDistinct(actions: seq<Action>, chosen: set<string>)
    requires DistinctAbilities(actions)
    ensures DistinctAbilities(RestrictedActions(actions, chosen))
  {
    if actions != [] {
      AbilitiesStayDistinct(actions[1..], chosen);
      ActionsKept(actions[1..], chosen);
      var rest := RestrictedActions(actions[1..], chosen);
      forall j | 0 <= j < |rest|
        ensures rest[j].ability != actions[0].ability
      {
        assert rest[j] in rest;
        var b :| b in actions[1..] && rest[j] == b.(selected := true);
        var k :| 0 <= k < |actions[1..]| && actions[1..][k] == b;
        assert actions[k + 1] == b;
      }
    }
  }

  lemma {:induction false} GrantsStayDistinct(grants: seq<Grant>, chosen: set<string>)
    requires Distinct(grants)
    ensures Distinct(RestrictedGrants(grants, chosen))
  {
    if grants != [] {
      GrantsStayDistinct(grants[1..], chosen);
      GrantsKept(grants[1..], chosen);
      AbilitiesStayDistinct(grants[0].actions, chosen);
      var rest := RestrictedGrants(grants[1..], chosen);
      forall j | 0 <= j < |rest|
        ensures rest[j].id != grants[0].id
      {
        assert rest[j] in rest;
        var g :| g in grants[1..] && rest[j] == g.(actions := RestrictedActions(g.actions, chosen));
        var k :| 0 <= k < |grants[1..]| && grants[1..][k] == g;
        assert grants[k + 1] == g;
      }
    }
  }

  /** A smaller selection passes the check against a larger one's review. */
  lemma NarrowingPasses(m: Model, s: set<string>, t: set<string>)
    requires Distinct(m.permissions) && s <= t
    ensures Subset(Restricted(m, t), Restricted(m, s))
  {
    GrantsStayDistinct(m.permissions, t);
    RestrictionComposes(m, t, s);
    assert t * s == s;
    RestrictionPasses(Restricted(m, t), s);
  }
}
