/** Which granted delegation permissions a requested list covers. */
module PermissionSubset {
  import opened Wrappers

  datatype Permission = Permission(service: string, space: string, path: Option<string>, actions: seq<string>)

  predicate EndsInSlash(s: string) {
    s != "" && s[|s| - 1] == '/'
  }

  /** A missing or empty requested path is the whole space, one ending in `/` is a prefix, any other is itself. */
  predicate PathCoveredBy(granted: Option<string>, requested: Option<string>) {
    if requested.GetOr("") == "" then true
    else if granted.GetOr("") == "" then false
    else if EndsInSlash(requested.value) then requested.value <= granted.value
    else granted.value == requested.value
  }

  predicate CoveredBy(grant: Permission, request: Permission) {
    && request.service == grant.service && request.space == grant.space
    && PathCoveredBy(grant.path, request.path)
    && forall i :: 0 <= i < |grant.actions| ==> grant.actions[i] in request.actions
  }

  predicate CoveredByOne(grant: Permission, requested: seq<Permission>) {
    exists j :: 0 <= j < |requested| && CoveredBy(grant, requested[j])
  }

  predicate IsPermissionSubset(granted: seq<Permission>, requested: seq<Permission>) {
    forall i :: 0 <= i < |granted| ==> CoveredByOne(granted[i], requested)
  }

  // ---- the authority a list stands for ----

  /** What one permission lets its holder do: `action` at the path `at`. */
  predicate Allows(p: Permission, service: string, space: string, at: string, action: string) {
    p.service == service && p.space == space && action in p.actions && PathCoveredBy(Some(at), p.path)
  }

  predicate Authorizes(permissions: seq<Permission>, service: string, space: string, at: string, action: string) {
    exists i :: 0 <= i < |permissions| && Allows(permissions[i], service, space, at, action)
  }

  lemma PathsCompose(a: Option<string>, b: Option<string>, c: Option<string>)
    requires PathCoveredBy(a, b) && PathCoveredBy(b, c)
    ensures PathCoveredBy(a, c)
  {
  }

  lemma CoverageComposes(a: Permission, b: Permission, c: Permission)
    requires CoveredBy(a, b) && CoveredBy(b, c)
    ensures CoveredBy(a, c)
  {
    PathsCompose(a.path, b.path, c.path);
    forall i | 0 <= i < |a.actions|
      ensures a.actions[i] in c.actions
    {
      var k :| 0 <= k < |b.actions| && b.actions[k] == a.actions[i];
    }
  }

  /** A list covers itself. */
  lemma SubsetIsReflexive(permissions: seq<Permission>)
    ensures IsPermissionSubset(permissions, permissions)
  {
    forall i | 0 <= i < |permissions|
      ensures CoveredByOne(permissions[i], permissions)
    {
      assert CoveredBy(permissions[i], permissions[i]);
    }
  }

  lemma SubsetIsTransitive(a: seq<Permission>, b: seq<Permission>, c: seq<Permission>)
    requires IsPermissionSubset(a, b) && IsPermissionSubset(b, c)
    ensures IsPermissionSubset(a, c)
  {
    forall i | 0 <= i < |a|
      ensures CoveredByOne(a[i], c)
    {
      assert CoveredByOne(a[i], b);
      var j :| 0 <= j < |b| && CoveredBy(a[i], b[j]);
      assert CoveredByOne(b[j], c);
      var k :| 0 <= k < |c| && CoveredBy(b[j], c[k]);
      CoverageComposes(a[i], b[j], c[k]);
    }
  }

  /** What the granted list authorizes, the requested list does. */
  lemma SubsetIsSound(granted: seq<Permission>, requested: seq<Permission>,
                      service: string, space: string, at: string, action: string)
    requires IsPermissionSubset(granted, requested) && Authorizes(granted, service, space, at, action)
    ensures Authorizes(requested, service, space, at, action)
  {
    var i :| 0 <= i < |granted| && Allows(granted[i], service, space, at, action);
    assert CoveredByOne(granted[i], requested);
    var j :| 0 <= j < |requested| && CoveredBy(granted[i], requested[j]);
    PathsCompose(Some(at), granted[i].path, requested[j].path);
    assert Allows(requested[j], service, space, at, action);
  }

  /** One permission with an action against another: covered exactly when everything it allows is allowed. */
  lemma CoverageIsInclusion(grant: Permission, request: Permission)
    requires grant.actions != []
    ensures CoveredBy(grant, request) <==>
      forall at, action :: Allows(grant, grant.service, grant.space, at, action)
        ==> Allows(request, grant.service, grant.space, at, action)
  {
    if CoveredBy(grant, request) {
      forall at, action | Allows(grant, grant.service, grant.space, at, action)
        ensures Allows(request, grant.service, grant.space, at, action)
      {
        PathsCompose(Some(at), grant.path, request.path);
        var i :| 0 <= i < |grant.actions| && grant.actions[i] == action;
      }
    } else {
      NotCovered(grant, request);
    }
  }

  lemma NotCovered(grant: Permission, request: Permission)
    requires grant.actions != [] && !CoveredBy(grant, request)
    ensures exists at, action ::
      Allows(grant, grant.service, grant.space, at, action) && !Allows(request, grant.service, grant.space, at, action)
  {
    var at := grant.path.GetOr("");
    if forall i :: 0 <= i < |grant.actions| ==> grant.actions[i] in request.actions {
      assert Allows(grant, grant.service, grant.space, at, grant.actions[0]);
      assert !Allows(request, grant.service, grant.space, at, grant.actions[0]);
    } else {
      var i :| 0 <= i < |grant.actions| && grant.actions[i] !in request.actions;
      assert Allows(grant, grant.service, grant.space, at, grant.actions[i]);
    }
  }
}
