/**
 Grant and Revoke of site roles and licenses: every call writes one user's site role.
 */
module RoleProvisioning {

  import opened Wrappers
  import opened Sequences
  import opened Capabilities
  import opened Grants
  import opened Tableau
  import opened Server
  import opened Roles

  const UNLICENSED: string := "Unlicensed"

  /** nonGrantableRoles. */
  predicate NonGrantable(role: string) {
    role == SERVER_ADMINISTRATOR
  }

  function LowerCase(c: char): char {
    if 'A' <= c <= 'Z' then (c as int + 32) as char else c
  }

  /** strings.ToLower, on the ASCII license names. */
  function LicenseId(license: string): string {
    seq(|license|, i requires 0 <= i < |license| => LowerCase(license[i]))
  }

  /** licensesMap: license ids to tier names. */
  const LICENSE_NAMES: SlugMap := map[
    "creator" := "Creator", "explorer" := "Explorer", "viewer" := "Viewer", "unlicensed" := "Unlicensed"]

  /** The site role that carries each license id, as licenseResource derives the id from the license name. */
  lemma LicenseIdsTranslateBack()
    ensures forall l :: l in LICENSES ==> LicenseId(l) in LICENSE_NAMES && LICENSE_NAMES[LicenseId(l)] == l
  {
    assert LicenseId("Creator") == "creator" by { assert "Creator"[1..] == "reator"; }
    assert LicenseId("Explorer") == "explorer" by { assert "Explorer"[1..] == "xplorer"; }
    assert LicenseId("Viewer") == "viewer" by { assert "Viewer"[1..] == "iewer"; }
    assert LicenseId("Unlicensed") == "unlicensed" by { assert "Unlicensed"[1..] == "nlicensed"; }
  }

  /** The four roles that carry a license's name are shown under its id. */
  lemma LicenseRoleSlugs()
    ensures forall l :: l in LICENSES ==> l in ROLES && ROLES[l] == LicenseId(l)
  {
    LicenseIdsTranslateBack();
    assert forall id :: id in LICENSE_NAMES ==> LICENSE_NAMES[id] in ROLES && ROLES[LICENSE_NAMES[id]] == id;
  }

  /** One call on a site role or a license: which user, which entitlement, and whether its request fails. */
  datatype RoleCall =
    | GrantSiteRole(user: string, entitlementId: string, outage: bool)
    | RevokeSiteRole(user: string, outage: bool)
    | GrantLicense(user: string, licenseId: string, outage: bool)
    | RevokeLicense(user: string, outage: bool)

  /** A left inverse of the role table, read off a slug's length and last letter. */
  function RoleAt(length: int, last: char): string {
    if length == 6 then "Viewer"
    else if length == 7 then "Creator"
    else if length == 8 then "Explorer"
    else if length == 10 then UNLICENSED
    else if length == 18 then "SiteAdministrator"
    else if length == 26 then "SiteAdministratorCreator"
    else if length == 27 then "SiteAdministratorExplorer"
    else if last == 'h' then "ExplorerCanPublish"
    else SERVER_ADMINISTRATOR
  }

  lemma SlugsIdentifyRoles(r: string)
    requires r in ROLES
    ensures ROLES[r] != "" && r == RoleAt(|ROLES[r]|, ROLES[r][|ROLES[r]| - 1])
  {
  }

  lemma RolesInjective()
    ensures Injective(ROLES)
  {
    forall a, b | a in ROLES && b in ROLES && ROLES[a] == ROLES[b] ensures a == b {
      SlugsIdentifyRoles(a);
      SlugsIdentifyRoles(b);
    }
  }

  /** What some order of the search may answer: a role shown under the slug, or "" if there is none. */
  predicate Finds(roles: SlugMap, slug: string, answer: string) {
    if slug in roles.Values then answer in roles && roles[answer] == slug else answer == ""
  }

  /** The reverse search over a role map, in whatever order Go ranges over it. */
  method FindRole(roles: SlugMap, slug: string) returns (apiRoleName: string)
    ensures Finds(roles, slug, apiRoleName)
    ensures "" !in roles ==> (apiRoleName == "" <==> slug !in roles.Values)
    ensures Injective(roles) ==> forall r :: r in roles && roles[r] == slug ==> r == apiRoleName
  {
    apiRoleName := "";
    var todo := roles.Keys;
    while todo != {}
      invariant todo <= roles.Keys && apiRoleName == ""
      invariant forall r :: r in roles && r !in todo ==> roles[r] != slug
      decreases todo
    {
      var key :| key in todo;
      if roles[key] == slug {
        apiRoleName := key;
        break;
      }
      todo := todo - {key};
    }
  }

  /** The search over the roles in a given order. */
  function FindInOrder(roles: SlugMap, order: seq<string>, slug: string): string {
    if order == [] then ""
    else if order[0] in roles && roles[order[0]] == slug then order[0]
    else FindInOrder(roles, order[1..], slug)
  }

  lemma {:induction false} FindInOrderFinds(roles: SlugMap, order: seq<string>, slug: string)
    ensures var a := FindInOrder(roles, order, slug);
      if exists c :: c in order && c in roles && roles[c] == slug then a in roles && roles[a] == slug else a == ""
  {
    if order != [] {
      FindInOrderFinds(roles, order[1..], slug);
      assert forall c :: c in order <==> c == order[0] || c in order[1..];
    }
  }

  lemma OrderFinds(roles: SlugMap, order: seq<string>, slug: string)
    requires Enumerates(order, roles.Keys)
    ensures Finds(roles, slug, FindInOrder(roles, order, slug))
  {
    FindInOrderFinds(roles, order, slug);
  }

  /** Some order has the role come first. */
  lemma OrderFinding(roles: SlugMap, slug: string, answer: string) returns (order: seq<string>)
    requires Finds(roles, slug, answer)
    ensures Enumerates(order, roles.Keys) && FindInOrder(roles, order, slug) == answer
  {
    if slug in roles.Values {
      var rest := roles.Keys - {answer};
      order := [answer] + SomeOrder(rest);
      EnumeratesBoth([answer], {answer}, SomeOrder(rest), rest);
      assert {answer} + rest == roles.Keys;
    } else {
      order := SomeOrder(roles.Keys);
      OrderFinds(roles, order, slug);
    }
  }

  /** The answers of the search, over all iteration orders, are exactly the roles shown under the slug. */
  lemma FindsIsSomeOrder(roles: SlugMap, slug: string, answer: string)
    ensures Finds(roles, slug, answer)
      <==> exists order :: Enumerates(order, roles.Keys) && FindInOrder(roles, order, slug) == answer
  {
    if Finds(roles, slug, answer) {
      var order := OrderFinding(roles, slug, answer);
    }
    if order :| Enumerates(order, roles.Keys) && FindInOrder(roles, order, slug) == answer {
      OrderFinds(roles, order, slug);
    }
  }

  /** Every iteration order finds the same role for the slug. */
  ghost predicate SameInEveryOrder(roles: SlugMap, slug: string) {
    forall o, o' :: Enumerates(o, roles.Keys) && Enumerates(o', roles.Keys) ==>
      FindInOrder(roles, o, slug) == FindInOrder(roles, o', slug)
  }

  /** The search finds the same role in every order, for every slug, exactly when no two roles share a slug. */
  lemma RoleSearchOrderIndependent(roles: SlugMap)
    ensures (forall slug :: SameInEveryOrder(roles, slug)) <==> Injective(roles)
  {
    if Injective(roles) {
      forall slug, o, o' | Enumerates(o, roles.Keys) && Enumerates(o', roles.Keys)
        ensures FindInOrder(roles, o, slug) == FindInOrder(roles, o', slug)
      {
        OrderFinds(roles, o, slug);
        OrderFinds(roles, o', slug);
      }
    } else {
      var a, b :| a in roles && b in roles && roles[a] == roles[b] && a != b;
      var o := OrderFinding(roles, roles[a], a);
      var o' := OrderFinding(roles, roles[a], b);
      assert !SameInEveryOrder(roles, roles[a]);
    }
  }

  /** The role a slug names, if some role is shown under it. */
  function RoleOfSlug(slug: string): (role: Option<string>)
    ensures role.Some? ==> role.value in ROLES && ROLES[role.value] == slug
    ensures role.None? ==> slug !in ROLES.Values
  {
    RolesInjective();
    if slug in Invert(ROLES) then Some(Invert(ROLES)[slug]) else None
  }

  /** The role a site-role Grant asks for, or None when the connector refuses it. */
  function GrantableRole(entitlementId: string): Option<string> {
    var slug := ParseEntitlementSlug(entitlementId);
    var role := if slug.None? then None else RoleOfSlug(slug.value);
    if role.Some? && NonGrantable(role.value) then None else role
  }

  /** The role a call asks the server to set, or None when the connector refuses the call. */
  function Requested(c: RoleCall): Option<string> {
    match c
    case GrantSiteRole(_, id, _) => GrantableRole(id)
    case GrantLicense(_, id, _) => if id in LICENSE_NAMES then Some(LICENSE_NAMES[id]) else None
    case RevokeSiteRole(_, _) => Some(UNLICENSED)
    case RevokeLicense(_, _) => Some(UNLICENSED)
  }

  /** The effect of one call on the site, and whether it succeeds. */
  function RoleStep(site: Site, c: RoleCall): (Site, bool) {
    if Requested(c).None? || c.outage then (site, false)
    else
      var (after, reply) := SetRole(site, c.user, Requested(c).value);
      (after, reply == Accepted)
  }

  /** The checks of siteBuilder.Grant. */
  method CheckSiteRole(entitlementId: string) returns (role: Option<string>)
    ensures role == GrantableRole(entitlementId)
  {
    var slug := ParseEntitlementSlug(entitlementId);
    if slug.None? {
      return None;
    }
    RolesInjective();
    var apiRoleName := FindRole(ROLES, slug.value);
    if apiRoleName == "" {
      return None;
    }
    if NonGrantable(apiRoleName) {
      return None;
    }
    return Some(apiRoleName);
  }

  /** The Grant and Revoke methods of the site and license builders. */
  method ApplyRoleCall(server: TableauServer, c: RoleCall) returns (ok: bool)
    modifies server
    ensures (server.site, ok) == RoleStep(old(server.site), c)
  {
    var role: Option<string>;
    match c {
      case GrantSiteRole(_, entitlementId, _) => role := CheckSiteRole(entitlementId);
      case GrantLicense(_, licenseId, _) =>
        role := if licenseId in LICENSE_NAMES then Some(LICENSE_NAMES[licenseId]) else None;
      case RevokeSiteRole(_, _) => role := Some(UNLICENSED);
      case RevokeLicense(_, _) => role := Some(UNLICENSED);
    }
    if role.None? {
      return false;
    }
    var reply := server.UpdateUserSiteRole(c.user, role.value, c.outage);
    ok := reply == Accepted;
  }

  // --------------------------------------------------------------------- one call

  lemma RequestedIsSafe(c: RoleCall)
    requires Requested(c).Some?
    ensures Requested(c).value != SERVER_ADMINISTRATOR && Requested(c).value in ROLES
    ensures c.GrantLicense? ==> TierOf(Requested(c).value) == Some(LICENSE_NAMES[c.licenseId])
    ensures c.RevokeSiteRole? || c.RevokeLicense? ==> TierOf(Requested(c).value) == Some(UNLICENSED)
  {
  }

  /** A user's license tier as a sync of `site` reports it. */
  function TierOn(site: Site, user: string): Option<string> {
    if user in site.users then TierOf(site.users[user]) else None
  }

  /**
   A successful license Grant leaves the user in exactly the granted tier, a successful Revoke in
   Unlicensed, a failed call changes nothing, and no call touches another user.
   */
  lemma RoleStepEffect(before: Site, c: RoleCall, after: Site, ok: bool)
    requires (after, ok) == RoleStep(before, c)
    ensures !ok ==> after == before
    ensures after.users.Keys == before.users.Keys && after == before.(users := after.users)
    ensures forall u :: u in before.users && u != c.user ==> after.users[u] == before.users[u]
    ensures ok && c.GrantLicense? ==>
      c.licenseId in LICENSE_NAMES && TierOn(after, c.user) == Some(LICENSE_NAMES[c.licenseId])
    ensures ok && (c.RevokeSiteRole? || c.RevokeLicense?) ==>
      c.user in after.users && after.users[c.user] == UNLICENSED && TierOn(after, c.user) == Some(UNLICENSED)
  {
    if ok {
      RequestedIsSafe(c);
    }
  }

  // -------------------------------------------------------------------- whole runs

  /** The site after a run of calls, and whether each succeeded. */
  function RoleRun(site: Site, calls: seq<RoleCall>): (r: (Site, seq<bool>))
    ensures |r.1| == |calls|
  {
    if calls == [] then (site, [])
    else
      var (before, oks) := RoleRun(site, calls[..|calls| - 1]);
      var (after, ok) := RoleStep(before, calls[|calls| - 1]);
      (after, oks + [ok])
  }

  lemma NeverServerAdministrator(before: Site, c: RoleCall, u: string)
    requires var after := RoleStep(before, c).0; u in after.users && after.users[u] == SERVER_ADMINISTRATOR
    ensures u in before.users && before.users[u] == SERVER_ADMINISTRATOR
  {
  }

  /** Over any run of site and license calls nobody becomes a server administrator. */
  lemma {:induction false} RunNeverMakesServerAdministrators(site: Site, calls: seq<RoleCall>, u: string)
    requires var after := RoleRun(site, calls).0; u in after.users && after.users[u] == SERVER_ADMINISTRATOR
    ensures u in site.users && site.users[u] == SERVER_ADMINISTRATOR
  {
    if calls != [] {
      var n := |calls| - 1;
      NeverServerAdministrator(RoleRun(site, calls[..n]).0, calls[n], u);
      RunNeverMakesServerAdministrators(site, calls[..n], u);
    }
  }

  /** The last of the first n calls that names `u` and succeeded, if any. */
  function LastCall(calls: seq<RoleCall>, oks: seq<bool>, u: string): Option<RoleCall>
    requires |calls| == |oks|
  {
    if calls == [] then None
    else
      var n := |calls| - 1;
      if oks[n] && calls[n].user == u then Some(calls[n]) else LastCall(calls[..n], oks[..n], u)
  }

  /** Over any run the last successful call that names a user decides its role; without one the role stays. */
  lemma {:induction false} LastCallDecidesRole(site: Site, calls: seq<RoleCall>, u: string)
    ensures RoleRun(site, calls).0.users.Keys == site.users.Keys
    ensures var (after, oks) := RoleRun(site, calls);
      match LastCall(calls, oks, u)
      case None => u in site.users ==> after.users[u] == site.users[u]
      case Some(c) => u in site.users && Requested(c) == Some(after.users[u])
  {
    if calls != [] {
      var n := |calls| - 1;
      var (before, oks) := RoleRun(site, calls[..n]);
      var (after, ok) := RoleStep(before, calls[n]);
      LastCallDecidesRole(site, calls[..n], u);
      RoleStepEffect(before, calls[n], after, ok);
      assert (oks + [ok])[..n] == oks;
    }
  }

  /** And so it decides the tier the next sync reports. */
  lemma LastCallDecides(site: Site, calls: seq<RoleCall>, u: string)
    ensures var (after, oks) := RoleRun(site, calls);
      match LastCall(calls, oks, u)
      case None => TierOn(after, u) == TierOn(site, u)
      case Some(c) =>
        && (c.GrantLicense? ==> c.licenseId in LICENSE_NAMES && TierOn(after, u) == Some(LICENSE_NAMES[c.licenseId]))
        && (c.RevokeSiteRole? || c.RevokeLicense? ==> TierOn(after, u) == Some(UNLICENSED))
  {
    LastCallDecidesRole(site, calls, u);
    var c := LastCall(calls, RoleRun(site, calls).1, u);
    if c.Some? {
      RequestedIsSafe(c.value);
    }
  }

  // ------------------------------------------------------------ which calls succeed

  /** The role a call is about, by the texts it carries. */
  ghost predicate AsksForRole(c: RoleCall, role: string) {
    match c
    case GrantSiteRole(_, id, _) =>
      role in ROLES && role != "ServerAdministrator" && NamesSlug(id, ROLES[role])
    case GrantLicense(_, id, _) =>
      || (id == "creator" && role == "Creator") || (id == "explorer" && role == "Explorer")
      || (id == "viewer" && role == "Viewer") || (id == "unlicensed" && role == "Unlicensed")
    case RevokeSiteRole(_, _) => role == "Unlicensed"
    case RevokeLicense(_, _) => role == "Unlicensed"
  }

  lemma RequestedExactly(c: RoleCall, role: string)
    ensures Requested(c) == Some(role) <==> AsksForRole(c, role)
  {
    if c.GrantSiteRole? {
      GrantableExactly(c.entitlementId, role);
    }
  }

  /** An id asks for every role but ServerAdministrator, by its slug. */
  lemma GrantableExactly(id: string, role: string)
    ensures GrantableRole(id) == Some(role)
      <==> role in ROLES && role != "ServerAdministrator" && NamesSlug(id, ROLES[role])
  {
    RolesInjective();
    var slug := ParseEntitlementSlug(id);
    if slug.Some? {
      ParseReads(id, slug.value);
    }
    if role in ROLES {
      ParseReads(id, ROLES[role]);
      assert ROLES[role] in ROLES.Values;
    }
  }

  /**
   A call succeeds exactly if it asks for a role, its request is answered and the user exists; then it sets the
   role.
   */
  lemma RoleCallSucceeds(before: Site, c: RoleCall)
    ensures var (after, ok) := RoleStep(before, c);
      && (ok <==> (exists role :: AsksForRole(c, role)) && !c.outage && c.user in before.users)
      && (forall role :: ok && AsksForRole(c, role) ==> after == before.(users := before.users[c.user := role]))
      && (!ok ==> after == before)
  {
    forall role { RequestedExactly(c, role); }
    if Requested(c).Some? {
      assert AsksForRole(c, Requested(c).value);
    }
  }

  /**
   Granting the printed entitlement of any known role to a user of the site succeeds, and then sets that role, if
   and only if the role is not ServerAdministrator.
   */
  lemma SiteRoleRoundTrip(before: Site, site: ResourceId, role: string, user: string)
    requires role in ROLES && user in before.users && Entitlement(site, ROLES[role]).ColonFree()
    ensures var (after, ok) := RoleStep(before, GrantSiteRole(user, Entitlement(site, ROLES[role]).Id(), false));
      && (ok <==> role != "ServerAdministrator")
      && (ok ==> after.users == before.users[user := role])
  {
    var e := Entitlement(site, ROLES[role]);
    ParseInvertsPrint(e);
    RolesInjective();
    assert ROLES[role] in ROLES.Values;
  }
}
