/**
 Site roles and the four license tiers: which roles consume a tier, and the grants a sync emits for
 site roles and licenses.
 */
module Roles {

  import opened Wrappers
  import opened Sequences
  import opened Capabilities
  import opened Grants
  import opened Tableau
  import opened Paging

  /** roles: API role names and the slugs they are shown under. */
  const ROLES: SlugMap := map[
    "SiteAdministrator" := "site administrator",
    "SiteAdministratorCreator" := "site administrator creator",
    "SiteAdministratorExplorer" := "site administrator explorer",
    "ServerAdministrator" := "server administrator",
    "Creator" := "creator",
    "Explorer" := "explorer",
    "ExplorerCanPublish" := "explorer can publish",
    "Viewer" := "viewer",
    "Unlicensed" := "unlicensed"]

  const LICENSES: seq<string> := ["Creator", "Explorer", "Viewer", "Unlicensed"]

  /** RolesPerLicense; other names have no roles. */
  function RolesPerLicense(license: string): seq<string> {
    if license == "Creator" then ["Creator", "SiteAdministratorCreator", "ServerAdministrator"]
    else if license == "Explorer" then
      ["Explorer", "SiteAdministratorExplorer", "ExplorerCanPublish", "SiteAdministrator"]
    else if license == "Viewer" then ["Viewer"]
    else if license == "Unlicensed" then ["Unlicensed"]
    else []
  }

  /** unsupportedFilterRoles. */
  predicate UnsupportedInFilter(role: string) {
    role == "SiteAdministrator"
  }

  // ---------------------------------------------------------------------- filters

  /** A site-role filter expression: "siteRole:eq:r", "siteRole:in:[r,...]", or none. */
  datatype RoleFilter = NoFilter | RoleEq(role: string) | RoleIn(roles: seq<string>)

  function SiteRoleFilter(roles: seq<string>): RoleFilter {
    if |roles| == 1 then RoleEq(roles[0]) else RoleIn(roles)
  }

  function Supported(): string -> bool {
    role => !UnsupportedInFilter(role)
  }

  function HasRole(roles: seq<string>): UserRecord -> bool {
    (u: UserRecord) => u.siteRole in roles
  }

  /** The users the server returns under a filter. */
  function Passes(filter: RoleFilter): UserRecord -> bool {
    (u: UserRecord) =>
      match filter
      case NoFilter => true
      case RoleEq(role) => u.siteRole == role
      case RoleIn(roles) => u.siteRole in roles
  }

  /** The filters the server understands: the legacy role SiteAdministrator is not named. */
  predicate Understood(filter: RoleFilter) {
    match filter
    case NoFilter => true
    case RoleEq(role) => role != "SiteAdministrator"
    case RoleIn(roles) => "SiteAdministrator" !in roles
  }

  method FilterableRoles(roles: seq<string>) returns (result: seq<string>)
    ensures result == Filter(Supported(), roles)
  {
    result := [];
    for i := 0 to |roles|
      invariant result == Filter(Supported(), roles[..i])
    {
      FilterMore(Supported(), roles[..i], roles[i]);
      assert roles[..i] + [roles[i]] == roles[..i + 1];
      if !UnsupportedInFilter(roles[i]) {
        result := result + [roles[i]];
      }
    }
    assert roles[..|roles|] == roles;
  }

  // --------------------------------------------------------------- license grants

  /** A user's grant without annotations. */
  predicate IsPlain(g: Grant) {
    g.principal.resourceType == "user" && g.expandable == None && !g.immutable
  }

  function LicenseGrant(resource: ResourceId): UserRecord -> Grant {
    (u: UserRecord) => Grant(Entitlement(resource, MEMBER), User(u.id), None, false)
  }

  /** The grants of a page: one for each user with one of the roles, in order. */
  function LicenseGrants(resource: ResourceId, roles: seq<string>, users: seq<UserRecord>): seq<Grant> {
    Map(LicenseGrant(resource), Filter(HasRole(roles), users))
  }

  /** The paged users list for each filter; None stands for a failed request. */
  type UsersByFilter = RoleFilter -> Option<Pager<string, UserRecord>>

  /** The filter the license builder sends for a list of roles: one only if the server understands every role. */
  function LicenseFilter(roles: seq<string>): RoleFilter {
    if forall r :: r in roles ==> !UnsupportedInFilter(r) then SiteRoleFilter(roles) else NoFilter
  }

  /** Whatever the roles, neither the license walk nor a seat count sends a filter the server does not understand. */
  lemma FiltersAreUnderstood(roles: seq<string>)
    ensures Understood(LicenseFilter(roles))
    ensures roles != [] ==> Understood(SiteRoleFilter(Filter(Supported(), roles)))
  {
    FilterMembers(Supported(), roles);
    var filterable := Filter(Supported(), roles);
    assert forall i :: 0 <= i < |filterable| ==> filterable[i] in filterable;
  }

  /**
   A tier is filtered whenever the server can: only the tier of the legacy role is listed without a filter, and
   it alone is counted without that role. One role is asked for by "eq", several by "in".
   */
  lemma FiltersSent()
    ensures LicenseFilter(RolesPerLicense("Creator"))
      == RoleIn(["Creator", "SiteAdministratorCreator", "ServerAdministrator"])
    ensures LicenseFilter(RolesPerLicense("Explorer")) == NoFilter
    ensures LicenseFilter(RolesPerLicense("Viewer")) == RoleEq("Viewer")
    ensures LicenseFilter(RolesPerLicense("Unlicensed")) == RoleEq("Unlicensed")
  {
    var role := RolesPerLicense("Explorer")[3];
    assert role in RolesPerLicense("Explorer") && UnsupportedInFilter(role);
  }

  /** The filter each capped tier is counted with. */
  function CountFilter(license: string): RoleFilter {
    SiteRoleFilter(Filter(Supported(), RolesPerLicense(license)))
  }

  lemma {:induction false} FilterKeepsAll<T(!new)>(keep: T -> bool, s: seq<T>)
    ensures |Filter(keep, s)| <= |s|
    ensures |Filter(keep, s)| == |s| <==> forall x :: x in s ==> keep(x)
    ensures |Filter(keep, s)| == |s| ==> Filter(keep, s) == s
  {
    if s != [] {
      var init, last := s[..|s| - 1], s[|s| - 1];
      FilterKeepsAll(keep, init);
      assert s == init + [last];
      assert forall x :: x in s <==> x in init || x == last;
    }
  }

  lemma ExplorersCounted()
    ensures CountFilter("Explorer") == RoleIn(["Explorer", "SiteAdministratorExplorer", "ExplorerCanPublish"])
  {
    var explorers := ["Explorer", "SiteAdministratorExplorer", "ExplorerCanPublish"];
    FilterKeepsAll(Supported(), explorers);
    FilterMore(Supported(), explorers, "SiteAdministrator");
    assert RolesPerLicense("Explorer") == explorers + ["SiteAdministrator"];
  }

  lemma CountFiltersSent()
    ensures CountFilter("Creator") == RoleIn(["Creator", "SiteAdministratorCreator", "ServerAdministrator"])
    ensures CountFilter("Explorer") == RoleIn(["Explorer", "SiteAdministratorExplorer", "ExplorerCanPublish"])
    ensures CountFilter("Viewer") == RoleEq("Viewer")
  {
    CountsAll(RolesPerLicense("Creator"));
    CountsAll(RolesPerLicense("Viewer"));
    ExplorersCounted();
  }

  lemma CountsAll(roles: seq<string>)
    requires "SiteAdministrator" !in roles
    ensures SiteRoleFilter(Filter(Supported(), roles)) == SiteRoleFilter(roles)
  {
    FilterKeepsAll(Supported(), roles);
  }

  /** licenseBuilder.Grants for one page; the result is the grants and the next token. */
  method LicenseGrantsPage(resource: ResourceId, displayName: string, getUsers: UsersByFilter, token: string)
    returns (result: Option<(seq<Grant>, string)>)
    ensures var roles := RolesPerLicense(displayName);
      var reply := getUsers(LicenseFilter(roles));
      result ==
        if roles == [] then Some(([], ""))
        else if reply.None? then None
        else Some((LicenseGrants(resource, roles, reply.value.page(token)), reply.value.next(token)))
  {
    var allRoles := RolesPerLicense(displayName);
    if |allRoles| == 0 {
      return Some(([], ""));
    }
    var filterable := FilterableRoles(allRoles);
    FilterKeepsAll(Supported(), allRoles);
    var filter := NoFilter;
    if |filterable| == |allRoles| && |filterable| > 0 {
      filter := SiteRoleFilter(filterable);
    }
    var reply := getUsers(filter);
    if reply.None? {
      return None;
    }
    var rv := LicenseGrantsLoop(resource, allRoles, reply.value.page(token));
    return Some((rv, reply.value.next(token)));
  }

  lemma LicenseGrantsMore(resource: ResourceId, roles: seq<string>, users: seq<UserRecord>, i: nat)
    requires i < |users|
    ensures LicenseGrants(resource, roles, users[..i + 1])
      == LicenseGrants(resource, roles, users[..i])
        + if users[i].siteRole in roles then [LicenseGrant(resource)(users[i])] else []
  {
    FilterMore(HasRole(roles), users[..i], users[i]);
    assert users[..i] + [users[i]] == users[..i + 1];
    MapConcat(LicenseGrant(resource), Filter(HasRole(roles), users[..i]), [users[i]]);
  }

  method LicenseGrantsLoop(resource: ResourceId, roles: seq<string>, users: seq<UserRecord>) returns (rv: seq<Grant>)
    ensures rv == LicenseGrants(resource, roles, users)
    ensures forall g :: g in rv ==> g.entitlement == Entitlement(resource, "member") && IsPlain(g)
  {
    rv := [];
    for i := 0 to |users|
      invariant rv == LicenseGrants(resource, roles, users[..i])
    {
      var user := users[i];
      LicenseGrantsMore(resource, roles, users, i);
      if user.siteRole !in roles {
        continue;
      }
      rv := rv + [LicenseGrant(resource)(user)];
    }
    assert users[..|users|] == users;
  }

  /**
   A walk under any filter, with the client-side role check, keeps the same users in the same order as an
   unfiltered walk exactly when the filter lets every user with one of the roles pass.
   */
  lemma FilteredWalk(roles: seq<string>, filter: RoleFilter, users: seq<UserRecord>, pager: Pager<string,
                     UserRecord>, k: nat)
    requires Delivers(pager, "", Filter(Passes(filter), users), k)
    ensures Flatten(FilterEach(HasRole(roles), Pages(pager, "", k))) == Filter(HasRole(roles), users)
      <==> forall u :: u in users && u.siteRole in roles ==> Passes(filter)(u)
  {
    KeepsExactly(pager, "", Filter(Passes(filter), users), k, HasRole(roles));
    FilterTwice(Passes(filter), HasRole(roles), users);
  }

  /** The grants LicenseGrantsPage returns on each page of a walk. */
  function LicensePages(resource: ResourceId, roles: seq<string>, pager: Pager<string, UserRecord>, k: nat)
    : seq<seq<Grant>>
  {
    seq(k, i requires 0 <= i < k => LicenseGrants(resource, roles, pager.page(TokenAt(pager, "", i))))
  }

  lemma LicensePagesAre(resource: ResourceId, roles: seq<string>, pager: Pager<string, UserRecord>, k: nat)
    ensures LicensePages(resource, roles, pager, k)
      == MapEach(LicenseGrant(resource), FilterEach(HasRole(roles), Pages(pager, "", k)))
  {
    var pages := FilterEach(HasRole(roles), Pages(pager, "", k));
    forall i | 0 <= i < k
      ensures LicensePages(resource, roles, pager, k)[i] == MapEach(LicenseGrant(resource), pages)[i]
    {
      assert pages[i] == Filter(HasRole(roles), pager.page(TokenAt(pager, "", i)));
    }
  }

  /** The filter the builder chooses lets every user with one of the roles pass. */
  lemma LicenseFilterKeeps(roles: seq<string>, users: seq<UserRecord>)
    ensures Filter(HasRole(roles), Filter(Passes(LicenseFilter(roles)), users)) == Filter(HasRole(roles), users)
  {
    FilterTwice(Passes(LicenseFilter(roles)), HasRole(roles), users);
  }

  /**
   The filter the builder chooses preserves meaning for every list of roles and users: over all pages the
   filtered walk emits one grant for each user with one of the roles, in the order of the whole listing.
   */
  lemma LicenseWalk(resource: ResourceId, roles: seq<string>, users: seq<UserRecord>, pager: Pager<string,
                    UserRecord>, k: nat)
    requires Delivers(pager, "", Filter(Passes(LicenseFilter(roles)), users), k)
    ensures Flatten(LicensePages(resource, roles, pager, k)) == LicenseGrants(resource, roles, users)
  {
    EmitsExactly(pager, "", Filter(Passes(LicenseFilter(roles)), users), k, HasRole(roles), LicenseGrant(resource));
    LicenseFilterKeeps(roles, users);
    LicensePagesAre(resource, roles, pager, k);
  }

  /**
   Had the builder filtered a tier by its filterable roles regardless, it would lose grants exactly when
   some user holds an unfilterable role of the tier.
   */
  lemma FilteringRegardlessLoses(roles: seq<string>, users: seq<UserRecord>, pager: Pager<string, UserRecord>, k: nat)
    requires Delivers(pager, "", Filter(Passes(SiteRoleFilter(Filter(Supported(), roles))), users), k)
    ensures Flatten(FilterEach(HasRole(roles), Pages(pager, "", k))) == Filter(HasRole(roles), users)
      <==> forall u :: u in users && u.siteRole in roles ==> u.siteRole != "SiteAdministrator"
  {
    var filterable := Filter(Supported(), roles);
    FilterMembers(Supported(), roles);
    assert forall u :: Passes(SiteRoleFilter(filterable))(u) <==> u.siteRole in filterable;
    FilteredWalk(roles, SiteRoleFilter(filterable), users, pager, k);
  }

  // ------------------------------------------------------------- site role grants

  function KnownRole(roles: SlugMap): UserRecord -> bool {
    (u: UserRecord) => u.siteRole in roles
  }

  /** The grant of a user's site role; an unknown role reads as "". */
  function SiteGrant(roles: SlugMap, site: ResourceId): UserRecord -> Grant {
    (u: UserRecord) =>
      Grant(Entitlement(site, if u.siteRole in roles then roles[u.siteRole] else ""), User(u.id), None, false)
  }

  /** The grants of a page: one for each user with a known role, in order. */
  function SiteGrants(roles: SlugMap, site: ResourceId, users: seq<UserRecord>): seq<Grant> {
    Map(SiteGrant(roles, site), Filter(KnownRole(roles), users))
  }

  lemma SiteGrantsMore(roles: SlugMap, site: ResourceId, users: seq<UserRecord>, i: nat)
    requires i < |users|
    ensures SiteGrants(roles, site, users[..i + 1])
      == SiteGrants(roles, site, users[..i])
        + if users[i].siteRole in roles then [SiteGrant(roles, site)(users[i])] else []
  {
    FilterMore(KnownRole(roles), users[..i], users[i]);
    assert users[..i] + [users[i]] == users[..i + 1];
    MapConcat(SiteGrant(roles, site), Filter(KnownRole(roles), users[..i]), [users[i]]);
  }

  /** The loop of siteBuilder.Grants over one page: one grant per user with a known role, in order. */
  method SiteGrantsLoop(roles: SlugMap, site: ResourceId, users: seq<UserRecord>) returns (rv: seq<Grant>)
    ensures rv == SiteGrants(roles, site, users)
    ensures forall g :: g in rv ==> g.entitlement.resource == site && IsPlain(g)
  {
    rv := [];
    for i := 0 to |users|
      invariant rv == SiteGrants(roles, site, users[..i])
    {
      var user := users[i];
      SiteGrantsMore(roles, site, users, i);
      if user.siteRole !in roles {
        continue;
      }
      rv := rv + [SiteGrant(roles, site)(user)];
    }
    assert users[..|users|] == users;
  }

  /** The grants the site builder returns on each page of a walk. */
  function SitePages(roles: SlugMap, site: ResourceId, pager: Pager<string, UserRecord>, k: nat): seq<seq<Grant>> {
    seq(k, i requires 0 <= i < k => SiteGrants(roles, site, pager.page(TokenAt(pager, "", i))))
  }

  /** Over all pages of a walk the site builder emits one grant for each user with a known role, in order. */
  lemma SiteWalk(roles: SlugMap, site: ResourceId, users: seq<UserRecord>, pager: Pager<string, UserRecord>, k: nat)
    requires Delivers(pager, "", users, k)
    ensures Flatten(SitePages(roles, site, pager, k)) == SiteGrants(roles, site, users)
  {
    EmitsExactly(pager, "", users, k, KnownRole(roles), SiteGrant(roles, site));
    assert SitePages(roles, site, pager, k)
      == MapEach(SiteGrant(roles, site), FilterEach(KnownRole(roles), Pages(pager, "", k)));
  }

  // -------------------------------------------------------------------- partition

  /** The tier a role consumes. */
  function TierOf(role: string): Option<string> {
    if role in ["Creator", "SiteAdministratorCreator", "ServerAdministrator"] then Some("Creator")
    else if role in ["Explorer", "SiteAdministratorExplorer", "ExplorerCanPublish", "SiteAdministrator"]
      then Some("Explorer")
    else if role == "Viewer" then Some("Viewer")
    else if role == "Unlicensed" then Some("Unlicensed")
    else None
  }

  /** The tiers partition the known roles: each known role is in exactly one tier, and tiers hold known roles only. */
  lemma TiersPartitionRoles(role: string)
    ensures forall l :: l in LICENSES ==> (role in RolesPerLicense(l) <==> TierOf(role) == Some(l))
    ensures TierOf(role).Some? ==> TierOf(role).value in LICENSES
    ensures TierOf(role).Some? <==> role in ROLES
  {
  }

  /** How many grants a full walk emits for a license. */
  function LicenseCount(license: string, users: seq<UserRecord>): nat {
    |Filter(HasRole(RolesPerLicense(license)), users)|
  }

  /**
   Over any population the four tiers' grants add up to the site-role grants: each user with a known role
   has exactly one of each.
   */
  lemma {:induction false} GrantCountsAgree(users: seq<UserRecord>)
    ensures LicenseCount("Creator", users) + LicenseCount("Explorer", users)
        + LicenseCount("Viewer", users) + LicenseCount("Unlicensed", users)
      == |Filter(KnownRole(ROLES), users)|
  {
    if users != [] {
      var u := users[|users| - 1];
      GrantCountsAgree(users[..|users| - 1]);
      TiersPartitionRoles(u.siteRole);
      assert LICENSES[0] in LICENSES && LICENSES[1] in LICENSES && LICENSES[2] in LICENSES && LICENSES[3] in LICENSES;
    }
  }

  /** A listing names each user once. */
  ghost predicate DistinctIds(users: seq<UserRecord>) {
    forall i, j :: 0 <= i < j < |users| ==> users[i].id != users[j].id
  }

  /** No grant for a user nobody in the listing shares an id with. */
  lemma NoGrantFor(emit: UserRecord -> Grant, keep: UserRecord -> bool, users: seq<UserRecord>, u: UserRecord)
    requires forall a, b :: emit(a) == emit(b) ==> a.id == b.id
    requires forall i :: 0 <= i < |users| ==> users[i].id != u.id
    ensures multiset(Map(emit, Filter(keep, users)))[emit(u)] == 0
  {
    FilterMembers(keep, users);
    var kept := Filter(keep, users);
    assert forall i :: 0 <= i < |kept| ==> kept[i] in users;
    assert emit(u) !in Map(emit, kept);
  }

  lemma {:induction false} OneGrantFor(emit: UserRecord -> Grant, keep: UserRecord -> bool,
                                       users: seq<UserRecord>, u: UserRecord)
    requires forall a, b :: emit(a) == emit(b) ==> a.id == b.id
    requires DistinctIds(users) && u in users
    ensures multiset(Map(emit, Filter(keep, users)))[emit(u)] == if keep(u) then 1 else 0
  {
    var init, last := users[..|users| - 1], users[|users| - 1];
    assert users == init + [last];
    FilterMore(keep, init, last);
    MapConcat(emit, Filter(keep, init), [last]);
    if u == last {
      NoGrantFor(emit, keep, init, u);
    } else {
      OneGrantFor(emit, keep, init, u);
      assert emit(last) != emit(u);
    }
  }

  /**
   A user of the listing gets exactly one license grant if its site role is known, on the tier of that role,
   and none on any other tier; and exactly one site-role grant.
   */
  lemma LicenseIsTier(users: seq<UserRecord>, u: UserRecord, resource: ResourceId, site: ResourceId)
    requires DistinctIds(users) && u in users
    ensures forall l :: l in LICENSES ==>
      multiset(LicenseGrants(resource, RolesPerLicense(l), users))[LicenseGrant(resource)(u)]
        == if TierOf(u.siteRole) == Some(l) then 1 else 0
    ensures multiset(SiteGrants(ROLES, site, users))[SiteGrant(ROLES, site)(u)]
      == if TierOf(u.siteRole).Some? then 1 else 0
  {
    TiersPartitionRoles(u.siteRole);
    forall l | l in LICENSES
      ensures multiset(LicenseGrants(resource, RolesPerLicense(l), users))[LicenseGrant(resource)(u)]
        == if TierOf(u.siteRole) == Some(l) then 1 else 0
    {
      OneGrantFor(LicenseGrant(resource), HasRole(RolesPerLicense(l)), users, u);
    }
    OneGrantFor(SiteGrant(ROLES, site), KnownRole(ROLES), users, u);
  }
}
