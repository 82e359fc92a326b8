/**
 A whole sync: from the server's answers through the Grants methods of every builder to the access that
 expansion ends with.
 */
module WholeSync {

  import opened Wrappers
  import opened Text
  import opened Sequences
  import opened Capabilities
  import opened Grants
  import opened Expander
  import opened Tableau
  import opened InheritedAccess
  import opened Inheritance
  import opened Paging
  import opened ProjectSync
  import opened Builders
  import opened Roles
  import opened RoleProvisioning

  // ------------------------------------------------------------ site roles and licenses

  function SiteResource(site: Site): ResourceId {
    ResourceId("site", site.id)
  }

  function LicenseResource(license: string): ResourceId {
    ResourceId("license", LicenseId(license))
  }

  ghost predicate EmittedOnSite(site: Site, g: Grant) {
    exists u :: u in site.users && site.users[u] in ROLES
                && g == SiteGrant(ROLES, SiteResource(site))(UserRecord(u, site.users[u]))
  }

  ghost predicate EmittedOnLicense(site: Site, license: string, g: Grant) {
    exists u :: u in site.users && TierOf(site.users[u]) == Some(license)
                && g == LicenseGrant(LicenseResource(license))(UserRecord(u, site.users[u]))
  }

  /** The site-role and license grants of a sync. */
  ghost function RoleGrants(site: Site): iset<Grant> {
    iset g | EmittedOnSite(site, g) || exists l :: l in LICENSES && EmittedOnLicense(site, l, g)
  }

  ghost predicate IsRoleEntitlement(site: Site, e: Entitlement) {
    || (e.resource == SiteResource(site) && e.slug in ROLES.Values)
    || (exists l :: l in LICENSES && e == Entitlement(LicenseResource(l), MEMBER))
  }

  ghost function RoleEntitlements(site: Site): iset<Entitlement> {
    iset e | IsRoleEntitlement(site, e)
  }

  /** The user holds the site role the entitlement stands for, or one of the roles of its license. */
  ghost predicate RoleAccess(site: Site, e: Entitlement, who: ResourceId) {
    && who.resourceType == "user" && who.resource in site.users
    && var role := site.users[who.resource];
       || (e.resource == SiteResource(site) && role in ROLES && ROLES[role] == e.slug)
       || (exists l :: l in LICENSES && e == Entitlement(LicenseResource(l), MEMBER) && TierOf(role) == Some(l))
  }

  lemma RoleGrantsAreAccess(site: Site, e: Entitlement, who: ResourceId)
    ensures Direct(RoleGrants(site), e, who) <==> RoleAccess(site, e, who)
  {
    if Direct(RoleGrants(site), e, who) {
      var g :| g in RoleGrants(site) && g.entitlement == e && g.principal == who;
      if !EmittedOnSite(site, g) {
        var l :| l in LICENSES && EmittedOnLicense(site, l, g);
        assert e == Entitlement(LicenseResource(l), MEMBER);
      }
    }
    if RoleAccess(site, e, who) {
      var u := UserRecord(who.resource, site.users[who.resource]);
      if e.resource == SiteResource(site) {
        var g := SiteGrant(ROLES, SiteResource(site))(u);
        assert EmittedOnSite(site, g) && g.entitlement == e && g.principal == who;
      } else {
        var l :| l in LICENSES && e == Entitlement(LicenseResource(l), MEMBER) && TierOf(u.siteRole) == Some(l);
        var g := LicenseGrant(LicenseResource(l))(u);
        assert EmittedOnLicense(site, l, g) && g.entitlement == e && g.principal == who;
      }
    }
  }

  // ------------------------------------------------- they are leaves of the expansion

  lemma RoleSlugColonFree(r: string)
    requires r in ROLES
    ensures ColonFree(ROLES[r])
  {
    assert ':' !in ROLES[r];
  }

  lemma LicenseIdColonFree(l: string)
    requires l in LICENSES
    ensures ColonFree(LicenseId(l))
  {
    LicenseIdsTranslateBack();
    assert forall id :: id in LICENSE_NAMES ==> ':' !in id;
    assert ':' !in LicenseId(l);
  }

  lemma RoleEntitlementColonFree(site: Site, e: Entitlement)
    requires site.WellFormed() && IsRoleEntitlement(site, e)
    ensures e.ColonFree() && (e.resource.resourceType == "site" || e.resource.resourceType == "license")
  {
    if e.resource == SiteResource(site) && e.slug in ROLES.Values {
      var r :| r in ROLES && ROLES[r] == e.slug;
      RoleSlugColonFree(r);
    } else {
      var l :| l in LICENSES && e == Entitlement(LicenseResource(l), MEMBER);
      LicenseIdColonFree(l);
    }
  }

  lemma RoleIdsApart(site: Site, src: Entitlement, e: Entitlement)
    requires site.WellFormed() && IsRoleEntitlement(site, e)
    requires src.resource.resourceType in ["group", "project", "workbook"]
    ensures src.Id() != e.Id()
  {
    RoleEntitlementColonFree(site, e);
    if src.Id() == e.Id() {
      IdInjective(src, e);
    }
  }

  lemma NobodyNamesRoles(site: Site, t: SlugTables, g: Grant, e: Entitlement)
    requires Coherent(t) && site.WellFormed() && Emitted(site, t, g) && g.expandable.Some?
    requires IsRoleEntitlement(site, e)
    ensures e.Id() !in g.expandable.value.entitlementIds
  {
    var src := ReferenceKind(site, t, g);
    RoleIdsApart(site, src, e);
  }

  lemma RoleGrantShape(site: Site, h: Grant)
    requires h in RoleGrants(site)
    ensures h.expandable.None? && h.entitlement.resource.resourceType in ["site", "license"]
  {
    if !EmittedOnSite(site, h) {
      var l :| l in LICENSES && EmittedOnLicense(site, l, h);
    }
  }

  lemma SyncedShape(site: Site, t: SlugTables, g: Grant)
    requires Emitted(site, t, g)
    ensures g.entitlement.resource.resourceType in ["project", "workbook", "view", "group"]
  {
  }

  lemma UndeclaredShape(site: Site, t: SlugTables, e: Entitlement)
    requires e.resource.resourceType in ["site", "license"]
    ensures e !in Declared(site, t)
  {
  }

  lemma RolesAreLeaves(site: Site, t: SlugTables)
    requires Coherent(t) && site.WellFormed()
    ensures AreLeaves(Synced(site, t), Declared(site, t), RoleGrants(site), RoleEntitlements(site))
  {
    var grants, declared, leaves := Synced(site, t), Declared(site, t), RoleGrants(site);
    forall h | h in leaves ensures h.expandable.None? && h.entitlement !in declared {
      RoleGrantShape(site, h);
      UndeclaredShape(site, t, h.entitlement);
    }
    forall g, h | g in grants && h in leaves ensures g.entitlement != h.entitlement {
      SyncedShape(site, t, g);
      RoleGrantShape(site, h);
    }
    forall g, e | g in grants && g.expandable.Some? && e in RoleEntitlements(site)
      ensures e.Id() !in g.expandable.value.entitlementIds
    {
      NobodyNamesRoles(site, t, g, e);
    }
  }

  // ---------------------------------------------------- from answers to emitted grants

  /** What the server answers to the requests of a whole sync. */
  datatype Responses = Responses(
    permissions: RuleKey -> seq<GranteeCapabilities>,
    members: string -> Pager<string, UserRecord>,
    workbooks: WorkbooksByName,
    users: RoleFilter -> Pager<string, UserRecord>)

  /** What those answers amount to, page by page taken together. */
  datatype SiteListing = SiteListing(
    members: string -> seq<UserRecord>,
    workbooks: seq<WorkbookRecord>,
    users: seq<UserRecord>)

  /** The paged getter brings the records, in some number of pages. */
  ghost predicate Brings<T(!new)>(pager: Pager<string, T>, records: seq<T>) {
    exists k :: Delivers(pager, "", records, k)
  }

  /** The users listing holds each user of the site with its role. */
  ghost predicate ListsUsers(site: Site, users: seq<UserRecord>) {
    forall id, role :: UserRecord(id, role) in users <==> id in site.users && site.users[id] == role
  }

  /** The stores whose rules a sync asks for: an inherited view's, and an unsynced workbook's, are not among them. */
  predicate IsAsked(site: Site, key: RuleKey) {
    match key.store
    case ProjectRules => key.id in site.projects
    case DefaultWorkbookRules => key.id in site.projects
    case WorkbookRules => site.SyncsWorkbook(key.id)
    case ViewRules => site.SyncsView(key.id) && !site.ShowsTabs(site.views[key.id])
  }

  /** The user filters a sync sends. */
  predicate IsSent(filter: RoleFilter) {
    filter == NoFilter || exists license :: license in LICENSES && filter == LicenseFilter(RolesPerLicense(license))
  }

  /** The project's workbooks are listed by name. */
  predicate IsListed(site: Site, p: string) {
    p in site.projects && WalksWorkbooks(ProjectResourceOf(p, site.projects[p]))
  }

  /**
   The answers to the requests a sync makes, and only those, are faithful to the site, in any order and
   grouping and with any page sizes.
   */
  ghost predicate AnswersFor(site: Site, r: Responses, l: SiteListing) {
    && (forall key :: IsAsked(site, key) ==> Lists(r.permissions(key), site.RulesAt(key)))
    && (forall group :: group in site.groups ==>
          ListsMembers(site, group, l.members(group)) && Brings(r.members(group), l.members(group)))
    && ListsWorkbooks(site, l.workbooks)
    && (forall p :: IsListed(site, p) ==>
          Brings(r.workbooks(site.projects[p].name), Matching(site.projects[p].name, l.workbooks)))
    && ListsUsers(site, l.users)
    && (forall f :: IsSent(f) ==> Brings(r.users(f), Filter(Passes(f), l.users)))
  }

  /** No filter a sync sends names a role the server does not know. */
  lemma SentIsUnderstood(filter: RoleFilter)
    requires IsSent(filter)
    ensures Understood(filter)
  {
    if filter != NoFilter {
      var license :| license in LICENSES && filter == LicenseFilter(RolesPerLicense(license));
      FiltersAreUnderstood(RolesPerLicense(license));
    }
  }

  function RepliesFor(r: Responses, p: string): Replies {
    Replies(Some(r.permissions(RuleKey(ProjectRules, p))), Some(r.permissions(RuleKey(DefaultWorkbookRules, p))),
      r.workbooks, Never())
  }

  /**
   What `Drive` promises of a walk in which no call fails: its calls emit `rv`, over j pages if workbooks are
   listed.
   */
  ghost predicate Drives(p: ProjectResource, t: SlugTables, replies: Replies, j: nat, rv: seq<Grant>)
    requires replies.access.Some? && replies.defaults.Some?
  {
    && (WalksWorkbooks(p) ==> EndsAfter(GetterOf(p, replies), "", replies.fails, j, true))
    && IsWalk(p, t, replies, Received(GetterOf(p, replies), j), rv)
  }

  /** The calls of the walk of project `p` may return `g`. */
  ghost predicate ProjectEmits(site: Site, t: SlugTables, r: Responses, p: string, g: Grant)
    requires p in site.projects
  {
    exists j, rv :: Drives(ProjectResourceOf(p, site.projects[p]), t, RepliesFor(r, p), j, rv) && g in rv
  }

  ghost predicate ViewEmits(site: Site, t: SlugTables, r: Responses, v: string, g: Grant)
    requires site.SyncsView(v)
  {
    var w := site.views[v];
    exists rv :: g in rv && ViewReply(v, Some(Workbook(w)), t, Some(site.workbooks[w].showTabs),
      Some(r.permissions(RuleKey(ViewRules, v))), Some(rv))
  }

  /** The pages of the group's walk hold `g`. */
  ghost predicate GroupEmits(site: Site, r: Responses, l: SiteListing, group: string, g: Grant)
    requires group in site.groups
  {
    exists k :: Delivers(r.members(group), "", l.members(group), k)
      && g in Flatten(GroupPages(group, site.groups[group] == ALL_USERS, r.members(group), k))
  }

  /** The pages of the site's walk hold `g`. */
  ghost predicate SiteEmits(site: Site, r: Responses, l: SiteListing, g: Grant) {
    exists k :: Delivers(r.users(NoFilter), "", Filter(Passes(NoFilter), l.users), k)
      && g in Flatten(SitePages(ROLES, SiteResource(site), r.users(NoFilter), k))
  }

  /** The pages of a license's walk, under the filter the builder chooses, hold `g`. */
  ghost predicate LicenseEmits(r: Responses, l: SiteListing, license: string, g: Grant) {
    var roles := RolesPerLicense(license);
    exists k :: Delivers(r.users(LicenseFilter(roles)), "", Filter(Passes(LicenseFilter(roles)), l.users), k)
      && g in Flatten(LicensePages(LicenseResource(license), roles, r.users(LicenseFilter(roles)), k))
  }

  /** Some permission builder's Grants method, run on the server's answers, may return `g`. */
  ghost predicate PermissionBuilderEmits(site: Site, t: SlugTables, r: Responses, l: SiteListing, g: Grant) {
    || (exists p :: p in site.projects && ProjectEmits(site, t, r, p, g))
    || (exists w :: site.SyncsWorkbook(w)
          && g in GrantsOf(Workbook(w), r.permissions(RuleKey(WorkbookRules, w)), t.workbook))
    || (exists v :: site.SyncsView(v) && ViewEmits(site, t, r, v, g))
    || (exists group :: group in site.groups && GroupEmits(site, r, l, group, g))
  }

  /** Some builder's Grants method, run on the server's answers, may return `g`. */
  ghost predicate SomeBuilderEmits(site: Site, t: SlugTables, r: Responses, l: SiteListing, g: Grant) {
    || PermissionBuilderEmits(site, t, r, l, g)
    || SiteEmits(site, r, l, g)
    || (exists license :: license in LICENSES && LicenseEmits(r, l, license, g))
  }

  // ----------------------------------------------------------------- part by part

  /** A grant of the project itself, or one a workbook covered by its walk inherits. */
  ghost predicate IsProjectPart(site: Site, t: SlugTables, l: SiteListing, p: string, g: Grant)
    requires p in site.projects
  {
    || EmittedOnProject(site, t, p, g)
    || (exists record :: CoveredBy(site, l.workbooks, p, record)
                         && g in InheritedSet(Workbook(record.id), Project(p), t.workbook, t.defaultWorkbook))
  }

  /** The pages the project's walk receives hold the filtered listing. */
  lemma WalkReceives(site: Site, r: Responses, l: SiteListing, p: string, j: nat)
    requires AnswersFor(site, r, l) && IsListed(site, p)
    requires EndsAfter(r.workbooks(site.projects[p].name), "", Never(), j, true)
    ensures Received(r.workbooks(site.projects[p].name), j) == Matching(site.projects[p].name, l.workbooks)
  {
    var name := site.projects[p].name;
    var k :| Delivers(r.workbooks(name), "", Matching(name, l.workbooks), k);
    DeliversEnds(r.workbooks(name), "", Matching(name, l.workbooks), k);
    EndsOnce(r.workbooks(name), "", Never(), j, true, k, true);
  }

  lemma WalkInherits(site: Site, t: SlugTables, r: Responses, l: SiteListing, p: string, j: nat, rv: seq<Grant>)
    requires AnswersFor(site, r, l) && p in site.projects
    requires Drives(ProjectResourceOf(p, site.projects[p]), t, RepliesFor(r, p), j, rv)
    ensures var info := ProjectResourceOf(p, site.projects[p]);
      IsWalk(info, t, RepliesFor(r, p), Matching(info.displayName, l.workbooks), rv)
  {
    if IsListed(site, p) {
      WalkReceives(site, r, l, p, j);
    }
  }

  lemma WalkHolds(site: Site, t: SlugTables, r: Responses, l: SiteListing, p: string, rv: seq<Grant>, g: Grant)
    requires AnswersFor(site, r, l) && p in site.projects
    requires var info := ProjectResourceOf(p, site.projects[p]);
      IsWalk(info, t, RepliesFor(r, p), Matching(info.displayName, l.workbooks), rv)
    ensures g in rv <==> IsProjectPart(site, t, l, p, g)
  {
    var info, replies := ProjectResourceOf(p, site.projects[p]), RepliesFor(r, p);
    var ws := Inheriting(info, Matching(info.displayName, l.workbooks));
    var own, rest :| FirstPhase(info, t, replies.access.value, replies.defaults.value, own)
      && WorkbookPhase(info, t, ws, rest) && rv == own + rest;
    assert IsAsked(site, RuleKey(ProjectRules, p)) && IsAsked(site, RuleKey(DefaultWorkbookRules, p));
    FirstPhaseIsEmitted(site, t, p, replies.access.value, replies.defaults.value, own, g);
    PhaseMembers(info, t, ws, rest, g);
    CoveredIs(site, l.workbooks, p);
  }

  lemma CoveredIs(site: Site, workbooks: seq<WorkbookRecord>, p: string)
    requires p in site.projects
    ensures var info := ProjectResourceOf(p, site.projects[p]);
      forall record ::
        record in Inheriting(info, Matching(info.displayName, workbooks)) <==> CoveredBy(site, workbooks, p, record)
  {
    var info := ProjectResourceOf(p, site.projects[p]);
    FilterMembers(InProjectNamed(info.displayName), workbooks);
    FilterMembers(InProject(p), Matching(info.displayName, workbooks));
  }

  lemma SomeWalk(p: ProjectResource, t: SlugTables, replies: Replies, j: nat) returns (rv: seq<Grant>)
    requires replies.access.Some? && replies.defaults.Some?
    requires WalksWorkbooks(p) ==> EndsAfter(GetterOf(p, replies), "", replies.fails, j, true)
    ensures Drives(p, t, replies, j, rv)
  {
    var own := SomeFirstPhase(p, t, replies.access.value, replies.defaults.value);
    var rest := SomeWorkbookPhase(p, t, Inheriting(p, Received(GetterOf(p, replies), j)));
    rv := own + rest;
  }

  /** A faithful server lets the walk of every listed project come to its end. */
  lemma WalkEnds(site: Site, r: Responses, l: SiteListing, p: string) returns (j: nat)
    requires AnswersFor(site, r, l)
    ensures IsListed(site, p) ==> EndsAfter(r.workbooks(site.projects[p].name), "", Never(), j, true)
  {
    j := 0;
    if IsListed(site, p) {
      var name := site.projects[p].name;
      j :| Delivers(r.workbooks(name), "", Matching(name, l.workbooks), j);
      DeliversEnds(r.workbooks(name), "", Matching(name, l.workbooks), j);
    }
  }

  lemma ProjectPart(site: Site, t: SlugTables, r: Responses, l: SiteListing, p: string, g: Grant)
    requires AnswersFor(site, r, l) && p in site.projects
    ensures ProjectEmits(site, t, r, p, g) <==> IsProjectPart(site, t, l, p, g)
  {
    var info, replies := ProjectResourceOf(p, site.projects[p]), RepliesFor(r, p);
    var k := WalkEnds(site, r, l, p);
    var some := SomeWalk(info, t, replies, k);
    forall j, rv | Drives(info, t, replies, j, rv) ensures g in rv <==> IsProjectPart(site, t, l, p, g) {
      WalkInherits(site, t, r, l, p, j, rv);
      WalkHolds(site, t, r, l, p, rv, g);
    }
  }

  lemma ViewPart(site: Site, t: SlugTables, r: Responses, l: SiteListing, v: string, g: Grant)
    requires AnswersFor(site, r, l) && site.SyncsView(v)
    ensures ViewEmits(site, t, r, v, g) <==> EmittedOnView(site, t, v, g)
  {
    var w, permissions := site.views[v], r.permissions(RuleKey(ViewRules, v));
    var parent, showTabs := Some(Workbook(w)), Some(site.workbooks[w].showTabs);
    if site.ShowsTabs(w) {
      forall rv | ListsProxies(rv, View(v), Workbook(w), t.view, t.workbook)
        ensures g in rv <==> g in InheritedSet(View(v), Workbook(w), t.view, t.workbook)
      {
        InheritedMembers(rv, View(v), Workbook(w), t.view, t.workbook);
      }
      var some := SomeProxies(View(v), Workbook(w), t.view, t.workbook);
      assert ViewReply(v, parent, t, showTabs, Some(permissions), Some(some));
    } else {
      GrantsAreRules(View(v), permissions, site.RulesAt(RuleKey(ViewRules, v)), t.view, g);
      assert ViewReply(v, parent, t, showTabs, Some(permissions), Some(GrantsOf(View(v), permissions, t.view)));
    }
  }

  lemma GroupPart(site: Site, r: Responses, l: SiteListing, group: string, g: Grant)
    requires group in site.groups && ListsMembers(site, group, l.members(group))
    requires Brings(r.members(group), l.members(group))
    ensures GroupEmits(site, r, l, group, g) <==> EmittedOnGroup(site, group, g)
  {
    MemberGrantsAreEmitted(site, group, l.members(group), g);
    forall k | Delivers(r.members(group), "", l.members(group), k)
      ensures g in Flatten(GroupPages(group, site.groups[group] == ALL_USERS, r.members(group), k))
        <==> EmittedOnGroup(site, group, g)
    {
      GroupWalk(group, site.groups[group] == ALL_USERS, l.members(group), r.members(group), k);
    }
  }

  /** Which users a listing keeps under a test on roles. */
  lemma KeptUsers(site: Site, users: seq<UserRecord>, keep: UserRecord -> bool, emit: UserRecord -> Grant, g: Grant)
    requires ListsUsers(site, users)
    ensures g in Map(emit, Filter(keep, users)) <==>
      exists u :: u in site.users && keep(UserRecord(u, site.users[u])) && g == emit(UserRecord(u, site.users[u]))
  {
    var kept := Filter(keep, users);
    FilterMembers(keep, users);
    if g in Map(emit, kept) {
      var i :| 0 <= i < |kept| && Map(emit, kept)[i] == g;
      assert kept[i] in users && kept[i] == UserRecord(kept[i].id, kept[i].siteRole);
    }
    if u :| u in site.users && keep(UserRecord(u, site.users[u])) && g == emit(UserRecord(u, site.users[u])) {
      assert UserRecord(u, site.users[u]) in kept;
      var i :| 0 <= i < |kept| && kept[i] == UserRecord(u, site.users[u]);
      assert Map(emit, kept)[i] == g;
    }
  }

  lemma SitePart(site: Site, r: Responses, l: SiteListing, g: Grant)
    requires ListsUsers(site, l.users) && Brings(r.users(NoFilter), Filter(Passes(NoFilter), l.users))
    ensures SiteEmits(site, r, l, g) <==> EmittedOnSite(site, g)
  {
    FilterKeepsAll(Passes(NoFilter), l.users);
    KeptUsers(site, l.users, KnownRole(ROLES), SiteGrant(ROLES, SiteResource(site)), g);
    forall k | Delivers(r.users(NoFilter), "", l.users, k)
      ensures g in Flatten(SitePages(ROLES, SiteResource(site), r.users(NoFilter), k)) <==> EmittedOnSite(site, g)
    {
      SiteWalk(ROLES, SiteResource(site), l.users, r.users(NoFilter), k);
    }
  }

  lemma LicensePart(site: Site, r: Responses, l: SiteListing, license: string, g: Grant)
    requires license in LICENSES && ListsUsers(site, l.users)
    requires var f := LicenseFilter(RolesPerLicense(license)); Brings(r.users(f), Filter(Passes(f), l.users))
    ensures LicenseEmits(r, l, license, g) <==> EmittedOnLicense(site, license, g)
  {
    var roles := RolesPerLicense(license);
    var f := LicenseFilter(roles);
    KeptUsers(site, l.users, HasRole(roles), LicenseGrant(LicenseResource(license)), g);
    forall role ensures role in roles <==> TierOf(role) == Some(license) {
      TiersPartitionRoles(role);
    }
    forall k | Delivers(r.users(f), "", Filter(Passes(f), l.users), k)
      ensures g in Flatten(LicensePages(LicenseResource(license), roles, r.users(f), k))
        <==> EmittedOnLicense(site, license, g)
    {
      LicenseWalk(LicenseResource(license), roles, l.users, r.users(f), k);
    }
  }

  lemma PermissionBuildersEmitSync(site: Site, t: SlugTables, r: Responses, l: SiteListing, g: Grant)
    requires AnswersFor(site, r, l)
    ensures PermissionBuilderEmits(site, t, r, l, g) <==> Emitted(site, t, g)
  {
    forall p | p in site.projects
      ensures ProjectEmits(site, t, r, p, g) <==> IsProjectPart(site, t, l, p, g)
    {
      ProjectPart(site, t, r, l, p, g);
    }
    forall w | site.SyncsWorkbook(w)
      ensures g in GrantsOf(Workbook(w), r.permissions(RuleKey(WorkbookRules, w)), t.workbook)
        <==> FromRules(Workbook(w), site.RulesAt(RuleKey(WorkbookRules, w)), t.workbook, g)
    {
      var key := RuleKey(WorkbookRules, w);
      GrantsAreRules(Workbook(w), r.permissions(key), site.RulesAt(key), t.workbook, g);
    }
    forall v | site.SyncsView(v) ensures ViewEmits(site, t, r, v, g) <==> EmittedOnView(site, t, v, g) {
      ViewPart(site, t, r, l, v, g);
    }
    forall group | group in site.groups ensures GroupEmits(site, r, l, group, g) <==> EmittedOnGroup(site, group, g) {
      GroupPart(site, r, l, group, g);
    }
    PartsAreEmitted(site, t, l.workbooks, g);
  }

  // ------------------------------------------------------------------ the whole sync

  /** Everything the builders emit during a sync answered by `r`. */
  ghost function Emission(site: Site, t: SlugTables, r: Responses, l: SiteListing): iset<Grant> {
    iset g | SomeBuilderEmits(site, t, r, l, g)
  }

  /** Everything the builders declare during a sync. */
  ghost function AllDeclared(site: Site, t: SlugTables): iset<Entitlement> {
    Declared(site, t) + RoleEntitlements(site)
  }

  /**
   Run on any faithful answers, the Grants methods of all builders together emit exactly the permission,
   membership, site-role and license grants of the site.
   */
  lemma BuildersEmitSync(site: Site, t: SlugTables, r: Responses, l: SiteListing)
    requires AnswersFor(site, r, l)
    ensures Emission(site, t, r, l) == Synced(site, t) + RoleGrants(site)
  {
    forall g ensures g in Emission(site, t, r, l) <==> g in Synced(site, t) + RoleGrants(site) {
      PermissionBuildersEmitSync(site, t, r, l, g);
      SitePart(site, r, l, g);
      forall license | license in LICENSES
        ensures LicenseEmits(r, l, license, g) <==> EmittedOnLicense(site, license, g)
      {
        LicensePart(site, r, l, license, g);
      }
    }
  }

  /**
   From the server's answers to effective access: expanding what all the builders emit gives every user and
   group exactly the intended access to projects, workbooks, views and groups, and every user its site role and
   license.
   */
  lemma SyncExpandsToAccess(site: Site, t: SlugTables, r: Responses, l: SiteListing)
    requires Coherent(t) && site.WellFormed() && AnswersFor(site, r, l)
    ensures forall e, who :: IsAccount(who) ==>
      (Expanded(Emission(site, t, r, l), AllDeclared(site, t), e, who)
       <==> Access(site, t, e, who) || RoleAccess(site, e, who))
  {
    BuildersEmitSync(site, t, r, l);
    RolesAreLeaves(site, t);
    ExpansionIsInheritedAccess(site, t);
    forall e, who | IsAccount(who)
      ensures Expanded(Emission(site, t, r, l), AllDeclared(site, t), e, who)
        <==> Access(site, t, e, who) || RoleAccess(site, e, who)
    {
      ExpandedWithLeaves(Synced(site, t), Declared(site, t), RoleGrants(site), RoleEntitlements(site), e, who);
      RoleGrantsAreAccess(site, e, who);
    }
  }

  // ---------------------------------------------------------- what is synced, and what is not

  /** Grants are emitted on declared entitlements only. */
  lemma EmittedIsDeclared(site: Site, t: SlugTables, g: Grant)
    requires g in Synced(site, t) + RoleGrants(site)
    ensures g.entitlement in AllDeclared(site, t)
  {
    if Emitted(site, t, g) {
      PermissionIsDeclared(site, t, g);
    } else if EmittedOnSite(site, g) {
      var u :| u in site.users && site.users[u] in ROLES
        && g == SiteGrant(ROLES, SiteResource(site))(UserRecord(u, site.users[u]));
      assert g.entitlement.slug in ROLES.Values;
    } else {
      var l :| l in LICENSES && EmittedOnLicense(site, l, g);
      assert IsRoleEntitlement(site, g.entitlement);
    }
  }
}
