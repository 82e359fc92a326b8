/**
 What a sync emits, what the SDK makes of it, and what access it should amount to.
 */
module InheritedAccess {

  import opened Wrappers
  import opened Capabilities
  import opened Grants
  import opened Tableau

  // ---------------------------------------------------------------- emitted grants

  /** The project whose default permissions a workbook inherits, if any. */
  function LockingProject(site: Site, w: string): Option<string> {
    if w !in site.workbooks || site.workbooks[w].project.None? then None
    else
      var p := site.workbooks[w].project.value;
      if p.id in site.projects
         && LocksWorkbooks(site.projects[p.id].contentPermissions, site.projects[p.id].name)
         && p.name == site.projects[p.id].name // the server matches the name filter against this
      then Some(p.id)
      else None
  }

  ghost predicate EmittedOnProject(site: Site, t: SlugTables, p: string, g: Grant) {
    && p in site.projects
    && (|| FromRules(Project(p), site.RulesAt(RuleKey(ProjectRules, p)), t.project, g)
        || FromRules(Project(p), site.RulesAt(RuleKey(DefaultWorkbookRules, p)), t.defaultWorkbook, g)
        || (site.projects[p].parentProjectId != ""
            && g in InheritedSet(Project(p), Project(site.projects[p].parentProjectId),
                 t.defaultWorkbook, t.defaultWorkbook)))
  }

  ghost predicate EmittedOnWorkbook(site: Site, t: SlugTables, w: string, g: Grant) {
    && site.SyncsWorkbook(w)
    && (|| FromRules(Workbook(w), site.RulesAt(RuleKey(WorkbookRules, w)), t.workbook, g)
        || (LockingProject(site, w).Some?
            && g in InheritedSet(Workbook(w), Project(LockingProject(site, w).value), t.workbook, t.defaultWorkbook)))
  }

  ghost predicate EmittedOnView(site: Site, t: SlugTables, v: string, g: Grant) {
    && site.SyncsView(v)
    && if site.ShowsTabs(site.views[v])
       then g in InheritedSet(View(v), Workbook(site.views[v]), t.view, t.workbook)
       else FromRules(View(v), site.RulesAt(RuleKey(ViewRules, v)), t.view, g)
  }

  /** Group membership skips server administrators. */
  predicate IsSyncedMember(site: Site, group: string, user: string) {
    && group in site.groups && user in site.MembersOf(group)
    && user in site.users && site.users[user] != SERVER_ADMINISTRATOR
  }

  function MemberGrant(group: string, immutable: bool, user: string): Grant {
    Grant(Entitlement(Group(group), MEMBER), User(user), None, immutable)
  }

  ghost predicate EmittedOnGroup(site: Site, group: string, g: Grant) {
    exists u :: IsSyncedMember(site, group, u) && g == MemberGrant(group, site.groups[group] == ALL_USERS, u)
  }

  /** Some builder emits `g` during a sync of projects, workbooks, views and groups. */
  ghost predicate Emitted(site: Site, t: SlugTables, g: Grant) {
    var id := g.entitlement.resource.resource;
    || (g.entitlement.resource == Project(id) && EmittedOnProject(site, t, id, g))
    || (g.entitlement.resource == Workbook(id) && EmittedOnWorkbook(site, t, id, g))
    || (g.entitlement.resource == View(id) && EmittedOnView(site, t, id, g))
    || (g.entitlement.resource == Group(id) && EmittedOnGroup(site, id, g))
  }

  ghost function Synced(site: Site, t: SlugTables): iset<Grant> {
    iset g | Emitted(site, t, g)
  }

  /** The entitlements a sync declares: the static slugs of every synced resource, and group membership. */
  ghost predicate IsDeclared(site: Site, t: SlugTables, e: Entitlement) {
    var id := e.resource.resource;
    || (e.resource == Project(id) && id in site.projects
        && (e.slug in t.project.Values || e.slug in t.defaultWorkbook.Values))
    || (e.resource == Workbook(id) && site.SyncsWorkbook(id) && e.slug in t.workbook.Values)
    || (e.resource == View(id) && site.SyncsView(id) && e.slug in t.view.Values)
    || (e.resource == Group(id) && id in site.groups && e.slug == MEMBER)
  }

  ghost function Declared(site: Site, t: SlugTables): iset<Entitlement> {
    iset e | IsDeclared(site, t, e)
  }

  // ------------------------------------------------------------- the intended access

  predicate IsAccount(who: ResourceId) {
    who.resourceType == "user" || who.resourceType == "group"
  }

  predicate Allowed(site: Site, key: RuleKey, capability: string, who: ResourceId) {
    Rule(who, capability, ALLOW) in site.RulesAt(key)
  }

  ghost predicate AllowedThroughGroup(site: Site, key: RuleKey, capability: string, who: ResourceId) {
    who.resourceType == "user"
    && exists group :: Allowed(site, key, capability, Group(group)) && IsSyncedMember(site, group, who.resource)
  }

  /** A store grants the capability to `who`: by a rule of its own or by a group it belongs to. */
  ghost predicate Sourced(site: Site, key: RuleKey, capability: string, who: ResourceId) {
    Allowed(site, key, capability, who) || AllowedThroughGroup(site, key, capability, who)
  }

  /** The n-th project up the parent chain; 0 is the project itself. */
  function AncestorAt(site: Site, p: string, n: nat): Option<string>
    decreases n
  {
    if p !in site.projects then None
    else if n == 0 then Some(p)
    else if site.projects[p].parentProjectId == "" then None
    else AncestorAt(site, site.projects[p].parentProjectId, n - 1)
  }

  ghost predicate InheritedFrom(site: Site, p: string, n: nat, capability: string, who: ResourceId) {
    && AncestorAt(site, p, n).Some?
    && Sourced(site, RuleKey(DefaultWorkbookRules, AncestorAt(site, p, n).value), capability, who)
  }

  /** Default workbook access to a project: sourced at the project or at any project above it. */
  ghost predicate ProjectAccess(site: Site, p: string, capability: string, who: ResourceId) {
    exists n: nat :: InheritedFrom(site, p, n, capability, who)
  }

  ghost predicate WorkbookAccess(site: Site, w: string, capability: string, who: ResourceId) {
    || Sourced(site, RuleKey(WorkbookRules, w), capability, who)
    || (LockingProject(site, w).Some? && ProjectAccess(site, LockingProject(site, w).value, capability, who))
  }

  ghost predicate ViewAccess(site: Site, v: string, capability: string, who: ResourceId)
    requires v in site.views
  {
    if site.ShowsTabs(site.views[v]) then WorkbookAccess(site, site.views[v], capability, who)
    else Sourced(site, RuleKey(ViewRules, v), capability, who)
  }

  /** The intended holders of an entitlement. */
  ghost predicate Access(site: Site, t: SlugTables, e: Entitlement, who: ResourceId) {
    var id := e.resource.resource;
    || (e.resource == Project(id) && id in site.projects
        && exists c :: c in t.project && t.project[c] == e.slug && Sourced(site, RuleKey(ProjectRules, id), c, who))
    || (e.resource == Project(id) && id in site.projects
        && exists c :: c in t.defaultWorkbook && t.defaultWorkbook[c] == e.slug && ProjectAccess(site, id, c, who))
    || (e.resource == Workbook(id) && site.SyncsWorkbook(id)
        && exists c :: c in t.workbook && t.workbook[c] == e.slug && WorkbookAccess(site, id, c, who))
    || (e.resource == View(id) && site.SyncsView(id)
        && exists c :: c in t.view && t.view[c] == e.slug && ViewAccess(site, id, c, who))
    || (e.resource == Group(id) && e.slug == MEMBER
        && who.resourceType == "user" && IsSyncedMember(site, id, who.resource))
  }
}
