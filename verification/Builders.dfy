/**
 The Grants methods of the workbook, view and group builders, and what the permission builders emit.
 */
module Builders {

  import opened Wrappers
  import opened Sequences
  import opened Capabilities
  import opened Grants
  import opened Tableau
  import opened InheritedAccess
  import opened Paging
  import opened ProjectSync

  // ----------------------------------------------------------------------- workbooks

  function InAnyProject(): WorkbookRecord -> bool {
    (w: WorkbookRecord) => w.project.Some?
  }

  /** The loop of workbookBuilder.List over one page: workbooks outside any project are left out. */
  method ListedWorkbooks(page: seq<WorkbookRecord>) returns (rv: seq<WorkbookRecord>)
    ensures rv == Filter(InAnyProject(), page)
  {
    rv := [];
    for i := 0 to |page|
      invariant rv == Filter(InAnyProject(), page[..i])
    {
      FilterMore(InAnyProject(), page[..i], page[i]);
      assert page[..i] + [page[i]] == page[..i + 1];
      if page[i].project.None? {
        continue;
      }
      rv := rv + [page[i]];
    }
    assert page[..|page|] == page;
  }

  /** Over all pages of a walk the workbooks listed are exactly the synced ones of the access theorems. */
  lemma ListedAreSynced(site: Site, listing: seq<WorkbookRecord>, pager: Pager<string, WorkbookRecord>, k: nat,
                        w: string)
    requires ListsWorkbooks(site, listing) && Delivers(pager, "", listing, k)
    ensures site.SyncsWorkbook(w)
      <==> exists record :: record in Flatten(FilterEach(InAnyProject(), Pages(pager, "", k))) && record.id == w
  {
    KeepsExactly(pager, "", listing, k, InAnyProject());
    FilterMembers(InAnyProject(), listing);
    forall record | record in Filter(InAnyProject(), listing) ensures site.SyncsWorkbook(record.id) {
      assert record == WorkbookRecord(record.id, record.project);
    }
    if site.SyncsWorkbook(w) {
      var record := WorkbookRecord(w, site.workbooks[w].project);
      assert record in listing;
    }
  }

  /** workbookBuilder.Grants; None stands for a failed request. */
  method WorkbookGrants(w: string, t: SlugTables, permissions: Option<seq<GranteeCapabilities>>)
    returns (rv: Option<seq<Grant>>)
    ensures rv == if permissions.None? then None else Some(GrantsOf(Workbook(w), permissions.value, t.workbook))
  {
    if permissions.None? {
      return None;
    }
    var grants := GrantsFromCapabilities(Workbook(w), permissions.value, t.workbook);
    return Some(grants);
  }

  // --------------------------------------------------------------------------- views

  /** What viewBuilder.Grants may return: proxies alone under showTabs, and otherwise the view's own rules. */
  ghost predicate ViewReply(v: string, parent: Option<ResourceId>, t: SlugTables,
                            showTabs: Option<string>, permissions: Option<seq<GranteeCapabilities>>,
                            rv: Option<seq<Grant>>)
  {
    var inherits := parent.Some? && showTabs == Some("true");
    && (rv.None? <==> (parent.Some? && showTabs.None?) || (!inherits && permissions.None?))
    && (rv.Some? && inherits ==> ListsProxies(rv.value, View(v), Workbook(parent.value.resource), t.view, t.workbook))
    && (rv.Some? && !inherits ==> rv.value == GrantsOf(View(v), permissions.value, t.view))
  }

  /**
   viewBuilder.Grants. `parent` is the view's workbook if it has one, `showTabs` the workbook's
   showTabs text as GetWorkbook returns it (None if the request fails).
   */
  method ViewGrants(v: string, parent: Option<ResourceId>, t: SlugTables,
                    showTabs: Option<string>, permissions: Option<seq<GranteeCapabilities>>)
    returns (rv: Option<seq<Grant>>)
    ensures ViewReply(v, parent, t, showTabs, permissions, rv)
  {
    if parent.Some? {
      if showTabs.None? {
        return None;
      }
      if showTabs.value == "true" {
        var grants := InheritedGrants(View(v), Workbook(parent.value.resource), t.view, t.workbook);
        return Some(grants);
      }
    }
    if permissions.None? {
      return None;
    }
    var own := GrantsFromCapabilities(View(v), permissions.value, t.view);
    return Some(own);
  }

  /**
   The three outcomes: an error, the workbook's proxies whatever rules the view has, or the view's own rules for
   users and groups.
   */
  lemma ViewOutcomes(v: string, parent: Option<ResourceId>, t: SlugTables, showTabs: Option<string>,
                     permissions: Option<seq<GranteeCapabilities>>, rv: Option<seq<Grant>>)
    requires ViewReply(v, parent, t, showTabs, permissions, rv)
    ensures parent.Some? && showTabs.None? ==> rv.None?
    ensures parent.Some? && showTabs == Some("true") ==>
      rv.Some? && forall g ::
        g in rv.value <==> g in InheritedSet(View(v), Workbook(parent.value.resource), t.view, t.workbook)
    ensures parent.None? || (showTabs.Some? && showTabs.value != "true") ==>
      rv == if permissions.None? then None else Some(GrantsOf(View(v), permissions.value, t.view))
  {
    if parent.Some? && showTabs == Some("true") {
      InheritedMembers(rv.value, View(v), Workbook(parent.value.resource), t.view, t.workbook);
    }
  }

  // -------------------------------------------------------------------------- groups

  function SiteScoped(): UserRecord -> bool {
    (u: UserRecord) => u.siteRole != SERVER_ADMINISTRATOR
  }

  function MemberGrantTo(group: string, immutable: bool): UserRecord -> Grant {
    (u: UserRecord) => MemberGrant(group, immutable, u.id)
  }

  /** The grants of a page of members: one for each who is not a server administrator, in order. */
  function MemberGrants(group: string, immutable: bool, users: seq<UserRecord>): seq<Grant> {
    Map(MemberGrantTo(group, immutable), Filter(SiteScoped(), users))
  }

  /** The loop of groupBuilder.Grants over one page of members. */
  method GroupGrants(group: string, name: string, users: seq<UserRecord>) returns (rv: seq<Grant>)
    ensures rv == MemberGrants(group, name == ALL_USERS, users)
    ensures forall g :: g in rv ==> IsMemberGrant(group, g) && (g.immutable <==> name == "All Users")
    ensures forall u :: u in users && u.siteRole != "ServerAdministrator" ==>
      exists g :: g in rv && g.principal == ResourceId("user", u.id)
  {
    rv := [];
    var immutable := name == ALL_USERS;
    for i := 0 to |users|
      invariant rv == MemberGrants(group, immutable, users[..i])
    {
      var user := users[i];
      FilterMore(SiteScoped(), users[..i], user);
      assert users[..i] + [user] == users[..i + 1];
      if user.siteRole == SERVER_ADMINISTRATOR {
        continue;
      }
      rv := rv + [MemberGrant(group, immutable, user.id)];
    }
    assert users[..|users|] == users;
    MemberGrantsReach(group, immutable, users);
  }

  /** A user's membership, without anything to expand. */
  predicate IsMemberGrant(group: string, g: Grant) {
    && g.entitlement == Entitlement(ResourceId("group", group), "member")
    && g.principal.resourceType == "user" && g.expandable == None
  }

  lemma MemberGrantsReach(group: string, immutable: bool, users: seq<UserRecord>)
    ensures forall u :: u in users && u.siteRole != "ServerAdministrator" ==>
      exists g :: g in MemberGrants(group, immutable, users) && g.principal == ResourceId("user", u.id)
  {
    var kept, rv := Filter(SiteScoped(), users), MemberGrants(group, immutable, users);
    FilterMembers(SiteScoped(), users);
    forall u | u in users && u.siteRole != "ServerAdministrator"
      ensures exists g :: g in rv && g.principal == ResourceId("user", u.id)
    {
      assert u in kept;
      var i :| 0 <= i < |kept| && kept[i] == u;
      assert rv[i] in rv && rv[i].principal == User(u.id);
    }
  }

  /** The server lists the members of a group with their current site roles. */
  ghost predicate ListsMembers(site: Site, group: string, users: seq<UserRecord>) {
    forall id, role :: UserRecord(id, role) in users <==>
      id in site.MembersOf(group) && id in site.users && site.users[id] == role
  }

  lemma MemberGrantsAreEmitted(site: Site, group: string, users: seq<UserRecord>, g: Grant)
    requires group in site.groups && ListsMembers(site, group, users)
    ensures g in MemberGrants(group, site.groups[group] == ALL_USERS, users) <==> EmittedOnGroup(site, group, g)
  {
    var kept := Filter(SiteScoped(), users);
    var rv := MemberGrants(group, site.groups[group] == ALL_USERS, users);
    FilterMembers(SiteScoped(), users);
    if g in rv {
      var i :| 0 <= i < |rv| && rv[i] == g;
      assert kept[i] == UserRecord(kept[i].id, kept[i].siteRole) && kept[i] in kept;
      assert IsSyncedMember(site, group, kept[i].id);
    }
    if EmittedOnGroup(site, group, g) {
      var u :| IsSyncedMember(site, group, u) && g == MemberGrant(group, site.groups[group] == ALL_USERS, u);
      var record := UserRecord(u, site.users[u]);
      assert record in kept;
      var i :| 0 <= i < |kept| && kept[i] == record;
      assert rv[i] == g;
    }
  }

  /** The grants of the first k pages of a walk over a group's members. */
  function GroupPages(group: string, immutable: bool, pager: Pager<string, UserRecord>, k: nat): seq<seq<Grant>> {
    seq(k, i requires 0 <= i < k => MemberGrants(group, immutable, pager.page(TokenAt(pager, "", i))))
  }

  /** Over a whole walk the group builder emits one grant for each member who is no server administrator, in order. */
  lemma GroupWalk(group: string, immutable: bool, users: seq<UserRecord>, pager: Pager<string, UserRecord>, k: nat)
    requires Delivers(pager, "", users, k)
    ensures Flatten(GroupPages(group, immutable, pager, k)) == MemberGrants(group, immutable, users)
  {
    EmitsExactly(pager, "", users, k, SiteScoped(), MemberGrantTo(group, immutable));
    assert GroupPages(group, immutable, pager, k)
      == MapEach(MemberGrantTo(group, immutable), FilterEach(SiteScoped(), Pages(pager, "", k)));
  }

  // ------------------------------------------------------------------------ projects

  /** projectResource: the resource List builds for a project. */
  function ProjectResourceOf(p: string, info: ProjectInfo): ProjectResource {
    ProjectResource(p, info.name, info.contentPermissions,
      if info.parentProjectId != "" then Some(Project(info.parentProjectId)) else None)
  }

  /** The first call's grants are the project's emitted ones, whatever order the server and Go pick. */
  lemma FirstPhaseIsEmitted(site: Site, t: SlugTables, p: string, access: seq<GranteeCapabilities>,
                            defaults: seq<GranteeCapabilities>, rv: seq<Grant>, g: Grant)
    requires p in site.projects && FirstPhase(ProjectResourceOf(p, site.projects[p]), t, access, defaults, rv)
    requires Lists(access, site.RulesAt(RuleKey(ProjectRules, p)))
    requires Lists(defaults, site.RulesAt(RuleKey(DefaultWorkbookRules, p)))
    ensures g in rv <==> EmittedOnProject(site, t, p, g)
  {
    var d := t.defaultWorkbook;
    GrantsAreRules(Project(p), access, site.RulesAt(RuleKey(ProjectRules, p)), t.project, g);
    GrantsAreRules(Project(p), defaults, site.RulesAt(RuleKey(DefaultWorkbookRules, p)), d, g);
    var info := ProjectResourceOf(p, site.projects[p]);
    var proxies :| ParentProxies(info, t, proxies)
      && rv == GrantsOf(Project(p), access, t.project) + GrantsOf(Project(p), defaults, d) + proxies;
    if HasProjectParent(info) {
      InheritedMembers(proxies, Project(p), Project(site.projects[p].parentProjectId), d, d);
    }
  }

  lemma SomeFirstPhase(p: ProjectResource, t: SlugTables, access: seq<GranteeCapabilities>,
                       defaults: seq<GranteeCapabilities>)
    returns (rv: seq<Grant>)
    ensures FirstPhase(p, t, access, defaults, rv)
  {
    var proxies: seq<Grant> := [];
    if HasProjectParent(p) {
      proxies := SomeProxies(Project(p.id), Project(p.parent.value.resource), t.defaultWorkbook, t.defaultWorkbook);
    }
    assert ParentProxies(p, t, proxies);
    rv := GrantsOf(Project(p.id), access, t.project) + GrantsOf(Project(p.id), defaults, t.defaultWorkbook) + proxies;
  }

  lemma {:induction false} FlattenMembers<T>(pages: seq<seq<T>>, x: T)
    ensures x in Flatten(pages) <==> exists i :: 0 <= i < |pages| && x in pages[i]
  {
    if pages != [] {
      FlattenMembers(pages[..|pages| - 1], x);
    }
  }

  /** The workbook phase emits what each of its workbooks inherits. */
  lemma PhaseMembers(p: ProjectResource, t: SlugTables, ws: seq<WorkbookRecord>, rv: seq<Grant>, g: Grant)
    requires WorkbookPhase(p, t, ws, rv)
    ensures g in rv
      <==> exists w :: w in ws && g in InheritedSet(Workbook(w.id), Project(p.id), t.workbook, t.defaultWorkbook)
  {
    var blocks :| AreBlocks(p, t, ws, blocks) && rv == Flatten(blocks);
    FlattenMembers(blocks, g);
    forall i | 0 <= i < |ws|
      ensures g in blocks[i] <==> g in InheritedSet(Workbook(ws[i].id), Project(p.id), t.workbook, t.defaultWorkbook)
    {
      InheritedMembers(blocks[i], Workbook(ws[i].id), Project(p.id), t.workbook, t.defaultWorkbook);
    }
  }

  lemma {:induction false} SomeWorkbookPhase(p: ProjectResource, t: SlugTables, ws: seq<WorkbookRecord>)
    returns (rv: seq<Grant>)
    ensures WorkbookPhase(p, t, ws, rv)
  {
    if ws == [] {
      rv := [];
      NoWorkbooks(p, t);
    } else {
      var n := |ws| - 1;
      var init := SomeWorkbookPhase(p, t, ws[..n]);
      var block := SomeProxies(Workbook(ws[n].id), Project(p.id), t.workbook, t.defaultWorkbook);
      OneBlock(p, t, ws[n], block);
      PhasesConcat(p, t, ws[..n], init, [ws[n]], block);
      assert ws[..n] + [ws[n]] == ws;
      rv := init + block;
    }
  }

  /** The server's workbook list holds each workbook of the site with its project reference. */
  ghost predicate ListsWorkbooks(site: Site, listing: seq<WorkbookRecord>) {
    forall id, project :: WorkbookRecord(id, project) in listing <==>
      id in site.workbooks && site.workbooks[id].project == project
  }

  /**
   What the workbook phase of some project emits on workbook `w` is what the workbook inherits from its
   locking project.
   */
  lemma WorkbookPhaseIsEmitted(site: Site, t: SlugTables, listing: seq<WorkbookRecord>, w: string, g: Grant)
    requires ListsWorkbooks(site, listing) && g.entitlement.resource == Workbook(w)
    ensures (exists p, record :: p in site.projects && CoveredBy(site, listing, p, record)
              && g in InheritedSet(Workbook(record.id), Project(p), t.workbook, t.defaultWorkbook))
      <==> (LockingProject(site, w).Some?
              && g in InheritedSet(Workbook(w), Project(LockingProject(site, w).value), t.workbook, t.defaultWorkbook))
  {
    if p, record :| p in site.projects && CoveredBy(site, listing, p, record)
                    && g in InheritedSet(Workbook(record.id), Project(p), t.workbook, t.defaultWorkbook) {
      assert record == WorkbookRecord(record.id, record.project);
      assert LockingProject(site, w) == Some(p);
    }
    if LockingProject(site, w).Some?
       && g in InheritedSet(Workbook(w), Project(LockingProject(site, w).value), t.workbook, t.defaultWorkbook)
    {
      var p := LockingProject(site, w).value;
      assert CoveredBy(site, listing, p, WorkbookRecord(w, site.workbooks[w].project));
    }
  }

  /** The walk of project `p` covers `record`. */
  ghost predicate CoveredBy(site: Site, listing: seq<WorkbookRecord>, p: string, record: WorkbookRecord)
    requires p in site.projects
  {
    && WalksWorkbooks(ProjectResourceOf(p, site.projects[p]))
    && record in listing && InProject(p)(record) && InProjectNamed(site.projects[p].name)(record)
  }

  /**
   Some part of the emitted grants holds `g`: a project's own, an inheriting workbook's, or a workbook's,
   view's or group's own.
   */
  ghost predicate InSomePart(site: Site, t: SlugTables, listing: seq<WorkbookRecord>, g: Grant) {
    || (exists p :: p in site.projects && EmittedOnProject(site, t, p, g))
    || (exists p, record :: p in site.projects && CoveredBy(site, listing, p, record)
          && g in InheritedSet(Workbook(record.id), Project(p), t.workbook, t.defaultWorkbook))
    || (exists w :: site.SyncsWorkbook(w)
          && FromRules(Workbook(w), site.RulesAt(RuleKey(WorkbookRules, w)), t.workbook, g))
    || (exists v :: site.SyncsView(v) && EmittedOnView(site, t, v, g))
    || (exists group :: group in site.groups && EmittedOnGroup(site, group, g))
  }

  lemma ElsewhereEmitted(site: Site, t: SlugTables, listing: seq<WorkbookRecord>, g: Grant)
    requires g.entitlement.resource.resourceType != "workbook"
    ensures InSomePart(site, t, listing, g) <==> Emitted(site, t, g)
  {
  }

  lemma WorkbookEmitted(site: Site, t: SlugTables, listing: seq<WorkbookRecord>, w: string, g: Grant)
    requires ListsWorkbooks(site, listing) && g.entitlement.resource == Workbook(w)
    ensures InSomePart(site, t, listing, g) <==> EmittedOnWorkbook(site, t, w, g)
  {
    WorkbookPhaseIsEmitted(site, t, listing, w, g);
  }

  lemma PartsAreEmitted(site: Site, t: SlugTables, listing: seq<WorkbookRecord>, g: Grant)
    requires ListsWorkbooks(site, listing)
    ensures InSomePart(site, t, listing, g) <==> Emitted(site, t, g)
  {
    if g.entitlement.resource.resourceType == "workbook" {
      WorkbookEmitted(site, t, listing, g.entitlement.resource.resource, g);
    } else {
      ElsewhereEmitted(site, t, listing, g);
    }
  }
}
