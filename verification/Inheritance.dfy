/**
 The expanded sync equals the intended access: expansion derives nothing else, and misses nothing.
 */
module Inheritance {

  import opened Capabilities
  import opened Grants
  import opened Expander
  import opened Tableau
  import opened InheritedAccess

  // -------------------------------------------------------------- reference targets

  lemma DeclaredIsColonFree(site: Site, t: SlugTables, e: Entitlement)
    requires Coherent(t) && site.WellFormed() && IsDeclared(site, t, e)
    ensures e.ColonFree()
  {
  }

  /** A reference to `named` can only resolve to `named`. */
  lemma Resolves(site: Site, t: SlugTables, g: Grant, src: Entitlement, dst: Entitlement, shallow: bool,
                 named: Entitlement)
    requires Coherent(t) && site.WellFormed()
    requires EdgeBy(g, Declared(site, t), src, dst, shallow)
    requires g.expandable.value.entitlementIds == [named.Id()]
    ensures src == named
  {
    DeclaredIsColonFree(site, t, src);
    IdInjective(named, src);
  }

  /** The entitlement an emitted expandable grant refers to. */
  ghost predicate RefersTo(g: Grant, src: Entitlement) {
    g.expandable.Some? && g.expandable.value.entitlementIds == [src.Id()] && src.resource == g.principal
  }

  predicate SyncsResource(site: Site, r: ResourceId) {
    || (r.resourceType == "project" && r.resource in site.projects)
    || (r.resourceType == "workbook" && site.SyncsWorkbook(r.resource))
    || (r.resourceType == "view" && site.SyncsView(r.resource))
    || (r.resourceType == "group" && r.resource in site.groups)
  }

  /** What a reference to a synced principal amounts to. */
  ghost predicate Resolvable(site: Site, t: SlugTables, g: Grant, src: Entitlement) {
    RefersTo(g, src) && (IsDeclared(site, t, src) <==> SyncsResource(site, g.principal))
  }

  lemma RuleReference(site: Site, t: SlugTables, resource: ResourceId, rules: set<Rule>, slugs: SlugMap, g: Grant)
    requires FromRules(resource, rules, slugs, g) && g.expandable.Some?
    ensures Resolvable(site, t, g, Entitlement(g.principal, MEMBER))
  {
  }

  lemma ProxyReference(site: Site, t: SlugTables, child: ResourceId, parent: ResourceId, own: SlugMap,
                       parentSlugs: SlugMap, g: Grant)
    returns (src: Entitlement)
    requires g in InheritedSet(child, parent, own, parentSlugs)
    requires || (parent.resourceType == "project" && parentSlugs == t.defaultWorkbook)
             || (parent.resourceType == "workbook" && parentSlugs == t.workbook)
    ensures Resolvable(site, t, g, src)
  {
    var c :| c in own && c in parentSlugs && g == ProxyGrant(child, own[c], parent, parentSlugs[c]);
    src := Entitlement(parent, parentSlugs[c]);
    assert src.slug in parentSlugs.Values;
  }

  lemma ProjectReference(site: Site, t: SlugTables, p: string, g: Grant) returns (src: Entitlement)
    requires EmittedOnProject(site, t, p, g) && g.expandable.Some?
    ensures Resolvable(site, t, g, src)
  {
    src := Entitlement(g.principal, MEMBER);
    if FromRules(Project(p), site.RulesAt(RuleKey(ProjectRules, p)), t.project, g) {
      RuleReference(site, t, Project(p), site.RulesAt(RuleKey(ProjectRules, p)), t.project, g);
    } else if FromRules(Project(p), site.RulesAt(RuleKey(DefaultWorkbookRules, p)), t.defaultWorkbook, g) {
      RuleReference(site, t, Project(p), site.RulesAt(RuleKey(DefaultWorkbookRules, p)), t.defaultWorkbook, g);
    } else {
      src := ProxyReference(site, t, Project(p), Project(site.projects[p].parentProjectId),
        t.defaultWorkbook, t.defaultWorkbook, g);
    }
  }

  lemma WorkbookReference(site: Site, t: SlugTables, w: string, g: Grant) returns (src: Entitlement)
    requires EmittedOnWorkbook(site, t, w, g) && g.expandable.Some?
    ensures Resolvable(site, t, g, src)
  {
    src := Entitlement(g.principal, MEMBER);
    if FromRules(Workbook(w), site.RulesAt(RuleKey(WorkbookRules, w)), t.workbook, g) {
      RuleReference(site, t, Workbook(w), site.RulesAt(RuleKey(WorkbookRules, w)), t.workbook, g);
    } else {
      src := ProxyReference(site, t, Workbook(w), Project(LockingProject(site, w).value),
        t.workbook, t.defaultWorkbook, g);
    }
  }

  lemma ViewReference(site: Site, t: SlugTables, v: string, g: Grant) returns (src: Entitlement)
    requires EmittedOnView(site, t, v, g) && g.expandable.Some?
    ensures Resolvable(site, t, g, src)
  {
    src := Entitlement(g.principal, MEMBER);
    if site.ShowsTabs(site.views[v]) {
      src := ProxyReference(site, t, View(v), Workbook(site.views[v]), t.view, t.workbook, g);
    } else {
      RuleReference(site, t, View(v), site.RulesAt(RuleKey(ViewRules, v)), t.view, g);
    }
  }

  /**
   No reference dangles: each emitted GrantExpandable names one entitlement of the grant's own
   principal, which is declared as soon as that principal is synced, and no other declared
   entitlement prints the same id.
   */
  lemma NoDanglingReference(site: Site, t: SlugTables, g: Grant) returns (src: Entitlement)
    requires Coherent(t) && site.WellFormed() && Emitted(site, t, g) && g.expandable.Some?
    ensures Resolvable(site, t, g, src)
    ensures forall e :: IsDeclared(site, t, e) && e.Id() == src.Id() ==> e == src
  {
    var r := g.entitlement.resource;
    if r.resourceType == "project" {
      src := ProjectReference(site, t, r.resource, g);
    } else if r.resourceType == "workbook" {
      src := WorkbookReference(site, t, r.resource, g);
    } else {
      src := ViewReference(site, t, r.resource, g);
    }
    forall e | IsDeclared(site, t, e) && e.Id() == src.Id() ensures e == src {
      DeclaredIsColonFree(site, t, e);
      IdInjective(src, e);
    }
  }

  /** Whose grants are expanded: groups, projects and workbooks. */
  lemma PrincipalKinds(site: Site, t: SlugTables, g: Grant)
    requires Emitted(site, t, g) && g.expandable.Some?
    ensures g.principal.resourceType in ["group", "project", "workbook"]
  {
  }

  /** Each reference names one entitlement, of a group, project or workbook. */
  lemma ReferenceKind(site: Site, t: SlugTables, g: Grant) returns (src: Entitlement)
    requires Coherent(t) && site.WellFormed() && Emitted(site, t, g) && g.expandable.Some?
    ensures g.expandable.value.entitlementIds == [src.Id()]
    ensures src.resource.resourceType in ["group", "project", "workbook"]
  {
    src := NoDanglingReference(site, t, g);
    PrincipalKinds(site, t, g);
  }

  // ------------------------------------------------ soundness: access is closed under expansion

  lemma DirectRuleIsSourced(site: Site, key: RuleKey, resource: ResourceId, slugs: SlugMap, g: Grant)
    returns (c: string)
    requires FromRules(resource, site.RulesAt(key), slugs, g)
    ensures c in slugs && slugs[c] == g.entitlement.slug && Allowed(site, key, c, g.principal)
  {
    var r :| r in site.RulesAt(key) && r.mode == ALLOW && r.capability in slugs
             && g == RuleGrant(resource, slugs[r.capability], r.grantee);
    c := r.capability;
    assert r == Rule(g.principal, c, ALLOW);
  }

  /** An edge out of a rule grant leads to the grantee group's membership, and is shallow. */
  lemma RuleEdgeIsSourced(site: Site, t: SlugTables, key: RuleKey, resource: ResourceId, slugs: SlugMap, g: Grant,
                          src: Entitlement, dst: Entitlement, shallow: bool, who: ResourceId) returns (c: string)
    requires Coherent(t) && site.WellFormed()
    requires FromRules(resource, site.RulesAt(key), slugs, g)
    requires EdgeBy(g, Declared(site, t), src, dst, shallow)
    requires if shallow then Direct(Synced(site, t), src, who) else Access(site, t, src, who)
    ensures c in slugs && slugs[c] == dst.slug && Sourced(site, key, c, who)
  {
    c := DirectRuleIsSourced(site, key, resource, slugs, g);
    Resolves(site, t, g, src, dst, shallow, Entitlement(g.principal, MEMBER));
    var group := g.principal.resource;
    assert g.principal == Group(group);
    assert shallow;
    var m :| m in Synced(site, t) && m.entitlement == src && m.principal == who;
    assert EmittedOnGroup(site, group, m);
    assert IsSyncedMember(site, group, who.resource);
  }

  /** A proxy grant's edge copies the parent's holders of the same capability. */
  lemma ProxyEdge(site: Site, t: SlugTables, child: ResourceId, parent: ResourceId, own: SlugMap,
                  parentSlugs: SlugMap, g: Grant, src: Entitlement, dst: Entitlement, shallow: bool) returns (c: string)
    requires Coherent(t) && site.WellFormed()
    requires g in InheritedSet(child, parent, own, parentSlugs)
    requires EdgeBy(g, Declared(site, t), src, dst, shallow)
    ensures !shallow && c in own && c in parentSlugs && dst.slug == own[c] && src == Entitlement(parent, parentSlugs[c])
  {
    c :| c in own && c in parentSlugs && g == ProxyGrant(child, own[c], parent, parentSlugs[c]);
    Resolves(site, t, g, src, dst, shallow, Entitlement(parent, parentSlugs[c]));
  }

  lemma ProjectAccessOf(site: Site, t: SlugTables, p: string, c: string, who: ResourceId)
    requires Coherent(t) && c in t.defaultWorkbook && p in site.projects
    ensures Access(site, t, Entitlement(Project(p), t.defaultWorkbook[c]), who) <==> ProjectAccess(site, p, c, who)
  {
    assert t.defaultWorkbook[c] in t.byDefaultSlug;
    assert forall o :: o in t.project ==> t.project[o] in t.byDisplaySlug;
  }

  lemma WorkbookAccessOf(site: Site, t: SlugTables, w: string, c: string, who: ResourceId)
    requires Coherent(t) && c in t.workbook && site.SyncsWorkbook(w)
    ensures Access(site, t, Entitlement(Workbook(w), t.workbook[c]), who) <==> WorkbookAccess(site, w, c, who)
  {
  }

  lemma ParentAccess(site: Site, p: string, c: string, who: ResourceId)
    requires p in site.projects && site.projects[p].parentProjectId != ""
    requires ProjectAccess(site, site.projects[p].parentProjectId, c, who)
    ensures ProjectAccess(site, p, c, who)
  {
    var n: nat :| InheritedFrom(site, site.projects[p].parentProjectId, n, c, who);
    assert AncestorAt(site, p, n + 1) == AncestorAt(site, site.projects[p].parentProjectId, n);
    assert InheritedFrom(site, p, n + 1, c, who);
  }

  lemma DirectIsAccess(site: Site, t: SlugTables, e: Entitlement, who: ResourceId)
    requires IsAccount(who) && Direct(Synced(site, t), e, who)
    ensures Access(site, t, e, who)
  {
    var g :| g in Synced(site, t) && g.entitlement == e && g.principal == who;
    var id := e.resource.resource;
    if e.resource.resourceType == "project" {
      if FromRules(Project(id), site.RulesAt(RuleKey(ProjectRules, id)), t.project, g) {
        var c := DirectRuleIsSourced(site, RuleKey(ProjectRules, id), Project(id), t.project, g);
      } else {
        var c := DirectRuleIsSourced(site, RuleKey(DefaultWorkbookRules, id), Project(id), t.defaultWorkbook, g);
        assert InheritedFrom(site, id, 0, c, who);
      }
    } else if e.resource.resourceType == "workbook" {
      var c := DirectRuleIsSourced(site, RuleKey(WorkbookRules, id), Workbook(id), t.workbook, g);
    } else if e.resource.resourceType == "view" {
      var c := DirectRuleIsSourced(site, RuleKey(ViewRules, id), View(id), t.view, g);
    }
  }

  lemma EdgeIsAccess(site: Site, t: SlugTables, src: Entitlement, dst: Entitlement, shallow: bool, who: ResourceId)
    requires Coherent(t) && site.WellFormed()
    requires IsAccount(who) && Edge(Synced(site, t), Declared(site, t), src, dst, shallow)
    requires if shallow then Direct(Synced(site, t), src, who) else Access(site, t, src, who)
    ensures Access(site, t, dst, who)
  {
    var g :| g in Synced(site, t) && EdgeBy(g, Declared(site, t), src, dst, shallow);
    var kind, id := EmittedKind(site, t, g);
    if kind == "project" {
      ProjectEdgeIsAccess(site, t, id, g, src, dst, shallow, who);
    } else if kind == "workbook" {
      WorkbookEdgeIsAccess(site, t, id, g, src, dst, shallow, who);
    } else {
      ViewEdgeIsAccess(site, t, id, g, src, dst, shallow, who);
    }
  }

  /** Which builder emits an expandable grant. */
  lemma EmittedKind(site: Site, t: SlugTables, g: Grant) returns (kind: string, id: string)
    requires Emitted(site, t, g) && g.expandable.Some?
    ensures g.entitlement.resource == ResourceId(kind, id)
    ensures || (kind == "project" && EmittedOnProject(site, t, id, g))
            || (kind == "workbook" && EmittedOnWorkbook(site, t, id, g))
            || (kind == "view" && EmittedOnView(site, t, id, g))
  {
    kind, id := g.entitlement.resource.resourceType, g.entitlement.resource.resource;
  }

  lemma ProjectEdgeIsAccess(site: Site, t: SlugTables, p: string, g: Grant,
                            src: Entitlement, dst: Entitlement, shallow: bool, who: ResourceId)
    requires Coherent(t) && site.WellFormed()
    requires EmittedOnProject(site, t, p, g) && dst.resource == Project(p)
    requires EdgeBy(g, Declared(site, t), src, dst, shallow)
    requires if shallow then Direct(Synced(site, t), src, who) else Access(site, t, src, who)
    ensures Access(site, t, dst, who)
  {
    if FromRules(Project(p), site.RulesAt(RuleKey(ProjectRules, p)), t.project, g) {
      var c := RuleEdgeIsSourced(site, t, RuleKey(ProjectRules, p), Project(p), t.project, g, src, dst, shallow, who);
    } else if FromRules(Project(p), site.RulesAt(RuleKey(DefaultWorkbookRules, p)), t.defaultWorkbook, g) {
      var c := RuleEdgeIsSourced(site, t, RuleKey(DefaultWorkbookRules, p), Project(p), t.defaultWorkbook, g,
        src, dst, shallow, who);
      assert InheritedFrom(site, p, 0, c, who);
    } else {
      var parent := site.projects[p].parentProjectId;
      var c := ProxyEdge(site, t, Project(p), Project(parent), t.defaultWorkbook,
        t.defaultWorkbook, g, src, dst, shallow);
      ProjectAccessOf(site, t, parent, c, who);
      ParentAccess(site, p, c, who);
    }
  }

  lemma WorkbookEdgeIsAccess(site: Site, t: SlugTables, w: string, g: Grant,
                             src: Entitlement, dst: Entitlement, shallow: bool, who: ResourceId)
    requires Coherent(t) && site.WellFormed()
    requires EmittedOnWorkbook(site, t, w, g) && dst.resource == Workbook(w)
    requires EdgeBy(g, Declared(site, t), src, dst, shallow)
    requires if shallow then Direct(Synced(site, t), src, who) else Access(site, t, src, who)
    ensures Access(site, t, dst, who)
  {
    if FromRules(Workbook(w), site.RulesAt(RuleKey(WorkbookRules, w)), t.workbook, g) {
      var c := RuleEdgeIsSourced(site, t, RuleKey(WorkbookRules, w), Workbook(w), t.workbook, g,
        src, dst, shallow, who);
    } else {
      var p := LockingProject(site, w).value;
      var c := ProxyEdge(site, t, Workbook(w), Project(p), t.workbook, t.defaultWorkbook, g, src, dst, shallow);
      ProjectAccessOf(site, t, p, c, who);
    }
  }

  lemma ViewEdgeIsAccess(site: Site, t: SlugTables, v: string, g: Grant,
                         src: Entitlement, dst: Entitlement, shallow: bool, who: ResourceId)
    requires Coherent(t) && site.WellFormed()
    requires EmittedOnView(site, t, v, g) && dst.resource == View(v)
    requires EdgeBy(g, Declared(site, t), src, dst, shallow)
    requires if shallow then Direct(Synced(site, t), src, who) else Access(site, t, src, who)
    ensures Access(site, t, dst, who)
  {
    if site.ShowsTabs(site.views[v]) {
      var w := site.views[v];
      var c := ProxyEdge(site, t, View(v), Workbook(w), t.view, t.workbook, g, src, dst, shallow);
      WorkbookAccessOf(site, t, w, c, who);
    } else {
      var c := RuleEdgeIsSourced(site, t, RuleKey(ViewRules, v), View(v), t.view, g, src, dst, shallow, who);
    }
  }

  lemma ExpandedIsAccess(site: Site, t: SlugTables, e: Entitlement, who: ResourceId)
    requires Coherent(t) && site.WellFormed() && IsAccount(who)
    requires Expanded(Synced(site, t), Declared(site, t), e, who)
    ensures Access(site, t, e, who)
  {
    var grants, declared := Synced(site, t), Declared(site, t);
    var holds := iset e: Entitlement, who: ResourceId | IsAccount(who) ==> Access(site, t, e, who) :: (e, who);
    forall e, who | Direct(grants, e, who) ensures (e, who) in holds {
      if IsAccount(who) { DirectIsAccess(site, t, e, who); }
    }
    forall src, dst, who | Edge(grants, declared, src, dst, true) && Direct(grants, src, who)
      ensures (dst, who) in holds
    {
      if IsAccount(who) { EdgeIsAccess(site, t, src, dst, true, who); }
    }
    forall src, dst, who | Edge(grants, declared, src, dst, false) && (src, who) in holds
      ensures (dst, who) in holds
    {
      if IsAccount(who) { EdgeIsAccess(site, t, src, dst, false, who); }
    }
    var n: nat :| Reaches(grants, declared, e, who, n);
    ReachesIsLeast(grants, declared, holds, e, who, n);
  }

  // --------------------------------------- completeness: expansion reaches every source

  /** If a store's rules are emitted on `resource`, one edge reaches everybody the store sources. */
  lemma SourcedReaches(site: Site, t: SlugTables, key: RuleKey, resource: ResourceId, slugs: SlugMap, c: string,
                       who: ResourceId)
    requires Coherent(t) && c in slugs && Sourced(site, key, c, who)
    requires forall g :: FromRules(resource, site.RulesAt(key), slugs, g) ==> Emitted(site, t, g)
    ensures Reaches(Synced(site, t), Declared(site, t), Entitlement(resource, slugs[c]), who, 1)
  {
    var grants, declared := Synced(site, t), Declared(site, t);
    var dst := Entitlement(resource, slugs[c]);
    if Allowed(site, key, c, who) {
      var g := RuleGrant(resource, slugs[c], who);
      assert FromRules(resource, site.RulesAt(key), slugs, g);
      assert Direct(grants, dst, who);
    } else {
      var group :| Allowed(site, key, c, Group(group)) && IsSyncedMember(site, group, who.resource);
      var g := RuleGrant(resource, slugs[c], Group(group));
      var src := Entitlement(Group(group), MEMBER);
      assert Rule(Group(group), c, ALLOW) in site.RulesAt(key);
      assert FromRules(resource, site.RulesAt(key), slugs, g);
      assert g in grants && EdgeBy(g, declared, src, dst, true);
      assert Edge(grants, declared, src, dst, true);
      var m := MemberGrant(group, site.groups[group] == ALL_USERS, who.resource);
      assert who == User(who.resource);
      assert EmittedOnGroup(site, group, m);
      assert m in grants && m.entitlement == src && m.principal == who;
      assert Direct(grants, src, who);
    }
  }

  /** Following a proxy grant costs one more edge. */
  lemma ProxyReaches(site: Site, t: SlugTables, child: ResourceId, parent: ResourceId, own: SlugMap,
                     parentSlugs: SlugMap, c: string, who: ResourceId, n: nat)
    requires c in own && c in parentSlugs
    requires Emitted(site, t, ProxyGrant(child, own[c], parent, parentSlugs[c]))
    requires IsDeclared(site, t, Entitlement(parent, parentSlugs[c]))
    requires Reaches(Synced(site, t), Declared(site, t), Entitlement(parent, parentSlugs[c]), who, n)
    ensures Reaches(Synced(site, t), Declared(site, t), Entitlement(child, own[c]), who, n + 1)
  {
    var g := ProxyGrant(child, own[c], parent, parentSlugs[c]);
    var src, dst := Entitlement(parent, parentSlugs[c]), Entitlement(child, own[c]);
    assert g in Synced(site, t) && EdgeBy(g, Declared(site, t), src, dst, false);
    assert Edge(Synced(site, t), Declared(site, t), src, dst, false);
  }

  /** Access found n projects up is reached in n + 1 edges. */
  lemma {:induction false} ProjectReaches(site: Site, t: SlugTables, p: string, c: string, who: ResourceId, n: nat)
    requires Coherent(t) && c in t.defaultWorkbook && InheritedFrom(site, p, n, c, who)
    ensures Reaches(Synced(site, t), Declared(site, t), Entitlement(Project(p), t.defaultWorkbook[c]), who, n + 1)
    decreases n
  {
    var d := t.defaultWorkbook;
    if n == 0 {
      forall g | FromRules(Project(p), site.RulesAt(RuleKey(DefaultWorkbookRules, p)), d, g)
        ensures Emitted(site, t, g)
      {
        assert g.entitlement.resource == Project(p);
      }
      SourcedReaches(site, t, RuleKey(DefaultWorkbookRules, p), Project(p), d, c, who);
    } else {
      var parent := site.projects[p].parentProjectId;
      assert AncestorAt(site, p, n) == AncestorAt(site, parent, n - 1);
      assert InheritedFrom(site, parent, n - 1, c, who);
      ProjectReaches(site, t, parent, c, who, n - 1);
      assert parent in site.projects && d[c] in d.Values;
      var g := ProxyGrant(Project(p), d[c], Project(parent), d[c]);
      assert g in InheritedSet(Project(p), Project(parent), d, d);
      assert EmittedOnProject(site, t, p, g);
      ProxyReaches(site, t, Project(p), Project(parent), d, d, c, who, n);
    }
  }

  lemma WorkbookReaches(site: Site, t: SlugTables, w: string, c: string, who: ResourceId) returns (n: nat)
    requires Coherent(t) && c in t.workbook && site.SyncsWorkbook(w) && WorkbookAccess(site, w, c, who)
    ensures Reaches(Synced(site, t), Declared(site, t), Entitlement(Workbook(w), t.workbook[c]), who, n)
  {
    if Sourced(site, RuleKey(WorkbookRules, w), c, who) {
      forall g | FromRules(Workbook(w), site.RulesAt(RuleKey(WorkbookRules, w)), t.workbook, g)
        ensures Emitted(site, t, g)
      {
        assert g.entitlement.resource == Workbook(w);
      }
      SourcedReaches(site, t, RuleKey(WorkbookRules, w), Workbook(w), t.workbook, c, who);
      n := 1;
    } else {
      var p := LockingProject(site, w).value;
      var up: nat :| InheritedFrom(site, p, up, c, who);
      ProjectReaches(site, t, p, c, who, up);
      var g := ProxyGrant(Workbook(w), t.workbook[c], Project(p), t.defaultWorkbook[c]);
      assert g in InheritedSet(Workbook(w), Project(p), t.workbook, t.defaultWorkbook);
      assert EmittedOnWorkbook(site, t, w, g);
      assert t.defaultWorkbook[c] in t.defaultWorkbook.Values;
      ProxyReaches(site, t, Workbook(w), Project(p), t.workbook, t.defaultWorkbook, c, who, up + 1);
      n := up + 2;
    }
  }

  lemma ViewReaches(site: Site, t: SlugTables, v: string, c: string, who: ResourceId) returns (n: nat)
    requires Coherent(t) && c in t.view && site.SyncsView(v) && ViewAccess(site, v, c, who)
    ensures Reaches(Synced(site, t), Declared(site, t), Entitlement(View(v), t.view[c]), who, n)
  {
    var w := site.views[v];
    if site.ShowsTabs(w) {
      var m := WorkbookReaches(site, t, w, c, who);
      var g := ProxyGrant(View(v), t.view[c], Workbook(w), t.workbook[c]);
      assert g in InheritedSet(View(v), Workbook(w), t.view, t.workbook);
      assert EmittedOnView(site, t, v, g);
      assert t.workbook[c] in t.workbook.Values;
      ProxyReaches(site, t, View(v), Workbook(w), t.view, t.workbook, c, who, m);
      n := m + 1;
    } else {
      forall g | FromRules(View(v), site.RulesAt(RuleKey(ViewRules, v)), t.view, g) ensures Emitted(site, t, g) {
        assert g.entitlement.resource == View(v);
      }
      SourcedReaches(site, t, RuleKey(ViewRules, v), View(v), t.view, c, who);
      n := 1;
    }
  }

  lemma ProjectAccessIsExpanded(site: Site, t: SlugTables, e: Entitlement, who: ResourceId)
    requires Coherent(t) && e.resource.resourceType == "project" && Access(site, t, e, who)
    ensures Expanded(Synced(site, t), Declared(site, t), e, who)
  {
    var id := e.resource.resource;
    if c :| c in t.project && t.project[c] == e.slug && Sourced(site, RuleKey(ProjectRules, id), c, who) {
      forall g | FromRules(Project(id), site.RulesAt(RuleKey(ProjectRules, id)), t.project, g)
        ensures Emitted(site, t, g)
      {
        assert g.entitlement.resource == Project(id);
      }
      SourcedReaches(site, t, RuleKey(ProjectRules, id), Project(id), t.project, c, who);
    } else {
      var c :| c in t.defaultWorkbook && t.defaultWorkbook[c] == e.slug && ProjectAccess(site, id, c, who);
      var n: nat :| InheritedFrom(site, id, n, c, who);
      ProjectReaches(site, t, id, c, who, n);
    }
  }

  lemma MemberIsExpanded(site: Site, t: SlugTables, group: string, who: ResourceId)
    requires who.resourceType == "user" && IsSyncedMember(site, group, who.resource)
    ensures Expanded(Synced(site, t), Declared(site, t), Entitlement(Group(group), MEMBER), who)
  {
    var m := MemberGrant(group, site.groups[group] == ALL_USERS, who.resource);
    assert who == User(who.resource) && EmittedOnGroup(site, group, m);
    assert m in Synced(site, t) && m.principal == who;
    assert Reaches(Synced(site, t), Declared(site, t), Entitlement(Group(group), MEMBER), who, 0);
  }

  lemma WorkbookAccessIsExpanded(site: Site, t: SlugTables, e: Entitlement, who: ResourceId)
    requires Coherent(t) && e.resource.resourceType == "workbook" && Access(site, t, e, who)
    ensures Expanded(Synced(site, t), Declared(site, t), e, who)
  {
    var id := e.resource.resource;
    var c :| c in t.workbook && t.workbook[c] == e.slug && WorkbookAccess(site, id, c, who);
    var n := WorkbookReaches(site, t, id, c, who);
  }

  lemma ViewAccessIsExpanded(site: Site, t: SlugTables, e: Entitlement, who: ResourceId)
    requires Coherent(t) && e.resource.resourceType == "view" && Access(site, t, e, who)
    ensures Expanded(Synced(site, t), Declared(site, t), e, who)
  {
    var id := e.resource.resource;
    var c :| c in t.view && t.view[c] == e.slug && ViewAccess(site, id, c, who);
    var n := ViewReaches(site, t, id, c, who);
  }

  lemma AccessIsExpanded(site: Site, t: SlugTables, e: Entitlement, who: ResourceId)
    requires Coherent(t) && Access(site, t, e, who)
    ensures Expanded(Synced(site, t), Declared(site, t), e, who)
  {
    if e.resource.resourceType == "project" {
      ProjectAccessIsExpanded(site, t, e, who);
    } else if e.resource.resourceType == "workbook" {
      WorkbookAccessIsExpanded(site, t, e, who);
    } else if e.resource.resourceType == "view" {
      ViewAccessIsExpanded(site, t, e, who);
    } else {
      MemberIsExpanded(site, t, e.resource.resource, who);
    }
  }

  /**
   Expanding everything a sync emits gives each user and group exactly the intended access, for
   every site, every project hierarchy and every entitlement.
   */
  lemma ExpansionIsInheritedAccess(site: Site, t: SlugTables)
    requires Coherent(t) && site.WellFormed()
    ensures forall e, who :: IsAccount(who) ==>
      (Expanded(Synced(site, t), Declared(site, t), e, who) <==> Access(site, t, e, who))
  {
    forall e, who | IsAccount(who)
      ensures Expanded(Synced(site, t), Declared(site, t), e, who) <==> Access(site, t, e, who)
    {
      if Expanded(Synced(site, t), Declared(site, t), e, who) { ExpandedIsAccess(site, t, e, who); }
      if Access(site, t, e, who) { AccessIsExpanded(site, t, e, who); }
    }
  }

  // ---------------------------------------------------------- capability by capability

  /** The recursive reading: a project's own sources, and everything its parent has. */
  lemma ProjectAccessRecursive(site: Site, p: string, c: string, who: ResourceId)
    requires p in site.projects
    ensures ProjectAccess(site, p, c, who) <==>
      || Sourced(site, RuleKey(DefaultWorkbookRules, p), c, who)
      || (site.projects[p].parentProjectId != "" && ProjectAccess(site, site.projects[p].parentProjectId, c, who))
  {
    if n: nat :| InheritedFrom(site, p, n, c, who) {
      if n > 0 {
        assert InheritedFrom(site, site.projects[p].parentProjectId, n - 1, c, who);
      }
    }
    if Sourced(site, RuleKey(DefaultWorkbookRules, p), c, who) {
      assert InheritedFrom(site, p, 0, c, who);
    }
    if site.projects[p].parentProjectId != "" && ProjectAccess(site, site.projects[p].parentProjectId, c, who) {
      ParentAccess(site, p, c, who);
    }
  }

  lemma OwnProjectAccessOf(site: Site, t: SlugTables, p: string, c: string, who: ResourceId)
    requires Coherent(t) && c in t.project && p in site.projects
    ensures Access(site, t, Entitlement(Project(p), t.project[c]), who)
      <==> Sourced(site, RuleKey(ProjectRules, p), c, who)
  {
    assert t.project[c] in t.byDisplaySlug;
    assert forall o :: o in t.defaultWorkbook ==> t.defaultWorkbook[o] in t.byDefaultSlug;
  }

  lemma ViewAccessOf(site: Site, t: SlugTables, v: string, c: string, who: ResourceId)
    requires Coherent(t) && c in t.view && site.SyncsView(v)
    ensures Access(site, t, Entitlement(View(v), t.view[c]), who) <==> ViewAccess(site, v, c, who)
  {
  }

  /** `who` holds `e` after a sync of the site and the expansion of its grants. */
  ghost predicate Holds(site: Site, t: SlugTables, e: Entitlement, who: ResourceId) {
    Expanded(Synced(site, t), Declared(site, t), e, who)
  }

  lemma HoldsIsAccess(site: Site, t: SlugTables, e: Entitlement, who: ResourceId)
    requires Coherent(t) && site.WellFormed() && IsAccount(who)
    ensures Holds(site, t, e, who) <==> Access(site, t, e, who)
  {
    ExpansionIsInheritedAccess(site, t);
  }

  /** "Workbook / ..." on a project is held by whoever the ancestor chain sources. */
  lemma ProjectHolders(site: Site, t: SlugTables, p: string, c: string, who: ResourceId)
    requires Coherent(t) && site.WellFormed() && IsAccount(who) && p in site.projects && c in t.defaultWorkbook
    ensures Holds(site, t, Entitlement(Project(p), t.defaultWorkbook[c]), who) <==> ProjectAccess(site, p, c, who)
  {
    HoldsIsAccess(site, t, Entitlement(Project(p), t.defaultWorkbook[c]), who);
    ProjectAccessOf(site, t, p, c, who);
  }

  /** A workbook's permission is held through its own rules or its locked, filter-safe project. */
  lemma WorkbookHolders(site: Site, t: SlugTables, w: string, c: string, who: ResourceId)
    requires Coherent(t) && site.WellFormed() && IsAccount(who) && site.SyncsWorkbook(w) && c in t.workbook
    ensures Holds(site, t, Entitlement(Workbook(w), t.workbook[c]), who) <==> WorkbookAccess(site, w, c, who)
  {
    HoldsIsAccess(site, t, Entitlement(Workbook(w), t.workbook[c]), who);
    WorkbookAccessOf(site, t, w, c, who);
  }

  /** A view's permission is the workbook's under showTabs, and otherwise its own. */
  lemma ViewHolders(site: Site, t: SlugTables, v: string, c: string, who: ResourceId)
    requires Coherent(t) && site.WellFormed() && IsAccount(who) && site.SyncsView(v) && c in t.view
    ensures Holds(site, t, Entitlement(View(v), t.view[c]), who) <==> ViewAccess(site, v, c, who)
  {
    HoldsIsAccess(site, t, Entitlement(View(v), t.view[c]), who);
    ViewAccessOf(site, t, v, c, who);
  }

  /** A project's own View and Publish permissions are never inherited. */
  lemma OwnProjectHolders(site: Site, t: SlugTables, p: string, c: string, who: ResourceId)
    requires Coherent(t) && site.WellFormed() && IsAccount(who) && p in site.projects && c in t.project
    ensures Holds(site, t, Entitlement(Project(p), t.project[c]), who)
      <==> Sourced(site, RuleKey(ProjectRules, p), c, who)
  {
    HoldsIsAccess(site, t, Entitlement(Project(p), t.project[c]), who);
    OwnProjectAccessOf(site, t, p, c, who);
  }

  // ---------------------------------------------------------- what is synced, and what is not

  lemma RuleIsDeclared(slugs: SlugMap, resource: ResourceId, rules: set<Rule>, g: Grant)
    requires FromRules(resource, rules, slugs, g)
    ensures g.entitlement.resource == resource && g.entitlement.slug in slugs.Values
  {
  }

  lemma ProxyIsDeclared(child: ResourceId, parent: ResourceId, own: SlugMap, parentSlugs: SlugMap, g: Grant)
    requires g in InheritedSet(child, parent, own, parentSlugs)
    ensures g.entitlement.resource == child && g.entitlement.slug in own.Values
  {
  }

  /** Permission and membership grants are on declared entitlements only. */
  lemma PermissionIsDeclared(site: Site, t: SlugTables, g: Grant)
    requires Emitted(site, t, g)
    ensures IsDeclared(site, t, g.entitlement)
  {
    var r := g.entitlement.resource;
    if r.resourceType == "project" {
      ProjectGrantDeclared(site, t, r.resource, g);
    } else if r.resourceType == "workbook" {
      WorkbookGrantDeclared(site, t, r.resource, g);
    } else if r.resourceType == "view" {
      ViewGrantDeclared(site, t, r.resource, g);
    }
  }

  lemma ProjectGrantDeclared(site: Site, t: SlugTables, p: string, g: Grant)
    requires EmittedOnProject(site, t, p, g)
    ensures g.entitlement.slug in t.project.Values || g.entitlement.slug in t.defaultWorkbook.Values
  {
  }

  lemma WorkbookGrantDeclared(site: Site, t: SlugTables, w: string, g: Grant)
    requires EmittedOnWorkbook(site, t, w, g)
    ensures g.entitlement.slug in t.workbook.Values
  {
  }

  lemma ViewGrantDeclared(site: Site, t: SlugTables, v: string, g: Grant)
    requires EmittedOnView(site, t, v, g)
    ensures g.entitlement.slug in t.view.Values
  {
  }

  /**
   A workbook has permission entitlements exactly if it is in a project, and a view exactly if its workbook is;
   personal space is not synced.
   */
  lemma PersonalSpaceIsNotSynced(site: Site, t: SlugTables, id: string, slug: string)
    ensures IsDeclared(site, t, Entitlement(Workbook(id), slug))
      <==> id in site.workbooks && site.workbooks[id].project.Some? && slug in t.workbook.Values
    ensures IsDeclared(site, t, Entitlement(View(id), slug))
      <==> (id in site.views && site.views[id] in site.workbooks && site.workbooks[site.views[id]].project.Some?
            && slug in t.view.Values)
  {
  }

  /** Nobody holds anything on a resource that is not synced. */
  lemma UndeclaredIsUnheld(site: Site, t: SlugTables, e: Entitlement, who: ResourceId)
    requires Coherent(t) && site.WellFormed() && IsAccount(who) && Holds(site, t, e, who)
    ensures IsDeclared(site, t, e)
  {
    HoldsIsAccess(site, t, e, who);
    AccessIsDeclared(site, t, e, who);
  }

  lemma AccessIsDeclared(site: Site, t: SlugTables, e: Entitlement, who: ResourceId)
    requires Access(site, t, e, who)
    ensures IsDeclared(site, t, e)
  {
  }

  /** No membership of a server administrator is emitted, and nothing reaches one through a group. */
  lemma ServerAdministratorsAreSkipped(site: Site, t: SlugTables, group: string, u: string)
    requires Coherent(t) && site.WellFormed()
    ensures Holds(site, t, Entitlement(Group(group), "member"), User(u)) <==>
      (group in site.groups && u in site.MembersOf(group) && u in site.users && site.users[u] != "ServerAdministrator")
  {
    HoldsIsAccess(site, t, Entitlement(Group(group), MEMBER), User(u));
  }

  /** Which accounts hold a workbook's permission, by the texts of the site. */
  lemma WorkbookHoldersByText(site: Site, t: SlugTables, w: string, c: string, who: ResourceId)
    requires Coherent(t) && site.WellFormed() && IsAccount(who) && site.SyncsWorkbook(w) && c in t.workbook
    ensures Holds(site, t, Entitlement(Workbook(w), t.workbook[c]), who) <==>
      || Sourced(site, RuleKey(WorkbookRules, w), c, who)
      || (var p := site.workbooks[w].project.value;
          && p.id in site.projects && site.projects[p.id].name == p.name
          && site.projects[p.id].contentPermissions in {"LockedToProject", "LockedToProjectWithoutNested"}
          && p.name != "" && ',' !in p.name && '&' !in p.name
          && ProjectAccess(site, p.id, c, who))
  {
    WorkbookHolders(site, t, w, c, who);
  }
}
