/**
 What revoking one rule, of a user or of a group, does to the access everybody ends up with.
 */
module RevokeEffect {

  import opened Wrappers
  import opened Capabilities
  import opened Grants
  import opened Tableau
  import opened InheritedAccess
  import opened Inheritance
  import opened Server
  import opened Provisioning
  import opened ProvisioningRuns

  /** The site after one rule is gone. */
  function Without(site: Site, revoked: RuleRequest): (after: Site)
    ensures after == site.(rules := after.rules)
    ensures site.WellFormed() ==> after.WellFormed()
  {
    site.WithRules(revoked.key, site.RulesAt(revoked.key) - {revoked.rule})
  }

  // ------------------------------------------------------- the sources that remain

  /** A store allows the grantee the capability by a rule other than the revoked one. */
  predicate StillAllowed(site: Site, revoked: RuleRequest, key: RuleKey, d: string, grantee: ResourceId) {
    Allowed(site, key, d, grantee) && RuleRequest(key, Rule(grantee, d, ALLOW)) != revoked
  }

  ghost predicate StillThroughGroup(site: Site, revoked: RuleRequest, key: RuleKey, d: string, who: ResourceId) {
    && who.resourceType == "user"
    && exists group :: StillAllowed(site, revoked, key, d, Group(group)) && IsSyncedMember(site, group, who.resource)
  }

  /** A store still gives `who` the capability: directly or by a group, without the revoked rule. */
  ghost predicate StillSourced(site: Site, revoked: RuleRequest, key: RuleKey, d: string, who: ResourceId) {
    StillAllowed(site, revoked, key, d, who) || StillThroughGroup(site, revoked, key, d, who)
  }

  ghost predicate StillInheritedFrom(site: Site, revoked: RuleRequest, p: string, n: nat, d: string,
                                     who: ResourceId)
  {
    && AncestorAt(site, p, n).Some?
    && StillSourced(site, revoked, RuleKey(DefaultWorkbookRules, AncestorAt(site, p, n).value), d, who)
  }

  /** Some source remains on the ancestor chain of `p`. */
  ghost predicate OtherProjectSource(site: Site, revoked: RuleRequest, p: string, d: string, who: ResourceId) {
    exists n: nat :: StillInheritedFrom(site, revoked, p, n, d, who)
  }

  /** Some source remains at the workbook or on the chain of its locking project. */
  ghost predicate OtherWorkbookSource(site: Site, revoked: RuleRequest, w: string, d: string, who: ResourceId) {
    || StillSourced(site, revoked, RuleKey(WorkbookRules, w), d, who)
    || (LockingProject(site, w).Some? && OtherProjectSource(site, revoked, LockingProject(site, w).value, d, who))
  }

  ghost predicate OtherViewSource(site: Site, revoked: RuleRequest, v: string, d: string, who: ResourceId)
    requires v in site.views
  {
    if site.ShowsTabs(site.views[v]) then OtherWorkbookSource(site, revoked, site.views[v], d, who)
    else StillSourced(site, revoked, RuleKey(ViewRules, v), d, who)
  }

  // ------------------------------------------------------- access without the rule

  lemma SourcedWithout(site: Site, revoked: RuleRequest, key: RuleKey, d: string, who: ResourceId)
    ensures Sourced(Without(site, revoked), key, d, who) <==> StillSourced(site, revoked, key, d, who)
  {
    var after := Without(site, revoked);
    assert forall g :: Allowed(after, key, d, g) <==> StillAllowed(site, revoked, key, d, g);
    assert forall group, user :: IsSyncedMember(after, group, user) <==> IsSyncedMember(site, group, user);
  }

  lemma {:induction false} AncestorsSame(a: Site, b: Site, p: string, n: nat)
    requires a.projects == b.projects
    ensures AncestorAt(a, p, n) == AncestorAt(b, p, n)
    decreases n
  {
    if p in a.projects && n > 0 && a.projects[p].parentProjectId != "" {
      AncestorsSame(a, b, a.projects[p].parentProjectId, n - 1);
    }
  }

  lemma ProjectAccessWithout(site: Site, revoked: RuleRequest, p: string, d: string, who: ResourceId)
    ensures ProjectAccess(Without(site, revoked), p, d, who) <==> OtherProjectSource(site, revoked, p, d, who)
  {
    forall n: nat
      ensures InheritedFrom(Without(site, revoked), p, n, d, who) <==> StillInheritedFrom(site, revoked, p, n, d, who)
    {
      AncestorsSame(site, Without(site, revoked), p, n);
      var a := AncestorAt(site, p, n);
      if a.Some? {
        SourcedWithout(site, revoked, RuleKey(DefaultWorkbookRules, a.value), d, who);
      }
    }
  }

  lemma WorkbookAccessWithout(site: Site, revoked: RuleRequest, w: string, d: string, who: ResourceId)
    ensures WorkbookAccess(Without(site, revoked), w, d, who) <==> OtherWorkbookSource(site, revoked, w, d, who)
  {
    SourcedWithout(site, revoked, RuleKey(WorkbookRules, w), d, who);
    assert LockingProject(Without(site, revoked), w) == LockingProject(site, w);
    if LockingProject(site, w).Some? {
      ProjectAccessWithout(site, revoked, LockingProject(site, w).value, d, who);
    }
  }

  lemma ViewAccessWithout(site: Site, revoked: RuleRequest, v: string, d: string, who: ResourceId)
    requires v in site.views
    ensures ViewAccess(Without(site, revoked), v, d, who) <==> OtherViewSource(site, revoked, v, d, who)
  {
    SourcedWithout(site, revoked, RuleKey(ViewRules, v), d, who);
    WorkbookAccessWithout(site, revoked, site.views[v], d, who);
  }

  // --------------------------------------------------- after the next sync and expansion

  /** View and Publish on a project. */
  lemma OwnProjectAfter(site: Site, t: SlugTables, revoked: RuleRequest, p: string, d: string, who: ResourceId)
    requires Coherent(t) && site.WellFormed() && IsAccount(who) && p in site.projects && d in t.project
    ensures Holds(Without(site, revoked), t, Entitlement(Project(p), t.project[d]), who)
      <==> StillSourced(site, revoked, RuleKey(ProjectRules, p), d, who)
  {
    OwnProjectHolders(Without(site, revoked), t, p, d, who);
    SourcedWithout(site, revoked, RuleKey(ProjectRules, p), d, who);
  }

  /** "Workbook / ..." on a project. */
  lemma ProjectAfter(site: Site, t: SlugTables, revoked: RuleRequest, p: string, d: string, who: ResourceId)
    requires Coherent(t) && site.WellFormed() && IsAccount(who) && p in site.projects && d in t.defaultWorkbook
    ensures Holds(Without(site, revoked), t, Entitlement(Project(p), t.defaultWorkbook[d]), who)
      <==> OtherProjectSource(site, revoked, p, d, who)
  {
    ProjectHolders(Without(site, revoked), t, p, d, who);
    ProjectAccessWithout(site, revoked, p, d, who);
  }

  lemma WorkbookAfter(site: Site, t: SlugTables, revoked: RuleRequest, w: string, d: string, who: ResourceId)
    requires Coherent(t) && site.WellFormed() && IsAccount(who) && site.SyncsWorkbook(w) && d in t.workbook
    ensures Holds(Without(site, revoked), t, Entitlement(Workbook(w), t.workbook[d]), who)
      <==> OtherWorkbookSource(site, revoked, w, d, who)
  {
    WorkbookHolders(Without(site, revoked), t, w, d, who);
    WorkbookAccessWithout(site, revoked, w, d, who);
  }

  lemma ViewAfter(site: Site, t: SlugTables, revoked: RuleRequest, v: string, d: string, who: ResourceId)
    requires Coherent(t) && site.WellFormed() && IsAccount(who) && site.SyncsView(v) && d in t.view
    ensures Holds(Without(site, revoked), t, Entitlement(View(v), t.view[d]), who)
      <==> OtherViewSource(site, revoked, v, d, who)
  {
    ViewHolders(Without(site, revoked), t, v, d, who);
    ViewAccessWithout(site, revoked, v, d, who);
  }

  // ------------------------------------------------------------------ the revoke call

  /** The entitlement the rules of a reported store appear under. */
  function EntitlementAt(slot: (ResourceId, SlugMap), c: string): Entitlement
    requires c in slot.1
  {
    Entitlement(slot.0, slot.1[c])
  }

  /** A call on an account's entitlement, by its printed id. */
  predicate NamesEntitlement(call: Call, e: Entitlement, account: ResourceId) {
    && call.principal == account && IsAccount(account) && !call.outage
    && call.entitlement.resource == e.resource && call.entitlement.id == e.Id()
  }

  predicate IsRevoke(call: Call, e: Entitlement, account: ResourceId) {
    call.action == Take && NamesEntitlement(call, e, account)
  }

  /** The account's own rule at a store. */
  function OwnRule(key: RuleKey, c: string, account: ResourceId): RuleRequest {
    RuleRequest(key, Rule(account, c, ALLOW))
  }

  lemma SlotDeclares(site: Site, t: SlugTables, key: RuleKey, slot: (ResourceId, SlugMap), c: string)
    requires Slot(site, t, key) == Some(slot) && c in slot.1
    ensures IsDeclared(site, t, EntitlementAt(slot, c))
    ensures ReportsDirectly(site, slot.0) && slot.0.resourceType != "group"
    ensures site.HasResource(key)
  {
    assert slot.1[c] in slot.1.Values;
  }

  /** A call by printed id addresses the very rule the entitlement is reported for. */
  lemma PrintedIdAddresses(site: Site, t: SlugTables, call: Call, key: RuleKey, slot: (ResourceId, SlugMap),
                           c: string, account: ResourceId)
    requires Coherent(t) && site.WellFormed() && Slot(site, t, key) == Some(slot) && c in slot.1
    requires NamesEntitlement(call, EntitlementAt(slot, c), account)
    ensures Addressed(t, call) == Some(OwnRule(key, c, account))
  {
    SlotDeclares(site, t, key, slot, c);
    DeclaredRoundTrip(site, t, EntitlementAt(slot, c), call);
    var r := Addressed(t, call).value;
    CoherentSlugsApart(t);
    ReportedRuleInjective(site, t, r.key, r.rule, key, Rule(account, c, ALLOW));
  }

  /** Done if the rule is there; "already revoked", and no change, if it is not. */
  lemma RevokeStep(site: Site, t: SlugTables, call: Call, key: RuleKey, slot: (ResourceId, SlugMap), c: string,
                   account: ResourceId)
    requires Coherent(t) && site.WellFormed() && Slot(site, t, key) == Some(slot) && c in slot.1
    requires IsRevoke(call, EntitlementAt(slot, c), account) && !Refused(site, call)
    ensures Step(site, t, call) ==
      if Allowed(site, key, c, account) then (Without(site, OwnRule(key, c, account)), Done)
      else (site, GrantAlreadyRevoked)
  {
    SlotDeclares(site, t, key, slot, c);
    PrintedIdAddresses(site, t, call, key, slot, c, account);
  }

  /**
   Revoking the rule of a user or a group, in any of the four stores: after the next sync and expansion any
   account holds any capability on a project, workbook or view exactly when a source other than that
   rule, direct or through a group, remains on its inheritance path. For a group's rule this says which
   members keep their access.
   */
  lemma RevokeDirect(site: Site, t: SlugTables, call: Call, key: RuleKey, slot: (ResourceId, SlugMap), c: string,
                     account: ResourceId, d: string, who: ResourceId)
    requires Coherent(t) && site.WellFormed() && Slot(site, t, key) == Some(slot) && c in slot.1 && IsAccount(who)
    requires IsRevoke(call, EntitlementAt(slot, c), account) && !Refused(site, call) && Allowed(site, key, c, account)
    ensures Step(site, t, call).1 == Done
    ensures var (after, revoked) := (Step(site, t, call).0, OwnRule(key, c, account));
      && (forall p :: p in site.projects && d in t.project ==>
            (Holds(after, t, Entitlement(Project(p), t.project[d]), who)
             <==> StillSourced(site, revoked, RuleKey(ProjectRules, p), d, who)))
      && (forall p :: p in site.projects && d in t.defaultWorkbook ==>
            (Holds(after, t, Entitlement(Project(p), t.defaultWorkbook[d]), who)
             <==> OtherProjectSource(site, revoked, p, d, who)))
      && (forall w :: site.SyncsWorkbook(w) && d in t.workbook ==>
            (Holds(after, t, Entitlement(Workbook(w), t.workbook[d]), who)
             <==> OtherWorkbookSource(site, revoked, w, d, who)))
      && (forall v :: site.SyncsView(v) && d in t.view ==>
            (Holds(after, t, Entitlement(View(v), t.view[d]), who) <==> OtherViewSource(site, revoked, v, d, who)))
  {
    RevokeStep(site, t, call, key, slot, c, account);
    var revoked := OwnRule(key, c, account);
    forall p | p in site.projects && d in t.project { OwnProjectAfter(site, t, revoked, p, d, who); }
    forall p | p in site.projects && d in t.defaultWorkbook { ProjectAfter(site, t, revoked, p, d, who); }
    forall w | site.SyncsWorkbook(w) && d in t.workbook { WorkbookAfter(site, t, revoked, w, d, who); }
    forall v | site.SyncsView(v) && d in t.view { ViewAfter(site, t, revoked, v, d, who); }
  }

  // ------------------------------------------------------------------ who is spared

  /** A rule for the account gives its capability to `who`: the account itself, or a member of the group. */
  predicate Benefits(site: Site, account: ResourceId, who: ResourceId) {
    || who == account
    || (account.resourceType == "group" && who.resourceType == "user"
        && IsSyncedMember(site, account.resource, who.resource))
  }

  /** The rule could only have given the capability to somebody else, or only another capability. */
  predicate IsSpared(site: Site, c: string, account: ResourceId, d: string, who: ResourceId) {
    d != c || !Benefits(site, account, who)
  }

  lemma SparedSource(site: Site, key: RuleKey, c: string, account: ResourceId, at: RuleKey, d: string,
                     who: ResourceId)
    requires IsSpared(site, c, account, d, who)
    ensures StillSourced(site, OwnRule(key, c, account), at, d, who) <==> Sourced(site, at, d, who)
  {
    if AllowedThroughGroup(site, at, d, who) {
      var group :| Allowed(site, at, d, Group(group)) && IsSyncedMember(site, group, who.resource);
      assert StillAllowed(site, OwnRule(key, c, account), at, d, Group(group));
    }
  }

  lemma SparedProject(site: Site, key: RuleKey, c: string, account: ResourceId, p: string, d: string, who: ResourceId)
    requires IsSpared(site, c, account, d, who)
    ensures OtherProjectSource(site, OwnRule(key, c, account), p, d, who) <==> ProjectAccess(site, p, d, who)
  {
    forall n: nat
      ensures StillInheritedFrom(site, OwnRule(key, c, account), p, n, d, who) <==> InheritedFrom(site, p, n, d, who)
    {
      if AncestorAt(site, p, n).Some? {
        SparedSource(site, key, c, account, RuleKey(DefaultWorkbookRules, AncestorAt(site, p, n).value), d, who);
      }
    }
  }

  lemma SparedWorkbook(site: Site, key: RuleKey, c: string, account: ResourceId, w: string, d: string,
                       who: ResourceId)
    requires IsSpared(site, c, account, d, who)
    ensures OtherWorkbookSource(site, OwnRule(key, c, account), w, d, who) <==> WorkbookAccess(site, w, d, who)
  {
    SparedSource(site, key, c, account, RuleKey(WorkbookRules, w), d, who);
    if LockingProject(site, w).Some? {
      SparedProject(site, key, c, account, LockingProject(site, w).value, d, who);
    }
  }

  /** The revoke changes nothing about who holds `e`. */
  ghost predicate Spares(site: Site, t: SlugTables, revoked: RuleRequest, e: Entitlement, who: ResourceId) {
    Holds(Without(site, revoked), t, e, who) <==> Holds(site, t, e, who)
  }

  lemma SparesOwnProject(site: Site, t: SlugTables, key: RuleKey, c: string, account: ResourceId, p: string,
                         d: string, who: ResourceId)
    requires Coherent(t) && site.WellFormed() && IsAccount(who) && IsSpared(site, c, account, d, who)
    requires p in site.projects && d in t.project
    ensures Spares(site, t, OwnRule(key, c, account), Entitlement(Project(p), t.project[d]), who)
  {
    OwnProjectAfter(site, t, OwnRule(key, c, account), p, d, who);
    OwnProjectHolders(site, t, p, d, who);
    SparedSource(site, key, c, account, RuleKey(ProjectRules, p), d, who);
  }

  lemma SparesProject(site: Site, t: SlugTables, key: RuleKey, c: string, account: ResourceId, p: string,
                      d: string, who: ResourceId)
    requires Coherent(t) && site.WellFormed() && IsAccount(who) && IsSpared(site, c, account, d, who)
    requires p in site.projects && d in t.defaultWorkbook
    ensures Spares(site, t, OwnRule(key, c, account), Entitlement(Project(p), t.defaultWorkbook[d]), who)
  {
    ProjectAfter(site, t, OwnRule(key, c, account), p, d, who);
    ProjectHolders(site, t, p, d, who);
    SparedProject(site, key, c, account, p, d, who);
  }

  lemma SparesWorkbook(site: Site, t: SlugTables, key: RuleKey, c: string, account: ResourceId, w: string,
                       d: string, who: ResourceId)
    requires Coherent(t) && site.WellFormed() && IsAccount(who) && IsSpared(site, c, account, d, who)
    requires site.SyncsWorkbook(w) && d in t.workbook
    ensures Spares(site, t, OwnRule(key, c, account), Entitlement(Workbook(w), t.workbook[d]), who)
  {
    WorkbookAfter(site, t, OwnRule(key, c, account), w, d, who);
    WorkbookHolders(site, t, w, d, who);
    SparedWorkbook(site, key, c, account, w, d, who);
  }

  lemma SparesView(site: Site, t: SlugTables, key: RuleKey, c: string, account: ResourceId, v: string,
                   d: string, who: ResourceId)
    requires Coherent(t) && site.WellFormed() && IsAccount(who) && IsSpared(site, c, account, d, who)
    requires site.SyncsView(v) && d in t.view
    ensures Spares(site, t, OwnRule(key, c, account), Entitlement(View(v), t.view[d]), who)
  {
    ViewAfter(site, t, OwnRule(key, c, account), v, d, who);
    ViewHolders(site, t, v, d, who);
    SparedSource(site, key, c, account, RuleKey(ViewRules, v), d, who);
    SparedWorkbook(site, key, c, account, site.views[v], d, who);
  }

  /**
   The revoke takes nothing from anybody but the account, and its members if it is a group, and no other
   capability from those.
   */
  lemma RevokeSparesOthers(site: Site, t: SlugTables, key: RuleKey, c: string, account: ResourceId, d: string,
                           who: ResourceId)
    requires Coherent(t) && site.WellFormed() && IsAccount(who) && IsSpared(site, c, account, d, who)
    ensures forall p :: p in site.projects && d in t.project ==>
      Spares(site, t, OwnRule(key, c, account), Entitlement(Project(p), t.project[d]), who)
    ensures forall p :: p in site.projects && d in t.defaultWorkbook ==>
      Spares(site, t, OwnRule(key, c, account), Entitlement(Project(p), t.defaultWorkbook[d]), who)
    ensures forall w :: site.SyncsWorkbook(w) && d in t.workbook ==>
      Spares(site, t, OwnRule(key, c, account), Entitlement(Workbook(w), t.workbook[d]), who)
    ensures forall v :: site.SyncsView(v) && d in t.view ==>
      Spares(site, t, OwnRule(key, c, account), Entitlement(View(v), t.view[d]), who)
  {
    forall p | p in site.projects && d in t.project { SparesOwnProject(site, t, key, c, account, p, d, who); }
    forall p | p in site.projects && d in t.defaultWorkbook { SparesProject(site, t, key, c, account, p, d, who); }
    forall w | site.SyncsWorkbook(w) && d in t.workbook { SparesWorkbook(site, t, key, c, account, w, d, who); }
    forall v | site.SyncsView(v) && d in t.view { SparesView(site, t, key, c, account, v, d, who); }
  }

  // ------------------------------------------------------ permissions held in another way

  lemma SlotAccess(site: Site, t: SlugTables, key: RuleKey, slot: (ResourceId, SlugMap), c: string, who: ResourceId)
    requires Slot(site, t, key) == Some(slot) && c in slot.1 && Sourced(site, key, c, who)
    ensures Access(site, t, EntitlementAt(slot, c), who)
  {
    if key.store == DefaultWorkbookRules {
      assert InheritedFrom(site, key.id, 0, c, who);
    }
  }

  /**
   Revoking a permission the account holds in any way but by a rule of its own (through a group, an ancestor
   project, or the locking project) reports "already revoked", changes nothing, and the account still holds it.
   */
  lemma RevokeOfDerived(site: Site, t: SlugTables, call: Call, key: RuleKey, slot: (ResourceId, SlugMap),
                        c: string, account: ResourceId)
    requires Coherent(t) && site.WellFormed() && Slot(site, t, key) == Some(slot) && c in slot.1
    requires IsRevoke(call, EntitlementAt(slot, c), account) && !Refused(site, call)
    requires !Allowed(site, key, c, account) && Access(site, t, EntitlementAt(slot, c), account)
    ensures Step(site, t, call) == (site, GrantAlreadyRevoked)
    ensures Holds(site, t, EntitlementAt(slot, c), account)
  {
    RevokeStep(site, t, call, key, slot, c, account);
    HoldsIsAccess(site, t, EntitlementAt(slot, c), account);
  }

  /** In particular a permission a user holds through a group of the same store. */
  lemma RevokeThroughGroup(site: Site, t: SlugTables, call: Call, key: RuleKey, slot: (ResourceId, SlugMap),
                           c: string, u: string)
    requires Coherent(t) && site.WellFormed() && Slot(site, t, key) == Some(slot) && c in slot.1
    requires IsRevoke(call, EntitlementAt(slot, c), User(u)) && !Refused(site, call)
    requires !Allowed(site, key, c, User(u)) && AllowedThroughGroup(site, key, c, User(u))
    ensures Step(site, t, call) == (site, GrantAlreadyRevoked)
    ensures Holds(site, t, EntitlementAt(slot, c), User(u))
  {
    SlotAccess(site, t, key, slot, c, User(u));
    RevokeOfDerived(site, t, call, key, slot, c, User(u));
  }
}
