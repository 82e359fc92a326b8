/**
 What granting one rule, to a user or to a group, adds to the access everybody ends up with: the mirror
 image of a revoke.
 */
module GrantEffect {

  import opened Wrappers
  import opened Capabilities
  import opened Grants
  import opened Tableau
  import opened InheritedAccess
  import opened Inheritance
  import opened Provisioning
  import opened ProvisioningRuns
  import opened RevokeEffect

  /** The site with the account's own rule at one store. */
  function With(site: Site, key: RuleKey, c: string, account: ResourceId): (after: Site)
    requires IsAccount(account)
    ensures after == site.(rules := after.rules)
    ensures site.WellFormed() ==> after.WellFormed()
  {
    site.WithRules(key, site.RulesAt(key) + {Rule(account, c, ALLOW)})
  }

  // ------------------------------------------------------- what a store reaches

  /** The default rules of a project reach it and every project beneath it. */
  ghost predicate ReachesProject(site: Site, key: RuleKey, p: string) {
    key.store == DefaultWorkbookRules && exists n: nat :: AncestorAt(site, p, n) == Some(key.id)
  }

  /** A workbook is reached by its own rules and by what reaches its locking project. */
  ghost predicate ReachesWorkbook(site: Site, key: RuleKey, w: string) {
    || key == RuleKey(WorkbookRules, w)
    || (LockingProject(site, w).Some? && ReachesProject(site, key, LockingProject(site, w).value))
  }

  ghost predicate ReachesView(site: Site, key: RuleKey, v: string)
    requires v in site.views
  {
    if site.ShowsTabs(site.views[v]) then ReachesWorkbook(site, key, site.views[v]) else key == RuleKey(ViewRules, v)
  }

  // ---------------------------------------------------------- access with the rule

  /** A rule with capability `c` for the account adds `d` to what `who` has, where the rule reaches. */
  predicate Adds(site: Site, c: string, account: ResourceId, d: string, who: ResourceId) {
    !IsSpared(site, c, account, d, who)
  }

  lemma SourcedWith(site: Site, key: RuleKey, c: string, account: ResourceId, at: RuleKey, d: string,
                    who: ResourceId)
    requires IsAccount(account)
    ensures Sourced(With(site, key, c, account), at, d, who)
      <==> Sourced(site, at, d, who) || (at == key && Adds(site, c, account, d, who))
  {
    var after := With(site, key, c, account);
    assert forall g :: Allowed(after, at, d, g) <==> Allowed(site, at, d, g) || (at == key && d == c && g == account);
    assert forall group, user :: IsSyncedMember(after, group, user) <==> IsSyncedMember(site, group, user);
    if account.resourceType == "group" {
      assert account == Group(account.resource);
    }
  }

  lemma InheritedWith(site: Site, key: RuleKey, c: string, account: ResourceId, p: string, n: nat, d: string,
                      who: ResourceId)
    requires IsAccount(account)
    ensures InheritedFrom(With(site, key, c, account), p, n, d, who) <==>
      || InheritedFrom(site, p, n, d, who)
      || (key.store == DefaultWorkbookRules && AncestorAt(site, p, n) == Some(key.id) && Adds(site, c, account, d, who))
  {
    AncestorsSame(site, With(site, key, c, account), p, n);
    var a := AncestorAt(site, p, n);
    if a.Some? {
      SourcedWith(site, key, c, account, RuleKey(DefaultWorkbookRules, a.value), d, who);
    }
  }

  lemma ProjectAccessWith(site: Site, key: RuleKey, c: string, account: ResourceId, p: string, d: string,
                          who: ResourceId)
    requires IsAccount(account)
    ensures ProjectAccess(With(site, key, c, account), p, d, who)
      <==> ProjectAccess(site, p, d, who) || (ReachesProject(site, key, p) && Adds(site, c, account, d, who))
  {
    forall n: nat
      ensures InheritedFrom(With(site, key, c, account), p, n, d, who) <==>
        || InheritedFrom(site, p, n, d, who)
        || (key.store == DefaultWorkbookRules && AncestorAt(site, p, n) == Some(key.id)
            && Adds(site, c, account, d, who))
    {
      InheritedWith(site, key, c, account, p, n, d, who);
    }
  }

  lemma WorkbookAccessWith(site: Site, key: RuleKey, c: string, account: ResourceId, w: string, d: string,
                           who: ResourceId)
    requires IsAccount(account)
    ensures WorkbookAccess(With(site, key, c, account), w, d, who)
      <==> WorkbookAccess(site, w, d, who) || (ReachesWorkbook(site, key, w) && Adds(site, c, account, d, who))
  {
    SourcedWith(site, key, c, account, RuleKey(WorkbookRules, w), d, who);
    assert LockingProject(With(site, key, c, account), w) == LockingProject(site, w);
    if LockingProject(site, w).Some? {
      ProjectAccessWith(site, key, c, account, LockingProject(site, w).value, d, who);
    }
  }

  lemma ViewAccessWith(site: Site, key: RuleKey, c: string, account: ResourceId, v: string, d: string,
                       who: ResourceId)
    requires v in site.views && IsAccount(account)
    ensures ViewAccess(With(site, key, c, account), v, d, who)
      <==> ViewAccess(site, v, d, who) || (ReachesView(site, key, v) && Adds(site, c, account, d, who))
  {
    SourcedWith(site, key, c, account, RuleKey(ViewRules, v), d, who);
    WorkbookAccessWith(site, key, c, account, site.views[v], d, who);
  }

  // --------------------------------------------------- after the next sync and expansion

  /** Afterwards `who` holds `e` exactly if it held it before or has gained it. */
  ghost predicate Gains(site: Site, after: Site, t: SlugTables, e: Entitlement, who: ResourceId, gained: bool) {
    Holds(after, t, e, who) <==> Holds(site, t, e, who) || gained
  }

  lemma OwnProjectGains(site: Site, t: SlugTables, key: RuleKey, c: string, account: ResourceId, p: string,
                        d: string, who: ResourceId)
    requires Coherent(t) && site.WellFormed() && IsAccount(account) && IsAccount(who)
    requires p in site.projects && d in t.project
    ensures Gains(site, With(site, key, c, account), t, Entitlement(Project(p), t.project[d]), who,
              key == RuleKey(ProjectRules, p) && Adds(site, c, account, d, who))
  {
    OwnProjectHolders(site, t, p, d, who);
    OwnProjectHolders(With(site, key, c, account), t, p, d, who);
    SourcedWith(site, key, c, account, RuleKey(ProjectRules, p), d, who);
  }

  lemma ProjectGains(site: Site, t: SlugTables, key: RuleKey, c: string, account: ResourceId, p: string,
                     d: string, who: ResourceId)
    requires Coherent(t) && site.WellFormed() && IsAccount(account) && IsAccount(who)
    requires p in site.projects && d in t.defaultWorkbook
    ensures Gains(site, With(site, key, c, account), t, Entitlement(Project(p), t.defaultWorkbook[d]), who,
              ReachesProject(site, key, p) && Adds(site, c, account, d, who))
  {
    ProjectHolders(site, t, p, d, who);
    ProjectHolders(With(site, key, c, account), t, p, d, who);
    ProjectAccessWith(site, key, c, account, p, d, who);
  }

  lemma WorkbookGains(site: Site, t: SlugTables, key: RuleKey, c: string, account: ResourceId, w: string,
                      d: string, who: ResourceId)
    requires Coherent(t) && site.WellFormed() && IsAccount(account) && IsAccount(who)
    requires site.SyncsWorkbook(w) && d in t.workbook
    ensures Gains(site, With(site, key, c, account), t, Entitlement(Workbook(w), t.workbook[d]), who,
              ReachesWorkbook(site, key, w) && Adds(site, c, account, d, who))
  {
    WorkbookHolders(site, t, w, d, who);
    WorkbookHolders(With(site, key, c, account), t, w, d, who);
    WorkbookAccessWith(site, key, c, account, w, d, who);
  }

  lemma ViewGains(site: Site, t: SlugTables, key: RuleKey, c: string, account: ResourceId, v: string,
                  d: string, who: ResourceId)
    requires Coherent(t) && site.WellFormed() && IsAccount(account) && IsAccount(who)
    requires site.SyncsView(v) && d in t.view
    ensures Gains(site, With(site, key, c, account), t, Entitlement(View(v), t.view[d]), who,
              ReachesView(site, key, v) && Adds(site, c, account, d, who))
  {
    ViewHolders(site, t, v, d, who);
    ViewHolders(With(site, key, c, account), t, v, d, who);
    ViewAccessWith(site, key, c, account, v, d, who);
  }

  // ------------------------------------------------------------------- the grant call

  predicate IsGrant(call: Call, e: Entitlement, account: ResourceId) {
    call.action == Give && NamesEntitlement(call, e, account)
  }

  /** A rule that is there already adds nothing. */
  lemma AlreadyWith(site: Site, key: RuleKey, c: string, account: ResourceId)
    requires IsAccount(account) && Allowed(site, key, c, account)
    ensures With(site, key, c, account) == site
  {
    assert site.RulesAt(key) + {Rule(account, c, ALLOW)} == site.RulesAt(key);
    assert site.rules[key := site.RulesAt(key)] == site.rules;
  }

  /** The site has the account's rule, which the answer tells apart from having had it. */
  lemma GrantStep(site: Site, t: SlugTables, call: Call, key: RuleKey, slot: (ResourceId, SlugMap), c: string,
                  account: ResourceId)
    requires Coherent(t) && site.WellFormed() && Slot(site, t, key) == Some(slot) && c in slot.1
    requires IsGrant(call, EntitlementAt(slot, c), account) && !Refused(site, call)
    ensures Step(site, t, call)
      == (With(site, key, c, account), if Allowed(site, key, c, account) then GrantAlreadyExists else Done)
  {
    SlotDeclares(site, t, key, slot, c);
    PrintedIdAddresses(site, t, call, key, slot, c, account);
    if Allowed(site, key, c, account) {
      AlreadyWith(site, key, c, account);
    }
  }

  /**
   Granting a capability to a user or a group, in any of the four stores: after the next sync and expansion any
   account holds any capability on a project, workbook or view exactly when it held it before, or the granted
   rule reaches that resource, is for that capability, and is for the account or a group it belongs to.
   */
  lemma GrantDirect(site: Site, t: SlugTables, call: Call, key: RuleKey, slot: (ResourceId, SlugMap), c: string,
                    account: ResourceId, d: string, who: ResourceId)
    requires Coherent(t) && site.WellFormed() && Slot(site, t, key) == Some(slot) && c in slot.1 && IsAccount(who)
    requires IsGrant(call, EntitlementAt(slot, c), account) && !Refused(site, call)
    ensures Step(site, t, call).1 in {Done, GrantAlreadyExists}
    ensures var (after, adds) := (Step(site, t, call).0, Adds(site, c, account, d, who));
      && (forall p :: p in site.projects && d in t.project ==>
            Gains(site, after, t, Entitlement(Project(p), t.project[d]), who, key == RuleKey(ProjectRules, p) && adds))
      && (forall p :: p in site.projects && d in t.defaultWorkbook ==>
            Gains(site, after, t, Entitlement(Project(p), t.defaultWorkbook[d]), who,
              ReachesProject(site, key, p) && adds))
      && (forall w :: site.SyncsWorkbook(w) && d in t.workbook ==>
            Gains(site, after, t, Entitlement(Workbook(w), t.workbook[d]), who, ReachesWorkbook(site, key, w) && adds))
      && (forall v :: site.SyncsView(v) && d in t.view ==>
            Gains(site, after, t, Entitlement(View(v), t.view[d]), who, ReachesView(site, key, v) && adds))
  {
    GrantStep(site, t, call, key, slot, c, account);
    forall p | p in site.projects && d in t.project { OwnProjectGains(site, t, key, c, account, p, d, who); }
    forall p | p in site.projects && d in t.defaultWorkbook { ProjectGains(site, t, key, c, account, p, d, who); }
    forall w | site.SyncsWorkbook(w) && d in t.workbook { WorkbookGains(site, t, key, c, account, w, d, who); }
    forall v | site.SyncsView(v) && d in t.view { ViewGains(site, t, key, c, account, v, d, who); }
  }
}
