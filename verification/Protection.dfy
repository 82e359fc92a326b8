/**
 What a call leaves alone: the other stores and resources, views that inherit from their workbook, and
 the All Users group; and that Revoke undoes Grant.
 */
module Protection {

  import opened Wrappers
  import opened Capabilities
  import opened Grants
  import opened Tableau
  import opened Server
  import opened Provisioning
  import opened ProvisioningRuns

  // ------------------------------------------------------------------- what a call changes

  /** The call reaches the server with a request that is accepted. */
  predicate Alters(site: Site, t: SlugTables, c: Call) {
    && !Refused(site, c) && !c.outage && Addressed(t, c).Some?
    && site.HasResource(Addressed(t, c).value.key)
    && (c.action == Give <==> Addressed(t, c).value.rule !in site.RulesAt(Addressed(t, c).value.key))
  }

  /** A permission call changes the addressed rule, if its request is accepted, and nothing else. */
  lemma RuleStepChanges(site: Site, t: SlugTables, c: Call, key: RuleKey)
    ensures var after := RuleStep(site, t, c).0;
      && SameResources(site, after) && after.members == site.members
      && (after.RulesAt(key) != site.RulesAt(key) <==> Alters(site, t, c) && Addressed(t, c).value.key == key)
  {
    if !Refused(site, c) && Addressed(t, c).Some? {
      var r := Addressed(t, c).value;
      AddRuleAnswers(site, r.key, r.rule);
      DeleteRuleAnswers(site, r.key, r.rule);
    }
  }

  lemma GroupStepKeepsRules(site: Site, c: Call, key: RuleKey)
    ensures GroupStep(site, c).0.RulesAt(key) == site.RulesAt(key)
  {
    GroupFrame(site, c);
  }

  lemma StepKeepsResources(site: Site, t: SlugTables, c: Call)
    ensures SameResources(site, Step(site, t, c).0)
  {
    GroupFrame(site, c);
    RuleStepChanges(site, t, c, RuleKey(ViewRules, ""));
  }

  // ------------------------------------------------------------ views that inherit

  /**
   A call that gets past the check for inherited view permissions: it is on the view, but the resource it
   carries has no parent, or one that does not show tabs; and its request is accepted.
   */
  predicate SlipsPastView(site: Site, t: SlugTables, c: Call, v: string) {
    && c.entitlement.resource == View(v) && !c.outage && Addressed(t, c).Some?
    && (c.entitlement.parent.Some? ==>
          c.entitlement.parent.value.resource in site.workbooks && !site.ShowsTabs(c.entitlement.parent.value.resource))
    && (c.action == Give <==> Addressed(t, c).value.rule !in site.RulesAt(RuleKey(ViewRules, v)))
  }

  lemma AddressesView(t: SlugTables, c: Call, v: string)
    requires Addressed(t, c).Some?
    ensures Addressed(t, c).value.key == RuleKey(ViewRules, v) <==> c.entitlement.resource == View(v)
  {
  }

  /** One call changes the rules of a view, under a showTabs workbook or not, exactly when it gets past the check. */
  lemma ProtectedViewStep(site: Site, t: SlugTables, c: Call, v: string)
    requires v in site.views
    ensures Step(site, t, c).0.RulesAt(RuleKey(ViewRules, v)) != site.RulesAt(RuleKey(ViewRules, v))
      <==> SlipsPastView(site, t, c, v)
  {
    if c.entitlement.resource.resourceType == "group" {
      GroupStepKeepsRules(site, c, RuleKey(ViewRules, v));
    } else {
      RuleStepChanges(site, t, c, RuleKey(ViewRules, v));
      if Addressed(t, c).Some? {
        AddressesView(t, c, v);
      }
    }
  }

  /**
   The input at which the protection fails: a Grant on the view, on any of its slugs, whose resource carries
   no parent.
   */
  lemma ParentlessViewCallSlipsPast(site: Site, t: SlugTables, c: Call, e: Entitlement)
    requires site.views == map["v" := "w"] && site.rules == map[]
    requires site.workbooks == map["w" := WorkbookInfo("true", Some(ProjectRef("p", "Finance")))]
    requires e.resource == View("v") && e.ColonFree()
    requires c == Call(Give, User("u"), EntitlementRef(e.resource, "Sheet", None, e.Id()), false)
    ensures Step(site, t, c).1 == Done
    ensures Step(site, t, c).0.RulesAt(RuleKey(ViewRules, "v")) != site.RulesAt(RuleKey(ViewRules, "v")) == {}
  {
    ParseInvertsPrint(e);
    assert Addressed(t, c).Some?;
    ProtectedViewStep(site, t, c, "v");
  }

  // ------------------------------------------------------------------- All Users

  /** A call on the group under another display name, whose request is accepted. */
  predicate SlipsPastAllUsers(site: Site, c: Call, group: string) {
    && c.entitlement.resource == Group(group) && c.entitlement.displayName != ALL_USERS
    && c.principal.resourceType == "user" && !c.outage
    && if c.action == Give
       then c.principal.resource in site.users && c.principal.resource !in site.MembersOf(group)
       else c.principal.resource in site.MembersOf(group)
  }

  /**
   One call changes the members of a group, All Users or not, exactly when it does not name it All Users and is
   accepted.
   */
  lemma AllUsersStep(site: Site, t: SlugTables, c: Call, group: string)
    requires group in site.groups
    ensures Step(site, t, c).0.MembersOf(group) != site.MembersOf(group) <==> SlipsPastAllUsers(site, c, group)
  {
    if c.entitlement.resource.resourceType == "group" {
      AddMemberAnswers(site, c.entitlement.resource.resource, c.principal.resource);
      RemoveMemberAnswers(site, c.entitlement.resource.resource, c.principal.resource);
    } else {
      RuleStepChanges(site, t, c, RuleKey(ViewRules, ""));
    }
  }

  /** The input at which it fails: the group under a name that is not its own. */
  lemma RenamedAllUsersCallSlipsPast(site: Site, t: SlugTables, c: Call)
    requires site.groups == map["g" := ALL_USERS]
    requires site.members == map["g" := {"u"}]
    requires c
      == Call(Take, User("u"),
           EntitlementRef(Group("g"), "Everyone", None, Entitlement(Group("g"), MEMBER).Id()), false)
    ensures Step(site, t, c).1 == Done && "u" !in Step(site, t, c).0.MembersOf("g")
  {
    AllUsersStep(site, t, c, "g");
  }

  // ------------------------------------------------------------------- the two stores

  /**
   A "Workbook / ..." call never touches a project's own permissions, and a call on any other slug never
   touches default workbook permissions.
   */
  lemma StoresIndependent(site: Site, t: SlugTables, c: Call, slug: string, p: string)
    requires t.byDefaultSlug.Keys == t.defaultWorkbook.Values && ParseEntitlementSlug(c.entitlement.id) == Some(slug)
    ensures slug in t.defaultWorkbook.Values ==>
      Step(site, t, c).0.RulesAt(RuleKey(ProjectRules, p)) == site.RulesAt(RuleKey(ProjectRules, p))
    ensures slug !in t.defaultWorkbook.Values ==>
      Step(site, t, c).0.RulesAt(RuleKey(DefaultWorkbookRules, p)) == site.RulesAt(RuleKey(DefaultWorkbookRules, p))
  {
    if c.entitlement.resource.resourceType == "group" {
      GroupStepKeepsRules(site, c, RuleKey(ProjectRules, p));
      GroupStepKeepsRules(site, c, RuleKey(DefaultWorkbookRules, p));
    } else {
      RuleStepChanges(site, t, c, RuleKey(ProjectRules, p));
      RuleStepChanges(site, t, c, RuleKey(DefaultWorkbookRules, p));
      assert Addressed(t, c) == Target(t, c.entitlement.resource, slug, c.principal);
    }
  }

  // ------------------------------------------------------------------------- undoing

  /** Nothing a sync reads differs. */
  ghost predicate SameSite(a: Site, b: Site) {
    && SameResources(a, b)
    && (forall k :: a.RulesAt(k) == b.RulesAt(k))
    && (forall g :: a.MembersOf(g) == b.MembersOf(g))
  }

  lemma RuleRoundTrips(site: Site, key: RuleKey, rule: Rule)
    ensures AddRule(site, key, rule).1 == Accepted ==>
      var (back, reply) := DeleteRule(AddRule(site, key, rule).0, key, rule); reply == Accepted && SameSite(back, site)
    ensures DeleteRule(site, key, rule).1 == Accepted ==>
      var (back, reply) := AddRule(DeleteRule(site, key, rule).0, key, rule); reply == Accepted && SameSite(back, site)
  {
  }

  lemma MemberRoundTrips(site: Site, group: string, user: string)
    ensures AddMember(site, group, user).1 == Accepted ==>
      var (back, reply) := RemoveMember(AddMember(site, group, user).0, group, user);
      reply == Accepted && SameSite(back, site)
    ensures RemoveMember(site, group, user).1 == Accepted && user in site.users ==>
      var (back, reply) := AddMember(RemoveMember(site, group, user).0, group, user);
      reply == Accepted && SameSite(back, site)
  {
  }

  /** A Revoke undoes a Grant that was done, and the other way round, for every entitlement and principal. */
  lemma OppositeUndoes(site: Site, t: SlugTables, c: Call, opposite: Call)
    requires opposite == c.(action := if c.action == Give then Take else Give) && Step(site, t, c).1 == Done
    requires c.entitlement.resource.resourceType == "group" ==> c.principal.resource in site.users
    ensures var (back, outcome) := Step(Step(site, t, c).0, t, opposite); outcome == Done && SameSite(back, site)
  {
    if c.entitlement.resource.resourceType == "group" {
      MemberRoundTrips(site, c.entitlement.resource.resource, c.principal.resource);
    } else {
      var r := Addressed(t, c).value;
      RuleRoundTrips(site, r.key, r.rule);
      RuleStepChanges(site, t, c, r.key);
      assert Addressed(t, opposite) == Addressed(t, c);
      assert Refused(Step(site, t, c).0, opposite) == Refused(site, c);
    }
  }
}
