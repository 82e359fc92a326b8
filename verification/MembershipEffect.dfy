/** What joining or leaving a group does to the access everybody ends up with. */
module MembershipEffect {

  import opened Capabilities
  import opened Grants
  import opened Tableau
  import opened InheritedAccess
  import opened Inheritance
  import opened Server
  import opened Provisioning
  import opened ProvisioningRuns
  import opened RevokeEffect

  /** `after` is `site` with the user in the group. */
  ghost predicate Joins(site: Site, after: Site, group: string, u: string) {
    && SameResources(site, after) && after.rules == site.rules
    && group in site.groups
    && forall g :: after.MembersOf(g) == if g == group then site.MembersOf(g) + {u} else site.MembersOf(g)
  }

  /** `who` is the user that joins, and one whose memberships are synced. */
  predicate IsJoiner(site: Site, u: string, who: ResourceId) {
    who == User(u) && u in site.users && site.users[u] != SERVER_ADMINISTRATOR
  }

  // ------------------------------------------------------------- access by membership

  lemma JoinSourced(site: Site, after: Site, group: string, u: string, key: RuleKey, c: string, who: ResourceId)
    requires Joins(site, after, group, u)
    ensures Sourced(after, key, c, who)
      <==> Sourced(site, key, c, who) || (IsJoiner(site, u, who) && Sourced(site, key, c, Group(group)))
  {
    assert forall g :: Allowed(after, key, c, g) <==> Allowed(site, key, c, g);
    assert forall g, x :: IsSyncedMember(after, g, x) <==>
      (IsSyncedMember(site, g, x) || (g == group && IsJoiner(site, u, User(x))));
  }

  lemma JoinProject(site: Site, after: Site, group: string, u: string, p: string, c: string, who: ResourceId)
    requires Joins(site, after, group, u)
    ensures ProjectAccess(after, p, c, who)
      <==> ProjectAccess(site, p, c, who) || (IsJoiner(site, u, who) && ProjectAccess(site, p, c, Group(group)))
  {
    forall n: nat
      ensures InheritedFrom(after, p, n, c, who) <==>
        InheritedFrom(site, p, n, c, who) || (IsJoiner(site, u, who) && InheritedFrom(site, p, n, c, Group(group)))
    {
      AncestorsSame(site, after, p, n);
      if AncestorAt(site, p, n).Some? {
        JoinSourced(site, after, group, u, RuleKey(DefaultWorkbookRules, AncestorAt(site, p, n).value), c, who);
      }
    }
  }

  lemma JoinWorkbook(site: Site, after: Site, group: string, u: string, w: string, c: string, who: ResourceId)
    requires Joins(site, after, group, u)
    ensures WorkbookAccess(after, w, c, who)
      <==> WorkbookAccess(site, w, c, who) || (IsJoiner(site, u, who) && WorkbookAccess(site, w, c, Group(group)))
  {
    JoinSourced(site, after, group, u, RuleKey(WorkbookRules, w), c, who);
    assert LockingProject(after, w) == LockingProject(site, w);
    if LockingProject(site, w).Some? {
      JoinProject(site, after, group, u, LockingProject(site, w).value, c, who);
    }
  }

  lemma JoinView(site: Site, after: Site, group: string, u: string, v: string, c: string, who: ResourceId)
    requires Joins(site, after, group, u) && v in site.views
    ensures ViewAccess(after, v, c, who)
      <==> ViewAccess(site, v, c, who) || (IsJoiner(site, u, who) && ViewAccess(site, v, c, Group(group)))
  {
    JoinSourced(site, after, group, u, RuleKey(ViewRules, v), c, who);
    JoinWorkbook(site, after, group, u, site.views[v], c, who);
  }

  /** What joining brings: the membership itself, and whatever the group has. */
  ghost predicate Brought(site: Site, t: SlugTables, group: string, u: string, e: Entitlement, who: ResourceId) {
    IsJoiner(site, u, who) && (e == Entitlement(Group(group), MEMBER) || Access(site, t, e, Group(group)))
  }

  lemma JoinAccessOnProject(site: Site, after: Site, t: SlugTables, group: string, u: string, e: Entitlement,
                            who: ResourceId)
    requires Joins(site, after, group, u) && e.resource.resourceType == "project"
    ensures Access(after, t, e, who) <==> Access(site, t, e, who) || Brought(site, t, group, u, e, who)
  {
    var id := e.resource.resource;
    forall c { JoinSourced(site, after, group, u, RuleKey(ProjectRules, id), c, who); }
    forall c { JoinProject(site, after, group, u, id, c, who); }
  }

  lemma JoinAccessOnWorkbook(site: Site, after: Site, t: SlugTables, group: string, u: string, e: Entitlement,
                             who: ResourceId)
    requires Joins(site, after, group, u) && e.resource.resourceType == "workbook"
    ensures Access(after, t, e, who) <==> Access(site, t, e, who) || Brought(site, t, group, u, e, who)
  {
    forall c { JoinWorkbook(site, after, group, u, e.resource.resource, c, who); }
  }

  lemma JoinAccessOnView(site: Site, after: Site, t: SlugTables, group: string, u: string, e: Entitlement,
                         who: ResourceId)
    requires Joins(site, after, group, u) && e.resource.resourceType == "view"
    ensures Access(after, t, e, who) <==> Access(site, t, e, who) || Brought(site, t, group, u, e, who)
  {
    var id := e.resource.resource;
    if id in site.views {
      forall c { JoinView(site, after, group, u, id, c, who); }
    }
  }

  lemma JoinAccess(site: Site, after: Site, t: SlugTables, group: string, u: string, e: Entitlement, who: ResourceId)
    requires Joins(site, after, group, u)
    ensures Access(after, t, e, who) <==> Access(site, t, e, who) || Brought(site, t, group, u, e, who)
  {
    if e.resource.resourceType == "project" {
      JoinAccessOnProject(site, after, t, group, u, e, who);
    } else if e.resource.resourceType == "workbook" {
      JoinAccessOnWorkbook(site, after, t, group, u, e, who);
    } else if e.resource.resourceType == "view" {
      JoinAccessOnView(site, after, t, group, u, e, who);
    }
  }

  // --------------------------------------------------- after the next sync and expansion

  lemma JoinHolds(site: Site, after: Site, t: SlugTables, group: string, u: string, e: Entitlement, who: ResourceId)
    requires Coherent(t) && site.WellFormed() && after.WellFormed() && Joins(site, after, group, u) && IsAccount(who)
    ensures Holds(after, t, e, who) <==>
      || Holds(site, t, e, who)
      || (IsJoiner(site, u, who) && (e == Entitlement(Group(group), MEMBER) || Holds(site, t, e, Group(group))))
  {
    JoinAccess(site, after, t, group, u, e, who);
    HoldsIsAccess(site, t, e, who);
    HoldsIsAccess(site, t, e, Group(group));
    HoldsIsAccess(after, t, e, who);
  }

  /** A call on a membership, by its resource and principal. */
  predicate IsMembershipCall(call: Call, action: Action, group: string, u: string) {
    call.action == action && call.entitlement.resource == Group(group) && call.principal == User(u)
  }

  /**
   Adding a user to a group: after the next sync and expansion any account holds any entitlement exactly when it
   held it before, or it is that user, not a server administrator, and the entitlement is the membership or held
   by the group, in whatever way the group holds it.
   */
  lemma GrantMembership(site: Site, t: SlugTables, call: Call, group: string, u: string, e: Entitlement,
                        who: ResourceId)
    requires Coherent(t) && site.WellFormed() && IsAccount(who)
    requires IsMembershipCall(call, Give, group, u) && Step(site, t, call).1 == Done
    ensures Holds(Step(site, t, call).0, t, e, who) <==>
      || Holds(site, t, e, who)
      || (IsJoiner(site, u, who) && (e == Entitlement(Group(group), MEMBER) || Holds(site, t, e, Group(group))))
  {
    GroupFrame(site, call);
    JoinHolds(site, Step(site, t, call).0, t, group, u, e, who);
  }

  // ------------------------------------------------------------------ leaving a group

  /** A store gives the capability to `who` without the user's membership of the group. */
  ghost predicate SourcedOtherwise(site: Site, group: string, u: string, key: RuleKey, d: string, who: ResourceId) {
    || Allowed(site, key, d, who)
    || (who.resourceType == "user"
        && exists g :: (g != group || who != User(u)) && Allowed(site, key, d, Group(g))
                       && IsSyncedMember(site, g, who.resource))
  }

  ghost predicate InheritedOtherwise(site: Site, group: string, u: string, p: string, n: nat, d: string,
                                     who: ResourceId)
  {
    && AncestorAt(site, p, n).Some?
    && SourcedOtherwise(site, group, u, RuleKey(DefaultWorkbookRules, AncestorAt(site, p, n).value), d, who)
  }

  ghost predicate ProjectOtherwise(site: Site, group: string, u: string, p: string, d: string, who: ResourceId) {
    exists n: nat :: InheritedOtherwise(site, group, u, p, n, d, who)
  }

  ghost predicate WorkbookOtherwise(site: Site, group: string, u: string, w: string, d: string, who: ResourceId) {
    || SourcedOtherwise(site, group, u, RuleKey(WorkbookRules, w), d, who)
    || (LockingProject(site, w).Some? && ProjectOtherwise(site, group, u, LockingProject(site, w).value, d, who))
  }

  ghost predicate ViewOtherwise(site: Site, group: string, u: string, v: string, d: string, who: ResourceId)
    requires v in site.views
  {
    if site.ShowsTabs(site.views[v]) then WorkbookOtherwise(site, group, u, site.views[v], d, who)
    else SourcedOtherwise(site, group, u, RuleKey(ViewRules, v), d, who)
  }

  /** `after` is `site` without the user in the group. */
  ghost predicate Leaves(site: Site, after: Site, group: string, u: string) {
    && SameResources(site, after) && after.rules == site.rules
    && forall g :: after.MembersOf(g) == if g == group then site.MembersOf(g) - {u} else site.MembersOf(g)
  }

  lemma LeaveSourced(site: Site, after: Site, group: string, u: string, key: RuleKey, d: string, who: ResourceId)
    requires Leaves(site, after, group, u)
    ensures Sourced(after, key, d, who) <==> SourcedOtherwise(site, group, u, key, d, who)
  {
    assert forall g :: Allowed(after, key, d, g) <==> Allowed(site, key, d, g);
    assert forall g, x ::
      IsSyncedMember(after, g, x) <==> IsSyncedMember(site, g, x) && (g != group || User(x) != User(u));
    assert who.resourceType == "user" ==> who == User(who.resource);
  }

  lemma LeaveProject(site: Site, after: Site, group: string, u: string, p: string, d: string, who: ResourceId)
    requires Leaves(site, after, group, u)
    ensures ProjectAccess(after, p, d, who) <==> ProjectOtherwise(site, group, u, p, d, who)
  {
    forall n: nat ensures InheritedFrom(after, p, n, d, who) <==> InheritedOtherwise(site, group, u, p, n, d, who) {
      AncestorsSame(site, after, p, n);
      if AncestorAt(site, p, n).Some? {
        LeaveSourced(site, after, group, u, RuleKey(DefaultWorkbookRules, AncestorAt(site, p, n).value), d, who);
      }
    }
  }

  lemma LeaveWorkbook(site: Site, after: Site, group: string, u: string, w: string, d: string, who: ResourceId)
    requires Leaves(site, after, group, u)
    ensures WorkbookAccess(after, w, d, who) <==> WorkbookOtherwise(site, group, u, w, d, who)
  {
    LeaveSourced(site, after, group, u, RuleKey(WorkbookRules, w), d, who);
    assert LockingProject(after, w) == LockingProject(site, w);
    if LockingProject(site, w).Some? {
      LeaveProject(site, after, group, u, LockingProject(site, w).value, d, who);
    }
  }

  lemma LeaveView(site: Site, after: Site, group: string, u: string, v: string, d: string, who: ResourceId)
    requires Leaves(site, after, group, u) && v in site.views
    ensures ViewAccess(after, v, d, who) <==> ViewOtherwise(site, group, u, v, d, who)
  {
    LeaveSourced(site, after, group, u, RuleKey(ViewRules, v), d, who);
    LeaveWorkbook(site, after, group, u, site.views[v], d, who);
  }

  lemma OwnProjectLeft(site: Site, after: Site, t: SlugTables, group: string, u: string, p: string, d: string,
                       who: ResourceId)
    requires Coherent(t) && after.WellFormed() && Leaves(site, after, group, u) && IsAccount(who)
    requires p in site.projects && d in t.project
    ensures Holds(after, t, Entitlement(Project(p), t.project[d]), who)
      <==> SourcedOtherwise(site, group, u, RuleKey(ProjectRules, p), d, who)
  {
    OwnProjectHolders(after, t, p, d, who);
    LeaveSourced(site, after, group, u, RuleKey(ProjectRules, p), d, who);
  }

  lemma ProjectLeft(site: Site, after: Site, t: SlugTables, group: string, u: string, p: string, d: string,
                    who: ResourceId)
    requires Coherent(t) && after.WellFormed() && Leaves(site, after, group, u) && IsAccount(who)
    requires p in site.projects && d in t.defaultWorkbook
    ensures Holds(after, t, Entitlement(Project(p), t.defaultWorkbook[d]), who)
      <==> ProjectOtherwise(site, group, u, p, d, who)
  {
    ProjectHolders(after, t, p, d, who);
    LeaveProject(site, after, group, u, p, d, who);
  }

  lemma WorkbookLeft(site: Site, after: Site, t: SlugTables, group: string, u: string, w: string, d: string,
                     who: ResourceId)
    requires Coherent(t) && after.WellFormed() && Leaves(site, after, group, u) && IsAccount(who)
    requires site.SyncsWorkbook(w) && d in t.workbook
    ensures Holds(after, t, Entitlement(Workbook(w), t.workbook[d]), who)
      <==> WorkbookOtherwise(site, group, u, w, d, who)
  {
    WorkbookHolders(after, t, w, d, who);
    LeaveWorkbook(site, after, group, u, w, d, who);
  }

  lemma ViewLeft(site: Site, after: Site, t: SlugTables, group: string, u: string, v: string, d: string,
                 who: ResourceId)
    requires Coherent(t) && after.WellFormed() && Leaves(site, after, group, u) && IsAccount(who)
    requires site.SyncsView(v) && d in t.view
    ensures Holds(after, t, Entitlement(View(v), t.view[d]), who)
      <==> ViewOtherwise(site, group, u, v, d, who)
  {
    ViewHolders(after, t, v, d, who);
    LeaveView(site, after, group, u, v, d, who);
  }

  lemma LeaveGroups(site: Site, after: Site, t: SlugTables, group: string, u: string, g: string, who: ResourceId)
    requires Coherent(t) && site.WellFormed() && after.WellFormed() && Leaves(site, after, group, u) && IsAccount(who)
    ensures Holds(after, t, Entitlement(Group(g), MEMBER), who)
      <==> Holds(site, t, Entitlement(Group(g), MEMBER), who) && (g != group || who != User(u))
  {
    HoldsIsAccess(site, t, Entitlement(Group(g), MEMBER), who);
    HoldsIsAccess(after, t, Entitlement(Group(g), MEMBER), who);
  }

  lemma LeavesStep(site: Site, t: SlugTables, call: Call, group: string, u: string)
    requires site.WellFormed() && IsMembershipCall(call, Take, group, u) && Step(site, t, call).1 == Done
    ensures Step(site, t, call).0.WellFormed() && Leaves(site, Step(site, t, call).0, group, u)
  {
    GroupFrame(site, call);
  }

  /**
   Removing a user from a group: after the next sync and expansion any account holds any capability on a project,
   workbook or view exactly when a source without that membership, direct or through another group, remains
   on its inheritance path; and of all memberships exactly that one is gone.
   */
  lemma RevokeMembership(site: Site, t: SlugTables, call: Call, group: string, u: string, d: string, who: ResourceId)
    requires Coherent(t) && site.WellFormed() && IsAccount(who)
    requires IsMembershipCall(call, Take, group, u) && Step(site, t, call).1 == Done
    ensures var after := Step(site, t, call).0;
      && (forall p :: p in site.projects && d in t.project ==>
            (Holds(after, t, Entitlement(Project(p), t.project[d]), who)
             <==> SourcedOtherwise(site, group, u, RuleKey(ProjectRules, p), d, who)))
      && (forall p :: p in site.projects && d in t.defaultWorkbook ==>
            (Holds(after, t, Entitlement(Project(p), t.defaultWorkbook[d]), who)
             <==> ProjectOtherwise(site, group, u, p, d, who)))
      && (forall w :: site.SyncsWorkbook(w) && d in t.workbook ==>
            (Holds(after, t, Entitlement(Workbook(w), t.workbook[d]), who)
             <==> WorkbookOtherwise(site, group, u, w, d, who)))
      && (forall v :: site.SyncsView(v) && d in t.view ==>
            (Holds(after, t, Entitlement(View(v), t.view[d]), who) <==> ViewOtherwise(site, group, u, v, d, who)))
      && (forall g :: Holds(after, t, Entitlement(Group(g), MEMBER), who)
            <==> Holds(site, t, Entitlement(Group(g), MEMBER), who) && (g != group || who != User(u)))
  {
    LeavesStep(site, t, call, group, u);
    var after := Step(site, t, call).0;
    forall p | p in site.projects && d in t.project { OwnProjectLeft(site, after, t, group, u, p, d, who); }
    forall p | p in site.projects && d in t.defaultWorkbook { ProjectLeft(site, after, t, group, u, p, d, who); }
    forall w | site.SyncsWorkbook(w) && d in t.workbook { WorkbookLeft(site, after, t, group, u, w, d, who); }
    forall v | site.SyncsView(v) && d in t.view { ViewLeft(site, after, t, group, u, v, d, who); }
    forall g { LeaveGroups(site, after, t, group, u, g, who); }
  }
}
