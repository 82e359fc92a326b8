/**
 What runs of calls of both kinds leave alone throughout: the rules of views that inherit from their
 workbook, and the members of the All Users group.
 */
module ProtectedRuns {

  import opened Wrappers
  import opened Capabilities
  import opened Grants
  import opened Tableau
  import opened Server
  import opened Protection
  import opened RoleProvisioning
  import opened MixedRuns

  /** The site before call i of a run. */
  function SiteAt(site: Site, t: SlugTables, calls: seq<AnyCall>, i: nat): Site
    requires i <= |calls|
  {
    AnyRun(site, t, calls[..i]).0
  }

  lemma SiteAtNext(site: Site, t: SlugTables, calls: seq<AnyCall>, i: nat)
    requires i < |calls|
    ensures SiteAt(site, t, calls, i + 1) == AnyStep(SiteAt(site, t, calls, i), t, calls[i]).0
  {
    assert calls[..i + 1][..i] == calls[..i];
  }

  lemma AnyStepKeepsResources(site: Site, t: SlugTables, c: AnyCall)
    ensures SameResources(Unmasked(site), Unmasked(AnyStep(site, t, c).0))
  {
    match c {
      case Permission(call) => StepKeepsResources(site, t, call);
      case SiteRole(role) =>
        var (after, ok) := RoleStep(site, role);
        RoleStepEffect(site, role, after, ok);
    }
  }

  /** No call creates or removes a user, group, project, workbook or view. */
  lemma {:induction false} ResourcesAt(site: Site, t: SlugTables, calls: seq<AnyCall>, i: nat)
    requires i <= |calls|
    ensures SameResources(Unmasked(site), Unmasked(SiteAt(site, t, calls, i)))
  {
    if i > 0 {
      ResourcesAt(site, t, calls, i - 1);
      SiteAtNext(site, t, calls, i - 1);
      AnyStepKeepsResources(SiteAt(site, t, calls, i - 1), t, calls[i - 1]);
    }
  }

  lemma SameUsers(a: Site, b: Site)
    requires SameResources(Unmasked(a), Unmasked(b))
    ensures a.users.Keys == b.users.Keys
  {
    assert Unmasked(a).users.Keys == a.users.Keys && Unmasked(b).users.Keys == b.users.Keys;
  }

  lemma RoleStepKeepsStores(site: Site, t: SlugTables, c: AnyCall)
    requires c.SiteRole?
    ensures var after := AnyStep(site, t, c).0; after.rules == site.rules && after.members == site.members
  {
    var (after, ok) := RoleStep(site, c.role);
    RoleStepEffect(site, c.role, after, ok);
  }

  // ------------------------------------------------------------ views that inherit

  /** A permission call of the run gets past the check for inherited view permissions. */
  predicate AnySlipsPastView(site: Site, t: SlugTables, c: AnyCall, v: string) {
    c.Permission? && SlipsPastView(site, t, c.call, v)
  }

  lemma SlipsPastViewSame(a: Site, b: Site, t: SlugTables, c: AnyCall, v: string)
    requires a.workbooks == b.workbooks && a.RulesAt(RuleKey(ViewRules, v)) == b.RulesAt(RuleKey(ViewRules, v))
    ensures AnySlipsPastView(a, t, c, v) <==> AnySlipsPastView(b, t, c, v)
  {
  }

  /** Up to call n the view keeps its rules. */
  ghost predicate ViewKept(site: Site, t: SlugTables, calls: seq<AnyCall>, v: string, n: nat)
    requires n <= |calls|
  {
    forall i :: 0 <= i <= n ==>
      SiteAt(site, t, calls, i).RulesAt(RuleKey(ViewRules, v)) == site.RulesAt(RuleKey(ViewRules, v))
  }

  /** While the view has kept its rules, the next call changes them exactly when it slips past on the initial site. */
  lemma NextViewCall(site: Site, t: SlugTables, calls: seq<AnyCall>, v: string, n: nat)
    requires v in site.views && n < |calls|
    requires SiteAt(site, t, calls, n).RulesAt(RuleKey(ViewRules, v)) == site.RulesAt(RuleKey(ViewRules, v))
    ensures SiteAt(site, t, calls, n + 1).RulesAt(RuleKey(ViewRules, v)) != site.RulesAt(RuleKey(ViewRules, v))
      <==> AnySlipsPastView(site, t, calls[n], v)
  {
    var before := SiteAt(site, t, calls, n);
    ResourcesAt(site, t, calls, n);
    SiteAtNext(site, t, calls, n);
    SlipsPastViewSame(before, site, t, calls[n], v);
    match calls[n] {
      case Permission(call) => ProtectedViewStep(before, t, call, v);
      case SiteRole(_) => RoleStepKeepsStores(before, t, calls[n]);
    }
  }

  /**
   Over any run, a view, under a showTabs workbook or not, keeps its rules throughout if and only if no call
   of the run gets past the check, which the caller can tell on the initial site.
   */
  lemma {:induction false} ProtectedViewRun(site: Site, t: SlugTables, calls: seq<AnyCall>, v: string, n: nat)
    requires v in site.views && n <= |calls|
    ensures ViewKept(site, t, calls, v, n) <==> forall i :: 0 <= i < n ==> !AnySlipsPastView(site, t, calls[i], v)
  {
    if n > 0 {
      ProtectedViewRun(site, t, calls, v, n - 1);
      if ViewKept(site, t, calls, v, n - 1) {
        NextViewCall(site, t, calls, v, n - 1);
      }
    }
  }

  // ------------------------------------------------------------------- All Users

  /** A membership call of the run names the group otherwise and is accepted. */
  predicate AnySlipsPastAllUsers(site: Site, c: AnyCall, group: string) {
    c.Permission? && SlipsPastAllUsers(site, c.call, group)
  }

  /** Up to call n the group keeps its members. */
  ghost predicate MembersKept(site: Site, t: SlugTables, calls: seq<AnyCall>, group: string, n: nat)
    requires n <= |calls|
  {
    forall i :: 0 <= i <= n ==> SiteAt(site, t, calls, i).MembersOf(group) == site.MembersOf(group)
  }

  lemma NextAllUsersCall(site: Site, t: SlugTables, calls: seq<AnyCall>, group: string, n: nat)
    requires group in site.groups && n < |calls|
    requires SiteAt(site, t, calls, n).MembersOf(group) == site.MembersOf(group)
    ensures SiteAt(site, t, calls, n + 1).MembersOf(group) != site.MembersOf(group)
      <==> AnySlipsPastAllUsers(site, calls[n], group)
  {
    var before := SiteAt(site, t, calls, n);
    ResourcesAt(site, t, calls, n);
    SiteAtNext(site, t, calls, n);
    SameUsers(site, before);
    match calls[n] {
      case Permission(call) => AllUsersStep(before, t, call, group);
      case SiteRole(_) => RoleStepKeepsStores(before, t, calls[n]);
    }
    assert AnySlipsPastAllUsers(before, calls[n], group) <==> AnySlipsPastAllUsers(site, calls[n], group);
  }

  /**
   A group, All Users or not, keeps its members throughout if and only if no call that does not name it All
   Users is accepted.
   */
  lemma {:induction false} AllUsersRun(site: Site, t: SlugTables, calls: seq<AnyCall>, group: string, n: nat)
    requires group in site.groups && n <= |calls|
    ensures MembersKept(site, t, calls, group, n)
      <==> forall i :: 0 <= i < n ==> !AnySlipsPastAllUsers(site, calls[i], group)
  {
    if n > 0 {
      AllUsersRun(site, t, calls, group, n - 1);
      if MembersKept(site, t, calls, group, n - 1) {
        NextAllUsersCall(site, t, calls, group, n - 1);
      }
    }
  }

  // ---------------------------------------------------------------- faithful callers

  /**
   The caller's copy of the resource is as the sync listed it: with the group's name, and the view's
   workbook as parent.
   */
  predicate Faithful(site: Site, c: AnyCall) {
    c.Permission? ==>
      var (e, r) := (c.call.entitlement, c.call.entitlement.resource);
      && (r.resourceType == "group" && r.resource in site.groups ==> e.displayName == site.groups[r.resource])
      && (r.resourceType == "view" && r.resource in site.views ==> e.parent == Some(Workbook(site.views[r.resource])))
  }

  /** Calls on resources as the sync listed them leave both alone over any run. */
  lemma ProtectedUnchanged(site: Site, t: SlugTables, calls: seq<AnyCall>)
    requires forall i :: 0 <= i < |calls| ==> Faithful(site, calls[i])
    ensures forall v :: v in site.views && site.ShowsTabs(site.views[v]) ==> ViewKept(site, t, calls, v, |calls|)
    ensures forall g :: g in site.groups && site.groups[g] == ALL_USERS ==> MembersKept(site, t, calls, g, |calls|)
  {
    forall v | v in site.views && site.ShowsTabs(site.views[v]) ensures ViewKept(site, t, calls, v, |calls|) {
      assert forall i :: 0 <= i < |calls| && AnySlipsPastView(site, t, calls[i], v) ==> !Faithful(site, calls[i]);
      ProtectedViewRun(site, t, calls, v, |calls|);
    }
    forall g | g in site.groups && site.groups[g] == ALL_USERS ensures MembersKept(site, t, calls, g, |calls|) {
      assert forall i :: 0 <= i < |calls| && AnySlipsPastAllUsers(site, calls[i], g) ==> !Faithful(site, calls[i]);
      AllUsersRun(site, t, calls, g, |calls|);
    }
  }
}
