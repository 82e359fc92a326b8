/**
 Provisioning is the inverse of sync: after any run of Grant and Revoke calls, the direct grants the
 next sync reports are the initial ones with the successful calls folded in.
 */
module ProvisioningRuns {

  import opened Wrappers
  import opened Capabilities
  import opened Grants
  import opened Expander
  import opened Tableau
  import opened InheritedAccess
  import opened Inheritance
  import opened Server
  import opened Provisioning

  type Pair = (Entitlement, ResourceId)

  // ------------------------------------------------------- what a sync reports directly

  /** The resource a store's rules are reported on directly and the slugs they are reported under. */
  function Slot(site: Site, t: SlugTables, key: RuleKey): Option<(ResourceId, SlugMap)> {
    match key.store
    case ProjectRules => if key.id in site.projects then Some((Project(key.id), t.project)) else None
    case DefaultWorkbookRules => if key.id in site.projects then Some((Project(key.id), t.defaultWorkbook)) else None
    case WorkbookRules => if site.SyncsWorkbook(key.id) then Some((Workbook(key.id), t.workbook)) else None
    case ViewRules =>
      if site.SyncsView(key.id) && !site.ShowsTabs(site.views[key.id]) then Some((View(key.id), t.view)) else None
  }

  /** The entitlement and principal a stored rule is reported as, if at all. */
  function ReportedRule(site: Site, t: SlugTables, key: RuleKey, rule: Rule): Option<Pair> {
    var slot := Slot(site, t, key);
    if slot.None? || rule.mode != ALLOW || rule.capability !in slot.value.1 then None
    else Some((Entitlement(slot.value.0, slot.value.1[rule.capability]), rule.grantee))
  }

  /** The direct grants to users and groups the next sync reports. */
  ghost function Reported(site: Site, t: SlugTables): iset<Pair> {
    iset e, who | IsAccount(who) && Direct(Synced(site, t), e, who) :: (e, who)
  }

  ghost predicate ReportedFromRules(site: Site, t: SlugTables, x: Pair) {
    exists key, rule :: rule in site.RulesAt(key) && ReportedRule(site, t, key, rule) == Some(x)
  }

  ghost predicate ReportedFromGroups(site: Site, x: Pair) {
    var group := x.0.resource.resource;
    x.0 == Entitlement(Group(group), MEMBER) && x.1 == User(x.1.resource) && IsSyncedMember(site, group, x.1.resource)
  }

  lemma DirectIsReported(site: Site, t: SlugTables, e: Entitlement, who: ResourceId)
    requires IsAccount(who) && Direct(Synced(site, t), e, who)
    ensures ReportedFromRules(site, t, (e, who)) || ReportedFromGroups(site, (e, who))
  {
  }

  lemma RuleIsDirect(site: Site, t: SlugTables, key: RuleKey, rule: Rule)
    requires site.WellFormed() && rule in site.RulesAt(key) && ReportedRule(site, t, key, rule).Some?
    ensures var x := ReportedRule(site, t, key, rule).value; IsAccount(x.1) && Direct(Synced(site, t), x.0, x.1)
  {
    var (resource, slugs) := Slot(site, t, key).value;
    var g := RuleGrant(resource, slugs[rule.capability], rule.grantee);
    assert FromRules(resource, site.RulesAt(key), slugs, g);
    assert Emitted(site, t, g);
    assert g in Synced(site, t) && g.entitlement == Entitlement(resource, slugs[rule.capability])
      && g.principal == rule.grantee;
  }

  lemma MemberIsDirect(site: Site, t: SlugTables, x: Pair)
    requires ReportedFromGroups(site, x)
    ensures IsAccount(x.1) && Direct(Synced(site, t), x.0, x.1)
  {
    var group := x.0.resource.resource;
    var g := MemberGrant(group, site.groups[group] == ALL_USERS, x.1.resource);
    assert EmittedOnGroup(site, group, g);
    assert g in Synced(site, t) && g.entitlement == x.0 && g.principal == x.1;
  }

  lemma ReportedIs(site: Site, t: SlugTables)
    requires site.WellFormed()
    ensures forall x :: x in Reported(site, t) <==> ReportedFromRules(site, t, x) || ReportedFromGroups(site, x)
  {
    forall x ensures x in Reported(site, t) <==> ReportedFromRules(site, t, x) || ReportedFromGroups(site, x) {
      if x in Reported(site, t) {
        DirectIsReported(site, t, x.0, x.1);
      }
      if ReportedFromRules(site, t, x) {
        var key, rule :| rule in site.RulesAt(key) && ReportedRule(site, t, key, rule) == Some(x);
        RuleIsDirect(site, t, key, rule);
      }
      if ReportedFromGroups(site, x) {
        MemberIsDirect(site, t, x);
      }
    }
  }

  /** No two capabilities reported on one resource share a slug. */
  ghost predicate SlugsApart(t: SlugTables) {
    && Injective(t.project) && Injective(t.defaultWorkbook) && Injective(t.workbook) && Injective(t.view)
    && forall c, d :: c in t.project && d in t.defaultWorkbook ==> t.project[c] != t.defaultWorkbook[d]
  }

  lemma CoherentSlugsApart(t: SlugTables)
    requires Coherent(t)
    ensures SlugsApart(t)
  {
    assert forall c :: c in t.project ==> t.project[c] in t.byDisplaySlug;
    assert forall d :: d in t.defaultWorkbook ==> t.defaultWorkbook[d] in t.byDefaultSlug;
  }

  /** Two rules reported as the same grant are the same rule. */
  lemma ReportedRuleInjective(site: Site, t: SlugTables, k: RuleKey, r: Rule, l: RuleKey, s: Rule)
    requires SlugsApart(t)
    requires ReportedRule(site, t, k, r).Some? && ReportedRule(site, t, k, r) == ReportedRule(site, t, l, s)
    ensures k == l && r == s
  {
  }

  // ------------------------------------------------------------------- one call

  /** The reported grant a call is about, if a sync would report it at all. */
  function PairOf(site: Site, t: SlugTables, c: Call): Option<Pair> {
    if c.entitlement.resource.resourceType == "group" then
      var group := c.entitlement.resource.resource;
      var u := c.principal.resource;
      if c.entitlement.displayName != ALL_USERS && c.principal.resourceType == "user" && group in site.groups
         && u in site.users && site.users[u] != SERVER_ADMINISTRATOR
      then Some((Entitlement(Group(group), MEMBER), User(u)))
      else None
    else
      var r := Addressed(t, c);
      if r.None? then None else ReportedRule(site, t, r.value.key, r.value.rule)
  }

  /** Folding one call into a set of grants: a successful Grant adds its pair, a successful Revoke removes it. */
  ghost function Fold(reported: iset<Pair>, pair: Option<Pair>, action: Action, outcome: Outcome): iset<Pair> {
    if outcome == Error || pair.None? then reported
    else if action == Give then reported + iset{pair.value}
    else reported - iset{pair.value}
  }

  lemma ReportedSame(a: Site, b: Site, t: SlugTables)
    requires SameResources(a, b)
    ensures forall key, rule :: ReportedRule(a, t, key, rule) == ReportedRule(b, t, key, rule)
  {
  }

  ghost predicate DiffersAt(site: Site, after: Site, key: RuleKey, rules: set<Rule>) {
    && SameResources(site, after) && after.members == site.members
    && forall k :: after.RulesAt(k) == if k == key then rules else site.RulesAt(k)
  }

  lemma AddedRuleReported(site: Site, t: SlugTables, r: RuleRequest, after: Site, x: Pair)
    requires DiffersAt(site, after, r.key, site.RulesAt(r.key) + {r.rule})
    ensures ReportedFromRules(after, t, x)
      <==> ReportedFromRules(site, t, x) || ReportedRule(site, t, r.key, r.rule) == Some(x)
  {
    ReportedSame(site, after, t);
    if ReportedFromRules(site, t, x) {
      var key, rule :| rule in site.RulesAt(key) && ReportedRule(site, t, key, rule) == Some(x);
      assert rule in after.RulesAt(key) && ReportedRule(after, t, key, rule) == Some(x);
    }
    if ReportedRule(site, t, r.key, r.rule) == Some(x) {
      assert r.rule in after.RulesAt(r.key) && ReportedRule(after, t, r.key, r.rule) == Some(x);
    }
  }

  lemma RemovedRuleReported(site: Site, t: SlugTables, r: RuleRequest, after: Site, x: Pair)
    requires SlugsApart(t) && DiffersAt(site, after, r.key, site.RulesAt(r.key) - {r.rule})
    ensures ReportedFromRules(after, t, x)
      <==> ReportedFromRules(site, t, x) && ReportedRule(site, t, r.key, r.rule) != Some(x)
  {
    ReportedSame(site, after, t);
    if ReportedFromRules(site, t, x) && ReportedRule(site, t, r.key, r.rule) != Some(x) {
      var key, rule :| rule in site.RulesAt(key) && ReportedRule(site, t, key, rule) == Some(x);
      assert rule in after.RulesAt(key) && ReportedRule(after, t, key, rule) == Some(x);
    }
    if ReportedFromRules(after, t, x) {
      var key, rule :| rule in after.RulesAt(key) && ReportedRule(after, t, key, rule) == Some(x);
      assert rule in site.RulesAt(key) && ReportedRule(site, t, key, rule) == Some(x);
      if ReportedRule(site, t, r.key, r.rule) == Some(x) {
        ReportedRuleInjective(site, t, key, rule, r.key, r.rule);
      }
    }
  }

  lemma GroupsNeverFromRules(site: Site, t: SlugTables, key: RuleKey, rule: Rule)
    ensures var pair := ReportedRule(site, t, key, rule); pair.Some? ==> !ReportedFromGroups(site, pair.value)
  {
  }

  lemma RuleAdded(site: Site, t: SlugTables, r: RuleRequest, after: Site)
    requires site.WellFormed() && after.WellFormed() && DiffersAt(site, after, r.key, site.RulesAt(r.key) + {r.rule})
    ensures Reported(after, t) == Fold(Reported(site, t), ReportedRule(site, t, r.key, r.rule), Give, Done)
  {
    ReportedIs(site, t);
    ReportedIs(after, t);
    forall x
      ensures x in Reported(after, t) <==> x in Reported(site, t) || ReportedRule(site, t, r.key, r.rule) == Some(x)
    {
      AddedRuleReported(site, t, r, after, x);
      assert ReportedFromGroups(after, x) <==> ReportedFromGroups(site, x);
    }
  }

  lemma RuleRemoved(site: Site, t: SlugTables, r: RuleRequest, after: Site)
    requires SlugsApart(t) && site.WellFormed() && after.WellFormed()
    requires DiffersAt(site, after, r.key, site.RulesAt(r.key) - {r.rule})
    ensures Reported(after, t) == Fold(Reported(site, t), ReportedRule(site, t, r.key, r.rule), Take, Done)
  {
    ReportedIs(site, t);
    ReportedIs(after, t);
    GroupsNeverFromRules(site, t, r.key, r.rule);
    forall x
      ensures x in Reported(after, t) <==> x in Reported(site, t) && ReportedRule(site, t, r.key, r.rule) != Some(x)
    {
      RemovedRuleReported(site, t, r, after, x);
      assert ReportedFromGroups(after, x) <==> ReportedFromGroups(site, x);
    }
  }

  // ------------------------------------------------------------ the effect of one call

  lemma GiveReports(site: Site, t: SlugTables, r: RuleRequest)
    requires site.WellFormed() && IsAccount(r.rule.grantee)
    ensures var (after, reply) := AddRule(site, r.key, r.rule);
      && after.WellFormed() && SameResources(site, after)
      && Reported(after, t)
        == Fold(Reported(site, t), ReportedRule(site, t, r.key, r.rule), Give, Outcomes(Give, reply))
  {
    var (after, reply) := AddRule(site, r.key, r.rule);
    if reply == Accepted {
      assert DiffersAt(site, after, r.key, site.RulesAt(r.key) + {r.rule});
      RuleAdded(site, t, r, after);
    } else if reply == Conflict {
      AlreadyThere(site, t, r);
    }
  }

  lemma TakeReports(site: Site, t: SlugTables, r: RuleRequest)
    requires SlugsApart(t) && site.WellFormed()
    ensures var (after, reply) := DeleteRule(site, r.key, r.rule);
      && after.WellFormed() && SameResources(site, after)
      && Reported(after, t)
        == Fold(Reported(site, t), ReportedRule(site, t, r.key, r.rule), Take, Outcomes(Take, reply))
  {
    var (after, reply) := DeleteRule(site, r.key, r.rule);
    if reply == Accepted {
      assert DiffersAt(site, after, r.key, site.RulesAt(r.key) - {r.rule});
      RuleRemoved(site, t, r, after);
    } else {
      NothingThere(site, t, r);
    }
  }

  lemma RuleStepReports(site: Site, t: SlugTables, c: Call)
    requires SlugsApart(t) && site.WellFormed() && c.entitlement.resource.resourceType != "group"
    ensures var (after, outcome) := Step(site, t, c);
      && after.WellFormed() && SameResources(site, after)
      && Reported(after, t) == Fold(Reported(site, t), PairOf(site, t, c), c.action, outcome)
  {
    var r := Addressed(t, c);
    if r.Some? && !Refused(site, c) && !c.outage {
      if c.action == Give {
        GiveReports(site, t, r.value);
      } else {
        TakeReports(site, t, r.value);
      }
    }
  }

  /** 409: the rule is stored, so its grant is already reported. */
  lemma AlreadyThere(site: Site, t: SlugTables, r: RuleRequest)
    requires site.WellFormed() && r.rule in site.RulesAt(r.key)
    ensures Fold(Reported(site, t), ReportedRule(site, t, r.key, r.rule), Give, GrantAlreadyExists)
      == Reported(site, t)
  {
    ReportedIs(site, t);
  }

  /** 404: the rule is not stored, so its grant is not reported. */
  lemma NothingThere(site: Site, t: SlugTables, r: RuleRequest)
    requires SlugsApart(t) && site.WellFormed() && (!site.HasResource(r.key) || r.rule !in site.RulesAt(r.key))
    ensures Fold(Reported(site, t), ReportedRule(site, t, r.key, r.rule), Take, GrantAlreadyRevoked)
      == Reported(site, t)
  {
    ReportedIs(site, t);
    GroupsNeverFromRules(site, t, r.key, r.rule);
    var pair := ReportedRule(site, t, r.key, r.rule);
    if pair.Some? && ReportedFromRules(site, t, pair.value) {
      var key, rule :| rule in site.RulesAt(key) && ReportedRule(site, t, key, rule) == pair;
      ReportedRuleInjective(site, t, key, rule, r.key, r.rule);
    }
  }

  lemma RulesUntouched(site: Site, t: SlugTables, after: Site, x: Pair)
    requires SameResources(site, after) && after.rules == site.rules
    ensures ReportedFromRules(after, t, x) <==> ReportedFromRules(site, t, x)
  {
    ReportedSame(site, after, t);
    assert forall key :: after.RulesAt(key) == site.RulesAt(key);
    if key, rule :| rule in site.RulesAt(key) && ReportedRule(site, t, key, rule) == Some(x) {
      assert rule in after.RulesAt(key) && ReportedRule(after, t, key, rule) == Some(x);
    }
  }

  /** What a group call does to the members a sync reports. */
  lemma MembersReported(site: Site, t: SlugTables, c: Call, x: Pair)
    requires c.entitlement.resource.resourceType == "group"
    ensures var (after, outcome) := GroupStep(site, c);
      ReportedFromGroups(after, x) <==>
        if outcome == Error || PairOf(site, t, c) != Some(x) then ReportedFromGroups(site, x) else c.action == Give
  {
  }

  /** A group call changes at most one membership of its own group, and nothing for All Users. */
  lemma GroupFrame(site: Site, c: Call)
    ensures var after := GroupStep(site, c).0;
      && OnlyMemberChanges(site, after, c.entitlement.resource.resource, c.principal.resource)
      && (c.entitlement.displayName == ALL_USERS ==> after == site)
  {
    AddMemberAnswers(site, c.entitlement.resource.resource, c.principal.resource);
    RemoveMemberAnswers(site, c.entitlement.resource.resource, c.principal.resource);
  }

  lemma WellFormedKept(site: Site, after: Site)
    requires site.WellFormed() && SameResources(site, after) && after.rules == site.rules
    ensures after.WellFormed()
  {
  }

  lemma FoldAt(reported: iset<Pair>, pair: Option<Pair>, action: Action, outcome: Outcome, x: Pair)
    ensures x in Fold(reported, pair, action, outcome)
      <==> if outcome == Error || pair != Some(x) then x in reported else action == Give
  {
  }

  lemma GroupStepReports(site: Site, t: SlugTables, c: Call, after: Site, outcome: Outcome)
    requires site.WellFormed() && c.entitlement.resource.resourceType == "group"
    requires (after, outcome) == GroupStep(site, c)
    ensures Reported(after, t) == Fold(Reported(site, t), PairOf(site, t, c), c.action, outcome)
  {
    GroupFrame(site, c);
    WellFormedKept(site, after);
    ReportedIs(site, t);
    ReportedIs(after, t);
    var pair, before, now := PairOf(site, t, c), Reported(site, t), Reported(after, t);
    forall x ensures x in now <==> x in Fold(before, pair, c.action, outcome) {
      FoldAt(before, pair, c.action, outcome, x);
      RulesUntouched(site, t, after, x);
      MembersReported(site, t, c, x);
      if pair == Some(x) {
        NoRuleReportsMembers(site, t, x);
      }
    }
  }

  lemma NoRuleReportsMembers(site: Site, t: SlugTables, x: Pair)
    requires x.0.resource.resourceType == "group"
    ensures !ReportedFromRules(site, t, x)
  {
  }

  /**
   After any Grant or Revoke call, for any entitlement id, principal and reply, the next sync reports
   the previous direct grants with the call folded in. The site's resources, users and groups stay.
   */
  lemma StepReports(site: Site, t: SlugTables, c: Call)
    requires Coherent(t) && site.WellFormed()
    ensures var (after, outcome) := Step(site, t, c);
      && after.WellFormed() && SameResources(site, after)
      && Reported(after, t) == Fold(Reported(site, t), PairOf(site, t, c), c.action, outcome)
  {
    if c.entitlement.resource.resourceType == "group" {
      var (after, outcome) := GroupStep(site, c);
      GroupFrame(site, c);
      WellFormedKept(site, after);
      GroupStepReports(site, t, c, after, outcome);
    } else {
      CoherentSlugsApart(t);
      RuleStepReports(site, t, c);
    }
  }

  // ----------------------------------------------------------------------- whole runs

  /** The site after a run of calls, and the outcome of each. */
  function Run(site: Site, t: SlugTables, calls: seq<Call>): (Site, seq<Outcome>) {
    if calls == [] then (site, [])
    else
      var (before, outcomes) := Run(site, t, calls[..|calls| - 1]);
      var (after, outcome) := Step(before, t, calls[|calls| - 1]);
      (after, outcomes + [outcome])
  }

  ghost function FoldAll(reported: iset<Pair>, pairs: seq<Option<Pair>>, calls: seq<Call>,
                         outcomes: seq<Outcome>): iset<Pair>
    requires |pairs| == |calls| == |outcomes|
  {
    if calls == [] then reported
    else
      var n := |calls| - 1;
      Fold(FoldAll(reported, pairs[..n], calls[..n], outcomes[..n]), pairs[n], calls[n].action, outcomes[n])
  }

  function PairsOf(site: Site, t: SlugTables, calls: seq<Call>): seq<Option<Pair>> {
    seq(|calls|, i requires 0 <= i < |calls| => PairOf(site, t, calls[i]))
  }

  lemma PairOfSame(a: Site, b: Site, t: SlugTables, c: Call)
    requires SameResources(a, b)
    ensures PairOf(a, t, c) == PairOf(b, t, c)
  {
    ReportedSame(a, b, t);
  }

  /** One more call folds in one more pair. */
  lemma FoldAllMore(site: Site, t: SlugTables, reported: iset<Pair>, calls: seq<Call>, outcomes: seq<Outcome>)
    requires |calls| == |outcomes| && calls != []
    ensures var n := |calls| - 1;
      FoldAll(reported, PairsOf(site, t, calls), calls, outcomes)
      == Fold(FoldAll(reported, PairsOf(site, t, calls[..n]), calls[..n], outcomes[..n]),
              PairOf(site, t, calls[n]), calls[n].action, outcomes[n])
  {
    var n := |calls| - 1;
    assert PairsOf(site, t, calls)[..n] == PairsOf(site, t, calls[..n]);
  }

  /**
   Provisioning inverts sync over whole runs: whatever calls are made and however the server replies
   (409, 404 and failures included), the direct grants the next sync reports are the initial ones with
   the successful calls folded in, in order.
   */
  lemma {:induction false} RunReports(site: Site, t: SlugTables, calls: seq<Call>)
    requires Coherent(t) && site.WellFormed()
    ensures var (after, outcomes) := Run(site, t, calls);
      && |outcomes| == |calls| && after.WellFormed() && SameResources(site, after)
      && Reported(after, t) == FoldAll(Reported(site, t), PairsOf(site, t, calls), calls, outcomes)
  {
    if calls != [] {
      var n := |calls| - 1;
      RunReports(site, t, calls[..n]);
      var (before, outcomes) := Run(site, t, calls[..n]);
      StepReports(before, t, calls[n]);
      PairOfSame(site, before, t, calls[n]);
      var (after, outcome) := Step(before, t, calls[n]);
      assert (outcomes + [outcome])[..n] == outcomes;
      FoldAllMore(site, t, Reported(site, t), calls, outcomes + [outcome]);
    }
  }

  // --------------------------------------------------------- declared entitlements

  /** Whether grants on a resource are reported directly, rather than inherited from its workbook. */
  predicate ReportsDirectly(site: Site, r: ResourceId) {
    r.resourceType != "view" || (r.resource in site.views && !site.ShowsTabs(site.views[r.resource]))
  }

  /** Slug to rule and back: the addressed rule is reported as the entitlement it came from. */
  ghost predicate TranslatesTo(site: Site, t: SlugTables, e: Entitlement, who: ResourceId) {
    var r := Target(t, e.resource, e.slug, who);
    r.Some? && ReportedRule(site, t, r.value.key, r.value.rule) == Some((e, who))
  }

  lemma ProjectRoundTrip(site: Site, t: SlugTables, e: Entitlement, who: ResourceId)
    requires TranslatesBack(t.project, t.byDisplaySlug) && TranslatesBack(t.defaultWorkbook, t.byDefaultSlug)
    requires t.byDefaultSlug.Keys == t.defaultWorkbook.Values && t.byDefaultSlug.Keys !! t.byDisplaySlug.Keys
    requires IsAccount(who) && e.resource.resourceType == "project" && IsDeclared(site, t, e)
    ensures TranslatesTo(site, t, e, who)
  {
  }

  lemma WorkbookRoundTrip(site: Site, t: SlugTables, e: Entitlement, who: ResourceId)
    requires TranslatesBack(t.workbook, t.byDisplaySlug)
    requires IsAccount(who) && e.resource.resourceType == "workbook" && IsDeclared(site, t, e)
    ensures TranslatesTo(site, t, e, who)
  {
    var k :| k in t.workbook && t.workbook[k] == e.slug;
    assert t.byDisplaySlug[e.slug] == k;
  }

  lemma ViewRoundTrip(site: Site, t: SlugTables, e: Entitlement, who: ResourceId)
    requires TranslatesBack(t.view, t.byDisplaySlug)
    requires IsAccount(who) && e.resource.resourceType == "view" && IsDeclared(site, t, e)
    requires ReportsDirectly(site, e.resource)
    ensures TranslatesTo(site, t, e, who)
  {
    var k :| k in t.view && t.view[k] == e.slug;
    assert t.byDisplaySlug[e.slug] == k;
  }

  /** A principal that membership of `e` can be reported for, or any account for a permission. */
  predicate Grantable(site: Site, e: Entitlement, c: Call) {
    if e.resource.resourceType == "group"
    then c.entitlement.displayName != ALL_USERS && c.principal.resourceType == "user"
         && c.principal.resource in site.users && site.users[c.principal.resource] != SERVER_ADMINISTRATOR
    else IsAccount(c.principal)
  }

  /** Slug, capability and store translate back for every entitlement a permission is reported on. */
  lemma PermissionRoundTrip(site: Site, t: SlugTables, e: Entitlement, who: ResourceId)
    requires Coherent(t) && IsDeclared(site, t, e) && IsAccount(who)
    requires e.resource.resourceType != "group" && ReportsDirectly(site, e.resource)
    ensures TranslatesTo(site, t, e, who)
  {
    if e.resource.resourceType == "project" {
      ProjectRoundTrip(site, t, e, who);
    } else if e.resource.resourceType == "workbook" {
      WorkbookRoundTrip(site, t, e, who);
    } else {
      ViewRoundTrip(site, t, e, who);
    }
  }

  /**
   A call on a resource that reports nothing directly, or for a principal that holds no rules, is about no
   reported grant.
   */
  lemma UnreportedPermission(site: Site, t: SlugTables, c: Call)
    requires c.entitlement.resource.resourceType != "group"
    requires !ReportsDirectly(site, c.entitlement.resource) || !IsAccount(c.principal)
    ensures PairOf(site, t, c) == None
  {
  }

  /**
   The round trip of one entitlement: a call on a declared entitlement, by its printed id, is about
   that very entitlement and principal; slug, capability and store all translate back. The exceptions
   are exact: views whose grants are inherited, the All Users group, members a sync skips, and
   principals that are no accounts.
   */
  lemma DeclaredRoundTrip(site: Site, t: SlugTables, e: Entitlement, c: Call)
    requires Coherent(t) && site.WellFormed() && IsDeclared(site, t, e)
    requires c.entitlement.resource == e.resource && c.entitlement.id == e.Id()
    ensures PairOf(site, t, c)
      == if ReportsDirectly(site, e.resource) && Grantable(site, e, c) then Some((e, c.principal)) else None
  {
    DeclaredIsColonFree(site, t, e);
    ParseInvertsPrint(e);
    if e.resource.resourceType == "group" {
      assert c.principal == ResourceId(c.principal.resourceType, c.principal.resource);
    } else if ReportsDirectly(site, e.resource) && IsAccount(c.principal) {
      PermissionRoundTrip(site, t, e, c.principal);
    } else {
      UnreportedPermission(site, t, c);
    }
  }

  /** Every site a run reaches is again one whose sync expands to the intended access. */
  lemma ReachableSitesExpand(site: Site, t: SlugTables, calls: seq<Call>)
    requires Coherent(t) && site.WellFormed()
    ensures var after := Run(site, t, calls).0;
      forall e, who :: IsAccount(who) ==>
        (Expanded(Synced(after, t), Declared(after, t), e, who) <==> Access(after, t, e, who))
  {
    RunReports(site, t, calls);
    ExpansionIsInheritedAccess(Run(site, t, calls).0, t);
  }
}
