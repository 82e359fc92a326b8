/**
 Runs of calls of both kinds, on permissions and memberships and on site roles and licenses, and what the
 next sync reports after them. The two interact: a group sync skips server administrators, so a site-role
 call can bring memberships to light.
 */
module MixedRuns {

  import opened Capabilities
  import opened Grants
  import opened Expander
  import opened Tableau
  import opened InheritedAccess
  import opened Server
  import opened Provisioning
  import opened ProvisioningRuns
  import opened Protection
  import opened RoleProvisioning
  import opened WholeSync

  // ------------------------------------------------------------- what a sync reports

  /** The direct grants to users and groups the next sync reports, of all builders. */
  ghost function AllReported(site: Site, t: SlugTables): iset<Pair> {
    iset e, who | IsAccount(who) && Direct(Synced(site, t) + RoleGrants(site), e, who) :: (e, who)
  }

  /** The site-role and license pairs that user roles amount to. */
  ghost function RolePairs(site: Site): iset<Pair> {
    iset e, who | RoleAccess(site, e, who) :: (e, who)
  }

  lemma AllReportedIs(site: Site, t: SlugTables)
    ensures AllReported(site, t) == Reported(site, t) + RolePairs(site)
  {
    forall e, who
      ensures IsAccount(who) && Direct(Synced(site, t) + RoleGrants(site), e, who) <==>
        (IsAccount(who) && Direct(Synced(site, t), e, who)) || RoleAccess(site, e, who)
    {
      RoleGrantsAreAccess(site, e, who);
      DirectUnion(Synced(site, t), RoleGrants(site), e, who);
    }
  }

  lemma DirectUnion(a: iset<Grant>, b: iset<Grant>, e: Entitlement, who: ResourceId)
    ensures Direct(a + b, e, who) <==> Direct(a, e, who) || Direct(b, e, who)
  {
    if Direct(a, e, who) || Direct(b, e, who) {
      var g :| (g in a || g in b) && g.entitlement == e && g.principal == who;
      assert g in a + b;
    }
  }

  // ------------------------------------------------------------ memberships and roles

  /** The site with nobody a server administrator: a sync of it reports every membership. */
  function Unmasked(site: Site): Site {
    site.(users := map u | u in site.users :: UNLICENSED)
  }

  /** The stored grants: the reported permission pairs, and all memberships, whether a sync skips them or not. */
  ghost function Stored(site: Site, t: SlugTables): iset<Pair> {
    Reported(Unmasked(site), t)
  }

  /** A membership of a user whom a group sync skips. */
  predicate IsSkippedMember(users: map<string, string>, x: Pair) {
    && x.0.resource.resourceType == "group"
    && x.1.resource in users && users[x.1.resource] == SERVER_ADMINISTRATOR
  }

  /** What a sync shows of the stored grants. */
  ghost function Shown(stored: iset<Pair>, users: map<string, string>): iset<Pair> {
    iset x | x in stored && !IsSkippedMember(users, x)
  }

  lemma RulesUnmasked(site: Site, t: SlugTables, x: Pair)
    ensures ReportedFromRules(Unmasked(site), t, x) <==> ReportedFromRules(site, t, x)
    ensures ReportedFromRules(site, t, x) ==> x.0.resource.resourceType != "group"
  {
    var bare := Unmasked(site);
    assert forall key :: bare.RulesAt(key) == site.RulesAt(key);
    assert forall key, rule :: ReportedRule(bare, t, key, rule) == ReportedRule(site, t, key, rule);
  }

  lemma GroupsUnmasked(site: Site, x: Pair)
    ensures ReportedFromGroups(site, x) <==> ReportedFromGroups(Unmasked(site), x) && !IsSkippedMember(site.users, x)
  {
  }

  /** A sync shows the stored grants, except memberships of server administrators. */
  lemma ReportedIsShown(site: Site, t: SlugTables)
    requires site.WellFormed()
    ensures Unmasked(site).WellFormed() && Reported(site, t) == Shown(Stored(site, t), site.users)
  {
    assert Unmasked(site).WellFormed();
    ReportedIs(site, t);
    ReportedIs(Unmasked(site), t);
    forall x ensures x in Reported(site, t) <==> x in Shown(Stored(site, t), site.users) {
      RulesUnmasked(site, t, x);
      GroupsUnmasked(site, x);
    }
  }

  // --------------------------------------------------------------------- mixed calls

  datatype AnyCall = Permission(call: Call) | SiteRole(role: RoleCall)

  function AnyStep(site: Site, t: SlugTables, c: AnyCall): (Site, Outcome) {
    match c
    case Permission(call) => Step(site, t, call)
    case SiteRole(role) => var (after, ok) := RoleStep(site, role); (after, if ok then Done else Error)
  }

  /** Folding a call into the stored grants: only permission and membership calls touch them. */
  ghost function FoldStored(stored: iset<Pair>, site: Site, t: SlugTables, c: AnyCall, outcome: Outcome): iset<Pair> {
    match c
    case Permission(call) => Fold(stored, PairOf(Unmasked(site), t, call), call.action, outcome)
    case SiteRole(_) => stored
  }

  /** Folding a call into the users' roles: only site-role and license calls touch them. */
  function FoldRoles(users: map<string, string>, c: AnyCall, outcome: Outcome): map<string, string> {
    if c.SiteRole? && outcome == Done && Requested(c.role).Some?
    then users[c.role.user := Requested(c.role).value] else users
  }

  /** A permission call does not look at roles. */
  lemma StepUnmasked(site: Site, t: SlugTables, c: Call)
    ensures Step(Unmasked(site), t, c) == (Unmasked(Step(site, t, c).0), Step(site, t, c).1)
  {
    if c.entitlement.resource.resourceType == "group" {
      GroupFrame(site, c);
    } else {
      RuleStepUnmasked(site, t, c);
    }
  }

  lemma RuleStepUnmasked(site: Site, t: SlugTables, c: Call)
    ensures RuleStep(Unmasked(site), t, c) == (Unmasked(RuleStep(site, t, c).0), RuleStep(site, t, c).1)
  {
    var r := Addressed(t, c);
    if r.Some? {
      AddUnmasked(site, r.value.key, r.value.rule);
    }
  }

  lemma AddUnmasked(site: Site, key: RuleKey, rule: Rule)
    ensures AddRule(Unmasked(site), key, rule) == (Unmasked(AddRule(site, key, rule).0), AddRule(site, key, rule).1)
    ensures DeleteRule(Unmasked(site), key, rule)
      == (Unmasked(DeleteRule(site, key, rule).0), DeleteRule(site, key, rule).1)
  {
    assert Unmasked(site).RulesAt(key) == site.RulesAt(key);
  }

  /** What one call does to the stored grants and to the roles. */
  ghost predicate Stores(site: Site, t: SlugTables, c: AnyCall, after: Site, outcome: Outcome) {
    && after.WellFormed() && SameResources(Unmasked(site), Unmasked(after))
    && Stored(after, t) == FoldStored(Stored(site, t), site, t, c, outcome)
    && after.users == FoldRoles(site.users, c, outcome)
  }

  lemma PermissionStores(site: Site, t: SlugTables, c: Call)
    requires Coherent(t) && site.WellFormed()
    ensures var (after, outcome) := Step(site, t, c); Stores(site, t, Permission(c), after, outcome)
  {
    assert Unmasked(site).WellFormed();
    StepUnmasked(site, t, c);
    StepReports(Unmasked(site), t, c);
    StepReports(site, t, c);
  }

  lemma SiteRoleStores(site: Site, t: SlugTables, c: RoleCall)
    requires site.WellFormed()
    ensures var (after, outcome) := AnyStep(site, t, SiteRole(c)); Stores(site, t, SiteRole(c), after, outcome)
  {
    var (after, ok) := RoleStep(site, c);
    RoleStepEffect(site, c, after, ok);
    assert Unmasked(after) == Unmasked(site);
  }

  lemma AnyStepStores(site: Site, t: SlugTables, c: AnyCall)
    requires Coherent(t) && site.WellFormed()
    ensures var (after, outcome) := AnyStep(site, t, c); Stores(site, t, c, after, outcome)
  {
    match c
    case Permission(call) => PermissionStores(site, t, call);
    case SiteRole(role) => SiteRoleStores(site, t, role);
  }

  // ----------------------------------------------------------------------- whole runs

  function AnyRun(site: Site, t: SlugTables, calls: seq<AnyCall>): (r: (Site, seq<Outcome>))
    ensures |r.1| == |calls|
  {
    if calls == [] then (site, [])
    else
      var (before, outcomes) := AnyRun(site, t, calls[..|calls| - 1]);
      var (after, outcome) := AnyStep(before, t, calls[|calls| - 1]);
      (after, outcomes + [outcome])
  }

  ghost function StoredAfter(stored: iset<Pair>, site: Site, t: SlugTables, calls: seq<AnyCall>,
                             outcomes: seq<Outcome>): iset<Pair>
    requires |calls| == |outcomes|
  {
    if calls == [] then stored
    else
      var n := |calls| - 1;
      FoldStored(StoredAfter(stored, site, t, calls[..n], outcomes[..n]), site, t, calls[n], outcomes[n])
  }

  function RolesAfter(users: map<string, string>, calls: seq<AnyCall>, outcomes: seq<Outcome>): map<string, string>
    requires |calls| == |outcomes|
  {
    if calls == [] then users
    else
      var n := |calls| - 1;
      FoldRoles(RolesAfter(users, calls[..n], outcomes[..n]), calls[n], outcomes[n])
  }

  lemma FoldStoredSame(stored: iset<Pair>, a: Site, b: Site, t: SlugTables, c: AnyCall, outcome: Outcome)
    requires SameResources(Unmasked(a), Unmasked(b))
    ensures FoldStored(stored, a, t, c, outcome) == FoldStored(stored, b, t, c, outcome)
  {
    if c.Permission? {
      PairOfSame(Unmasked(a), Unmasked(b), t, c.call);
    }
  }

  lemma {:induction false} AnyRunStores(site: Site, t: SlugTables, calls: seq<AnyCall>)
    requires Coherent(t) && site.WellFormed()
    ensures var (after, outcomes) := AnyRun(site, t, calls);
      && after.WellFormed() && SameResources(Unmasked(site), Unmasked(after))
      && Stored(after, t) == StoredAfter(Stored(site, t), site, t, calls, outcomes)
      && after.users == RolesAfter(site.users, calls, outcomes)
  {
    if calls != [] {
      var n := |calls| - 1;
      AnyRunStores(site, t, calls[..n]);
      var (before, outcomes) := AnyRun(site, t, calls[..n]);
      AnyStepStores(before, t, calls[n]);
      var (after, outcome) := AnyStep(before, t, calls[n]);
      FoldStoredSame(Stored(before, t), before, site, t, calls[n], outcome);
      assert (outcomes + [outcome])[..n] == outcomes;
    }
  }

  /**
   After any run of calls of both kinds, whatever the replies, the direct grants the next sync reports are: the
   stored permissions and memberships with the successful calls folded in, less the memberships of those who are
   then server administrators; and the site-role and license grants of the roles with the successful calls
   folded in.
   */
  lemma AnyRunReports(site: Site, t: SlugTables, calls: seq<AnyCall>)
    requires Coherent(t) && site.WellFormed()
    ensures var (after, outcomes) := AnyRun(site, t, calls);
      var users := RolesAfter(site.users, calls, outcomes);
      AllReported(after, t)
        == Shown(StoredAfter(Stored(site, t), site, t, calls, outcomes), users) + RolePairs(site.(users := users))
  {
    AnyRunStores(site, t, calls);
    var after := AnyRun(site, t, calls).0;
    AllReportedIs(after, t);
    ReportedIsShown(after, t);
    RolePairsSame(after, site.(users := after.users));
  }

  lemma RolePairsSame(a: Site, b: Site)
    requires a.id == b.id && a.users == b.users
    ensures RolePairs(a) == RolePairs(b)
  {
    assert forall e, who :: RoleAccess(a, e, who) <==> RoleAccess(b, e, who);
  }

  /**
   Every site such a run reaches is again one whose whole sync, on any faithful answers, expands to the
   intended access.
   */
  lemma AnyReachableSitesExpand(site: Site, t: SlugTables, calls: seq<AnyCall>, r: Responses, l: SiteListing)
    requires Coherent(t) && site.WellFormed() && AnswersFor(AnyRun(site, t, calls).0, r, l)
    ensures var after := AnyRun(site, t, calls).0;
      forall e, who :: IsAccount(who) ==>
        (Expanded(Emission(after, t, r, l), AllDeclared(after, t), e, who)
         <==> Access(after, t, e, who) || RoleAccess(after, e, who))
  {
    AnyRunStores(site, t, calls);
    SyncExpandsToAccess(AnyRun(site, t, calls).0, t, r, l);
  }

  /** Over any such run nobody becomes a server administrator. */
  lemma {:induction false} AnyRunNeverMakesServerAdministrators(site: Site, t: SlugTables, calls: seq<AnyCall>,
                                                                u: string)
    requires var after := AnyRun(site, t, calls).0; u in after.users && after.users[u] == SERVER_ADMINISTRATOR
    ensures u in site.users && site.users[u] == SERVER_ADMINISTRATOR
  {
    if calls != [] {
      var n := |calls| - 1;
      var before := AnyRun(site, t, calls[..n]).0;
      match calls[n] {
        case Permission(call) => StepKeepsResources(before, t, call);
        case SiteRole(role) => NeverServerAdministrator(before, role, u);
      }
      AnyRunNeverMakesServerAdministrators(site, t, calls[..n], u);
    }
  }
}
