/**
 Grant and Revoke of the project, workbook, view and group builders: from an entitlement id back
 to the permission rule it stands for.
 */
module Provisioning {

  import opened Wrappers
  import opened Capabilities
  import opened Grants
  import opened Tableau
  import opened InheritedAccess
  import opened Server

  /** Success, one of the two idempotency annotations, or an error. */
  datatype Outcome = Done | GrantAlreadyExists | GrantAlreadyRevoked | Error

  /** The entitlement a caller passes: its resource with display name and parent, and its printed id. */
  datatype EntitlementRef = EntitlementRef(
    resource: ResourceId, displayName: string, parent: Option<ResourceId>, id: string)

  datatype Action = Give | Take

  /** One provisioning call; `outage` says whether the environment fails its requests. */
  datatype Call = Call(action: Action, principal: ResourceId, entitlement: EntitlementRef, outage: bool)

  /**
   A pair of permissionFuncs (for users and for groups): the client methods of one permission store,
   or the project builder's closures around them, which translate their capability argument first.
   */
  datatype PermissionFunc = PermissionFunc(store: Store, translation: Option<SlugMap>)
  {
    /** A capability missing from the closure's table reads as "". */
    function Request(resource: string, principal: ResourceId, capability: string, mode: string): RuleRequest {
      var name :=
        if translation.None? then capability
        else if capability in translation.value then translation.value[capability]
        else "";
      RuleRequest(RuleKey(store, resource), Rule(principal, name, mode))
    }
  }

  /** The generic translation of grantPermission and revokePermission: a slug outside the table passes unchanged. */
  function CapabilityOf(t: SlugTables, slug: string): string {
    if slug in t.byDisplaySlug then t.byDisplaySlug[slug] else slug
  }

  // ------------------------------------------------------------- the specification

  /** The server's answer to the request a call makes. */
  function Answer(site: Site, c: Call, r: RuleRequest): (Site, Reply) {
    if c.outage then (site, Failed)
    else if c.action == Give then AddRule(site, r.key, r.rule)
    else DeleteRule(site, r.key, r.rule)
  }

  /** The rule a slug of a resource addresses. */
  function Target(t: SlugTables, resource: ResourceId, slug: string, principal: ResourceId): Option<RuleRequest> {
    if principal.resourceType != "user" && principal.resourceType != "group" then None
    else if resource.resourceType == "project" then
      if slug in t.byDefaultSlug
      then
        Some(RuleRequest(RuleKey(DefaultWorkbookRules, resource.resource),
          Rule(principal, t.byDefaultSlug[slug], ALLOW)))
      else Some(RuleRequest(RuleKey(ProjectRules, resource.resource), Rule(principal, CapabilityOf(t, slug), ALLOW)))
    else if resource.resourceType == "workbook" then
      Some(RuleRequest(RuleKey(WorkbookRules, resource.resource), Rule(principal, CapabilityOf(t, slug), ALLOW)))
    else if resource.resourceType == "view" then
      Some(RuleRequest(RuleKey(ViewRules, resource.resource), Rule(principal, CapabilityOf(t, slug), ALLOW)))
    else None
  }

  /** The rule a call addresses, if its entitlement id can be parsed and its principal holds rules. */
  function Addressed(t: SlugTables, c: Call): Option<RuleRequest> {
    var slug := ParseEntitlementSlug(c.entitlement.id);
    if slug.None? then None else Target(t, c.entitlement.resource, slug.value, c.principal)
  }

  function Outcomes(action: Action, reply: Reply): Outcome {
    match reply
    case Accepted => Done
    case Conflict => if action == Give then GrantAlreadyExists else Error
    case NotFound => if action == Take then GrantAlreadyRevoked else Error
    case Failed => Error
  }

  /** What comes of making a request, or of having none to make. */
  function Performed(site: Site, c: Call, request: Option<RuleRequest>): (Site, Outcome) {
    if request.None? then (site, Error)
    else
      var (after, reply) := Answer(site, c, request.value);
      (after, Outcomes(c.action, reply))
  }

  /** View calls are refused when the workbook shows tabs or cannot be fetched. */
  predicate Refused(site: Site, c: Call) {
    c.entitlement.resource.resourceType == "view" && c.entitlement.parent.Some?
    && (c.outage || c.entitlement.parent.value.resource !in site.workbooks
        || site.ShowsTabs(c.entitlement.parent.value.resource))
  }

  function RuleStep(site: Site, t: SlugTables, c: Call): (Site, Outcome) {
    if Refused(site, c) then (site, Error) else Performed(site, c, Addressed(t, c))
  }

  function GroupStep(site: Site, c: Call): (Site, Outcome) {
    var group := c.entitlement.resource.resource;
    if c.entitlement.displayName == ALL_USERS then (site, if c.action == Give then GrantAlreadyExists else Error)
    else if c.principal.resourceType != "user" || c.outage then (site, Error)
    else
      var (after, reply) := if c.action == Give then AddMember(site, group, c.principal.resource)
                            else RemoveMember(site, group, c.principal.resource);
      (after, Outcomes(c.action, reply))
  }

  /** The effect of one Grant or Revoke call on the site, and its result. */
  function Step(site: Site, t: SlugTables, c: Call): (Site, Outcome) {
    if c.entitlement.resource.resourceType == "group" then GroupStep(site, c) else RuleStep(site, t, c)
  }

  // ------------------------------------------------------------------- the builders

  /** The request made with the given permission functions for a slug. */
  function RequestFor(t: SlugTables, slug: string, resource: ResourceId, principal: ResourceId,
                      perm: PermissionFunc): Option<RuleRequest>
  {
    if IsAccount(principal) then Some(perm.Request(resource.resource, principal, CapabilityOf(t, slug), ALLOW))
    else None
  }

  function RequestOf(t: SlugTables, c: Call, perm: PermissionFunc): Option<RuleRequest> {
    var slug := ParseEntitlementSlug(c.entitlement.id);
    if slug.None? then None else RequestFor(t, slug.value, c.entitlement.resource, c.principal, perm)
  }

  /** grantPermission and revokePermission, which differ in the request and in the reply they forgive. */
  method ApplyPermission(server: TableauServer, t: SlugTables, c: Call, perm: PermissionFunc)
    returns (outcome: Outcome)
    modifies server
    ensures (server.site, outcome) == Performed(old(server.site), c, RequestOf(t, c, perm))
  {
    var slug := ParseEntitlementSlug(c.entitlement.id);
    if slug.None? {
      return Error;
    }
    var capabilityName := slug.value;
    if slug.value in t.byDisplaySlug {
      capabilityName := t.byDisplaySlug[slug.value];
    }
    var request: RuleRequest;
    if c.principal.resourceType == "user" {
      request := perm.Request(c.entitlement.resource.resource, User(c.principal.resource), capabilityName, ALLOW);
    } else if c.principal.resourceType == "group" {
      request := perm.Request(c.entitlement.resource.resource, Group(c.principal.resource), capabilityName, ALLOW);
    } else {
      return Error;
    }
    outcome := SendRule(server, c, request);
  }

  /** The request itself, with the reply each action forgives. */
  method SendRule(server: TableauServer, c: Call, request: RuleRequest) returns (outcome: Outcome)
    modifies server
    ensures (server.site, outcome) == Performed(old(server.site), c, Some(request))
  {
    var reply: Reply;
    if c.action == Give {
      reply := server.PutRule(request, c.outage);
      if reply == Conflict {
        return GrantAlreadyExists;
      }
    } else {
      reply := server.RemoveRule(request, c.outage);
      if reply == NotFound {
        return GrantAlreadyRevoked;
      }
    }
    return if reply == Accepted then Done else Error;
  }

  /** A "Workbook / ..." slug passes the generic translation unchanged, so the closure translates it. */
  lemma TwoStepTranslation(t: SlugTables, slug: string, resource: ResourceId, principal: ResourceId)
    requires resource.resourceType == "project" && slug in t.byDefaultSlug && slug !in t.byDisplaySlug
    ensures RequestFor(t, slug, resource, principal, PermissionFunc(DefaultWorkbookRules, Some(t.byDefaultSlug)))
         == Target(t, resource, slug, principal)
  {
  }

  /** projectBuilder.Grant and Revoke, with the second translation for "Workbook / ..." slugs. */
  method ProjectCall(server: TableauServer, t: SlugTables, c: Call) returns (outcome: Outcome)
    requires c.entitlement.resource.resourceType == "project" && t.byDefaultSlug.Keys !! t.byDisplaySlug.Keys
    modifies server
    ensures (server.site, outcome) == Step(old(server.site), t, c)
  {
    var slug := ParseEntitlementSlug(c.entitlement.id);
    if slug.None? {
      return Error;
    }
    if slug.value in t.byDefaultSlug {
      TwoStepTranslation(t, slug.value, c.entitlement.resource, c.principal);
      outcome := ApplyPermission(server, t, c, PermissionFunc(DefaultWorkbookRules, Some(t.byDefaultSlug)));
      return;
    }
    outcome := ApplyPermission(server, t, c, PermissionFunc(ProjectRules, None));
  }

  /** workbookBuilder.Grant and Revoke. */
  method WorkbookCall(server: TableauServer, t: SlugTables, c: Call) returns (outcome: Outcome)
    requires c.entitlement.resource.resourceType == "workbook"
    modifies server
    ensures (server.site, outcome) == Step(old(server.site), t, c)
  {
    outcome := ApplyPermission(server, t, c, PermissionFunc(WorkbookRules, None));
  }

  /** viewBuilder.Grant and Revoke. */
  method ViewCall(server: TableauServer, t: SlugTables, c: Call) returns (outcome: Outcome)
    requires c.entitlement.resource.resourceType == "view"
    modifies server
    ensures (server.site, outcome) == Step(old(server.site), t, c)
  {
    if c.entitlement.parent.Some? {
      var showTabs := server.GetShowTabs(c.entitlement.parent.value.resource, c.outage);
      if showTabs.None? {
        return Error;
      }
      if showTabs.value {
        return Error;
      }
    }
    outcome := ApplyPermission(server, t, c, PermissionFunc(ViewRules, None));
  }

  /** groupBuilder.Grant and Revoke. */
  method GroupCall(server: TableauServer, t: SlugTables, c: Call) returns (outcome: Outcome)
    requires c.entitlement.resource.resourceType == "group"
    modifies server
    ensures (server.site, outcome) == Step(old(server.site), t, c)
  {
    if c.entitlement.displayName == ALL_USERS {
      return if c.action == Give then GrantAlreadyExists else Error;
    }
    if c.principal.resourceType != "user" {
      return Error;
    }
    var reply: Reply;
    if c.action == Give {
      reply := server.AddUserToGroup(c.entitlement.resource.resource, c.principal.resource, c.outage);
      if reply == Conflict {
        return GrantAlreadyExists;
      }
    } else {
      reply := server.RemoveUserFromGroup(c.entitlement.resource.resource, c.principal.resource, c.outage);
      if reply == NotFound {
        return GrantAlreadyRevoked;
      }
    }
    return if reply == Accepted then Done else Error;
  }

  // ------------------------------------------------------------- what an answer means

  /** The store a resource's permission calls go to: of a project, the default one for "Workbook / ..." slugs. */
  function StoreOf(t: SlugTables, resource: ResourceId, slug: string): Option<Store> {
    if resource.resourceType == "project"
    then Some(if slug in t.byDefaultSlug then DefaultWorkbookRules else ProjectRules)
    else if resource.resourceType == "workbook" then Some(WorkbookRules)
    else if resource.resourceType == "view" then Some(ViewRules)
    else None
  }

  /** The capability a slug stands for at a store; one that neither table knows is sent as it is. */
  function CapabilityAtStore(t: SlugTables, store: Store, slug: string): string {
    if store == DefaultWorkbookRules && slug in t.byDefaultSlug then t.byDefaultSlug[slug]
    else if slug in t.byDisplaySlug then t.byDisplaySlug[slug]
    else slug
  }

  /** The call names the slug, and asks for the principal's Allow rule for its capability at the resource's store. */
  ghost predicate AsksFor(t: SlugTables, c: Call, slug: string, r: RuleRequest) {
    && NamesSlug(c.entitlement.id, slug)
    && c.principal.resourceType in {"user", "group"}
    && StoreOf(t, c.entitlement.resource, slug) == Some(r.key.store) && r.key.id == c.entitlement.resource.resource
    && r.rule == Rule(c.principal, CapabilityAtStore(t, r.key.store, slug), "Allow")
  }

  /**
   Which calls have a request to make: those by an id of three parts, for a user or a group, on a project, a
   workbook or a view.
   */
  lemma AddressedExactly(t: SlugTables, c: Call, r: RuleRequest)
    ensures Addressed(t, c) == Some(r) <==> exists slug :: AsksFor(t, c, slug, r)
  {
    if Addressed(t, c) == Some(r) {
      var slug := ParseEntitlementSlug(c.entitlement.id).value;
      ParseReads(c.entitlement.id, slug);
      TargetExactly(t, c, slug, r);
    }
    if slug :| AsksFor(t, c, slug, r) {
      ParseReads(c.entitlement.id, slug);
      TargetExactly(t, c, slug, r);
    }
  }

  lemma TargetExactly(t: SlugTables, c: Call, slug: string, r: RuleRequest)
    requires NamesSlug(c.entitlement.id, slug)
    ensures Target(t, c.entitlement.resource, slug, c.principal) == Some(r) <==> AsksFor(t, c, slug, r)
  {
  }

  /** Nothing keeps the call's request from being answered; a view's may be kept back by its workbook. */
  predicate IsAnswered(site: Site, c: Call) {
    && !c.outage
    && (c.entitlement.resource.resourceType == "view" && c.entitlement.parent.Some? ==>
          var w := c.entitlement.parent.value.resource; w in site.workbooks && site.workbooks[w].showTabs != "true")
  }

  /** What each answer to a permission call means, whatever the site, the call and the tables. */
  lemma PermissionAnswers(site: Site, t: SlugTables, c: Call)
    requires c.entitlement.resource.resourceType != "group"
    ensures var (after, outcome) := Step(site, t, c);
      && (outcome != Done ==> after == site)
      && (Addressed(t, c).None? || !IsAnswered(site, c) ==> outcome == Error)
      && (Addressed(t, c).Some? && IsAnswered(site, c) ==>
            var r := Addressed(t, c).value;
            var stored := site.HasResource(r.key) && r.rule in site.RulesAt(r.key);
            && (outcome == Done <==> site.HasResource(r.key) && (stored <==> c.action == Take))
            && (outcome == GrantAlreadyExists <==> stored && c.action == Give)
            && (outcome == GrantAlreadyRevoked <==> !stored && c.action == Take)
            && (outcome != Error && site.HasResource(r.key) ==>
                  (r.rule in after.RulesAt(r.key) <==> c.action == Give)))
  {
  }

  /** So a call that does not fail leaves the addressed rule stored after a Grant, and not stored after a Revoke. */
  lemma NoErrorMeansEffect(site: Site, t: SlugTables, c: Call)
    requires c.entitlement.resource.resourceType != "group" && Step(site, t, c).1 != Error
    ensures Addressed(t, c).Some?
    ensures var (after, r) := (Step(site, t, c).0, Addressed(t, c).value);
      if c.action == Give then after.HasResource(r.key) && r.rule in after.RulesAt(r.key)
      else !(after.HasResource(r.key) && r.rule in after.RulesAt(r.key))
  {
    PermissionAnswers(site, t, c);
  }

  /** What each answer to a membership call means. */
  lemma MembershipAnswers(site: Site, t: SlugTables, c: Call)
    requires c.entitlement.resource.resourceType == "group"
    ensures var (after, outcome) := Step(site, t, c);
      var (group, u) := (c.entitlement.resource.resource, c.principal.resource);
      var member := group in site.groups && u in site.MembersOf(group);
      && (outcome != Done ==> after == site)
      && (c.entitlement.displayName == "All Users" ==>
            outcome == if c.action == Give then GrantAlreadyExists else Error)
      && (c.entitlement.displayName != "All Users" && (c.principal.resourceType != "user" || c.outage) ==>
            outcome == Error)
      && (c.entitlement.displayName != "All Users" && c.principal.resourceType == "user" && !c.outage ==>
            && (outcome == Done <==>
                  if c.action == Give then group in site.groups && u in site.users && !member else member)
            && (outcome == GrantAlreadyExists <==> c.action == Give && member && u in site.users)
            && (outcome == GrantAlreadyRevoked <==> c.action == Take && !member)
            && (outcome != Error && group in site.groups ==> (u in after.MembersOf(group) <==> c.action == Give)))
  {
  }
}
