/** The Tableau server's side of provisioning: what it stores, and how it answers. */
module Server {

  import opened Wrappers
  import opened Grants
  import opened Tableau

  /** Success, HTTP 409, HTTP 404, or any other error. */
  datatype Reply = Accepted | Conflict | NotFound | Failed

  function AddRule(site: Site, key: RuleKey, rule: Rule): (Site, Reply) {
    if !site.HasResource(key) then (site, NotFound)
    else if rule in site.RulesAt(key) then (site, Conflict)
    else (site.WithRules(key, site.RulesAt(key) + {rule}), Accepted)
  }

  function DeleteRule(site: Site, key: RuleKey, rule: Rule): (Site, Reply) {
    if !site.HasResource(key) || rule !in site.RulesAt(key) then (site, NotFound)
    else (site.WithRules(key, site.RulesAt(key) - {rule}), Accepted)
  }

  function AddMember(site: Site, group: string, user: string): (Site, Reply) {
    if group !in site.groups || user !in site.users then (site, NotFound)
    else if user in site.MembersOf(group) then (site, Conflict)
    else (site.WithMembers(group, site.MembersOf(group) + {user}), Accepted)
  }

  function RemoveMember(site: Site, group: string, user: string): (Site, Reply) {
    if group !in site.groups || user !in site.MembersOf(group) then (site, NotFound)
    else (site.WithMembers(group, site.MembersOf(group) - {user}), Accepted)
  }

  /** UpdateUserSiteRole on the server. */
  function SetRole(site: Site, user: string, role: string): (Site, Reply) {
    if user !in site.users then (site, NotFound) else (site.(users := site.users[user := role]), Accepted)
  }

  // ------------------------------------------------------------- what the replies mean

  ghost predicate SameResources(a: Site, b: Site) {
    && a.id == b.id && a.projects == b.projects && a.workbooks == b.workbooks
    && a.views == b.views && a.groups == b.groups && a.users == b.users
  }

  /** At most the named rule of the named store differs. */
  ghost predicate OnlyRuleChanges(site: Site, after: Site, key: RuleKey, rule: Rule) {
    && SameResources(site, after) && after.members == site.members
    && forall k, r :: k != key || r != rule ==> (r in after.RulesAt(k) <==> r in site.RulesAt(k))
  }

  /** At most the named user's membership of the named group differs. */
  ghost predicate OnlyMemberChanges(site: Site, after: Site, group: string, user: string) {
    && SameResources(site, after) && after.rules == site.rules
    && forall g, u :: g != group || u != user ==> (u in after.MembersOf(g) <==> u in site.MembersOf(g))
  }

  /** The resources whose rules a store keeps. */
  function Listed(site: Site, store: Store): set<string> {
    if store == WorkbookRules then site.workbooks.Keys
    else if store == ViewRules then site.views.Keys
    else site.projects.Keys
  }

  /**
   409 means the rule was stored, 404 that there is no such resource; only an accepted request changes anything, and
   then that rule.
   */
  lemma AddRuleAnswers(site: Site, key: RuleKey, rule: Rule)
    ensures var (after, reply) := AddRule(site, key, rule);
      && (reply == Conflict <==> key.id in Listed(site, key.store) && rule in site.RulesAt(key))
      && (reply == NotFound <==> key.id !in Listed(site, key.store))
      && (reply != Accepted ==> after == site)
      && (reply == Accepted ==> rule in after.RulesAt(key) && rule !in site.RulesAt(key))
      && OnlyRuleChanges(site, after, key, rule)
  {
  }

  /** 404 means there was no such rule. */
  lemma DeleteRuleAnswers(site: Site, key: RuleKey, rule: Rule)
    ensures var (after, reply) := DeleteRule(site, key, rule);
      && (reply == NotFound <==> key.id !in Listed(site, key.store) || rule !in site.RulesAt(key))
      && (reply != NotFound ==> reply == Accepted)
      && (reply != Accepted ==> after == site)
      && (reply == Accepted ==> rule !in after.RulesAt(key) && rule in site.RulesAt(key))
      && OnlyRuleChanges(site, after, key, rule)
  {
  }

  /** 409 means the user was a member, 404 that there is no such group or user. */
  lemma AddMemberAnswers(site: Site, group: string, user: string)
    ensures var (after, reply) := AddMember(site, group, user);
      && (reply == NotFound <==> group !in site.groups || user !in site.users)
      && (reply == Conflict <==> group in site.groups && user in site.users && user in site.MembersOf(group))
      && (reply != Accepted ==> after == site)
      && (reply == Accepted ==> user in after.MembersOf(group) && user !in site.MembersOf(group))
      && OnlyMemberChanges(site, after, group, user)
  {
  }

  /** 404 means the user was not a member of such a group. */
  lemma RemoveMemberAnswers(site: Site, group: string, user: string)
    ensures var (after, reply) := RemoveMember(site, group, user);
      && (reply == NotFound <==> group !in site.groups || user !in site.MembersOf(group))
      && (reply != NotFound ==> reply == Accepted)
      && (reply != Accepted ==> after == site)
      && (reply == Accepted ==> user !in after.MembersOf(group) && user in site.MembersOf(group))
      && OnlyMemberChanges(site, after, group, user)
  {
  }

  /** A request about one permission rule. */
  datatype RuleRequest = RuleRequest(key: RuleKey, rule: Rule)

  /** The remote site. A request either reaches it and is answered as above, or fails and changes nothing. */
  class TableauServer {
    var site: Site

    constructor (site: Site)
      ensures this.site == site
    {
      this.site := site;
    }

    method PutRule(r: RuleRequest, outage: bool) returns (reply: Reply)
      modifies this
      ensures (site, reply) == if outage then (old(site), Failed) else AddRule(old(site), r.key, r.rule)
    {
      if outage {
        return Failed;
      }
      var (after, answer) := AddRule(site, r.key, r.rule);
      site := after;
      return answer;
    }

    method RemoveRule(r: RuleRequest, outage: bool) returns (reply: Reply)
      modifies this
      ensures (site, reply) == if outage then (old(site), Failed) else DeleteRule(old(site), r.key, r.rule)
    {
      if outage {
        return Failed;
      }
      var (after, answer) := DeleteRule(site, r.key, r.rule);
      site := after;
      return answer;
    }

    method AddUserToGroup(group: string, user: string, outage: bool) returns (reply: Reply)
      modifies this
      ensures (site, reply) == if outage then (old(site), Failed) else AddMember(old(site), group, user)
    {
      if outage {
        return Failed;
      }
      var (after, answer) := AddMember(site, group, user);
      site := after;
      return answer;
    }

    method RemoveUserFromGroup(group: string, user: string, outage: bool) returns (reply: Reply)
      modifies this
      ensures (site, reply) == if outage then (old(site), Failed) else RemoveMember(old(site), group, user)
    {
      if outage {
        return Failed;
      }
      var (after, answer) := RemoveMember(site, group, user);
      site := after;
      return answer;
    }

    method UpdateUserSiteRole(user: string, role: string, outage: bool) returns (reply: Reply)
      modifies this
      ensures (site, reply) == if outage then (old(site), Failed) else SetRole(old(site), user, role)
    {
      if outage {
        return Failed;
      }
      var (after, answer) := SetRole(site, user, role);
      site := after;
      return answer;
    }

    /** GetWorkbook, as far as getShowTabs needs it; None stands for an error. */
    method GetShowTabs(workbook: string, outage: bool) returns (showTabs: Option<bool>)
      ensures showTabs == if outage || workbook !in site.workbooks then None else Some(site.ShowsTabs(workbook))
    {
      if outage || workbook !in site.workbooks {
        return None;
      }
      return Some(site.workbooks[workbook].showTabs == "true");
    }
  }
}
