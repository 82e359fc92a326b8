/**
 The Tableau site as the connector sees it through the REST API, and the server object that
 answers its requests.
 */
module Tableau {

  import opened Wrappers
  import opened Text
  import opened Grants

  const SERVER_ADMINISTRATOR: string := "ServerAdministrator"
  const ALL_USERS: string := "All Users"

  datatype ProjectInfo = ProjectInfo(name: string, contentPermissions: string, parentProjectId: string)

  datatype ProjectRef = ProjectRef(id: string, name: string)

  datatype WorkbookInfo = WorkbookInfo(showTabs: string, project: Option<ProjectRef>)

  datatype Store = ProjectRules | DefaultWorkbookRules | WorkbookRules | ViewRules

  /** Where a permission rule lives: one of the four permission endpoints and a resource id. */
  datatype RuleKey = RuleKey(store: Store, id: string)

  datatype UserRecord = UserRecord(id: string, siteRole: string)

  datatype Site = Site(
    id: string,
    projects: map<string, ProjectInfo>,
    workbooks: map<string, WorkbookInfo>,
    views: map<string, string>,         // view id to the id of its workbook
    groups: map<string, string>,        // group id to its name
    members: map<string, set<string>>,  // group id to user ids
    users: map<string, string>,         // user id to site role
    rules: map<RuleKey, set<Rule>>)
  {
    function RulesAt(key: RuleKey): set<Rule> {
      if key in rules then rules[key] else {}
    }

    function MembersOf(group: string): set<string> {
      if group in members then members[group] else {}
    }

    /** The site with the rules of one store replaced. */
    function WithRules(key: RuleKey, stored: set<Rule>): (after: Site)
      ensures forall k :: after.RulesAt(k) == if k == key then stored else RulesAt(k)
      ensures after == this.(rules := after.rules)
    {
      this.(rules := rules[key := stored])
    }

    /** The site with the members of one group replaced. */
    function WithMembers(group: string, ids: set<string>): (after: Site)
      ensures forall g :: after.MembersOf(g) == if g == group then ids else MembersOf(g)
      ensures after == this.(members := after.members)
    {
      this.(members := members[group := ids])
    }

    predicate HasResource(key: RuleKey) {
      match key.store
      case ProjectRules => key.id in projects
      case DefaultWorkbookRules => key.id in projects
      case WorkbookRules => key.id in workbooks
      case ViewRules => key.id in views
    }

    /** Workbooks outside any project (a user's personal space) are not synced. */
    predicate SyncsWorkbook(w: string) {
      w in workbooks && workbooks[w].project.Some?
    }

    /** Views are listed as the children of synced workbooks. */
    predicate SyncsView(v: string) {
      v in views && SyncsWorkbook(views[v])
    }

    /** Whether the workbook's views inherit their permissions from it. */
    predicate ShowsTabs(w: string) {
      w in workbooks && workbooks[w].showTabs == "true"
    }

    /** Resource ids carry no colon (Tableau uses GUIDs), and only users and groups hold rules. */
    predicate WellFormed() {
      && ColonFree(id)
      && (forall p :: p in projects ==> ColonFree(p))
      && (forall w :: w in workbooks ==> ColonFree(w))
      && (forall v :: v in views ==> ColonFree(v))
      && (forall g :: g in groups ==> ColonFree(g))
      && (forall k, r :: k in rules && r in rules[k] ==>
            r.grantee.resourceType == "user" || r.grantee.resourceType == "group")
    }
  }

  /** The two settings under which a project decides the permissions of what it contains. */
  predicate IsLocking(contentPermissions: string) {
    contentPermissions == "LockedToProject" || contentPermissions == "LockedToProjectWithoutNested"
  }

  /** Tableau finds workbooks by the name of their project, but rejects filters with commas and ampersands. */
  predicate IsFindable(name: string) {
    name != "" && ',' !in name && '&' !in name
  }

  /** A project its workbooks are to inherit from, by the texts the server sends. */
  predicate LocksWorkbooks(contentPermissions: string, name: string) {
    IsLocking(contentPermissions) && IsFindable(name)
  }

  const LOCKED_TO_PROJECT_VALUES: set<string> := {"LockedToProject", "LockedToProjectWithoutNested"}

  /** isLockedToProject. */
  predicate IsLockedToProject(contentPermissions: string) {
    contentPermissions in LOCKED_TO_PROJECT_VALUES
  }

  /** client.IsFilterSafe. */
  predicate IsFilterSafe(value: string) {
    value != "" && !ContainsAny(value, ",&")
  }

  /** strings.ContainsAny. */
  predicate ContainsAny(s: string, chars: string) {
    exists i :: 0 <= i < |s| && s[i] in chars
  }

  /** The connector's two tests are these. */
  lemma LockTests(contentPermissions: string, name: string)
    ensures IsLockedToProject(contentPermissions) <==> IsLocking(contentPermissions)
    ensures IsFilterSafe(name) <==> IsFindable(name)
  {
    assert forall i :: 0 <= i < |name| ==> (name[i] in ",&" <==> name[i] == ',' || name[i] == '&');
  }
}
