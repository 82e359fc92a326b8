/**
 projectBuilder.Grants: a resumable enumeration in two phases. The first call emits the project's
 own grants; if the project is locked, further calls page through the workbooks that share the
 project's name and emit inherited grants for those that belong to it.
 */
module ProjectSync {

  import opened Wrappers
  import opened Text
  import opened Sequences
  import opened Capabilities
  import opened Grants
  import opened Tableau
  import opened Paging
  import opened Bag
  import opened Logging

  datatype ProjectResource = ProjectResource(
    id: string, displayName: string, contentPermissions: string, parent: Option<ResourceId>)

  datatype WorkbookRecord = WorkbookRecord(id: string, project: Option<ProjectRef>)

  /** The workbooks getter for each value of the filter "projectName:eq:<value>". */
  type WorkbooksByName = string -> Pager<string, WorkbookRecord>

  /**
   What the server answers during the walk. None stands for a failed request; requests for workbooks fail for
   the page tokens in `fails`.
   */
  datatype Replies = Replies(
    access: Option<seq<GranteeCapabilities>>,
    defaults: Option<seq<GranteeCapabilities>>,
    workbooks: WorkbooksByName,
    fails: string -> bool)

  /** The requests a call with this token makes all succeed. */
  predicate Answers(replies: Replies, token: Token) {
    if Phase(token) == "" then replies.access.Some? && replies.defaults.Some?
    else if Phase(token) == "workbook" then !replies.fails(token.current.token)
    else true
  }

  function InProjectNamed(name: string): WorkbookRecord -> bool {
    (w: WorkbookRecord) => w.project.Some? && w.project.value.name == name
  }

  function InProject(id: string): WorkbookRecord -> bool {
    (w: WorkbookRecord) => w.project.Some? && w.project.value.id == id
  }

  /** The server's answer to the filter "projectName:eq:<name>". */
  function Matching(name: string, listing: seq<WorkbookRecord>): seq<WorkbookRecord> {
    Filter(InProjectNamed(name), listing)
  }

  function Belonging(projectId: string, listing: seq<WorkbookRecord>): seq<WorkbookRecord> {
    Filter(InProject(projectId), listing)
  }

  predicate WalksWorkbooks(p: ProjectResource) {
    IsLockedToProject(p.contentPermissions) && IsFilterSafe(p.displayName)
  }

  /** Locked, but its workbooks cannot be found by name. */
  predicate IsSkipped(p: ProjectResource) {
    IsLockedToProject(p.contentPermissions) && !IsFilterSafe(p.displayName)
  }

  predicate HasProjectParent(p: ProjectResource) {
    p.parent.Some? && p.parent.value.resourceType == "project"
  }

  function Phase(token: Token): string {
    if token.Marshalled? then token.current.resourceTypeId else ""
  }

  /** After the first phase: on to the workbooks, or no further than before. */
  function AfterFirst(p: ProjectResource, token: Token): Token {
    if WalksWorkbooks(p) then Pushed(token, PageState("workbook", "")) else token
  }

  /** The token a successful call with `token` returns. */
  function NextToken(p: ProjectResource, workbooks: WorkbooksByName, token: Token): Token {
    if Phase(token) == "" then Written(AfterFirst(p, token))
    else if Phase(token) == "workbook" then
      Advanced(token, workbooks(p.displayName).next(token.current.token))
    else NoToken
  }

  /** The workbooks a call with `token` emits inherited grants for: those of its page that are in the project. */
  function Covers(p: ProjectResource, workbooks: WorkbooksByName, token: Token): seq<WorkbookRecord> {
    if Phase(token) == "workbook" then Belonging(p.id, workbooks(p.displayName).page(token.current.token)) else []
  }

  /** A token of any other phase ends the walk, without a request. */
  lemma OtherPhaseEnds(p: ProjectResource, replies: Replies, token: Token)
    requires token.Marshalled? && token.current.resourceTypeId !in {"", "workbook"}
    ensures Answers(replies, token) && NextToken(p, replies.workbooks, token) == NoToken
    ensures Covers(p, replies.workbooks, token) == []
  {
  }

  // ------------------------------------------------------------ what a call emits

  /** The proxies of a nested project; a project without a parent project has none. */
  ghost predicate ParentProxies(p: ProjectResource, t: SlugTables, rv: seq<Grant>) {
    if HasProjectParent(p)
    then ListsProxies(rv, Project(p.id), Project(p.parent.value.resource), t.defaultWorkbook, t.defaultWorkbook)
    else rv == []
  }

  /** The first-phase grants: both permission stores, then the proxies of a nested project. */
  ghost predicate FirstPhase(p: ProjectResource, t: SlugTables, access: seq<GranteeCapabilities>,
                             defaults: seq<GranteeCapabilities>, rv: seq<Grant>)
  {
    exists proxies :: ParentProxies(p, t, proxies)
      && rv == GrantsOf(Project(p.id), access, t.project)
        + GrantsOf(Project(p.id), defaults, t.defaultWorkbook) + proxies
  }

  /** Only a parent that is a project is inherited from. */
  lemma OnlyProjectParents(p: ProjectResource, t: SlugTables, rv: seq<Grant>)
    requires p.parent == None || p.parent.value.resourceType != "project"
    ensures ParentProxies(p, t, rv) <==> rv == []
  {
  }

  /** One block of proxy grants per workbook, in the list's order. */
  ghost predicate AreBlocks(p: ProjectResource, t: SlugTables, ws: seq<WorkbookRecord>, blocks: seq<seq<Grant>>) {
    && |blocks| == |ws|
    && forall i :: 0 <= i < |ws| ==>
         ListsProxies(blocks[i], Workbook(ws[i].id), Project(p.id), t.workbook, t.defaultWorkbook)
  }

  /** The inherited grants of a list of workbooks: one block each, in the list's order. */
  ghost predicate WorkbookPhase(p: ProjectResource, t: SlugTables, ws: seq<WorkbookRecord>, rv: seq<Grant>) {
    exists blocks :: AreBlocks(p, t, ws, blocks) && rv == Flatten(blocks)
  }

  lemma NoWorkbooks(p: ProjectResource, t: SlugTables)
    ensures WorkbookPhase(p, t, [], [])
  {
    assert AreBlocks(p, t, [], []) && Flatten<Grant>([]) == [];
  }

  /** The grants of two lists of workbooks, one after the other, are the grants of both lists together. */
  lemma PhasesConcat(p: ProjectResource, t: SlugTables, ws: seq<WorkbookRecord>, rv: seq<Grant>,
                     ws': seq<WorkbookRecord>, rv': seq<Grant>)
    requires WorkbookPhase(p, t, ws, rv) && WorkbookPhase(p, t, ws', rv')
    ensures WorkbookPhase(p, t, ws + ws', rv + rv')
  {
    var a :| AreBlocks(p, t, ws, a) && rv == Flatten(a);
    var b :| AreBlocks(p, t, ws', b) && rv' == Flatten(b);
    FlattenConcat(a, b);
    BlocksConcat(p, t, ws, a, ws', b);
  }

  lemma BlocksConcat(p: ProjectResource, t: SlugTables, ws: seq<WorkbookRecord>, a: seq<seq<Grant>>,
                     ws': seq<WorkbookRecord>, b: seq<seq<Grant>>)
    requires AreBlocks(p, t, ws, a) && AreBlocks(p, t, ws', b)
    ensures AreBlocks(p, t, ws + ws', a + b)
  {
  }

  lemma OneBlock(p: ProjectResource, t: SlugTables, w: WorkbookRecord, rv: seq<Grant>)
    requires ListsProxies(rv, Workbook(w.id), Project(p.id), t.workbook, t.defaultWorkbook)
    ensures WorkbookPhase(p, t, [w], rv)
  {
    FlattenOne(rv);
    assert AreBlocks(p, t, [w], [rv]) && Flatten([rv]) == rv;
  }

  /** The loop over one page of workbooks. */
  method InheritingGrants(p: ProjectResource, t: SlugTables, page: seq<WorkbookRecord>) returns (rv: seq<Grant>)
    ensures WorkbookPhase(p, t, Belonging(p.id, page), rv)
  {
    rv := [];
    NoWorkbooks(p, t);
    for i := 0 to |page|
      invariant WorkbookPhase(p, t, Belonging(p.id, page[..i]), rv)
    {
      var workbook := page[i];
      FilterMore(InProject(p.id), page[..i], workbook);
      assert page[..i] + [workbook] == page[..i + 1];
      if workbook.project.None? || workbook.project.value.id != p.id {
        continue;
      }
      var grants := InheritedGrants(Workbook(workbook.id), Project(p.id), t.workbook, t.defaultWorkbook);
      OneBlock(p, t, workbook, grants);
      PhasesConcat(p, t, Belonging(p.id, page[..i]), rv, [workbook], grants);
      rv := rv + grants;
    }
    assert page[..|page|] == page;
  }

  class ProjectBuilder {
    const unfilterableProjects: SampledWarn

    constructor ()
      ensures fresh(unfilterableProjects) && unfilterableProjects.n == 0
    {
      unfilterableProjects := new SampledWarn();
    }

    /**
     The first phase: the project's own rules, the proxies of a nested project, and whether to go on to
     workbooks.
     */
    method OwnGrants(p: ProjectResource, t: SlugTables, replies: Replies, b: PaginationBag)
      returns (result: Option<seq<Grant>>)
      modifies unfilterableProjects, b
      ensures result.Some? <==> replies.access.Some? && replies.defaults.Some?
      ensures result.Some? ==> FirstPhase(p, t, replies.access.value, replies.defaults.value, result.value)
      ensures result.Some? ==> b.Contents() == AfterFirst(p, old(b.Contents()))
      ensures unfilterableProjects.n ==
        if result.Some? && IsSkipped(p) then Incremented(old(unfilterableProjects.n)) else old(unfilterableProjects.n)
    {
      if replies.access.None? {
        return None;
      }
      var rv := GrantsFromCapabilities(Project(p.id), replies.access.value, t.project);
      if replies.defaults.None? {
        return None;
      }
      var defaultWorkbookRv := GrantsFromCapabilities(Project(p.id), replies.defaults.value, t.defaultWorkbook);
      rv := rv + defaultWorkbookRv;
      var proxyRv: seq<Grant> := [];
      if p.parent.Some? && p.parent.value.resourceType == "project" {
        proxyRv := InheritedGrants(Project(p.id), Project(p.parent.value.resource),
          t.defaultWorkbook, t.defaultWorkbook);
      }
      rv := rv + proxyRv;
      if IsLockedToProject(p.contentPermissions) {
        if IsFilterSafe(p.displayName) {
          b.Push(PageState("workbook", ""));
        } else {
          var logged := unfilterableProjects.Log();
        }
      }
      return Some(rv);
    }

    /** The second phase: one page of the workbooks that share the project's name. */
    method PageGrants(p: ProjectResource, t: SlugTables, getter: Pager<string, WorkbookRecord>,
                      b: PaginationBag)
      returns (rv: seq<Grant>)
      requires b.Contents().Marshalled?
      modifies b
      ensures b.Contents() == Advanced(old(b.Contents()), getter.next(old(b.Contents()).current.token))
      ensures WorkbookPhase(p, t, Belonging(p.id, getter.page(old(b.Contents()).current.token)), rv)
    {
      var pageToken := b.PageToken();
      var workbooks, nextWorkbookToken := getter.page(pageToken), getter.next(pageToken);
      rv := InheritingGrants(p, t, workbooks);
      var ok := b.Next(nextWorkbookToken);
    }

    /** projectBuilder.Grants on a token read from `input`, if it encodes one; None stands for the error return. */
    method Grants(p: ProjectResource, t: SlugTables, replies: Replies, input: Option<Token>)
      returns (result: Option<(seq<Grant>, Token)>)
      modifies unfilterableProjects
      ensures result.Some? <==> input.Some? && Answers(replies, input.value)
      ensures result.Some? ==> result.value.1 == NextToken(p, replies.workbooks, input.value)
      ensures result.Some? && Phase(input.value) == "" ==>
        FirstPhase(p, t, replies.access.value, replies.defaults.value, result.value.0)
      ensures result.Some? && Phase(input.value) != "" ==>
        WorkbookPhase(p, t, Covers(p, replies.workbooks, input.value), result.value.0)
      // A locked project whose name the filter rejects is counted, and so eventually warned about, on its first call.
      ensures unfilterableProjects.n ==
        if result.Some? && Phase(input.value) == "" && IsSkipped(p)
        then Incremented(old(unfilterableProjects.n)) else old(unfilterableProjects.n)
    {
      var b := new PaginationBag();
      var ok := b.Unmarshal(input);
      if !ok {
        return None;
      }
      var phase := b.ResourceTypeId();
      if phase == "" {
        var own := OwnGrants(p, t, replies, b);
        if own.None? {
          return None;
        }
        var next := b.Marshal();
        return Some((own.value, next));
      } else if phase == "workbook" {
        var pageToken := b.PageToken();
        if replies.fails(pageToken) {
          return None;
        }
        var rv := PageGrants(p, t, replies.workbooks(p.displayName), b);
        var next := b.Marshal();
        return Some((rv, next));
      }
      NoWorkbooks(p, t);
      return Some(([], NoToken));
    }
  }

  // ------------------------------------------------------------------ the whole walk

  /** Grants as an enumeration: the workbooks each call covers, and the token it returns. */
  function Walker(p: ProjectResource, workbooks: WorkbooksByName): Pager<Token, WorkbookRecord> {
    Pager(token => Covers(p, workbooks, token), token => NextToken(p, workbooks, token))
  }

  function OnPage(pageToken: string): Token {
    Marshalled([], PageState("workbook", pageToken))
  }

  lemma WalkerOnPage(p: ProjectResource, workbooks: WorkbooksByName, pageToken: string)
    ensures var getter, walker := workbooks(p.displayName), Walker(p, workbooks);
      && walker.page(OnPage(pageToken)) == Filter(InProject(p.id), getter.page(pageToken))
      && walker.next(OnPage(pageToken))
        == if getter.next(pageToken) == "" then NoToken else OnPage(getter.next(pageToken))
  {
  }

  lemma WalkerFirst(p: ProjectResource, workbooks: WorkbooksByName)
    ensures Walker(p, workbooks).page(NoToken) == []
    ensures Walker(p, workbooks).next(NoToken) == if WalksWorkbooks(p) then OnPage("") else NoToken
  {
  }

  /** A walker over an inner enumeration: one call that covers nothing, and then a call per inner page. */
  ghost predicate Wraps<T(!new)>(walker: Pager<Token, T>, getter: Pager<string, T>, keep: T -> bool) {
    && walker.page(NoToken) == [] && walker.next(NoToken) == OnPage("")
    && (forall s :: walker.page(OnPage(s)) == Filter(keep, getter.page(s)))
    && (forall s :: walker.next(OnPage(s)) == if getter.next(s) == "" then NoToken else OnPage(getter.next(s)))
  }

  lemma WalkerWraps(p: ProjectResource, workbooks: WorkbooksByName)
    requires WalksWorkbooks(p)
    ensures Wraps(Walker(p, workbooks), workbooks(p.displayName), InProject(p.id))
  {
    WalkerFirst(p, workbooks);
    forall s ensures
      var getter, walker := workbooks(p.displayName), Walker(p, workbooks);
      && walker.page(OnPage(s)) == Filter(InProject(p.id), getter.page(s))
      && walker.next(OnPage(s)) == if getter.next(s) == "" then NoToken else OnPage(getter.next(s))
    {
      WalkerOnPage(p, workbooks, s);
    }
  }

  /** Call 1 + i carries the client's i-th page token. */
  lemma {:induction false} WrappedTokens<T(!new)>(walker: Pager<Token, T>, getter: Pager<string, T>,
                                                  keep: T -> bool, i: nat)
    requires Wraps(walker, getter, keep) && forall j :: 0 < j <= i ==> TokenAt(getter, "", j) != ""
    ensures TokenAt(walker, NoToken, 1 + i) == OnPage(TokenAt(getter, "", i))
  {
    if i > 0 {
      WrappedTokens(walker, getter, keep, i - 1);
    } else {
      assert TokenAt(walker, NoToken, 1) == walker.next(TokenAt(walker, NoToken, 0));
    }
  }

  /** The first call covers nothing, the later ones the kept records of the inner pages. */
  lemma WrappedPages<T(!new)>(walker: Pager<Token, T>, getter: Pager<string, T>, keep: T -> bool, k: nat)
    requires Wraps(walker, getter, keep) && forall j :: 0 < j < k ==> TokenAt(getter, "", j) != ""
    ensures Pages(walker, NoToken, 1 + k) == [[]] + FilterEach(keep, Pages(getter, "", k))
  {
    var covered, pages := Pages(walker, NoToken, 1 + k), FilterEach(keep, Pages(getter, "", k));
    forall i | 0 <= i < 1 + k ensures covered[i] == ([[]] + pages)[i] {
      if i > 0 {
        WrappedTokens(walker, getter, keep, i - 1);
      } else {
        assert covered[0] == walker.page(TokenAt(walker, NoToken, 0));
      }
    }
  }

  lemma WrappedTokensDiffer<T(!new)>(walker: Pager<Token, T>, getter: Pager<string, T>, keep: T -> bool,
                                     records: seq<T>, k: nat)
    requires Wraps(walker, getter, keep) && Delivers(getter, "", records, k)
    ensures forall i :: 0 < i <= k ==> TokenAt(walker, NoToken, i) == OnPage(TokenAt(getter, "", i - 1))
    ensures TokenAt(walker, NoToken, 1 + k) == NoToken
  {
    forall i | 0 < i <= k ensures TokenAt(walker, NoToken, i) == OnPage(TokenAt(getter, "", i - 1)) {
      WrappedTokens(walker, getter, keep, i - 1);
    }
    assert TokenAt(walker, NoToken, 1 + k) == walker.next(TokenAt(walker, NoToken, k));
    assert getter.next(TokenAt(getter, "", k - 1)) == TokenAt(getter, "", k);
  }

  lemma WrappedRecords<T(!new)>(walker: Pager<Token, T>, getter: Pager<string, T>, keep: T -> bool,
                                records: seq<T>, k: nat)
    requires Wraps(walker, getter, keep) && Delivers(getter, "", records, k)
    ensures Flatten(Pages(walker, NoToken, 1 + k)) == Filter(keep, records)
  {
    WrappedPages(walker, getter, keep, k);
    FlattenConcat([[]], FilterEach(keep, Pages(getter, "", k)));
    FlattenOne<T>([]);
    KeepsExactly(getter, "", records, k, keep);
  }

  lemma WrappedWalk<T(!new)>(walker: Pager<Token, T>, getter: Pager<string, T>, keep: T -> bool,
                             records: seq<T>, k: nat)
    requires Wraps(walker, getter, keep) && Delivers(getter, "", records, k)
    ensures forall i :: 0 < i <= k ==> TokenAt(walker, NoToken, i) == OnPage(TokenAt(getter, "", i - 1))
    ensures Delivers(walker, NoToken, Filter(keep, records), 1 + k)
  {
    WrappedTokensDiffer(walker, getter, keep, records, k);
    WrappedRecords(walker, getter, keep, records, k);
  }

  lemma OneCallWalk(p: ProjectResource, workbooks: WorkbooksByName)
    requires !WalksWorkbooks(p)
    ensures Delivers(Walker(p, workbooks), NoToken, [], 1)
  {
    WalkerFirst(p, workbooks);
    PagesMore(Walker(p, workbooks), NoToken, 0);
    assert TokenAt(Walker(p, workbooks), NoToken, 1) == Walker(p, workbooks).next(NoToken);
  }

  /** The workbooks a walk is meant to emit for. */
  function Inheriting(p: ProjectResource, records: seq<WorkbookRecord>): seq<WorkbookRecord> {
    if WalksWorkbooks(p) then Belonging(p.id, records) else []
  }

  /** The number of calls a walk takes when the filtered workbooks come in k pages. */
  function CallCount(p: ProjectResource, k: nat): nat {
    if WalksWorkbooks(p) then 1 + k else 1
  }

  /** Which projects are walked, and which are skipped. */
  lemma WalksByText(p: ProjectResource, k: nat)
    ensures CallCount(p, k) == if LocksWorkbooks(p.contentPermissions, p.displayName) then 1 + k else 1
    ensures IsSkipped(p) <==> IsLocking(p.contentPermissions) && !IsFindable(p.displayName)
  {
    LockTests(p.contentPermissions, p.displayName);
  }

  /**
   The walk of an enumeration that delivers `covered` in the given number of calls, all but the first in the
   workbook phase.
   */
  ghost predicate IsProjectWalk(walker: Pager<Token, WorkbookRecord>, covered: seq<WorkbookRecord>, calls: nat) {
    && Delivers(walker, NoToken, covered, calls)
    && forall i :: 0 < i < calls ==> Phase(TokenAt(walker, NoToken, i)) == "workbook"
  }

  /**
   Whatever the server, if the client's name-filtered walk, when it is made, delivers `records` in k
   requests, driving Grants from the empty token takes 1 + k calls, the first for the project's own grants,
   and covers the delivered workbooks that are in the project, each once and in order. A project that is
   not locked, or whose name the filter rejects, takes the one call.
   */
  lemma ProjectWalk(p: ProjectResource, workbooks: WorkbooksByName, records: seq<WorkbookRecord>, k: nat)
    requires WalksWorkbooks(p) ==> Delivers(workbooks(p.displayName), "", records, k)
    ensures IsProjectWalk(Walker(p, workbooks), Inheriting(p, records), CallCount(p, k))
  {
    if WalksWorkbooks(p) {
      WalkerWraps(p, workbooks);
      WrappedWalk(Walker(p, workbooks), workbooks(p.displayName), InProject(p.id), records, k);
    } else {
      OneCallWalk(p, workbooks);
    }
  }

  /**
   The filtered walk covers the same workbooks as scanning the whole site and keeping the project's
   own, exactly when each of those workbooks carries the project's name in its project reference,
   however many other projects share the name.
   */
  lemma FilteredWalkIsFullScan(p: ProjectResource, listing: seq<WorkbookRecord>)
    ensures Belonging(p.id, Matching(p.displayName, listing)) == Belonging(p.id, listing)
      <==> forall w :: w in listing && InProject(p.id)(w) ==> InProjectNamed(p.displayName)(w)
  {
    FilterTwice(InProjectNamed(p.displayName), InProject(p.id), listing);
  }

  /** A server that holds `listing` and pages it by `pageSize`. */
  function SteadyWorkbooks(listing: seq<WorkbookRecord>, pageSize: nat): WorkbooksByName {
    name => Steady(Matching(name, listing), pageSize)
  }

  /**
   Against a steady server: 1 + max(1, ceil(N/s)) calls for N name matches at page size s, covering the full
   scan.
   */
  lemma SteadyProjectWalk(p: ProjectResource, listing: seq<WorkbookRecord>, pageSize: nat)
    requires WalksWorkbooks(p) && 1 <= pageSize && |Matching(p.displayName, listing)| + pageSize <= MAX_INT64
    requires forall w :: w in listing && InProject(p.id)(w) ==> InProjectNamed(p.displayName)(w)
    ensures Delivers(Walker(p, SteadyWorkbooks(listing, pageSize)), NoToken, Belonging(p.id, listing),
                     1 + Requests(|Matching(p.displayName, listing)|, pageSize))
  {
    var records := Matching(p.displayName, listing);
    FilteredWalkIsFullScan(p, listing);
    ProductsBounded(records, pageSize);
    ProjectWalk(p, SteadyWorkbooks(listing, pageSize), records, Requests(|records|, pageSize));
  }

  // ------------------------------------------------------------------- driving the walk

  function GetterOf(p: ProjectResource, replies: Replies): Pager<string, WorkbookRecord> {
    replies.workbooks(p.displayName)
  }

  /** The workbooks on the first n pages the getter returns. */
  function Received(getter: Pager<string, WorkbookRecord>, n: nat): seq<WorkbookRecord> {
    Flatten(Pages(getter, "", n))
  }

  /** The token of the call that asks for page n, or none when page n - 1 was the last. */
  function TokenAfter(getter: Pager<string, WorkbookRecord>, n: nat): Token {
    var pageToken := TokenAt(getter, "", n);
    if n > 0 && pageToken == "" then NoToken else OnPage(pageToken)
  }

  /** A walk after n answered workbook calls, which emitted `rest`; `token` is what it goes on with. */
  ghost predicate Driven(p: ProjectResource, t: SlugTables, getter: Pager<string, WorkbookRecord>,
                         n: nat, token: Token, rest: seq<Grant>)
  {
    token == TokenAfter(getter, n) && WorkbookPhase(p, t, Belonging(p.id, Received(getter, n)), rest)
  }

  lemma DrivenFirst(p: ProjectResource, t: SlugTables, getter: Pager<string, WorkbookRecord>)
    ensures Driven(p, t, getter, 0, OnPage(""), [])
  {
    NoWorkbooks(p, t);
  }

  lemma ReceivedMore(p: ProjectResource, getter: Pager<string, WorkbookRecord>, n: nat)
    ensures Belonging(p.id, Received(getter, n + 1))
      == Belonging(p.id, Received(getter, n)) + Belonging(p.id, getter.page(TokenAt(getter, "", n)))
  {
    PagesMore(getter, "", n);
    FilterConcat(InProject(p.id), Received(getter, n), getter.page(TokenAt(getter, "", n)));
  }

  lemma DrivenMore(p: ProjectResource, t: SlugTables, getter: Pager<string, WorkbookRecord>,
                   n: nat, rest: seq<Grant>, page: seq<Grant>)
    requires WorkbookPhase(p, t, Belonging(p.id, Received(getter, n)), rest)
    requires WorkbookPhase(p, t, Belonging(p.id, getter.page(TokenAt(getter, "", n))), page)
    ensures Driven(p, t, getter, n + 1, TokenAfter(getter, n + 1), rest + page)
  {
    ReceivedMore(p, getter, n);
    PhasesConcat(p, t, Belonging(p.id, Received(getter, n)), rest,
      Belonging(p.id, getter.page(TokenAt(getter, "", n))), page);
  }

  /** What driving the builder gives: the project's own grants once, then a block for each inheriting workbook. */
  ghost predicate IsWalk(p: ProjectResource, t: SlugTables, replies: Replies, records: seq<WorkbookRecord>,
                         emitted: seq<Grant>)
    requires replies.access.Some? && replies.defaults.Some?
  {
    exists own, rest ::
      && FirstPhase(p, t, replies.access.value, replies.defaults.value, own)
      && WorkbookPhase(p, t, Inheriting(p, records), rest)
      && emitted == own + rest
  }

  /** One call after the first. */
  method DriveOnce(builder: ProjectBuilder, p: ProjectResource, t: SlugTables, replies: Replies,
                   ghost n: nat, token: Token, ghost rest: seq<Grant>)
    returns (reply: Option<(seq<Grant>, Token)>)
    requires Driven(p, t, GetterOf(p, replies), n, token, rest) && token != NoToken
    modifies builder.unfilterableProjects
    ensures reply.None? <==> replies.fails(TokenAt(GetterOf(p, replies), "", n))
    ensures reply.Some? ==> Driven(p, t, GetterOf(p, replies), n + 1, reply.value.1, rest + reply.value.0)
    ensures builder.unfilterableProjects.n == old(builder.unfilterableProjects.n)
  {
    reply := builder.Grants(p, t, replies, Some(token));
    if reply.Some? {
      assert reply.value.1 == TokenAfter(GetterOf(p, replies), n + 1);
      DrivenMore(p, t, GetterOf(p, replies), n, rest, reply.value.0);
    }
  }

  /** Where a walk is in the run of pages that ends after j answered calls. */
  lemma DrivenNext(getter: Pager<string, WorkbookRecord>, fails: string -> bool, j: nat, complete: bool, n: nat)
    requires EndsAfter(getter, "", fails, j, complete) && n <= j
    ensures TokenAfter(getter, n) == NoToken <==> n == j && complete
    ensures TokenAfter(getter, n) != NoToken ==> (fails(TokenAt(getter, "", n)) <==> n == j)
  {
  }

  /** The calls after the first, each with the token the one before returned, until one fails or returns none. */
  method DriveOn(builder: ProjectBuilder, p: ProjectResource, t: SlugTables, replies: Replies,
                 ghost j: nat, ghost complete: bool)
    returns (rvs: seq<seq<Grant>>, ok: bool)
    requires EndsAfter(GetterOf(p, replies), "", replies.fails, j, complete)
    modifies builder.unfilterableProjects
    ensures ok == complete && |rvs| == j
    ensures WorkbookPhase(p, t, Belonging(p.id, Received(GetterOf(p, replies), j)), Flatten(rvs))
    ensures builder.unfilterableProjects.n == old(builder.unfilterableProjects.n)
  {
    rvs := [];
    var token := OnPage("");
    ghost var n, rest: seq<Grant> := 0, [];
    DrivenFirst(p, t, GetterOf(p, replies));
    while token != NoToken
      invariant n == |rvs| <= j && rest == Flatten(rvs) && Driven(p, t, GetterOf(p, replies), n, token, rest)
      invariant builder.unfilterableProjects.n == old(builder.unfilterableProjects.n)
      decreases j - n
    {
      DrivenNext(GetterOf(p, replies), replies.fails, j, complete, n);
      var reply := DriveOnce(builder, p, t, replies, n, token, rest);
      if reply.None? {
        return rvs, false;
      }
      var (page, following) := reply.value;
      FlattenMore(rvs, page);
      rvs, token := rvs + [page], following;
      n, rest := n + 1, rest + page;
    }
    DrivenNext(GetterOf(p, replies), replies.fails, j, complete, n);
    ok := true;
  }

  /**
   The walk itself: Grants is called with the empty token, and then with every token it returns, until that
   is empty again or a call fails. The client's filtered walk, if one is made, ends after j answered requests,
   `complete` or by failing. The result is what the calls emitted, even when a later one failed: the
   first-phase grants once, and after them one block of inherited grants for each workbook of the project
   on the answered pages, each once and in the order the server lists them. The project is counted as
   skipped, once, exactly when it is locked but unfilterable.
   */
  method Drive(builder: ProjectBuilder, p: ProjectResource, t: SlugTables, replies: Replies,
               ghost j: nat, ghost complete: bool)
    returns (rvs: seq<seq<Grant>>, ok: bool)
    requires WalksWorkbooks(p) ==> EndsAfter(GetterOf(p, replies), "", replies.fails, j, complete)
    modifies builder.unfilterableProjects
    ensures ok <==> replies.access.Some? && replies.defaults.Some? && (WalksWorkbooks(p) ==> complete)
    ensures if replies.access.Some? && replies.defaults.Some?
      then IsWalk(p, t, replies, Received(GetterOf(p, replies), j), Flatten(rvs))
        && |rvs| == if LocksWorkbooks(p.contentPermissions, p.displayName) then 1 + j else 1
      else rvs == []
    ensures builder.unfilterableProjects.n ==
      if replies.access.Some? && replies.defaults.Some?
         && IsLocking(p.contentPermissions) && !IsFindable(p.displayName)
      then Incremented(old(builder.unfilterableProjects.n)) else old(builder.unfilterableProjects.n)
  {
    WalksByText(p, j);
    var first := builder.Grants(p, t, replies, Some(NoToken));
    if first.None? {
      return [], false;
    }
    var (own, token) := first.value;
    FlattenOne(own);
    if token == NoToken {
      NoWorkbooks(p, t);
      assert own == own + [];
      return [own], true;
    }
    var pages;
    pages, ok := DriveOn(builder, p, t, replies, j, complete);
    FlattenConcat([own], pages);
    rvs := [own] + pages;
  }
}
