# baton-tableau: sync, inheritance, paging and provisioning

A Dafny model of the Tableau connector, with proofs of what its parts promise together. The connector
never computes effective access. It emits direct grants, plus proxy grants marked `GrantExpandable`
from which the Baton SDK derives the rest; it pages through a REST API with tokens it computes itself;
and it translates display slugs back to API names when it provisions. The model states each of these
against an explicit Tableau site and proves:

- **Inheritance.** Expanding everything a sync emits to a least fixpoint gives each user and group
  exactly the intended access, for every site and every project hierarchy
  (`Inheritance.ExpansionIsInheritedAccess`), and per capability (`ProjectHolders`, `WorkbookHolders`,
  `ViewHolders`, `OwnProjectHolders`); the connector's own tables meet the one condition
  (`Capabilities.SourceTablesCoherent`). `WholeSync.SyncExpandsToAccess` states the whole way: from the
  server's answers, page by page, through the Grants methods of all six builders that emit grants, to
  effective access, site roles and licences.
- **Grant and Revoke.** After a user's or a group's permission is granted, in any of the four stores, an
  account holds a capability if and only if it held it before or the rule reaches the resource and is for the
  account or its group (`GrantEffect.GrantDirect`). After it is revoked, an account holds a capability if and
  only if a source other than that rule remains on its inheritance path (`RevokeEffect.RevokeDirect`), nobody
  else is affected (`RevokeSparesOthers`), and a permission held in any other way than by a rule of one's own
  answers "already revoked" and changes nothing (`RevokeOfDerived`, `RevokeThroughGroup`). Joining a group
  brings exactly what the group holds, and leaving it takes exactly what has no other source
  (`MembershipEffect.GrantMembership`, `RevokeMembership`).
- **Paging.** Following tokens is exact under a condition that is both necessary and sufficient, on a steady
  server (`Paging.WalkIsExact`) and on one whose page sizes and totals change with every response
  (`ChangingWalkIsExact`, with the bounds `ChangingWalkStops` and `FixedSizeWalkStops`). The two-phase
  project walk built on it is driven to its end or its first failure (`ProjectSync.Drive`) and refines a plain full scan
  (`FilteredWalkIsFullScan`, `SteadyProjectWalk`).
- **Provisioning.** Over any run of Grant and Revoke calls the next sync reports the initial direct
  grants with the successful calls folded in (`ProvisioningRuns.RunReports`), also when site-role and
  licence calls are mixed in (`MixedRuns.AnyRunReports`); slugs round-trip (`DeclaredRoundTrip`), Revoke
  undoes Grant (`Protection.OppositeUndoes`), the two permission stores of a project do not interfere
  (`Protection.StoresIndependent`), and inherited view permissions and the All Users group stay untouched
  over a run of all kinds of calls if and only if none slips past the connector's checks
  (`ProtectedRuns.ProtectedViewRun`, `AllUsersRun`).
- **Answers.** Every reply of Grant and Revoke is characterised: which calls have a request to make, what done,
  "already exists", "already revoked" and an error mean, and what is stored afterwards
  (`Provisioning.AddressedExactly`, `PermissionAnswers`, `MembershipAnswers`, `RoleProvisioning.RoleCallSucceeds`).
- **Roles and licences.** Site roles partition into tiers, every user with a known role gets exactly one
  licence grant and one site-role grant, server-side filtering agrees with the client-side check exactly
  when the filter lets the tier's users pass, consumed seats are grants less unfilterable users, and the
  last successful call decides a user's role and tier.
- **Concurrency.** Under every schedule of concurrent callers the atomic counter of the sampled warning hands
  out each count once, so the number of warnings has a closed form (`Logging.InterleavedLogs`).

## How it is organised

| file | content |
|---|---|
| `Text`, `Sequences`, `Wrappers` | splitting, decimal conversion, trimming, filters and concatenations of pages |
| `Capabilities` | the slug tables, forward and reverse |
| `Grants` | entitlement ids, grants, the two emitters all builders share |
| `Expander` | the SDK's expansion as a relation, and that it is a least fixpoint |
| `Tableau`, `Server` | the site and its texts, and the server that answers requests |
| `InheritedAccess`, `Inheritance` | emitted grants, intended access, and that they agree |
| `Paging`, `Bag`, `ProjectSync`, `Builders` | tokens, the pagination bag, the builders' `Grants` methods |
| `WholeSync` | all builders together, from the server's answers to effective access |
| `Provisioning`, `ProvisioningRuns` | `Grant` and `Revoke`, whole runs |
| `Protection` | what a call leaves alone |
| `GrantEffect`, `RevokeEffect`, `MembershipEffect` | the effect of a call on the access everybody ends up with |
| `Roles`, `Seats`, `RoleProvisioning` | site roles, licence tiers, seats, their provisioning |
| `MixedRuns`, `ProtectedRuns` | runs of permission, membership, site-role and licence calls, and what they leave alone throughout |
| `Idp`, `Logging` | identity provider selection, the sampled warning counter |

Code that changes things step by step is a method with loops, or a class (`PaginationBag`,
`ProjectBuilder`, `SampledWarn`, `TableauServer`), proved against a specification function; pure code
is a function. What a specification function means is stated apart from it, over the texts and numbers the
server and the caller send (`ProjectSync.WalksByText`, `Provisioning.PermissionAnswers`, `Capabilities.ShownSlugs`,
`Seats.SeatsShown`, `RoleProvisioning.RoleCallSucceeds`, `Idp.UnnamedMeans` and others). Where Go ranges over a map, the model picks elements in an arbitrary order, so every
result holds for all orders; where a result depends on the order, the outcomes are shown to be exactly
those of the iteration orders (`Capabilities.ReverseIsSomeOrder`, `RoleProvisioning.FindsIsSomeOrder`).

## What is assumed of the environment

- **The SDK.** An edge is added for a reference whose entitlement was declared, and dropped otherwise;
  a shallow edge copies only direct grants of its source, a deep one all of them
  (`vendor/github.com/conductorone/baton-sdk/pkg/sync/syncer.go:1376-1431`,
  `vendor/github.com/conductorone/baton-sdk/pkg/sync/expand/topological_merge.go:892`). Entitlement ids
  are printed `type:id:slug`. The SDK itself is not verified.
- **The server.** Answers to the requests the connector makes, and only those, list rules, members, workbooks
  and users faithfully, in any order and grouping (`WholeSync.AnswersFor`). Nothing is assumed of a filter on a
  role the server rejects, nor of a project name that is not filter-safe; neither is ever sent
  (`WholeSync.SentIsUnderstood`, `Roles.FiltersAreUnderstood`). In the paging results page p is the p-th slice at the server's page size; a
  rule that is present answers 409 to an addition, one that is absent 404 to a deletion; any other
  error changes nothing. A permission rule is keyed by grantee, capability and mode.
- **Identifiers.** Resource ids carry no colon (Tableau uses GUIDs), and only users and groups hold
  rules (`Site.WellFormed`).
- **Callers.** Nothing is assumed of provisioning calls, with one exception that is named where it is used:
  `ProtectedRuns.Faithful` says that the resource a call carries has the parent and display name it was listed
  with. Only `ProtectedRuns.ProtectedUnchanged` needs it; `ProtectedViewRun` and `AllUsersRun` say exactly what
  happens without it.
- Request failures, outages and replies are parameters, so every statement covers them.

## Where the code differs from its documentation, or from what one may expect

- The comment at `pkg/connector/helpers.go:132` says a nil slug map falls back to the full table. The
  code skips every capability the given map lacks (line 144); the model follows the code.
- A nested project inherits its parent's default workbook permissions whether or not anything is
  locked (`pkg/connector/project.go:171`); only workbooks need a locked project.
- A server administrator can be added to a group successfully and is not reported as a member while the user
  holds that role (`ProvisioningRuns.DeclaredRoundTrip` lists this and the other exact exceptions;
  `MixedRuns.AnyRunReports` says when the membership comes to light).
- `currentPage*pageSize` is computed in 64 bits. `Paging.WalkIsExact` and `Paging.ChangingWalkIsExact` state
  the exact condition under which a walk stops, and `Paging.WrappedProductOutrunsTotal` a server whose
  reports make the client ask for a third page although it has two records.
- The check that refuses calls on inherited view permissions is skipped for a resource without a parent
  (`pkg/connector/view.go:125`, `pkg/connector/view.go:139`), and All Users is recognised by the display
  name the call carries (`pkg/connector/group.go:25`). `Protection.ParentlessViewCallSlipsPast` and
  `Protection.RenamedAllUsersCallSlipsPast` are inputs at which a protected view or group changes;
  `ProtectedViewStep` and `AllUsersStep` give the exact condition, and `ProtectedRuns` does so for whole runs.
- A locked project whose name the filter rejects emits no inherited workbook grants, and each walk over
  it counts one occurrence of a sampled warning (`ProjectSync.Drive`); in the intended
  access `InheritedAccess.LockingProject` therefore asks for a filter-safe name.
- A workbook whose project reference carries another name than the project itself is lost by the
  name filter; `ProjectSync.FilteredWalkIsFullScan` makes this an if and only if.
- A pagination token with states and a null current state is read without an error
  (`vendor/github.com/conductorone/baton-sdk/pkg/pagination/pagination.go:138-144`), and writing such a bag
  loses the states; `Bag.PopUndoesPush` fails on exactly these bags.
- The named identity provider search covers every enabled configuration, not only SAML and OPENID
  (`pkg/client/client.go:677-696`), and depends on the listing order exactly when two matches have
  different ids (`Idp.NamedOrderIndependent`).

## Model

| member | source | states |
|---|---|---|
| Text.JoinSplit | pkg/connector/helpers.go:103 | splitting cuts at every colon and loses nothing: the parts are colon-free and join to the text |
| Text.SplitJoin | pkg/connector/helpers.go:103 | and no other colon-free parts join to that text |
| Text.SplitConcat | pkg/connector/helpers.go:102-108 | splitting a text joined at a colon gives the parts of both sides, for any texts |
| Text.AtoiItoa | pkg/client/helpers.go:46-73 | reading back a printed number gives that number for every 64-bit value and an error for every other |
| Text.AtoiReads | pkg/client/helpers.go:61-68 | a text reads as a number exactly if it is a decimal numeral, signed or not, of a 64-bit value; every other text is an error |
| Text.PrintedDigits | pkg/client/helpers.go:72 | numbers are printed in decimal, digit by digit |
| Text.WrapIsCongruent | pkg/client/helpers.go:69 | the 64-bit product is the one 64-bit value that differs from the exact product by a multiple of 2^64 |
| Text.TrimPadded | pkg/connector/license.go:59 | trimming removes exactly the padding, on any mix of white space on both sides |
| Text.AsciiSpaces | pkg/connector/license.go:59 | the ASCII white space that is trimmed |
| Capabilities.PickCapabilities | pkg/connector/helpers.go:65-71 | the loop yields the table restricted to the requested keys, an unknown key reading as the zero value |
| Capabilities.PickProjectCapabilities | pkg/connector/helpers.go:75-83 | the picked table with the project overrides on top, for any keys, repeated ones included |
| Capabilities.PrefixTable | pkg/connector/project.go:21-27 | whatever the map order, every capability keeps its slug behind the prefix |
| Capabilities.BuildReverse | pkg/connector/helpers.go:88-98 | the table some order of both loops leaves; for injective maps it is the one inverse with overrides winning, whatever the order |
| Capabilities.WriteReverse | pkg/connector/project.go:31-37 | one reverse-table loop keeps, per slug, one capability shown under it, on top of whatever table it starts from |
| Capabilities.ReverseIsSomeOrder | pkg/connector/project.go:31-37 | the tables the iteration orders of the map leave are exactly those in which every slug keeps one of the capabilities shown under it |
| Capabilities.ReverseOrderIndependent | pkg/connector/helpers.go:88-98 | every iteration order leaves the same reverse table if and only if no two capabilities share a slug |
| Capabilities.RoundTripWithOverrides | pkg/connector/helpers.go:90-96 | overrides always translate back; a plain capability does if and only if no override of another capability reuses its slug |
| Capabilities.InitTables | pkg/connector/project.go:16-37 | the initialisers, run one after the other with their loops, build the six tables, whatever the map orders |
| Capabilities.ShownSlugs | pkg/connector/helpers.go:65-83 | which slug each capability is shown under: on a project the override where there is one and else the general slug, on workbooks and views the general slug, among the defaults that slug behind the prefix; and which capabilities each table knows |
| Capabilities.ReadSlugs | pkg/connector/helpers.go:88-98 | a slug stands for the override shown under it, and else for the capability of that general slug; a prefixed slug for its workbook capability; no other slug is known |
| Capabilities.BuildTablesCoherent | pkg/connector/project.go:16-37 | arbitrary injective tables translate back in both stores, and prefixed slugs miss the generic table, given prefix disjointness and no reused slug |
| Capabilities.SourceTablesCoherent | pkg/connector/helpers.go:41-98 | the connector's own tables satisfy all of that, so every statement below applies to them |
| Capabilities.ProjectSlugs | pkg/connector/project.go:16 | a project has exactly the permissions "View" for Read and "Publish" for Write |
| Capabilities.SourceKeys | pkg/connector/view.go:13-25 | all sixteen capabilities apply to workbooks, and all but five of them to views |
| Capabilities.SourceSlugs | pkg/connector/project.go:21-27 | workbooks and views show the general slugs, and a project shows each behind "Workbook / " |
| Grants.ParseInvertsPrint | pkg/connector/helpers.go:102-108 | printing an entitlement id and parsing it gives the slug if no component has a colon, and an error in every other case |
| Grants.ParseReads | pkg/connector/helpers.go:102-108 | any id, printed or not, gives a slug exactly if it is three colon-free parts, the last of them that slug |
| Grants.IdInjective | pkg/connector/helpers.go:165 | an id equal to that of a colon-free entitlement belongs to the same entitlement |
| Grants.GrantsFromCapabilities | pkg/connector/helpers.go:136-173 | the nested loops emit, in order, one grant per Allow capability the table knows, for the user and for the group, the latter expandable to its direct members |
| Grants.OneCapability | pkg/connector/helpers.go:144-170 | of one entry with one capability: nothing unless the mode is "Allow" and the table knows it; then a plain grant to the user, and one to the group that refers shallowly to "group:id:member" |
| Grants.SplitEntry | pkg/connector/helpers.go:140-143 | a grantee may be listed in one entry or several with the same grants in the same order |
| Grants.GrantsOfConcat | pkg/connector/helpers.go:140-143 | the grants of an answer are those of its parts, one after the other; with the two rows above this determines the emitted list for every answer |
| Grants.GrantsAreRules | pkg/connector/helpers.go:136-173 | however the answer groups its rules, the emitted grants are exactly those of the Allow rules the table knows |
| Grants.InheritedGrants | pkg/connector/helpers.go:182-204 | one proxy grant per capability both tables know, each once, in an order the map leaves open |
| Grants.InheritedMembers | pkg/connector/helpers.go:182-204 | the emitted set does not depend on that order |
| Grants.ProxiesInFull | pkg/connector/helpers.go:189-201 | each proxy grant in full: the parent as principal, not immutable, and a deep reference to "type:id:slug" of the parent |
| Expander.ReachesIsLeast | vendor/github.com/conductorone/baton-sdk/pkg/sync/syncer.go:1376-1431 | what expansion derives lies in every relation closed under the edges |
| Expander.ExpandedIsLeastFixpoint | vendor/github.com/conductorone/baton-sdk/pkg/sync/syncer.go:1376-1431 | expansion is itself closed under shallow and deep edges, and the least such relation |
| Expander.OneReference | vendor/github.com/conductorone/baton-sdk/pkg/sync/syncer.go:1376-1431 | one reference carries the principals of the entitlement it names if and only if that entitlement is declared |
| Expander.TwoReferences | vendor/github.com/conductorone/baton-sdk/pkg/sync/expand/topological_merge.go:892 | two references in a row carry them on if and only if the second is deep |
| Expander.ExpandedWithLeaves | vendor/github.com/conductorone/baton-sdk/pkg/sync/syncer.go:1376-1431 | grants that nothing refers to add themselves to the expansion and nothing else |
| Inheritance.NoDanglingReference | pkg/connector/helpers.go:157-201 | every emitted reference names one entitlement of its own principal, declared if and only if that principal is synced, and no other declared entitlement has that id |
| Inheritance.ExpandedIsAccess | pkg/connector/helpers.go:136-204 | soundness: whatever user or group expansion derives is intended |
| Inheritance.AccessIsExpanded | pkg/connector/helpers.go:136-204 | completeness: expansion reaches every intended holder |
| Inheritance.ExpansionIsInheritedAccess | pkg/connector/project.go:137-223 | the expanded sync is the recursive access specification, for every site, hierarchy, entitlement, user and group |
| Inheritance.ProjectAccessRecursive | pkg/connector/project.go:169-178 | access over the ancestor chain is the project's own sources or its parent's access |
| Inheritance.ProjectHolders | pkg/connector/project.go:163-178 | a "Workbook / ..." permission is held by whoever the ancestor chain sources |
| Inheritance.OwnProjectHolders | pkg/connector/project.go:153-156 | View and Publish on a project come from the project's own rules and groups only |
| Inheritance.WorkbookHolders | pkg/connector/project.go:201-223 | a workbook's permission comes from its own rules or from its locked, filter-safe project and that project's ancestors |
| Inheritance.WorkbookHoldersByText | pkg/connector/project.go:41-48 | the same over the texts of the site: the workbook's project exists under the name the workbook gives, is set to LockedToProject or LockedToProjectWithoutNested, and its name is non-empty without "," and "&" |
| Inheritance.ViewHolders | pkg/connector/view.go:92-122 | a view's permission is its workbook's under showTabs and its own otherwise |
| Inheritance.PersonalSpaceIsNotSynced | README.md:70 | a workbook has entitlements if and only if it is in a project, and a view if and only if its workbook is |
| Inheritance.UndeclaredIsUnheld | README.md:70 | and nobody holds anything on a resource that is not synced |
| Inheritance.ServerAdministratorsAreSkipped | README.md:71 | after sync and expansion exactly the members other than server administrators hold a group's membership |
| Paging.ParsePrinted | pkg/client/helpers.go:47-56 | a printed page number is read back as it is if it lies between 1 and 2^63-1; any other number, and any unreadable token, asks for page 1 |
| Paging.NextOfReport | pkg/client/helpers.go:60-73 | for a readable report with a positive size, and any total, the next token is the next page unless the 64-bit product reaches the total |
| Paging.BadReportEnds | pkg/client/helpers.go:61-68 | a report with an unreadable number or a page size that is not positive ends the walk |
| Paging.KeepsExactly | pkg/connector/license.go:222-235 | skipping records page by page equals filtering the whole listing once |
| Paging.EmitsExactly | pkg/connector/license.go:222-235 | emitting per kept record, page by page, equals doing so over the whole listing once |
| Paging.WalkIsExact | pkg/client/client.go:208-225 | for any page size the max(1, ceil(N/s)) pages are the records in order, each once; the walk ends there without repeating a token if and only if the last product fits 64 bits |
| Paging.ProductsBounded | pkg/client/helpers.go:69 | no product on a walk exceeds N + s; if N + s fits 64 bits the walk is exact |
| Paging.ChangingWalkIsExact | pkg/client/helpers.go:60-73 | for any sizes and totals reported, paging stops within n requests if and only if one of the first n responses passes the guard of line 69; until then request i asks for page i + 1 |
| Paging.ChangingWalkStops | pkg/client/helpers.go:60-73 | with totals of at most M paging stops within max(1, M) requests, unless it gets to the last of them and that product does not fit 64 bits |
| Paging.FixedSizeWalkStops | pkg/client/helpers.go:60-73 | with a fixed size s, changing totals of at most M and M + s within 64 bits, every product is at most M + s and paging stops within max(1, ceil(M/s)) requests |
| Paging.WrappedProductOutrunsTotal | pkg/client/helpers.go:69 | a product beyond 64 bits breaks that bound: two records, a third request |
| Bag.PaginationBag.Unmarshal | vendor/github.com/conductorone/baton-sdk/pkg/pagination/pagination.go:129-146 | the bag holds exactly what the token encodes, states without a current one included, the empty token giving an empty bag; a text that encodes none is an error and leaves the bag alone |
| Bag.PaginationBag.Marshal | vendor/github.com/conductorone/baton-sdk/pkg/pagination/pagination.go:149-163 | the token is the bag's whole content; without a current state it is empty, whatever states lie beneath |
| Bag.PaginationBag.Push | vendor/github.com/conductorone/baton-sdk/pkg/pagination/pagination.go:41-49 | the pushed state becomes current and the former one is kept beneath |
| Bag.PaginationBag.Pop | vendor/github.com/conductorone/baton-sdk/pkg/pagination/pagination.go:51-66 | returns the current state and uncovers the one beneath |
| Bag.PaginationBag.Next | vendor/github.com/conductorone/baton-sdk/pkg/pagination/pagination.go:79-92 | replaces the current page token or drops the state on an empty one; an empty bag is an error and stays |
| Bag.PopUndoesPush | vendor/github.com/conductorone/baton-sdk/pkg/pagination/pagination.go:41-66 | popping undoes pushing on a bag if and only if it does not have states without a current one |
| Bag.NextOnPushed | vendor/github.com/conductorone/baton-sdk/pkg/pagination/pagination.go:41-92 | on a pushed state a page token replaces the state's own, and an empty one uncovers what was beneath |
| Bag.WrittenIsRead | vendor/github.com/conductorone/baton-sdk/pkg/pagination/pagination.go:129-163 | a bag is read back as it was written if and only if it does not have states without a current one |
| Logging.LoggedCountIs | pkg/connector/logging.go:24-31 | of the first n occurrences [n>=1] + [n>=10] + [n>=100] + n/1000 are logged |
| Logging.TicketsAreUnique | pkg/connector/logging.go:16 | under every schedule of increments and decisions, with fewer than 2^64 increments, each count from 1 to n is handed out exactly once |
| Logging.InterleavedLogs | pkg/connector/logging.go:15-31 | once all concurrent calls have returned, the number logged is that closed form, for every schedule |
| Logging.Interleave | pkg/connector/logging.go:15-31 | the shared counter, driven through any schedule event by event, logs exactly that many warnings |
| ProjectSync.InheritingGrants | pkg/connector/project.go:209-223 | one block of proxy grants for each workbook of the page that is in the project, in page order |
| ProjectSync.ProjectBuilder.OwnGrants | pkg/connector/project.go:146-199 | the first phase: both permission stores, the parent's proxies, the pushed workbook state exactly when locked and filterable, the counted warning exactly when locked and not |
| ProjectSync.ProjectBuilder.PageGrants | pkg/connector/project.go:201-232 | the second phase: the page the token asks for, and the bag advanced by the client's next token |
| ProjectSync.ProjectBuilder.Grants | pkg/connector/project.go:137-236 | every call, on any token and on a text that is none: when it fails, what it emits, which token it returns, what it counts |
| ProjectSync.ProjectWalk | pkg/connector/project.go:137-236 | on any server whose filtered walk delivers k pages, driving the builder takes 1 + k calls, repeats no token, and covers the project's workbooks once each in order; one call if unlocked or unfilterable |
| ProjectSync.WalksByText | pkg/connector/project.go:41-48 | a walk goes on to the workbooks if and only if the project is set to LockedToProject or LockedToProjectWithoutNested and its name is non-empty without "," and "&"; it is counted as skipped if and only if only the name is at fault |
| Tableau.LockTests | pkg/client/helpers.go:104-108 | these are the connector's two tests |
| ProjectSync.OnlyProjectParents | pkg/connector/project.go:171 | a parent that is not a project is not inherited from |
| ProjectSync.OtherPhaseEnds | pkg/connector/project.go:235 | a token of any other phase makes no request, covers nothing and ends the walk |
| ProjectSync.FilteredWalkIsFullScan | pkg/connector/project.go:204-213 | the name filter plus the id check equals a full scan by id if and only if each workbook of the project carries its name |
| ProjectSync.Drive | pkg/connector/project.go:137-236 | calling the builder with every token it returns ends after 1 + j calls, or one, where j workbook requests are answered before the walk ends or fails; it succeeds exactly when no request it makes fails; either way it has emitted the first-phase grants once and then one block per workbook of the project on the answered pages, each once, in server order; and it counts one skipped project exactly when locked and unfilterable |
| ProjectSync.SteadyProjectWalk | pkg/connector/project.go:137-236 | for N name matches at page size s: 1 + max(1, ceil(N/s)) calls, covering the full scan |
| Builders.WorkbookGrants | pkg/connector/workbook.go:97-110 | a workbook's own rules, or the request's error |
| Builders.ListedWorkbooks | pkg/connector/workbook.go:66-86 | the workbooks of a page that are in some project, in order |
| Builders.ListedAreSynced | pkg/connector/workbook.go:66-86 | over all pages these are exactly the workbooks the access theorems call synced |
| Builders.ViewGrants | pkg/connector/view.go:92-122 | under showTabs exactly the inherited grants and no own rule; otherwise the own rules; an error if a needed request fails |
| Builders.ViewOutcomes | pkg/connector/view.go:92-122 | an error if the workbook cannot be fetched, the workbook's proxies and no own rule under showTabs, and the view's own rules otherwise |
| Builders.GroupGrants | pkg/connector/group.go:108-133 | one member grant per user who is not a server administrator, in order, immutable if and only if the group is named "All Users" |
| Builders.MemberGrantsAreEmitted | pkg/connector/group.go:97-136 | these are the membership grants the expansion theorem uses |
| Builders.GroupWalk | pkg/connector/group.go:97-136 | over all pages the builder emits one grant for each such member, in order |
| Builders.FirstPhaseIsEmitted | pkg/connector/project.go:146-199 | the first phase emits exactly the project's rules and its parent's proxies, whatever order server and map choose |
| Builders.PhaseMembers | pkg/connector/project.go:209-223 | the second phase emits exactly what each of its workbooks inherits from the project |
| Builders.WorkbookPhaseIsEmitted | pkg/connector/project.go:201-232 | over all projects the second phases emit on a workbook exactly what it inherits from its one locking project |
| WholeSync.PermissionBuildersEmitSync | pkg/connector/project.go:137-236 | run on faithful answers to the requests they make, with any page sizes, the project, workbook, view and group builders together emit exactly the grants the expansion theorem is about |
| WholeSync.RoleGrantsAreAccess | pkg/connector/site.go:108-136 | the site-role and licence grants of a site are those of its users' roles |
| WholeSync.RolesAreLeaves | pkg/connector/license.go:198-238 | nothing refers to a site-role or licence entitlement, and their grants refer to nothing |
| WholeSync.EmittedIsDeclared | pkg/connector/helpers.go:112-127 | every grant of a sync is on an entitlement the sync declares |
| WholeSync.SentIsUnderstood | pkg/connector/helpers.go:309-324 | no user filter a sync sends names a role the server does not know, so the theorems below assume nothing of those filters |
| WholeSync.BuildersEmitSync | pkg/connector/license.go:198-238 | all six emitting builders together emit exactly the permission, membership, site-role and licence grants of the site |
| WholeSync.SyncExpandsToAccess | pkg/connector/helpers.go:136-204 | expanding what all builders emit on faithful answers to the requests they make gives every user and group exactly the intended access, and every user its site role and licence |
| Server.AddRuleAnswers | pkg/client/client.go:701-716 | 409 means the rule was stored, 404 that there is no such resource; only an accepted request changes the site, and then that rule alone |
| Server.DeleteRuleAnswers | pkg/client/client.go:718-731 | 404 means there was no such rule; only an accepted request changes the site, and then that rule alone |
| Server.AddMemberAnswers | pkg/client/client.go:358-373 | 409 means the user was a member, 404 that there is no such group or user; only an accepted request changes that membership alone |
| Server.RemoveMemberAnswers | pkg/client/client.go:375-390 | 404 means the user was not a member; only an accepted request changes that membership alone |
| Server.TableauServer.GetShowTabs | pkg/connector/view.go:38-45 | whether the workbook shows tabs, or an error |
| Provisioning.ApplyPermission | pkg/connector/helpers.go:223-307 | parse, translate, choose by principal type, and the outcome with 409 forgiven to Grant and 404 to Revoke |
| Provisioning.SendRule | pkg/connector/helpers.go:243-306 | exactly one request reaches the store, and its reply decides the outcome |
| Provisioning.AddressedExactly | pkg/connector/helpers.go:223-257 | exactly the calls by an id of three parts, for a user or a group, on a project, workbook or view have a request to make, about that principal's Allow rule; a slug no table knows is sent as it is |
| Provisioning.PermissionAnswers | pkg/connector/helpers.go:223-307 | what every answer means: no request or none answered is an error; otherwise done, "already exists" or "already revoked" by whether the rule was stored, and only a done call changes the site |
| Provisioning.NoErrorMeansEffect | README.md:76 | a call that does not fail leaves the addressed rule stored after a Grant and not stored after a Revoke |
| Provisioning.MembershipAnswers | pkg/connector/group.go:138-194 | the same for memberships; "All Users" answers "already exists" to every Grant and an error to every Revoke |
| Provisioning.TwoStepTranslation | pkg/connector/project.go:244-257 | a "Workbook / ..." slug passes the generic table unchanged, so that the closure addresses the rule the specification names |
| Provisioning.ProjectCall | pkg/connector/project.go:238-280 | the builder's call is the specified step, in both stores |
| Provisioning.WorkbookCall | pkg/connector/workbook.go:112-118 | the builder's call is the specified step |
| Provisioning.ViewCall | pkg/connector/view.go:124-150 | the specified step, refused without a change under showTabs or when the workbook cannot be fetched |
| Provisioning.GroupCall | pkg/connector/group.go:138-196 | the specified step, with All Users granted as existing, never revoked and never changed |
| ProvisioningRuns.ReportedIs | pkg/connector/helpers.go:136-173 | the direct grants of users and groups a sync reports are exactly those of stored rules and synced members |
| ProvisioningRuns.ReportedRuleInjective | pkg/connector/helpers.go:144-163 | two rules reported as the same grant are the same rule of the same store |
| ProvisioningRuns.StepReports | pkg/connector/helpers.go:223-307 | after any one call the next sync reports the previous grants with that call folded in |
| ProvisioningRuns.RunReports | pkg/connector/helpers.go:223-307 | the same over every run, with 409, 404 and failures among the replies |
| ProvisioningRuns.DeclaredRoundTrip | pkg/connector/project.go:238-280 | a call on any declared entitlement by its printed id is about that entitlement and principal, with exact exceptions |
| ProvisioningRuns.ReachableSitesExpand | pkg/connector/helpers.go:136-307 | every site a run reaches again expands to the intended access |
| Protection.RuleStepChanges | pkg/connector/helpers.go:223-307 | a permission call changes a store if and only if it addresses it and its request is accepted, and nothing else of the site |
| Protection.ProtectedViewStep | pkg/connector/view.go:124-150 | a call changes a view's rules, under a showTabs workbook or not, if and only if it is on that view, carries no parent or one that shows no tabs, and its request is accepted |
| Protection.ParentlessViewCallSlipsPast | pkg/connector/view.go:125 | an input at which it does |
| Protection.AllUsersStep | pkg/connector/group.go:138-196 | a call changes the members of a group, All Users or not, if and only if it does not name it All Users and its request is accepted |
| Protection.RenamedAllUsersCallSlipsPast | pkg/connector/group.go:24-26 | an input at which it does |
| Protection.OppositeUndoes | pkg/connector/helpers.go:223-307 | after a Grant that was done the same Revoke is done and restores every rule and membership, and the other way round |
| Protection.StoresIndependent | pkg/connector/project.go:244-279 | "Workbook / ..." calls leave all View and Publish rules alone, and all other calls leave all default rules alone |
| RevokeEffect.PrintedIdAddresses | pkg/connector/helpers.go:223-307 | a Grant or Revoke by printed id addresses the very rule the entitlement is reported for, in each of the four stores |
| RevokeEffect.RevokeStep | pkg/connector/helpers.go:267-307 | the revoke removes exactly the account's rule, or answers "already revoked" and changes nothing |
| RevokeEffect.ProjectAfter | pkg/connector/project.go:163-178 | without one rule, a user or group holds "Workbook / ..." on a project if and only if the ancestor chain has another source |
| RevokeEffect.OwnProjectAfter | pkg/connector/project.go:148-156 | the same for View and Publish, where only the project itself counts |
| RevokeEffect.WorkbookAfter | pkg/connector/project.go:201-223 | the same on a workbook, whose own rules count as well |
| RevokeEffect.ViewAfter | pkg/connector/view.go:92-122 | the same on a view, whose workbook counts under showTabs |
| RevokeEffect.RevokeDirect | pkg/connector/helpers.go:267-307 | after revoking a user's or a group's rule, sync and expansion, any account holds any capability on a project, workbook or view if and only if a source other than that rule remains on its inheritance path |
| RevokeEffect.RevokeSparesOthers | pkg/connector/helpers.go:267-307 | everybody but the account, and its members if it is a group, holds what it held, and so does the account for every other capability |
| RevokeEffect.RevokeOfDerived | pkg/connector/helpers.go:299-302 | a permission held through a group, an ancestor or the locking project, and not by a rule of one's own, answers "already revoked", changes nothing, and is still held |
| RevokeEffect.RevokeThroughGroup | README.md:72 | in particular one a user holds through a group |
| GrantEffect.GrantStep | pkg/connector/helpers.go:223-265 | the grant leaves the site with exactly the account's rule added, and answers "already exists" if and only if it was there |
| GrantEffect.ProjectAccessWith | pkg/connector/project.go:163-178 | a default rule adds to the default workbook access of exactly the projects at and beneath its own |
| GrantEffect.GrantDirect | pkg/connector/helpers.go:223-265 | after granting a capability to a user or a group, sync and expansion, any account holds any capability on a project, workbook or view if and only if it held it before, or the rule reaches that resource, is for that capability, and is for the account or a group it belongs to |
| MembershipEffect.GrantMembership | pkg/connector/group.go:138-165 | after adding a user to a group any account holds any entitlement if and only if it held it before, or it is that user, not a server administrator, and the entitlement is the membership or held by the group in whatever way |
| MembershipEffect.RevokeMembership | pkg/connector/group.go:167-194 | after removing a user from a group any account holds any capability on a project, workbook or view if and only if a source without that membership remains on its inheritance path, and of all memberships exactly that one is gone |
| Roles.FilterableRoles | pkg/connector/helpers.go:316-324 | the roles the server's filter knows, in order |
| Roles.FiltersAreUnderstood | pkg/connector/helpers.go:309-324 | whatever the roles, neither the licence walk nor a seat count sends a filter naming a role the server does not know |
| Roles.FiltersSent | pkg/connector/license.go:210-215 | the filter of each tier's walk: every tier but Explorer is filtered, by "eq" for one role and "in" for several |
| Roles.CountFiltersSent | pkg/connector/license.go:166-172 | the filter each capped tier is counted with |
| Roles.LicenseGrantsPage | pkg/connector/license.go:199-238 | the filter sent, the grants emitted and the token returned for any licence name and reply |
| Roles.LicenseGrantsLoop | pkg/connector/license.go:222-235 | one member grant per user with a role of the tier, in order |
| Roles.FilteredWalk | pkg/connector/license.go:212-235 | under any filter the walk keeps the users of an unfiltered walk if and only if the filter lets every user of the tier pass |
| Roles.LicenseWalk | pkg/connector/license.go:210-237 | under the filter the builder chooses, the grants of all pages together are one per user with a role of the tier, in the order of the unfiltered listing, for any roles and users |
| Roles.FilteringRegardlessLoses | pkg/connector/license.go:212-215 | always filtering would preserve them if and only if no user holds an unfilterable role of the tier |
| Roles.SiteGrantsLoop | pkg/connector/site.go:115-133 | one grant per user with a known role, under that role's slug, in order |
| Roles.SiteWalk | pkg/connector/site.go:108-136 | and so over all pages together |
| Roles.TiersPartitionRoles | pkg/connector/license.go:30-35 | every known site role is in exactly one tier, and tiers hold no other role |
| Roles.GrantCountsAgree | pkg/connector/license.go:199-238 | over any population the four tiers' grants add up to the site-role grants |
| Roles.LicenseIsTier | pkg/connector/license.go:199-238 | a listed user gets exactly one licence grant if its role is known, on the tier of that role, none on any other tier, and exactly one site-role grant |
| Seats.CapacitySeatsPrinted | pkg/connector/license.go:55-64 | a padded printed number is read back if positive and 64-bit, and gives no seats otherwise |
| Seats.HasTierCapacity | pkg/connector/license.go:67-77 | true if and only if some tier passes the per-tier test |
| Seats.TiersFilterable | pkg/connector/license.go:168-171 | every tier has a filterable role, so no capped tier is skipped |
| Seats.CountConsumedByTier | pkg/connector/license.go:162-179 | succeeds if and only if every capped tier can be counted, and then holds exactly those tiers with their counts |
| Seats.AllCountedMeans | pkg/connector/license.go:132-143 | all is counted if and only if some tier is limited and, for each limited one, the request under its filter succeeds and reports a number |
| Seats.SeatsShown | pkg/connector/license.go:145-155 | what a listed tier shows, over the texts the server sends |
| Seats.List | pkg/connector/license.go:123-158 | four tiers in order; every limited tier with its capacity and the count reported under its filter, or none with seats if the site request fails or for some limited tier the request under its filter fails or reports no number |
| Seats.ConsumedIsGrants | pkg/connector/license.go:162-238 | on a server that counts honestly under the one filter a tier is counted with, the tier's consumed count is its licence grants less the users with an unfilterable role |
| RoleProvisioning.LicenseIdsTranslateBack | pkg/connector/license.go:21-26 | every licence id derived from a tier name is mapped back to that tier |
| RoleProvisioning.LicenseRoleSlugs | pkg/connector/site.go:34-44 | the four roles named like a licence are shown under its lower-case id |
| RoleProvisioning.FindRole | pkg/connector/site.go:145-151 | over any role map and in any order the search finds a role shown under the slug if there is one, and the only one if slugs are distinct |
| RoleProvisioning.FindsIsSomeOrder | pkg/connector/site.go:145-151 | the answers the search gives over all iteration orders are exactly the roles shown under the slug |
| RoleProvisioning.RoleSearchOrderIndependent | pkg/connector/site.go:145-151 | every iteration order finds the same role for every slug if and only if no two roles share a slug |
| RoleProvisioning.ApplyRoleCall | pkg/connector/site.go:138-178 | a site or licence call sets the role its entitlement names, and is refused for unknown and non-grantable ones |
| RoleProvisioning.RoleCallSucceeds | pkg/connector/license.go:241-265 | a call succeeds if and only if its id asks for a role, its request is answered and the user exists; then it sets exactly that role |
| RoleProvisioning.RequestedExactly | pkg/connector/site.go:138-161 | the role each id asks for: a site role by any id of three parts ending in its slug, ServerAdministrator excepted; a licence by its lower-case name; Unlicensed for a Revoke |
| RoleProvisioning.RoleStepEffect | pkg/connector/license.go:241-265 | a successful licence Grant leaves the user in exactly that tier, a Revoke in Unlicensed; a failure changes nothing; no other user changes |
| RoleProvisioning.SiteRoleRoundTrip | pkg/connector/site.go:138-167 | granting the printed entitlement of any known role to a user of the site succeeds, and then sets that role, if and only if the role is not ServerAdministrator |
| RoleProvisioning.RunNeverMakesServerAdministrators | pkg/connector/site.go:157-159 | over any run nobody becomes a server administrator |
| RoleProvisioning.LastCallDecidesRole | pkg/connector/site.go:138-178 | over any run the last successful call that names a user decides its role, and without one the role stays |
| RoleProvisioning.LastCallDecides | pkg/connector/license.go:241-265 | and so it decides the tier |
| MixedRuns.ReportedIsShown | pkg/connector/group.go:112-119 | a sync reports the stored permissions and memberships, less the memberships of server administrators |
| MixedRuns.AnyRunReports | pkg/connector/group.go:138-196 | after any run of permission, membership, site-role and licence calls, with any replies, all direct grants of the next sync are the stored ones and the roles with the successful calls folded in, less the memberships of those who are then server administrators |
| MixedRuns.AnyReachableSitesExpand | pkg/connector/helpers.go:136-307 | on every site such a run reaches a whole sync again expands to the intended access, roles and licences included |
| MixedRuns.AnyRunNeverMakesServerAdministrators | pkg/connector/site.go:157-159 | over any such run nobody becomes a server administrator |
| ProtectedRuns.ProtectedViewRun | pkg/connector/view.go:124-150 | over any run of calls of all kinds a view keeps its rules throughout if and only if no call gets past the check, judged on the initial site |
| ProtectedRuns.AllUsersRun | pkg/connector/group.go:138-196 | the same for the members of a group |
| ProtectedRuns.ProtectedUnchanged | pkg/connector/view.go:124-150 | so calls on resources as they were listed leave protected views and All Users alone over any run |
| Idp.IsAllowedAuthSetting | pkg/client/helpers.go:121-129 | true if and only if the upper-cased setting is an allowed one |
| Idp.ListEnabledIdpConfigurations | pkg/client/client.go:661-675 | exactly the enabled, allowed configurations, in order |
| Idp.FindIdpConfigurationByName | pkg/client/client.go:680-694 | the first enabled configuration of that name ignoring case, and none only if none matches |
| Idp.SelectIdpConfiguration | pkg/connector/user.go:163-205 | the selection for every listing, a missing endpoint and a failed request included |
| Idp.UnnamedMeans | pkg/connector/user.go:186-204 | without a name: the id of the one enabled SAML or OPENID configuration, the site default for none, an error if and only if there are several |
| Idp.NamedMeans | pkg/connector/user.go:164-184 | with a name: the id of an enabled configuration of that name ignoring case, and an error if and only if there is none |
| Idp.UnlistedMeans | pkg/connector/user.go:165-196 | a failed request is an error, and so is a missing endpoint if a name was asked for |
| Idp.SelectsEnabled | pkg/connector/user.go:163-205 | what is selected is the site default or an enabled configuration's id |
| Idp.UnnamedOrderIndependent | pkg/connector/user.go:186-204 | without a name the selection is the same for every order of the listing |
| Idp.NamedOrderIndependent | pkg/connector/user.go:164-184 | with a name it is the same for every order if and only if all matches share one id |

## Left out

- HTTP, login, JSON, headers, URL building and error text: requests are records and replies are success, 409, 404 or failure.
- The JSON text of pagination tokens: a token is the states and the current state it encodes, and every text the decoder rejects is one error.
- The SDK's resumption, cycle merging and resource type filters: expansion is the relation the annotations describe. The theorem also holds for a cyclic parent chain.
- Display names, descriptions, traits and profiles of resources: fields that are only copied.
- The List methods of groups, projects, views and users: append loops.
- Deny rules: the code skips every entry that is not Allow, so access means Allow rules and not Tableau's final decision.
- User creation and deletion, and name splitting: only the identity provider selection is modelled.
- The text and fields of warnings and debug logs: only whether and how often a sampled warning is written.
- Unicode case mapping: an arbitrary parameter in `Idp`, and ASCII only on the four licence names.
- Inheritance.ExpansionIsInheritedAccess: speaks about user and group principals; who holds an entitlement among the proxy principals (projects and workbooks) is not characterised.
- Provisioning.ApplyPermission: one method for the two Go functions, which differ only in the request and the reply they forgive; the call carries which of the two it is.
