/**
 Entitlements, grants and the two emitters every builder shares: one grant per Allow rule,
 and proxy grants that point from a child resource to its parent.
 */
module Grants {

  import opened Wrappers
  import opened Sequences
  import opened Text
  import opened Capabilities

  const MEMBER: string := "member"
  const ALLOW: string := "Allow"

  datatype ResourceId = ResourceId(resourceType: string, resource: string)

  function User(id: string): ResourceId { ResourceId("user", id) }
  function Group(id: string): ResourceId { ResourceId("group", id) }
  function Project(id: string): ResourceId { ResourceId("project", id) }
  function Workbook(id: string): ResourceId { ResourceId("workbook", id) }
  function View(id: string): ResourceId { ResourceId("view", id) }

  datatype Entitlement = Entitlement(resource: ResourceId, slug: string) {
    /** The identifier the SDK prints and the GrantExpandable annotation refers to. */
    function Id(): string {
      resource.resourceType + ":" + resource.resource + ":" + slug
    }

    predicate ColonFree() {
      Text.ColonFree(resource.resourceType) && Text.ColonFree(resource.resource) && Text.ColonFree(slug)
    }
  }

  datatype Expandable = Expandable(entitlementIds: seq<string>, shallow: bool)

  /** A grant with the two annotations the connector sets: GrantExpandable and GrantImmutable. */
  datatype Grant = Grant(
    entitlement: Entitlement, principal: ResourceId, expandable: Option<Expandable>, immutable: bool)

  // ------------------------------------------------------------ entitlement ids

  /** parseEntitlementSlug; None stands for the "invalid entitlement ID" error. */
  function ParseEntitlementSlug(entitlementId: string): Option<string> {
    var parts := Split(entitlementId);
    if |parts| != 3 then None else Some(parts[2])
  }

  lemma SplitId(e: Entitlement)
    ensures Split(e.Id()) == Split(e.resource.resourceType) + Split(e.resource.resource) + Split(e.slug)
  {
    var r := e.resource;
    Regroup(r.resourceType, r.resource, e.slug);
    SplitConcat(r.resourceType, r.resource + ":" + e.slug);
    SplitConcat(r.resource, e.slug);
    Reassociate(Split(r.resourceType), Split(r.resource), Split(e.slug));
  }

  /**
   Printing an entitlement id and parsing it returns the slug exactly when no component contains a colon;
   otherwise the id is rejected.
   */
  lemma ParseInvertsPrint(e: Entitlement)
    ensures ParseEntitlementSlug(e.Id()) == if e.ColonFree() then Some(e.slug) else None
  {
    SplitId(e);
  }

  /** The text is three colon-free parts, the last of them the slug. */
  ghost predicate NamesSlug(entitlementId: string, slug: string) {
    exists a, b :: Text.ColonFree(a) && Text.ColonFree(b) && Text.ColonFree(slug)
      && entitlementId == a + ":" + (b + ":" + slug)
  }

  lemma ThreePartsJoin(a: string, b: string, c: string)
    ensures Join([a, b, c]) == a + ":" + (b + ":" + c)
  {
    assert [a, b, c][1..] == [b, c];
    assert [b, c][1..] == [c];
    assert Join([b, c]) == b + ":" + c;
  }

  lemma ParsedIsNamed(entitlementId: string, slug: string)
    requires ParseEntitlementSlug(entitlementId) == Some(slug)
    ensures NamesSlug(entitlementId, slug)
  {
    var parts := Split(entitlementId);
    JoinSplit(entitlementId);
    ThreePartsJoin(parts[0], parts[1], slug);
    assert parts == [parts[0], parts[1], slug];
    assert parts[0] in parts && parts[1] in parts && slug in parts;
  }

  /** An id gives a slug exactly if it has that form, whoever printed it. */
  lemma ParseReads(entitlementId: string, slug: string)
    ensures ParseEntitlementSlug(entitlementId) == Some(slug) <==> NamesSlug(entitlementId, slug)
  {
    if ParseEntitlementSlug(entitlementId) == Some(slug) {
      ParsedIsNamed(entitlementId, slug);
    }
    if NamesSlug(entitlementId, slug) {
      var a, b :| Text.ColonFree(a) && Text.ColonFree(b) && Text.ColonFree(slug)
        && entitlementId == a + ":" + (b + ":" + slug);
      SplitAt(a, b + ":" + slug);
      SplitAt(b, slug);
    }
  }

  lemma ThreeParts(a: seq<string>, b: seq<string>, c: seq<string>, x: string, y: string, z: string)
    requires |a| >= 1 && |b| >= 1 && |c| >= 1 && a + b + c == [x, y, z]
    ensures a == [x] && b == [y] && c == [z]
  {
    var all := a + b + c;
    assert |a| == 1 && |b| == 1 && |c| == 1;
    assert all[0] == a[0] && all[1] == b[0] && all[2] == c[0];
  }

  /** An id shared with a colon-free entitlement is that entitlement's own. */
  lemma IdInjective(e: Entitlement, f: Entitlement)
    requires f.ColonFree() && e.Id() == f.Id()
    ensures e == f
  {
    SplitId(e);
    SplitId(f);
    var r := e.resource;
    ThreeParts(Split(r.resourceType), Split(r.resource), Split(e.slug),
      f.resource.resourceType, f.resource.resource, f.slug);
  }

  // ------------------------------------------------- grants from permission rules

  datatype Capability = Capability(name: string, mode: string)

  /** One entry of a permissions response; the user and the group are optional pointers. */
  datatype GranteeCapabilities = GranteeCapabilities(
    user: Option<string>, group: Option<string>, capabilities: seq<Capability>)

  /** A permission rule as the server stores it. */
  datatype Rule = Rule(grantee: ResourceId, capability: string, mode: string)

  /** The grant one Allow rule turns into; a group's grant expands to the group's direct members. */
  function RuleGrant(resource: ResourceId, slug: string, grantee: ResourceId): Grant {
    Grant(Entitlement(resource, slug), grantee,
      if grantee.resourceType == "group"
      then Some(Expandable([Entitlement(grantee, MEMBER).Id()], true))
      else None,
      false)
  }

  /** The grants of one capability of one grantee entry, in emission order. */
  function CapabilityGrants(resource: ResourceId, entry: GranteeCapabilities, c: Capability, slugs: SlugMap)
    : seq<Grant>
  {
    if c.mode != ALLOW || c.name !in slugs then []
    else
      (if entry.user.Some? then [RuleGrant(resource, slugs[c.name], User(entry.user.value))] else [])
      + (if entry.group.Some? then [RuleGrant(resource, slugs[c.name], Group(entry.group.value))] else [])
  }

  /** The response `entries` lists exactly the rules in `rules`, in any order and grouping. */
  ghost predicate Lists(entries: seq<GranteeCapabilities>, rules: set<Rule>) {
    && (forall r :: r in rules ==> r.grantee.resourceType == "user" || r.grantee.resourceType == "group")
    && (forall id, name, mode :: Rule(User(id), name, mode) in rules <==>
          exists e :: e in entries && e.user == Some(id) && Capability(name, mode) in e.capabilities)
    && (forall id, name, mode :: Rule(Group(id), name, mode) in rules <==>
          exists e :: e in entries && e.group == Some(id) && Capability(name, mode) in e.capabilities)
  }

  /** The grants a set of rules stands for. */
  ghost predicate FromRules(resource: ResourceId, rules: set<Rule>, slugs: SlugMap, g: Grant) {
    exists r :: r in rules && r.mode == ALLOW && r.capability in slugs
                && g == RuleGrant(resource, slugs[r.capability], r.grantee)
  }

  function EntryGrants(resource: ResourceId, entry: GranteeCapabilities, caps: seq<Capability>, slugs: SlugMap)
    : seq<Grant>
  {
    if caps == [] then []
    else
      EntryGrants(resource, entry, caps[..|caps| - 1], slugs)
      + CapabilityGrants(resource, entry, caps[|caps| - 1], slugs)
  }

  /** The grants of a permissions response, in emission order. */
  function GrantsOf(resource: ResourceId, grantees: seq<GranteeCapabilities>, slugs: SlugMap): seq<Grant> {
    if grantees == [] then []
    else
      var last := grantees[|grantees| - 1];
      GrantsOf(resource, grantees[..|grantees| - 1], slugs) + EntryGrants(resource, last, last.capabilities, slugs)
  }

  lemma EntryMore(resource: ResourceId, entry: GranteeCapabilities, caps: seq<Capability>, slugs: SlugMap,
                  j: nat, before: seq<Grant>)
    requires j < |caps|
    ensures before + EntryGrants(resource, entry, caps[..j + 1], slugs)
      == before + EntryGrants(resource, entry, caps[..j], slugs) + CapabilityGrants(resource, entry, caps[j], slugs)
  {
    assert caps[..j + 1][..j] == caps[..j];
    var more := EntryGrants(resource, entry, caps[..j], slugs);
    assert before + (more + CapabilityGrants(resource, entry, caps[j], slugs))
      == before + more + CapabilityGrants(resource, entry, caps[j], slugs);
  }

  lemma GrantsOfMore(resource: ResourceId, grantees: seq<GranteeCapabilities>, slugs: SlugMap, i: nat)
    requires i < |grantees|
    ensures GrantsOf(resource, grantees[..i + 1], slugs)
      == GrantsOf(resource, grantees[..i], slugs) + EntryGrants(resource, grantees[i], grantees[i].capabilities, slugs)
  {
    assert grantees[..i + 1][..i] == grantees[..i];
  }

  /** The body of the inner loop: the grants of one capability of one grantee. */
  method AppendCapability(before: seq<Grant>, resource: ResourceId, grantee: GranteeCapabilities,
                          capability: Capability, slugs: SlugMap)
    returns (rv: seq<Grant>)
    ensures rv == before + CapabilityGrants(resource, grantee, capability, slugs)
  {
    rv := before;
    if capability.mode != ALLOW {
      return;
    }
    if capability.name !in slugs {
      return;
    }
    var ownSlug := slugs[capability.name];
    if grantee.user.Some? {
      rv := rv + [RuleGrant(resource, ownSlug, User(grantee.user.value))];
    }
    if grantee.group.Some? {
      rv := rv + [RuleGrant(resource, ownSlug, Group(grantee.group.value))];
    }
  }

  /** grantsFromCapabilities. */
  method GrantsFromCapabilities(resource: ResourceId, grantees: seq<GranteeCapabilities>, slugs: SlugMap)
    returns (rv: seq<Grant>)
    ensures rv == GrantsOf(resource, grantees, slugs)
  {
    rv := [];
    for i := 0 to |grantees|
      invariant rv == GrantsOf(resource, grantees[..i], slugs)
    {
      var grantee := grantees[i];
      var caps := grantee.capabilities;
      ghost var before := rv;
      for j := 0 to |caps|
        invariant rv == before + EntryGrants(resource, grantee, caps[..j], slugs)
      {
        EntryMore(resource, grantee, caps, slugs, j, before);
        rv := AppendCapability(rv, resource, grantee, caps[j], slugs);
      }
      assert caps[..|caps|] == caps;
      GrantsOfMore(resource, grantees, slugs, i);
    }
    assert grantees[..|grantees|] == grantees;
  }

  // ------------------------------------------- the emitter, from its simplest inputs

  /** The grants of two answers, one after the other, are those of both together. */
  lemma {:induction false} GrantsOfConcat(resource: ResourceId, a: seq<GranteeCapabilities>,
                                          b: seq<GranteeCapabilities>, slugs: SlugMap)
    ensures GrantsOf(resource, a + b, slugs) == GrantsOf(resource, a, slugs) + GrantsOf(resource, b, slugs)
  {
    if b == [] {
      assert a + b == a;
    } else {
      var init, last := b[..|b| - 1], b[|b| - 1];
      GrantsOfConcat(resource, a, init, slugs);
      assert (a + b)[..|a + b| - 1] == a + init;
      Reassociate(GrantsOf(resource, a, slugs), GrantsOf(resource, init, slugs),
        EntryGrants(resource, last, last.capabilities, slugs));
    }
  }

  lemma EntryGrantsMore(resource: ResourceId, entry: GranteeCapabilities, caps: seq<Capability>, c: Capability,
                        slugs: SlugMap)
    ensures EntryGrants(resource, entry, caps + [c], slugs)
      == EntryGrants(resource, entry, caps, slugs) + CapabilityGrants(resource, entry, c, slugs)
  {
    assert (caps + [c])[..|caps|] == caps;
  }

  lemma {:induction false} EntryConcat(resource: ResourceId, entry: GranteeCapabilities, a: seq<Capability>,
                                       b: seq<Capability>, slugs: SlugMap)
    ensures EntryGrants(resource, entry, a + b, slugs)
      == EntryGrants(resource, entry, a, slugs) + EntryGrants(resource, entry, b, slugs)
  {
    if b == [] {
      assert a + b == a;
    } else {
      var init, last := b[..|b| - 1], b[|b| - 1];
      EntryConcat(resource, entry, a, init, slugs);
      LastMoves(a, b);
      EntryGrantsMore(resource, entry, a + init, last, slugs);
      EntryGrantsMore(resource, entry, init, last, slugs);
      Reassociate(EntryGrants(resource, entry, a, slugs), EntryGrants(resource, entry, init, slugs),
        CapabilityGrants(resource, entry, last, slugs));
    }
  }

  lemma EntrySame(resource: ResourceId, e: GranteeCapabilities, f: GranteeCapabilities, caps: seq<Capability>,
                  slugs: SlugMap)
    requires e.user == f.user && e.group == f.group
    ensures EntryGrants(resource, e, caps, slugs) == EntryGrants(resource, f, caps, slugs)
  {
  }

  lemma OneEntry(resource: ResourceId, e: GranteeCapabilities, slugs: SlugMap)
    ensures GrantsOf(resource, [e], slugs) == EntryGrants(resource, e, e.capabilities, slugs)
  {
    assert [e][..0] == [];
  }

  /** A grantee's capabilities may be listed in one entry or in several. */
  lemma SplitEntry(resource: ResourceId, user: Option<string>, group: Option<string>, a: seq<Capability>,
                   b: seq<Capability>, slugs: SlugMap)
    ensures GrantsOf(resource, [GranteeCapabilities(user, group, a + b)], slugs)
      == GrantsOf(resource, [GranteeCapabilities(user, group, a), GranteeCapabilities(user, group, b)], slugs)
  {
    var e, f, both := GranteeCapabilities(user, group, a), GranteeCapabilities(user, group, b),
      GranteeCapabilities(user, group, a + b);
    assert [e] + [f] == [e, f];
    GrantsOfConcat(resource, [e], [f], slugs);
    OneEntry(resource, e, slugs);
    OneEntry(resource, f, slugs);
    OneEntry(resource, both, slugs);
    EntryConcat(resource, both, a, b, slugs);
    EntrySame(resource, both, e, a, slugs);
    EntrySame(resource, both, f, b, slugs);
  }

  /** The grant of a user's rule: nothing to expand. */
  function UserGrant(resource: ResourceId, slug: string, user: string): Grant {
    Grant(Entitlement(resource, slug), ResourceId("user", user), None, false)
  }

  /** The grant of a group's rule, which refers to the group's direct members. */
  function GroupGrant(resource: ResourceId, slug: string, group: string): Grant {
    Grant(Entitlement(resource, slug), ResourceId("group", group),
      Some(Expandable(["group:" + group + ":member"], true)), false)
  }

  /** The one entry with one capability: the user's grant, then the group's, if the mode is "Allow". */
  lemma OneCapability(resource: ResourceId, user: Option<string>, group: Option<string>, name: string,
                      mode: string, slugs: SlugMap)
    ensures GrantsOf(resource, [GranteeCapabilities(user, group, [Capability(name, mode)])], slugs)
      ==
      if mode == "Allow" && name in slugs
      then (if user.Some? then [UserGrant(resource, slugs[name], user.value)] else [])
        + (if group.Some? then [GroupGrant(resource, slugs[name], group.value)] else [])
      else []
  {
    var c := Capability(name, mode);
    var e := GranteeCapabilities(user, group, [c]);
    OneEntry(resource, e, slugs);
    assert [c][..0] == [];
    assert EntryGrants(resource, e, [c], slugs) == [] + CapabilityGrants(resource, e, c, slugs);
    if group.Some? {
      assert Entitlement(Group(group.value), MEMBER).Id() == "group:" + group.value + ":member";
    }
  }

  lemma {:induction false} EntryMembers(resource: ResourceId, entry: GranteeCapabilities, caps: seq<Capability>,
                                        slugs: SlugMap, g: Grant)
    ensures g in EntryGrants(resource, entry, caps, slugs) <==>
      exists c :: c in caps && g in CapabilityGrants(resource, entry, c, slugs)
  {
    if caps != [] {
      var init, last := caps[..|caps| - 1], caps[|caps| - 1];
      EntryMembers(resource, entry, init, slugs, g);
      assert forall c :: c in caps <==> c in init || c == last;
    }
  }

  lemma {:induction false} GrantsMembers(resource: ResourceId, grantees: seq<GranteeCapabilities>,
                                         slugs: SlugMap, g: Grant)
    ensures g in GrantsOf(resource, grantees, slugs) <==>
      exists e, c :: e in grantees && c in e.capabilities && g in CapabilityGrants(resource, e, c, slugs)
  {
    if grantees != [] {
      var init, last := grantees[..|grantees| - 1], grantees[|grantees| - 1];
      GrantsMembers(resource, init, slugs, g);
      EntryMembers(resource, last, last.capabilities, slugs, g);
      assert forall e :: e in grantees <==> e in init || e == last;
    }
  }

  /** However the server groups and orders its answer, the emitted grants are those of its Allow rules. */
  lemma GrantsAreRules(resource: ResourceId, grantees: seq<GranteeCapabilities>, rules: set<Rule>,
                       slugs: SlugMap, g: Grant)
    requires Lists(grantees, rules)
    ensures g in GrantsOf(resource, grantees, slugs) <==> FromRules(resource, rules, slugs, g)
  {
    GrantsMembers(resource, grantees, slugs, g);
    if e, c :| e in grantees && c in e.capabilities && g in CapabilityGrants(resource, e, c, slugs) {
      assert c == Capability(c.name, c.mode);
      if e.user.Some? && g == RuleGrant(resource, slugs[c.name], User(e.user.value)) {
        assert Rule(User(e.user.value), c.name, c.mode) in rules;
      } else {
        assert Rule(Group(e.group.value), c.name, c.mode) in rules;
      }
    }
    if FromRules(resource, rules, slugs, g) {
      var r :| r in rules && r.mode == ALLOW && r.capability in slugs
        && g == RuleGrant(resource, slugs[r.capability], r.grantee);
      var c := Capability(r.capability, r.mode);
      if r.grantee.resourceType == "user" {
        assert r == Rule(User(r.grantee.resource), r.capability, r.mode);
        var e :| e in grantees && e.user == Some(r.grantee.resource) && c in e.capabilities;
        assert g in CapabilityGrants(resource, e, c, slugs);
      } else {
        assert r == Rule(Group(r.grantee.resource), r.capability, r.mode);
        var e :| e in grantees && e.group == Some(r.grantee.resource) && c in e.capabilities;
        assert g in CapabilityGrants(resource, e, c, slugs);
      }
    }
  }

  // ------------------------------------------------------------- inherited grants

  /** The proxy grant that makes `child` inherit one entitlement of `parent`. */
  function ProxyGrant(child: ResourceId, ownSlug: string, parent: ResourceId, parentSlug: string): Grant {
    Grant(Entitlement(child, ownSlug), parent, Some(Expandable([Entitlement(parent, parentSlug).Id()], false)), false)
  }

  /** One proxy grant for each capability both tables know. */
  function InheritedSet(child: ResourceId, parent: ResourceId, own: SlugMap, parentSlugs: SlugMap): set<Grant> {
    set c | c in own && c in parentSlugs :: ProxyGrant(child, own[c], parent, parentSlugs[c])
  }

  /** The proxy grants of the listed capabilities, in that order. */
  function ProxyGrants(order: seq<string>, child: ResourceId, parent: ResourceId, own: SlugMap,
                       parentSlugs: SlugMap): (rv: seq<Grant>)
    requires forall c :: c in order ==> c in own && c in parentSlugs
    ensures |rv| == |order|
    ensures forall i :: 0 <= i < |rv| ==> rv[i] == ProxyGrant(child, own[order[i]], parent, parentSlugs[order[i]])
  {
    seq(|order|, i requires 0 <= i < |order| => ProxyGrant(child, own[order[i]], parent, parentSlugs[order[i]]))
  }

  lemma ProxyGrantsMore(order: seq<string>, c: string, child: ResourceId, parent: ResourceId, own: SlugMap,
                        parentSlugs: SlugMap)
    requires forall c' :: c' in order + [c] ==> c' in own && c' in parentSlugs
    ensures c in own && c in parentSlugs && forall c' :: c' in order ==> c' in own && c' in parentSlugs
    ensures ProxyGrants(order + [c], child, parent, own, parentSlugs)
      == ProxyGrants(order, child, parent, own, parentSlugs) + [ProxyGrant(child, own[c], parent, parentSlugs[c])]
  {
    assert c in order + [c];
    assert forall c' :: c' in order ==> c' in order + [c];
  }

  /** The proxy grants of all shared capabilities, each once, in the order Go happened to range over the map. */
  ghost predicate ListsProxies(rv: seq<Grant>, child: ResourceId, parent: ResourceId, own: SlugMap,
                               parentSlugs: SlugMap)
  {
    exists order :: Enumerates(order, own.Keys * parentSlugs.Keys)
      && rv == ProxyGrants(order, child, parent, own, parentSlugs)
  }

  /** inheritedGrants. */
  method InheritedGrants(child: ResourceId, parent: ResourceId, own: SlugMap, parentSlugs: SlugMap)
    returns (rv: seq<Grant>)
    ensures ListsProxies(rv, child, parent, own, parentSlugs)
  {
    rv := [];
    ghost var order: seq<string> := [];
    var todo := own.Keys;
    ghost var listed: set<string> := {};
    while todo != {}
      invariant todo <= own.Keys
      invariant forall c :: c in listed <==> c in own && c !in todo && c in parentSlugs
      invariant Enumerates(order, listed)
      invariant rv == ProxyGrants(order, child, parent, own, parentSlugs)
      decreases todo
    {
      var capName :| capName in todo;
      todo := todo - {capName};
      if capName in parentSlugs {
        EnumeratesMore(order, listed, capName);
        listed := listed + {capName};
        rv := rv + [ProxyGrant(child, own[capName], parent, parentSlugs[capName])];
        ghost var before := order;
        order := order + [capName];
        ProxyGrantsMore(before, capName, child, parent, own, parentSlugs);
      }
    }
    assert listed == own.Keys * parentSlugs.Keys;
  }

  /** The emitted set does not depend on the order. */
  lemma InheritedMembers(rv: seq<Grant>, child: ResourceId, parent: ResourceId, own: SlugMap, parentSlugs: SlugMap)
    requires ListsProxies(rv, child, parent, own, parentSlugs)
    ensures forall g :: g in rv <==> g in InheritedSet(child, parent, own, parentSlugs)
  {
    var order :| Enumerates(order, own.Keys * parentSlugs.Keys)
      && rv == ProxyGrants(order, child, parent, own, parentSlugs);
    forall g | g in rv ensures g in InheritedSet(child, parent, own, parentSlugs) {
      var i :| 0 <= i < |rv| && rv[i] == g;
      assert order[i] in order;
    }
    forall c | c in own && c in parentSlugs ensures ProxyGrant(child, own[c], parent, parentSlugs[c]) in rv {
      assert c in order;
      var i :| 0 <= i < |order| && order[i] == c;
      assert rv[i] == ProxyGrant(child, own[c], parent, parentSlugs[c]);
    }
  }

  /**
   The proxies in full: the parent as principal, and a reference, by its printed id, to all who hold its
   entitlement.
   */
  lemma ProxiesInFull(child: ResourceId, parent: ResourceId, own: SlugMap, parentSlugs: SlugMap, g: Grant)
    ensures g in InheritedSet(child, parent, own, parentSlugs) <==>
      exists c :: c in own && c in parentSlugs
        && g == Grant(Entitlement(child, own[c]), parent,
             Some(Expandable([parent.resourceType + ":" + parent.resource + ":" + parentSlugs[c]], false)), false)
  {
  }

  /** Some order always exists. */
  lemma SomeProxies(child: ResourceId, parent: ResourceId, own: SlugMap, parentSlugs: SlugMap)
    returns (rv: seq<Grant>)
    ensures ListsProxies(rv, child, parent, own, parentSlugs)
  {
    var order := SomeOrder(own.Keys * parentSlugs.Keys);
    rv := ProxyGrants(order, child, parent, own, parentSlugs);
  }
}
