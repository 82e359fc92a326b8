/**
 The part of the Baton SDK the connector's annotations are written for: how grants marked
 GrantExpandable are expanded. A grant on `dst` whose annotation names `src` copies the
 principals of `src`: only those granted directly when the edge is shallow, all of them otherwise.
 References to entitlements that were not synced are dropped.
 */
module Expander {

  import opened Wrappers
  import opened Grants

  ghost predicate Direct(grants: iset<Grant>, e: Entitlement, who: ResourceId) {
    exists g :: g in grants && g.entitlement == e && g.principal == who
  }

  ghost predicate EdgeBy(g: Grant, declared: iset<Entitlement>, src: Entitlement, dst: Entitlement, shallow: bool) {
    && g.entitlement == dst && g.expandable.Some? && g.expandable.value.shallow == shallow
    && src in declared && src.Id() in g.expandable.value.entitlementIds
  }

  ghost predicate Edge(grants: iset<Grant>, declared: iset<Entitlement>, src: Entitlement, dst: Entitlement,
                       shallow: bool)
  {
    exists g :: g in grants && EdgeBy(g, declared, src, dst, shallow)
  }

  /** `who` holds `e` after at most `n` edges. */
  ghost predicate Reaches(grants: iset<Grant>, declared: iset<Entitlement>, e: Entitlement, who: ResourceId, n: nat)
    decreases n
  {
    || Direct(grants, e, who)
    || (n > 0 && exists src :: Edge(grants, declared, src, e, true) && Direct(grants, src, who))
    || (n > 0 && exists src :: Edge(grants, declared, src, e, false) && Reaches(grants, declared, src, who, n - 1))
  }

  /** `who` holds `e` once expansion has finished. */
  ghost predicate Expanded(grants: iset<Grant>, declared: iset<Entitlement>, e: Entitlement, who: ResourceId) {
    exists n: nat :: Reaches(grants, declared, e, who, n)
  }

  /** A relation that contains the emitted grants and is closed under every edge. */
  ghost predicate Closed(grants: iset<Grant>, declared: iset<Entitlement>, holds: iset<(Entitlement, ResourceId)>) {
    && (forall e, who :: Direct(grants, e, who) ==> (e, who) in holds)
    && (forall src, dst, who :: Edge(grants, declared, src, dst, true) && Direct(grants, src, who) ==>
          (dst, who) in holds)
    && (forall src, dst, who :: Edge(grants, declared, src, dst, false) && (src, who) in holds ==> (dst, who) in holds)
  }

  /** Expansion is contained in every closed relation. */
  lemma {:induction false} ReachesIsLeast(grants: iset<Grant>, declared: iset<Entitlement>,
                                          holds: iset<(Entitlement, ResourceId)>,
                                          e: Entitlement, who: ResourceId, n: nat)
    requires Closed(grants, declared, holds) && Reaches(grants, declared, e, who, n)
    ensures (e, who) in holds
    decreases n
  {
    if !Direct(grants, e, who) && !exists src :: Edge(grants, declared, src, e, true) && Direct(grants, src, who) {
      var src :| Edge(grants, declared, src, e, false) && Reaches(grants, declared, src, who, n - 1);
      ReachesIsLeast(grants, declared, holds, src, who, n - 1);
    }
  }

  /** Expansion is the least relation that contains the emitted grants and is closed under the edges. */
  lemma ExpandedIsLeastFixpoint(grants: iset<Grant>, declared: iset<Entitlement>)
    ensures Closed(grants, declared,
      iset e: Entitlement, who: ResourceId | Expanded(grants, declared, e, who) :: (e, who))
    ensures forall holds, e, who :: Closed(grants, declared, holds) && Expanded(grants, declared, e, who) ==>
      (e, who) in holds
  {
    forall e, who | Direct(grants, e, who) ensures Expanded(grants, declared, e, who) {
      assert Reaches(grants, declared, e, who, 0);
    }
    forall src, dst, who | Edge(grants, declared, src, dst, true) && Direct(grants, src, who)
      ensures Expanded(grants, declared, dst, who)
    {
      assert Reaches(grants, declared, dst, who, 1);
    }
    forall src, dst, who | Edge(grants, declared, src, dst, false) && Expanded(grants, declared, src, who)
      ensures Expanded(grants, declared, dst, who)
    {
      var n: nat :| Reaches(grants, declared, src, who, n);
      assert Reaches(grants, declared, dst, who, n + 1);
    }
    forall holds, e, who | Closed(grants, declared, holds) && Expanded(grants, declared, e, who)
      ensures (e, who) in holds
    {
      var n: nat :| Reaches(grants, declared, e, who, n);
      ReachesIsLeast(grants, declared, holds, e, who, n);
    }
  }

  // ----------------------------------------------------------------- the simplest cases

  /** A grant to `principal` that refers to `src`. */
  function Referring(dst: Entitlement, principal: ResourceId, src: Entitlement, shallow: bool): Grant {
    Grant(dst, principal, Some(Expandable([src.Id()], shallow)), false)
  }

  function Plain(e: Entitlement, who: ResourceId): Grant {
    Grant(e, who, None, false)
  }

  lemma EdgeOf(grants: iset<Grant>, declared: iset<Entitlement>, src: Entitlement, dst: Entitlement,
               principal: ResourceId, shallow: bool)
    requires Referring(dst, principal, src, shallow) in grants && src in declared
    ensures Edge(grants, declared, src, dst, shallow)
  {
    assert EdgeBy(Referring(dst, principal, src, shallow), declared, src, dst, shallow);
  }

  /** One reference carries the principals of the entitlement it names exactly if that is declared. */
  lemma OneReference(grants: iset<Grant>, declared: iset<Entitlement>, src: Entitlement, dst: Entitlement,
                     proxy: ResourceId, who: ResourceId, shallow: bool)
    requires src != dst && who != proxy && grants == iset{Referring(dst, proxy, src, shallow), Plain(src, who)}
    requires forall e :: e in declared && e.Id() == src.Id() ==> e == src
    ensures Expanded(grants, declared, dst, who) <==> src in declared
  {
    assert Plain(src, who) in grants && Referring(dst, proxy, src, shallow) in grants;
    assert Direct(grants, src, who) && !Direct(grants, dst, who);
    assert forall e, s :: Edge(grants, declared, e, dst, s) ==> e == src && src in declared;
    if src in declared {
      EdgeOf(grants, declared, src, dst, proxy, shallow);
      assert Reaches(grants, declared, src, who, 0);
      assert Reaches(grants, declared, dst, who, 1);
    }
  }

  /** Two references in a row carry them on exactly if the second is deep. */
  lemma TwoReferences(grants: iset<Grant>, declared: iset<Entitlement>, a: Entitlement, b: Entitlement,
                      c: Entitlement, proxy: ResourceId, who: ResourceId, shallow: bool)
    requires a != b && b != c && a != c && who != proxy && a in declared && b in declared
    requires grants == iset{Referring(c, proxy, b, shallow), Referring(b, proxy, a, false), Plain(a, who)}
    requires forall e :: e in declared && e.Id() == b.Id() ==> e == b
    ensures Expanded(grants, declared, c, who) <==> !shallow
  {
    assert Plain(a, who) in grants && Referring(b, proxy, a, false) in grants;
    assert Referring(c, proxy, b, shallow) in grants;
    assert !Direct(grants, b, who) && !Direct(grants, c, who);
    assert forall e, s :: Edge(grants, declared, e, c, s) ==> e == b && s == shallow;
    if !shallow {
      EdgeOf(grants, declared, a, b, proxy, false);
      EdgeOf(grants, declared, b, c, proxy, false);
      assert Direct(grants, a, who);
      assert Reaches(grants, declared, a, who, 0);
      assert Reaches(grants, declared, b, who, 1);
      assert Reaches(grants, declared, c, who, 2);
    }
  }

  // -------------------------------------------------------------------- added leaves

  /**
   Grants nothing refers to and that refer to nothing: no expansion, targets of their own, and no one names
   those.
   */
  ghost predicate AreLeaves(grants: iset<Grant>, declared: iset<Entitlement>, leaves: iset<Grant>,
                            targets: iset<Entitlement>)
  {
    && (forall h :: h in leaves ==> h.expandable.None? && h.entitlement !in declared)
    && (forall g, h :: g in grants && h in leaves ==> g.entitlement != h.entitlement)
    && (forall g, e :: g in grants && g.expandable.Some? && e in targets ==>
          e.Id() !in g.expandable.value.entitlementIds)
  }

  lemma {:induction false} ReachesMore(grants: iset<Grant>, declared: iset<Entitlement>, leaves: iset<Grant>,
                                       targets: iset<Entitlement>, e: Entitlement, who: ResourceId, n: nat)
    requires Reaches(grants, declared, e, who, n)
    ensures Reaches(grants + leaves, declared + targets, e, who, n)
    decreases n
  {
    var all, known := grants + leaves, declared + targets;
    assert forall src, dst, shallow :: Edge(grants, declared, src, dst, shallow) ==>
      Edge(all, known, src, dst, shallow);
    assert forall src, dst :: Direct(grants, src, dst) ==> Direct(all, src, dst);
    if !Direct(grants, e, who) && !exists src :: Edge(grants, declared, src, e, true) && Direct(grants, src, who) {
      var src :| Edge(grants, declared, src, e, false) && Reaches(grants, declared, src, who, n - 1);
      ReachesMore(grants, declared, leaves, targets, src, who, n - 1);
    }
  }

  /** With leaves added, an edge is an old edge, out of an entitlement no leaf grants. */
  lemma LeafEdges(grants: iset<Grant>, declared: iset<Entitlement>, leaves: iset<Grant>, targets: iset<Entitlement>,
                  src: Entitlement, dst: Entitlement, shallow: bool)
    requires AreLeaves(grants, declared, leaves, targets)
    requires Edge(grants + leaves, declared + targets, src, dst, shallow)
    ensures Edge(grants, declared, src, dst, shallow)
    ensures forall who :: Direct(grants + leaves, src, who) ==> Direct(grants, src, who)
    ensures forall who :: !Direct(leaves, src, who)
  {
    var g :| g in grants + leaves && EdgeBy(g, declared + targets, src, dst, shallow);
    assert g in grants && src in declared;
    assert EdgeBy(g, declared, src, dst, shallow);
  }

  lemma {:induction false} ReachesWithLeaves(grants: iset<Grant>, declared: iset<Entitlement>, leaves: iset<Grant>,
                                             targets: iset<Entitlement>, e: Entitlement, who: ResourceId, n: nat)
    requires AreLeaves(grants, declared, leaves, targets) && Reaches(grants + leaves, declared + targets, e, who, n)
    ensures Reaches(grants, declared, e, who, n) || Direct(leaves, e, who)
    decreases n
  {
    var all, known := grants + leaves, declared + targets;
    if Direct(all, e, who) {
      assert Direct(grants, e, who) || Direct(leaves, e, who);
    } else if src :| Edge(all, known, src, e, true) && Direct(all, src, who) {
      LeafEdges(grants, declared, leaves, targets, src, e, true);
    } else {
      var src :| Edge(all, known, src, e, false) && Reaches(all, known, src, who, n - 1);
      LeafEdges(grants, declared, leaves, targets, src, e, false);
      ReachesWithLeaves(grants, declared, leaves, targets, src, who, n - 1);
    }
  }

  /** Leaves add their own direct grants to the expansion, and nothing else. */
  lemma ExpandedWithLeaves(grants: iset<Grant>, declared: iset<Entitlement>, leaves: iset<Grant>,
                           targets: iset<Entitlement>, e: Entitlement, who: ResourceId)
    requires AreLeaves(grants, declared, leaves, targets)
    ensures Expanded(grants + leaves, declared + targets, e, who)
      <==> Expanded(grants, declared, e, who) || Direct(leaves, e, who)
  {
    if Expanded(grants + leaves, declared + targets, e, who) {
      var n: nat :| Reaches(grants + leaves, declared + targets, e, who, n);
      ReachesWithLeaves(grants, declared, leaves, targets, e, who, n);
    }
    if Expanded(grants, declared, e, who) {
      var n: nat :| Reaches(grants, declared, e, who, n);
      ReachesMore(grants, declared, leaves, targets, e, who, n);
    }
    if Direct(leaves, e, who) {
      assert Direct(grants + leaves, e, who);
      assert Reaches(grants + leaves, declared + targets, e, who, 0);
    }
  }
}
