/**
 The tables that translate Tableau capability names to the display slugs of entitlements
 and back. Go builds them by looping over maps in an unspecified order; the methods below
 keep those loops and are proved against the order-free functions the rest of the model uses.
 */
module Capabilities {

  import opened Sequences
  import opened Text

  type SlugMap = map<string, string>

  const ALL_CAPABILITIES: SlugMap := map[
    "Read" := "View",
    "Write" := "Overwrite",
    "Delete" := "Delete",
    "Filter" := "Filter",
    "ViewComments" := "View Comments",
    "AddComment" := "Add Comments",
    "ExportImage" := "Download Image/PDF",
    "ExportData" := "Download Summary Data",
    "ShareView" := "Share Customized",
    "ViewUnderlyingData" := "Download Full Data",
    "WebAuthoring" := "Web Edit",
    "RunExplainData" := "Run Explain Data",
    "ExportXml" := "Download/Save A Copy",
    "ExtractRefresh" := "Extract Refresh",
    "ChangeHierarchy" := "Move",
    "ChangePermissions" := "Set Permissions"]

  const PROJECT_OVERRIDES: SlugMap := map["Write" := "Publish"]

  const PROJECT_KEYS: seq<string> := ["Read", "Write"]

  const WORKBOOK_KEYS: seq<string> := [
    "Read", "Filter", "ViewComments", "AddComment", "ExportImage", "ExportData", "ShareView",
    "ViewUnderlyingData", "WebAuthoring", "RunExplainData", "ExportXml", "ExtractRefresh",
    "Write", "Delete", "ChangePermissions", "ChangeHierarchy"]

  const VIEW_KEYS: seq<string> := [
    "Read", "Filter", "ViewComments", "AddComment", "ExportImage", "ExportData", "ShareView",
    "ViewUnderlyingData", "WebAuthoring", "Delete", "ChangePermissions"]

  const DEFAULT_PREFIX: string := "Workbook / "

  // ------------------------------------------------------------ forward tables

  /** The table restricted to `keys`; an unknown key reads as Go's zero value. */
  function Picked(all: SlugMap, keys: seq<string>): SlugMap {
    map k | k in keys :: if k in all then all[k] else ""
  }

  function Overridden(m: SlugMap, overrides: SlugMap): SlugMap {
    map k | k in m :: if k in overrides then overrides[k] else m[k]
  }

  function Prefixed(prefix: string, m: SlugMap): SlugMap {
    map c | c in m :: prefix + m[c]
  }

  method PickCapabilities(all: SlugMap, keys: seq<string>) returns (m: SlugMap)
    ensures m == Picked(all, keys)
    ensures forall k :: k in m <==> k in keys
    ensures forall k :: k in keys ==> m[k] == if k in all then all[k] else ""
  {
    m := map[];
    for i := 0 to |keys|
      invariant m == Picked(all, keys[..i])
    {
      var k := keys[i];
      m := m[k := if k in all then all[k] else ""];
    }
    assert keys[..|keys|] == keys;
  }

  /** The table after the overrides of the first n keys. */
  function OverriddenSoFar(base: SlugMap, overrides: SlugMap, keys: seq<string>, n: nat): SlugMap
    requires n <= |keys|
  {
    map k | k in base :: if k in overrides && k in keys[..n] then overrides[k] else base[k]
  }

  lemma OverrideMore(base: SlugMap, overrides: SlugMap, keys: seq<string>, n: nat)
    requires n < |keys| && keys[n] in base
    ensures OverriddenSoFar(base, overrides, keys, n + 1)
      == var m := OverriddenSoFar(base, overrides, keys, n);
         if keys[n] in overrides then m[keys[n] := overrides[keys[n]]] else m
  {
    assert keys[..n + 1] == keys[..n] + [keys[n]];
  }

  lemma OverrideEnds(base: SlugMap, overrides: SlugMap, keys: seq<string>)
    requires forall k :: k in base ==> k in keys
    ensures OverriddenSoFar(base, overrides, keys, 0) == base
    ensures OverriddenSoFar(base, overrides, keys, |keys|) == Overridden(base, overrides)
  {
    assert keys[..|keys|] == keys;
  }

  method OverrideKeys(base: SlugMap, overrides: SlugMap, keys: seq<string>) returns (m: SlugMap)
    requires forall k :: k in base <==> k in keys
    ensures m == Overridden(base, overrides)
  {
    m := base;
    OverrideEnds(base, overrides, keys);
    for i := 0 to |keys|
      invariant m == OverriddenSoFar(base, overrides, keys, i)
    {
      OverrideMore(base, overrides, keys, i);
      var k := keys[i];
      if k in overrides {
        m := m[k := overrides[k]];
      }
    }
  }

  method PickProjectCapabilities(all: SlugMap, overrides: SlugMap, keys: seq<string>) returns (m: SlugMap)
    ensures m == Overridden(Picked(all, keys), overrides)
    ensures forall k :: k in m <==> k in keys
    ensures forall k :: k in keys ==>
      m[k] == if k in overrides then overrides[k] else if k in all then all[k] else ""
  {
    m := PickCapabilities(all, keys);
    m := OverrideKeys(m, overrides, keys);
  }

  method PrefixTable(prefix: string, forward: SlugMap) returns (m: SlugMap)
    ensures m == Prefixed(prefix, forward)
    ensures m.Keys == forward.Keys && forall c :: c in forward ==> m[c] == prefix + forward[c]
  {
    m := map[];
    var todo := forward.Keys;
    while todo != {}
      invariant todo <= forward.Keys
      invariant m == map c | c in forward.Keys - todo :: prefix + forward[c]
      decreases todo
    {
      var c :| c in todo;
      m := m[c := prefix + forward[c]];
      todo := todo - {c};
    }
  }

  // ------------------------------------------------------------ reverse tables

  predicate Injective(m: SlugMap) {
    forall a, b :: a in m && b in m && m[a] == m[b] ==> a == b
  }

  function Invert(m: SlugMap): (r: SlugMap)
    requires Injective(m)
  {
    map s | s in m.Values :: var c :| c in m && m[c] == s; c
  }

  /** The table one loop leaves when it visits the entries of `m` in the given order. */
  function ReverseInOrder(m: SlugMap, order: seq<string>): SlugMap {
    if order == [] then map[]
    else
      var before, last := ReverseInOrder(m, order[..|order| - 1]), order[|order| - 1];
      if last in m then before[m[last] := last] else before
  }

  /** A table in which every slug keeps one of its writers. */
  ghost predicate IsReverse(m: SlugMap, r: SlugMap) {
    r.Keys == m.Values && forall s :: s in r ==> r[s] in m && m[r[s]] == s
  }

  /** The table some order over `forward`, then some order over `overrides`, may leave behind. */
  ghost predicate IsReverseWithOverrides(forward: SlugMap, overrides: SlugMap, r: SlugMap) {
    exists a, b :: IsReverse(forward, a) && IsReverse(overrides, b) && r == a + b
  }

  /** One loop of an initialiser: the entries of `m`, reversed, on top of what is there. */
  method WriteReverse(start: SlugMap, m: SlugMap) returns (r: SlugMap)
    ensures exists own :: IsReverse(m, own) && r == start + own
  {
    r := start;
    ghost var own: SlugMap := map[];
    var todo := m.Keys;
    while todo != {}
      invariant todo <= m.Keys
      invariant forall c :: c in m && c !in todo ==> m[c] in own
      invariant forall s :: s in own ==> own[s] in m && m[own[s]] == s
      invariant r == start + own
      decreases todo
    {
      var c :| c in todo;
      r := r[m[c] := c];
      own := own[m[c] := c];
      todo := todo - {c};
    }
  }

  /** The initialiser of capabilityByDisplaySlug: every entry of one map, then the overrides on top. */
  method BuildReverse(forward: SlugMap, overrides: SlugMap) returns (r: SlugMap)
    ensures IsReverseWithOverrides(forward, overrides, r)
    ensures Injective(forward) && Injective(overrides) ==> r == Invert(forward) + Invert(overrides)
  {
    r := WriteReverse(map[], forward);
    ghost var a :| IsReverse(forward, a) && r == map[] + a;
    r := WriteReverse(r, overrides);
    ghost var b :| IsReverse(overrides, b) && r == map[] + a + b;
    assert map[] + a == a;
    if Injective(forward) && Injective(overrides) {
      ReverseIsInvert(forward, a);
      ReverseIsInvert(overrides, b);
    }
  }

  lemma ReverseIsInvert(m: SlugMap, r: SlugMap)
    requires Injective(m) && IsReverse(m, r)
    ensures r == Invert(m)
  {
    assert forall s :: s in r ==> r[s] == Invert(m)[s];
  }

  /** `c` is visited and writes the slug. */
  predicate Writes(m: SlugMap, order: seq<string>, s: string, c: string) {
    c in order && c in m && m[c] == s
  }

  lemma {:induction false} ReverseAt(m: SlugMap, order: seq<string>, s: string)
    ensures var r := ReverseInOrder(m, order); s in r ==> Writes(m, order, s, r[s])
    ensures forall c :: Writes(m, order, s, c) ==> s in ReverseInOrder(m, order)
  {
    if order != [] {
      var init, last := order[..|order| - 1], order[|order| - 1];
      ReverseAt(m, init, s);
      assert order == init + [last];
      assert forall c :: Writes(m, order, s, c) ==> c == last || Writes(m, init, s, c);
    }
  }

  /** Whoever is visited last, and is the only one of those to write its slug, stays in the table. */
  lemma {:induction false} LastWritersStay(m: SlugMap, first: seq<string>, winners: seq<string>, c: string)
    requires c in m && c in winners && forall k :: Writes(m, winners, m[c], k) ==> k == c
    ensures var r := ReverseInOrder(m, first + winners); m[c] in r && r[m[c]] == c
  {
    var n := |winners| - 1;
    var init, last := winners[..n], winners[n];
    assert winners == init + [last];
    assert (first + winners)[..|first| + n] == first + init;
    if c != last {
      assert c in init && !Writes(m, winners, m[c], last);
      assert forall k :: Writes(m, init, m[c], k) ==> Writes(m, winners, m[c], k);
      LastWritersStay(m, first, init, c);
    }
  }

  lemma SomeOrderReverses(m: SlugMap, order: seq<string>)
    requires Enumerates(order, m.Keys)
    ensures IsReverse(m, ReverseInOrder(m, order))
  {
    var r := ReverseInOrder(m, order);
    forall s ensures s in r <==> s in m.Values {
      ReverseAt(m, order, s);
      if s in m.Values {
        var c :| c in m && m[c] == s;
        assert Writes(m, order, s, c);
      }
    }
    forall s | s in r ensures r[s] in m && m[r[s]] == s {
      ReverseAt(m, order, s);
    }
  }

  /** The capabilities a table drops, and then those it keeps. */
  lemma LosersFirst(m: SlugMap, r: SlugMap) returns (first: seq<string>, winners: seq<string>)
    requires IsReverse(m, r)
    ensures Enumerates(first + winners, m.Keys) && Enumerates(winners, r.Values)
  {
    var kept := r.Values;
    var dropped := m.Keys - kept;
    assert kept <= m.Keys && dropped + kept == m.Keys && dropped !! kept;
    first, winners := SomeOrder(dropped), SomeOrder(kept);
    EnumeratesBoth(first, dropped, winners, kept);
  }

  /** Every such table is left by some iteration order. */
  lemma OrderLeaving(m: SlugMap, r: SlugMap) returns (order: seq<string>)
    requires IsReverse(m, r)
    ensures Enumerates(order, m.Keys) && ReverseInOrder(m, order) == r
  {
    var first, winners := LosersFirst(m, r);
    order := first + winners;
    SomeOrderReverses(m, order);
    forall s | s in r ensures ReverseInOrder(m, order)[s] == r[s] {
      KeptWriterStays(m, r, first, winners, s);
    }
  }

  lemma KeptWriterStays(m: SlugMap, r: SlugMap, first: seq<string>, winners: seq<string>, s: string)
    requires IsReverse(m, r) && Enumerates(winners, r.Values) && s in r
    ensures var o := ReverseInOrder(m, first + winners); s in o && o[s] == r[s]
  {
    forall k | Writes(m, winners, s, k) ensures k == r[s] {
      var s' :| s' in r && r[s'] == k;
    }
    LastWritersStay(m, first, winners, r[s]);
  }

  /** The tables the iteration orders leave are exactly those in which every slug keeps one of its writers. */
  lemma ReverseIsSomeOrder(m: SlugMap, r: SlugMap)
    ensures IsReverse(m, r) <==> exists order :: Enumerates(order, m.Keys) && ReverseInOrder(m, order) == r
  {
    if IsReverse(m, r) {
      var order := OrderLeaving(m, r);
    }
    if order :| Enumerates(order, m.Keys) && ReverseInOrder(m, order) == r {
      SomeOrderReverses(m, order);
    }
  }

  /** Every iteration order leaves the same table. */
  ghost predicate OrderIndependent(m: SlugMap) {
    forall o, o' :: Enumerates(o, m.Keys) && Enumerates(o', m.Keys) ==> ReverseInOrder(m, o) == ReverseInOrder(m, o')
  }

  /** Two capabilities with one slug: some order keeps the one, some order the other. */
  lemma SharedSlugDepends(m: SlugMap, a: string, b: string)
    requires a in m && b in m && m[a] == m[b] && a != b
    ensures !OrderIndependent(m)
  {
    var r := ReverseInOrder(m, SomeOrder(m.Keys));
    SomeOrderReverses(m, SomeOrder(m.Keys));
    var x, y := r[m[a] := a], r[m[a] := b];
    var o := OrderLeaving(m, x);
    var o' := OrderLeaving(m, y);
    assert x[m[a]] != y[m[a]];
  }

  /** The reverse table is the same for every iteration order exactly when no two capabilities share a slug. */
  lemma ReverseOrderIndependent(m: SlugMap)
    ensures OrderIndependent(m) <==> Injective(m)
  {
    if Injective(m) {
      forall o | Enumerates(o, m.Keys) ensures ReverseInOrder(m, o) == Invert(m) {
        SomeOrderReverses(m, o);
        ReverseIsInvert(m, ReverseInOrder(m, o));
      }
    } else {
      var a, b :| a in m && b in m && m[a] == m[b] && a != b;
      SharedSlugDepends(m, a, b);
    }
  }

  /**
   With overrides written last, a plain capability survives the round trip exactly when no override reuses
   its slug.
   */
  lemma RoundTripWithOverrides(forward: SlugMap, overrides: SlugMap, c: string)
    requires Injective(forward) && Injective(overrides)
    ensures c in overrides ==> (Invert(forward) + Invert(overrides))[overrides[c]] == c
    ensures c in forward ==>
      ((Invert(forward) + Invert(overrides))[forward[c]] == c
       <==> forall o :: o in overrides && overrides[o] == forward[c] ==> o == c)
  {
    if c in overrides {
      assert overrides[c] in Invert(overrides);
    }
    if c in forward {
      var s := forward[c];
      assert s in Invert(forward) && Invert(forward)[s] == c;
      assert forall o :: o in overrides && overrides[o] == s ==> s in Invert(overrides) && Invert(overrides)[s] == o;
    }
  }

  // ------------------------------------------------------- the connector's tables

  datatype SlugTables = SlugTables(
    project: SlugMap,          // projectCapabilities
    defaultWorkbook: SlugMap,  // projectDefaultWorkbookCapabilities
    workbook: SlugMap,         // workbookCapabilities
    view: SlugMap,             // viewCapabilities
    byDisplaySlug: SlugMap,    // capabilityByDisplaySlug
    byDefaultSlug: SlugMap)    // capabilityByWorkbookDefaultSlug

  predicate SlugsColonFree(m: SlugMap) {
    forall c :: c in m ==> ColonFree(m[c])
  }

  /** Translating a capability to its slug at sync and back at provisioning returns the capability. */
  predicate TranslatesBack(m: SlugMap, reverse: SlugMap) {
    forall c :: c in m ==> m[c] in reverse && reverse[m[c]] == c
  }

  /** No two capabilities of a table share a slug, and slugs can be printed into entitlement ids. */
  ghost predicate Printable(t: SlugTables) {
    && Injective(t.project) && Injective(t.defaultWorkbook) && Injective(t.workbook) && Injective(t.view)
    && SlugsColonFree(t.project) && SlugsColonFree(t.defaultWorkbook)
    && SlugsColonFree(t.workbook) && SlugsColonFree(t.view)
  }

  /** Every table translates back. */
  ghost predicate Reversible(t: SlugTables) {
    && TranslatesBack(t.project, t.byDisplaySlug)
    && TranslatesBack(t.workbook, t.byDisplaySlug)
    && TranslatesBack(t.view, t.byDisplaySlug)
    && TranslatesBack(t.defaultWorkbook, t.byDefaultSlug)
    && t.byDefaultSlug.Keys == t.defaultWorkbook.Values
    // A "Workbook / ..." slug must miss the generic table, so that it reaches the second translation unchanged.
    && t.byDefaultSlug.Keys !! t.byDisplaySlug.Keys
  }

  /** What sync and provisioning need the six tables to satisfy together. */
  ghost predicate Coherent(t: SlugTables) {
    && Printable(t)
    && Reversible(t)
    && t.defaultWorkbook.Keys == t.workbook.Keys
    && t.view.Keys <= t.workbook.Keys
  }

  lemma PrefixedInjective(prefix: string, m: SlugMap)
    requires Injective(m)
    ensures Injective(Prefixed(prefix, m))
  {
    forall a, b | a in m && b in m && prefix + m[a] == prefix + m[b] ensures a == b {
      assert (prefix + m[a])[|prefix|..] == m[a];
      assert (prefix + m[b])[|prefix|..] == m[b];
    }
  }

  function BuildTables(all: SlugMap, overrides: SlugMap, prefix: string,
                       projectKeys: seq<string>, workbookKeys: seq<string>, viewKeys: seq<string>): (t: SlugTables)
    requires Injective(all) && Injective(overrides) && forall k :: k in workbookKeys ==> k in all
  {
    var workbook := Picked(all, workbookKeys);
    PrefixedInjective(prefix, workbook);
    var defaults := Prefixed(prefix, workbook);
    SlugTables(
      Overridden(Picked(all, projectKeys), overrides), defaults, workbook, Picked(all, viewKeys),
      Invert(all) + Invert(overrides), Invert(defaults))
  }

  /** The two tables of a project's default permissions. */
  method InitDefaults(prefix: string, workbook: SlugMap) returns (defaults: SlugMap, byDefaultSlug: SlugMap)
    requires Injective(workbook)
    ensures defaults == Prefixed(prefix, workbook)
    ensures Injective(defaults) && byDefaultSlug == Invert(defaults)
  {
    defaults := PrefixTable(prefix, workbook);
    PrefixedInjective(prefix, workbook);
    byDefaultSlug := WriteReverse(map[], defaults);
    ghost var own :| IsReverse(defaults, own) && byDefaultSlug == map[] + own;
    assert map[] + own == own;
    ReverseIsInvert(defaults, own);
  }

  /** The initialisers, one after the other, build these tables. */
  method InitTables(all: SlugMap, overrides: SlugMap, prefix: string,
                    projectKeys: seq<string>, workbookKeys: seq<string>, viewKeys: seq<string>)
    returns (t: SlugTables)
    requires Injective(all) && Injective(overrides) && forall k :: k in workbookKeys ==> k in all
    ensures t == BuildTables(all, overrides, prefix, projectKeys, workbookKeys, viewKeys)
  {
    var project := PickProjectCapabilities(all, overrides, projectKeys);
    var workbook := PickCapabilities(all, workbookKeys);
    var view := PickCapabilities(all, viewKeys);
    PickedInjectiveOnly(all, workbookKeys);
    var defaults, byDefaultSlug := InitDefaults(prefix, workbook);
    var byDisplaySlug := BuildReverse(all, overrides);
    t := SlugTables(project, defaults, workbook, view, byDisplaySlug, byDefaultSlug);
  }

  /**
   Which slug each capability is shown under: on projects the override where there is one and otherwise the
   general slug, on workbooks and views the general slug, and behind the prefix among a project's defaults.
   No table knows any other capability.
   */
  lemma ShownSlugs(all: SlugMap, overrides: SlugMap, prefix: string,
                   projectKeys: seq<string>, workbookKeys: seq<string>, viewKeys: seq<string>, c: string)
    requires Injective(all) && Injective(overrides)
    requires forall k :: k in projectKeys || k in workbookKeys || k in viewKeys ==> k in all
    ensures var t := BuildTables(all, overrides, prefix, projectKeys, workbookKeys, viewKeys);
      && (c in t.project <==> c in projectKeys) && (c in t.workbook <==> c in workbookKeys)
      && (c in t.defaultWorkbook <==> c in workbookKeys) && (c in t.view <==> c in viewKeys)
      && (c in projectKeys && c in overrides ==> t.project[c] == overrides[c])
      && (c in projectKeys && c !in overrides ==> t.project[c] == all[c])
      && (c in workbookKeys ==> t.workbook[c] == all[c] && t.defaultWorkbook[c] == prefix + all[c])
      && (c in viewKeys ==> t.view[c] == all[c])
  {
  }

  /** And which capability a slug stands for when it comes back; slugs that no table shows are unknown. */
  lemma ReadSlugs(all: SlugMap, overrides: SlugMap, prefix: string,
                  projectKeys: seq<string>, workbookKeys: seq<string>, viewKeys: seq<string>, s: string, c: string)
    requires Injective(all) && Injective(overrides)
    requires forall k :: k in projectKeys || k in workbookKeys || k in viewKeys ==> k in all
    ensures var t := BuildTables(all, overrides, prefix, projectKeys, workbookKeys, viewKeys);
      && (s in t.byDisplaySlug && t.byDisplaySlug[s] == c <==>
            || (c in overrides && overrides[c] == s)
            || (c in all && all[c] == s && forall o :: o in overrides ==> overrides[o] != s))
      && (s in t.byDefaultSlug && t.byDefaultSlug[s] == c <==> c in workbookKeys && s == prefix + all[c])
  {
    var defaults := Prefixed(prefix, Picked(all, workbookKeys));
    PickedInjectiveOnly(all, workbookKeys);
    PrefixedInjective(prefix, Picked(all, workbookKeys));
    InvertReads(all, s, c);
    InvertReads(overrides, s, c);
    InvertReads(defaults, s, c);
  }

  lemma InvertReads(m: SlugMap, s: string, c: string)
    requires Injective(m)
    ensures s in Invert(m) && Invert(m)[s] == c <==> c in m && m[c] == s
    ensures s in Invert(m) <==> exists o :: o in m && m[o] == s
  {
  }

  lemma PickedInjectiveOnly(all: SlugMap, keys: seq<string>)
    requires Injective(all) && forall k :: k in keys ==> k in all
    ensures Injective(Picked(all, keys))
  {
  }

  lemma BuiltPrintable(all: SlugMap, overrides: SlugMap, prefix: string,
                       projectKeys: seq<string>, workbookKeys: seq<string>, viewKeys: seq<string>)
    requires Injective(all) && Injective(overrides)
    requires forall k :: k in projectKeys || k in workbookKeys ==> k in all
    requires forall k :: k in viewKeys ==> k in all
    requires forall c, o :: c in all && o in overrides && overrides[o] == all[c] ==> o == c
    requires ColonFree(prefix) && SlugsColonFree(all) && SlugsColonFree(overrides)
    ensures Printable(BuildTables(all, overrides, prefix, projectKeys, workbookKeys, viewKeys))
  {
    PickedInjective(all, workbookKeys);
    PickedInjective(all, viewKeys);
    ProjectCoherent(all, overrides, projectKeys);
    DefaultsCoherent(prefix, Picked(all, workbookKeys));
  }

  lemma BuiltReversible(all: SlugMap, overrides: SlugMap, prefix: string,
                        projectKeys: seq<string>, workbookKeys: seq<string>, viewKeys: seq<string>)
    requires Injective(all) && Injective(overrides) && ColonFree(prefix) && SlugsColonFree(all)
    requires forall k :: k in projectKeys || k in workbookKeys ==> k in all
    requires forall k :: k in viewKeys ==> k in all
    requires forall c, o :: c in all && o in overrides && overrides[o] == all[c] ==> o == c
    requires forall c :: c in all ==> !(prefix <= all[c])
    requires forall o :: o in overrides ==> !(prefix <= overrides[o])
    ensures Reversible(BuildTables(all, overrides, prefix, projectKeys, workbookKeys, viewKeys))
  {
    ReverseTranslates(all, overrides);
    ReverseUnprefixed(all, overrides, prefix);
    PickedTranslates(all, workbookKeys, Invert(all) + Invert(overrides));
    PickedTranslates(all, viewKeys, Invert(all) + Invert(overrides));
    OverriddenTranslates(Picked(all, projectKeys), all, overrides, Invert(all) + Invert(overrides));
    PickedInjective(all, workbookKeys);
    DefaultsCoherent(prefix, Picked(all, workbookKeys));
  }

  /**
   Any injective tables are coherent when no override reuses another capability's slug and no
   generic slug starts with the prefix of the project defaults.
   */
  lemma BuildTablesCoherent(all: SlugMap, overrides: SlugMap, prefix: string,
                            projectKeys: seq<string>, workbookKeys: seq<string>, viewKeys: seq<string>)
    requires Injective(all) && Injective(overrides)
    requires forall k :: k in projectKeys || k in workbookKeys ==> k in all
    requires forall k :: k in viewKeys ==> k in workbookKeys
    requires forall c, o :: c in all && o in overrides && overrides[o] == all[c] ==> o == c
    requires forall c :: c in all ==> !(prefix <= all[c])
    requires forall o :: o in overrides ==> !(prefix <= overrides[o])
    requires ColonFree(prefix) && SlugsColonFree(all) && SlugsColonFree(overrides)
    ensures Coherent(BuildTables(all, overrides, prefix, projectKeys, workbookKeys, viewKeys))
  {
    BuiltPrintable(all, overrides, prefix, projectKeys, workbookKeys, viewKeys);
    BuiltReversible(all, overrides, prefix, projectKeys, workbookKeys, viewKeys);
    BuiltKeys(all, overrides, prefix, projectKeys, workbookKeys, viewKeys);
  }

  lemma BuiltKeys(all: SlugMap, overrides: SlugMap, prefix: string,
                  projectKeys: seq<string>, workbookKeys: seq<string>, viewKeys: seq<string>)
    requires Injective(all) && Injective(overrides) && forall k :: k in workbookKeys ==> k in all
    requires forall k :: k in viewKeys ==> k in workbookKeys
    ensures var t := BuildTables(all, overrides, prefix, projectKeys, workbookKeys, viewKeys);
      t.defaultWorkbook.Keys == t.workbook.Keys && t.view.Keys <= t.workbook.Keys
  {
  }

  lemma OverriddenTranslates(own: SlugMap, all: SlugMap, overrides: SlugMap, reverse: SlugMap)
    requires TranslatesBack(all, reverse) && TranslatesBack(overrides, reverse)
    requires forall k :: k in own ==> k in all && own[k] == all[k]
    ensures TranslatesBack(Overridden(own, overrides), reverse)
  {
  }

  lemma PickedTranslates(all: SlugMap, keys: seq<string>, reverse: SlugMap)
    requires TranslatesBack(all, reverse) && forall k :: k in keys ==> k in all
    ensures TranslatesBack(Picked(all, keys), reverse)
  {
  }

  lemma ReverseTranslates(all: SlugMap, overrides: SlugMap)
    requires Injective(all) && Injective(overrides)
    requires forall c, o :: c in all && o in overrides && overrides[o] == all[c] ==> o == c
    ensures TranslatesBack(all, Invert(all) + Invert(overrides))
    ensures TranslatesBack(overrides, Invert(all) + Invert(overrides))
  {
    forall c | c in all ensures all[c] in Invert(all) {
      RoundTripWithOverrides(all, overrides, c);
    }
    forall o | o in overrides ensures overrides[o] in Invert(overrides) {
      RoundTripWithOverrides(all, overrides, o);
    }
  }

  lemma ReverseUnprefixed(all: SlugMap, overrides: SlugMap, prefix: string)
    requires Injective(all) && Injective(overrides)
    requires forall c :: c in all ==> !(prefix <= all[c])
    requires forall o :: o in overrides ==> !(prefix <= overrides[o])
    ensures forall s :: s in Invert(all) + Invert(overrides) ==> !(prefix <= s)
  {
  }

  lemma PickedInjective(all: SlugMap, keys: seq<string>)
    requires Injective(all) && SlugsColonFree(all) && forall k :: k in keys ==> k in all
    ensures Injective(Picked(all, keys)) && SlugsColonFree(Picked(all, keys))
  {
  }

  lemma DefaultsCoherent(prefix: string, workbook: SlugMap)
    requires Injective(workbook) && SlugsColonFree(workbook) && ColonFree(prefix)
    ensures var d := Prefixed(prefix, workbook);
      Injective(d) && SlugsColonFree(d) && TranslatesBack(d, Invert(d)) && Invert(d).Keys == d.Values
      && forall s :: s in Invert(d) ==> prefix <= s
  {
    PrefixedInjective(prefix, workbook);
    var d := Prefixed(prefix, workbook);
    assert forall c :: c in d ==> d[c] in Invert(d);
  }

  lemma ProjectCoherent(all: SlugMap, overrides: SlugMap, keys: seq<string>)
    requires Injective(all) && Injective(overrides) && SlugsColonFree(all) && SlugsColonFree(overrides)
    requires forall k :: k in keys ==> k in all
    requires forall c, o :: c in all && o in overrides && overrides[o] == all[c] ==> o == c
    ensures var p := Overridden(Picked(all, keys), overrides); Injective(p) && SlugsColonFree(p)
  {
  }

  /** A left inverse of the table, read off a slug's length and last letter. */
  function CapabilityAt(length: nat, last: char): string {
    match length
    case 4 => if last == 'w' then "Read" else "ChangeHierarchy"
    case 6 => if last == 'e' then "Delete" else "Filter"
    case 8 => "WebAuthoring"
    case 9 => "Write"
    case 12 => "AddComment"
    case 13 => "ViewComments"
    case 15 => if last == 'h' then "ExtractRefresh" else "ChangePermissions"
    case 16 => if last == 'd' then "ShareView" else "RunExplainData"
    case 18 => if last == 'F' then "ExportImage" else "ViewUnderlyingData"
    case 20 => "ExportXml"
    case _ => "ExportData"
  }

  lemma SlugsIdentifyCapabilities(c: string)
    requires c in ALL_CAPABILITIES
    ensures ALL_CAPABILITIES[c] != ""
    ensures c == CapabilityAt(|ALL_CAPABILITIES[c]|, ALL_CAPABILITIES[c][|ALL_CAPABILITIES[c]| - 1])
  {
  }

  lemma SourceTablesInjective()
    ensures Injective(ALL_CAPABILITIES) && Injective(PROJECT_OVERRIDES)
  {
    forall a, b | a in ALL_CAPABILITIES && b in ALL_CAPABILITIES && ALL_CAPABILITIES[a] == ALL_CAPABILITIES[b]
      ensures a == b
    {
      SlugsIdentifyCapabilities(a);
      SlugsIdentifyCapabilities(b);
    }
  }

  function SourceTables(): SlugTables {
    SourceTablesInjective();
    BuildTables(ALL_CAPABILITIES, PROJECT_OVERRIDES, DEFAULT_PREFIX, PROJECT_KEYS, WORKBOOK_KEYS, VIEW_KEYS)
  }

  lemma ShortSlugColonFree(c: string)
    requires c in ALL_CAPABILITIES && |ALL_CAPABILITIES[c]| <= 15
    ensures ColonFree(ALL_CAPABILITIES[c])
  {
    assert ':' !in ALL_CAPABILITIES[c];
  }

  lemma LongSlugColonFree(c: string)
    requires c in ALL_CAPABILITIES && |ALL_CAPABILITIES[c]| > 15
    ensures ColonFree(ALL_CAPABILITIES[c])
  {
    assert ':' !in ALL_CAPABILITIES[c];
  }

  lemma SourceSlugColonFree(c: string)
    requires c in ALL_CAPABILITIES
    ensures ColonFree(ALL_CAPABILITIES[c])
  {
    if |ALL_CAPABILITIES[c]| <= 15 {
      ShortSlugColonFree(c);
    } else {
      LongSlugColonFree(c);
    }
  }

  lemma SourceSlugsColonFree()
    ensures SlugsColonFree(ALL_CAPABILITIES) && SlugsColonFree(PROJECT_OVERRIDES) && ColonFree(DEFAULT_PREFIX)
  {
    forall c | c in ALL_CAPABILITIES ensures ColonFree(ALL_CAPABILITIES[c]) {
      SourceSlugColonFree(c);
    }
  }

  /** No generic slug starts with "Workbook / ": the only ones as long start with another letter. */
  lemma SourceSlugsUnprefixed()
    ensures forall c :: c in ALL_CAPABILITIES ==> !(DEFAULT_PREFIX <= ALL_CAPABILITIES[c])
    ensures forall o :: o in PROJECT_OVERRIDES ==> !(DEFAULT_PREFIX <= PROJECT_OVERRIDES[o])
  {
    forall c | c in ALL_CAPABILITIES ensures !(DEFAULT_PREFIX <= ALL_CAPABILITIES[c]) {
      assert |ALL_CAPABILITIES[c]| < |DEFAULT_PREFIX| || ALL_CAPABILITIES[c][0] != DEFAULT_PREFIX[0];
    }
  }

  lemma SourceOverridesReuseNothing()
    ensures forall c, o :: c in ALL_CAPABILITIES && o in PROJECT_OVERRIDES ==>
      PROJECT_OVERRIDES[o] == ALL_CAPABILITIES[c] ==> o == c
  {
  }

  lemma SourceKeysKnown()
    ensures forall k :: k in PROJECT_KEYS || k in WORKBOOK_KEYS ==> k in ALL_CAPABILITIES
    ensures forall k :: k in VIEW_KEYS ==> k in WORKBOOK_KEYS
  {
  }

  /** All sixteen capabilities apply to workbooks, and all but five to views. */
  lemma SourceKeys(c: string)
    ensures c in PROJECT_KEYS <==> c in {"Read", "Write"}
    ensures c in WORKBOOK_KEYS <==> c in ALL_CAPABILITIES
    ensures c in VIEW_KEYS <==>
      c in ALL_CAPABILITIES && c !in {"Write", "RunExplainData", "ExportXml", "ExtractRefresh", "ChangeHierarchy"}
  {
  }

  lemma SourceShown(c: string)
    ensures var t := SourceTables();
      && (c in t.project <==> c in PROJECT_KEYS) && (c in t.workbook <==> c in WORKBOOK_KEYS)
      && (c in t.defaultWorkbook <==> c in WORKBOOK_KEYS) && (c in t.view <==> c in VIEW_KEYS)
    ensures c in PROJECT_KEYS || c in WORKBOOK_KEYS || c in VIEW_KEYS ==> c in ALL_CAPABILITIES
  {
    SourceTablesInjective();
    SourceKeysKnown();
    ShownSlugs(ALL_CAPABILITIES, PROJECT_OVERRIDES, DEFAULT_PREFIX, PROJECT_KEYS, WORKBOOK_KEYS, VIEW_KEYS, c);
  }

  /** Workbooks and views show the general slugs, and projects those behind "Workbook / " for their defaults. */
  lemma SourceSlugs(c: string, slug: string)
    requires c in ALL_CAPABILITIES && ALL_CAPABILITIES[c] == slug
    ensures var t := SourceTables();
      && (c in t.workbook ==> t.workbook[c] == slug)
      && (c in t.defaultWorkbook ==> t.defaultWorkbook[c] == "Workbook / " + slug)
      && (c in t.view ==> t.view[c] == slug)
      && (c in t.project ==> t.project[c] == if c in PROJECT_OVERRIDES then PROJECT_OVERRIDES[c] else slug)
  {
    SourceShown(c);
    SourceTablesInjective();
    SourceKeysKnown();
    ShownSlugs(ALL_CAPABILITIES, PROJECT_OVERRIDES, DEFAULT_PREFIX, PROJECT_KEYS, WORKBOOK_KEYS, VIEW_KEYS, c);
  }

  lemma IsViewAndPublish(m: SlugMap)
    requires forall c :: c in m <==> c in PROJECT_KEYS
    requires forall c :: c in m ==> m[c] == if c in PROJECT_OVERRIDES then PROJECT_OVERRIDES[c] else "View"
    ensures m == map["Read" := "View", "Write" := "Publish"]
  {
  }

  /** A project's own permissions are View and Publish. */
  lemma ProjectSlugs()
    ensures SourceTables().project == map["Read" := "View", "Write" := "Publish"]
  {
    var m := SourceTables().project;
    forall c ensures c in m <==> c in PROJECT_KEYS { SourceShown(c); }
    forall c | c in m ensures m[c] == if c in PROJECT_OVERRIDES then PROJECT_OVERRIDES[c] else "View" {
      SourceShown(c);
      SourceSlugs(c, ALL_CAPABILITIES[c]);
      if c !in PROJECT_OVERRIDES { PlainProjectSlug(c); }
    }
    IsViewAndPublish(m);
  }

  lemma PlainProjectSlug(c: string)
    requires c in PROJECT_KEYS && c !in PROJECT_OVERRIDES && c in ALL_CAPABILITIES
    ensures ALL_CAPABILITIES[c] == "View"
  {
    assert c == "Read";
  }

  lemma SourceTablesCoherent()
    ensures Coherent(SourceTables())
  {
    SourceTablesInjective();
    SourceSlugsColonFree();
    SourceSlugsUnprefixed();
    SourceOverridesReuseNothing();
    SourceKeysKnown();
    BuildTablesCoherent(
      ALL_CAPABILITIES, PROJECT_OVERRIDES, DEFAULT_PREFIX, PROJECT_KEYS, WORKBOOK_KEYS, VIEW_KEYS);
  }
}
