/**
 Purchased and consumed seats on the license resources: counted on the server per capped tier, and
 attached to all capped tiers or to none.
 */
module Seats {

  import opened Wrappers
  import opened Text
  import opened Sequences
  import opened Tableau
  import opened Roles

  /** The per-tier capacities of a site, as the optional texts the API returns. */
  datatype Capacities = Capacities(creator: Option<string>, explorer: Option<string>, viewer: Option<string>)

  /** licenseCapacity. */
  function LicenseCapacity(license: string, site: Option<Capacities>): Option<string> {
    if site.None? then None
    else if license == "Creator" then site.value.creator
    else if license == "Explorer" then site.value.explorer
    else if license == "Viewer" then site.value.viewer
    else None
  }

  /** capacitySeats: only a readable, positive capacity counts. */
  function CapacitySeats(capacity: Option<string>): (seats: Option<int>)
    ensures seats.Some? ==> 0 < seats.value <= MAX_INT64
  {
    if capacity.None? then None
    else
      var n := Atoi(TrimSpace(capacity.value));
      if n.None? || n.value <= 0 then None else n
  }

  /**
   Any printed number, with any padding, is read back if it is a positive 64-bit one, and gives no seats
   otherwise.
   */
  lemma CapacitySeatsPrinted(n: int, left: string, right: string)
    requires AllSpaces(left) && AllSpaces(right)
    ensures CapacitySeats(Some(left + Itoa(n) + right)) == if 0 < n <= MAX_INT64 then Some(n) else None
  {
    ItoaNotPadded(n);
    TrimPadded(left, Itoa(n), right);
    AtoiItoa(n);
  }

  predicate IsCapped(license: string, site: Option<Capacities>) {
    CapacitySeats(LicenseCapacity(license, site)).Some?
  }

  /** hasTierCapacity agrees with the per-tier test: it holds exactly when some license tier is capped. */
  method HasTierCapacity(site: Option<Capacities>) returns (some: bool)
    ensures some <==> exists l :: l in LICENSES && IsCapped(l, site)
  {
    if site.None? {
      return false;
    }
    var capacities := [site.value.creator, site.value.explorer, site.value.viewer];
    var names := [LICENSES[0], LICENSES[1], LICENSES[2]];
    assert forall i :: 0 <= i < 3 ==> names[i] in LICENSES && LicenseCapacity(names[i], site) == capacities[i];
    for i := 0 to |capacities|
      invariant forall j :: 0 <= j < i ==> !IsCapped(names[j], site)
    {
      if CapacitySeats(capacities[i]).Some? {
        assert IsCapped(names[i], site);
        return true;
      }
    }
    assert !IsCapped(names[0], site) && !IsCapped(names[1], site) && !IsCapped(names[2], site);
    return false;
  }

  /** The totalAvailable text the server reports for a filter; None stands for a failed request. */
  type TotalByFilter = RoleFilter -> Option<string>

  /** client.CountUsers. */
  function CountUsers(total: TotalByFilter, filter: RoleFilter): Option<int> {
    var reported := total(filter);
    if reported.None? then None else Atoi(reported.value)
  }

  /** The count for a tier: of the roles the server's filter understands. */
  function TierCount(total: TotalByFilter, license: string): Option<int> {
    CountUsers(total, CountFilter(license))
  }

  /** Every tier has some role the filter understands, so no capped tier is skipped. */
  lemma TiersFilterable(license: string)
    requires license in LICENSES
    ensures Filter(Supported(), RolesPerLicense(license)) != []
  {
  }

  /** countConsumedByTier; None stands for the error of the first count that fails. */
  method CountConsumedByTier(site: Option<Capacities>, total: TotalByFilter)
    returns (consumed: Option<map<string, int>>)
    ensures consumed.Some? <==> forall l :: l in LICENSES && IsCapped(l, site) ==> TierCount(total, l).Some?
    ensures consumed.Some? ==> forall l :: l in consumed.value <==> l in LICENSES && IsCapped(l, site)
    ensures consumed.Some? ==> forall l :: l in consumed.value ==> TierCount(total, l) == Some(consumed.value[l])
  {
    var counts: map<string, int> := map[];
    for i := 0 to |LICENSES|
      invariant forall l :: l in counts <==> l in LICENSES[..i] && IsCapped(l, site)
      invariant forall l :: l in counts ==> TierCount(total, l) == Some(counts[l])
    {
      var license := LICENSES[i];
      assert license in LICENSES && LICENSES[..i + 1] == LICENSES[..i] + [license];
      if CapacitySeats(LicenseCapacity(license, site)).None? {
        continue;
      }
      var filterable := FilterableRoles(RolesPerLicense(license));
      TiersFilterable(license);
      if |filterable| == 0 {
        continue;
      }
      var count := CountUsers(total, SiteRoleFilter(filterable));
      if count.None? {
        assert IsCapped(license, site) && TierCount(total, license).None?;
        return None;
      }
      counts := counts[license := count.value];
    }
    assert LICENSES[..|LICENSES|] == LICENSES;
    return Some(counts);
  }

  /** A license resource with its optional (purchased, consumed) seats. */
  datatype ListedLicense = ListedLicense(license: string, seats: Option<(int, int)>)

  /** Every count the listing needs succeeded, and there is one to make. */
  ghost predicate AllCounted(site: Option<Capacities>, total: TotalByFilter) {
    && (exists l :: l in LICENSES && IsCapped(l, site))
    && (forall l :: l in LICENSES && IsCapped(l, site) ==> TierCount(total, l).Some?)
  }

  /** The seats a tier shows: none unless all capped tiers could be counted. */
  ghost predicate ShowsSeats(r: ListedLicense, site: Option<Capacities>, total: TotalByFilter) {
    r.seats ==
      if AllCounted(site, total) && IsCapped(r.license, site) && TierCount(total, r.license).Some?
      then Some((CapacitySeats(LicenseCapacity(r.license, site)).value, TierCount(total, r.license).value))
      else None
  }

  // ------------------------------------------------------- seats, by what the server sends

  /** The text of a capacity holds this positive number, with any padding. */
  predicate Buys(capacity: Option<string>, n: int) {
    capacity.Some? && Atoi(TrimSpace(capacity.value)) == Some(n) && n > 0
  }

  /** The request under the filter succeeds, and what it reports is a number. */
  predicate CanCount(total: TotalByFilter, filter: RoleFilter) {
    total(filter).Some? && Atoi(total(filter).value).Some?
  }

  /** The three tiers that may be capped: their capacities, and the filters they are counted with. */
  function Tiers(site: Capacities): seq<(string, Option<string>, RoleFilter)> {
    [("Creator", site.creator, RoleIn(["Creator", "SiteAdministratorCreator", "ServerAdministrator"])),
     ("Explorer", site.explorer, RoleIn(["Explorer", "SiteAdministratorExplorer", "ExplorerCanPublish"])),
     ("Viewer", site.viewer, RoleEq("Viewer"))]
  }

  /** The tier has a readable, positive capacity. */
  ghost predicate IsLimited(site: Capacities, i: nat)
    requires i < 3
  {
    exists n :: Buys(Tiers(site)[i].1, n)
  }

  /** The users of some limited tier cannot be counted. */
  ghost predicate SomeCountFails(site: Capacities, total: TotalByFilter) {
    exists i :: 0 <= i < 3 && IsLimited(site, i) && !CanCount(total, Tiers(site)[i].2)
  }

  lemma TierIs(site: Capacities, total: TotalByFilter, i: nat)
    requires i < 3
    ensures var (license, capacity, filter) := Tiers(site)[i];
      && license == LICENSES[i] && license in LICENSES && LicenseCapacity(license, Some(site)) == capacity
      && (IsCapped(license, Some(site)) <==> IsLimited(site, i))
      && (TierCount(total, license).Some? <==> CanCount(total, filter))
      && (CanCount(total, filter) ==> TierCount(total, license) == Atoi(total(filter).value))
      && (forall n :: Buys(capacity, n) <==> CapacitySeats(capacity) == Some(n))
  {
    CountFiltersSent();
    var capacity := Tiers(site)[i].1;
    if CapacitySeats(capacity).Some? {
      assert Buys(capacity, CapacitySeats(capacity).value);
    }
  }

  /** A capped tier is one of the three. */
  lemma CappedTier(site: Capacities, license: string) returns (i: nat)
    requires license in LICENSES && IsCapped(license, Some(site))
    ensures i < 3 && LICENSES[i] == license
  {
    i :| i < |LICENSES| && LICENSES[i] == license;
  }

  lemma AllCountedMeans(site: Capacities, total: TotalByFilter)
    ensures AllCounted(Some(site), total)
      <==> (exists i :: 0 <= i < 3 && IsLimited(site, i)) && !SomeCountFails(site, total)
  {
    forall i | 0 <= i < 3
      ensures IsCapped(LICENSES[i], Some(site)) <==> IsLimited(site, i)
      ensures TierCount(total, LICENSES[i]).Some? <==> CanCount(total, Tiers(site)[i].2)
      ensures LICENSES[i] in LICENSES
    {
      TierIs(site, total, i);
    }
    forall l | l in LICENSES && IsCapped(l, Some(site)) ensures exists i :: 0 <= i < 3 && LICENSES[i] == l {
      var i := CappedTier(site, l);
    }
  }

  /** The tier shows its capacity and the count reported under its filter; Unlicensed, the last, shows none. */
  ghost predicate ShowsReported(seats: Option<(int, int)>, site: Capacities, total: TotalByFilter, i: int) {
    forall n, k ::
      seats == Some((n, k)) <==>
        (0 <= i < 3 && Buys(Tiers(site)[i].1, n)
         && total(Tiers(site)[i].2).Some? && Atoi(total(Tiers(site)[i].2).value) == Some(k))
  }

  /**
   The seats of a listed tier, over the server's own texts: as reported, unless for some limited tier the
   request under its filter fails or reports no number; then no tier shows any.
   */
  lemma SeatsShown(r: ListedLicense, site: Capacities, total: TotalByFilter, i: nat)
    requires i < 4 && r.license == LICENSES[i] && ShowsSeats(r, Some(site), total)
    ensures SomeCountFails(site, total) ==> r.seats == None
    ensures !SomeCountFails(site, total) ==> ShowsReported(r.seats, site, total, i)
  {
    AllCountedMeans(site, total);
    if i < 3 {
      TierIs(site, total, i);
    }
  }

  /** Without the site's answer no tier shows seats. */
  lemma NoSiteNoSeats(r: ListedLicense, total: TotalByFilter)
    requires ShowsSeats(r, None, total)
    ensures r.seats == None
  {
  }

  /** licenseBuilder.List; `site` is None when the site request failed. */
  method List(site: Option<Capacities>, total: TotalByFilter) returns (rv: seq<ListedLicense>)
    ensures |rv| == |LICENSES|
    ensures forall i :: 0 <= i < |rv| ==> rv[i].license == LICENSES[i] && ShowsSeats(rv[i], site, total)
    ensures site.None? || SomeCountFails(site.value, total) ==> forall i :: 0 <= i < |rv| ==> rv[i].seats == None
    ensures site.Some? && !SomeCountFails(site.value, total) ==>
      forall i :: 0 <= i < |rv| ==> ShowsReported(rv[i].seats, site.value, total, i)
  {
    var consumed: map<string, int> := map[];
    var countOk := false;
    var capped := HasTierCapacity(site);
    if capped {
      var counted := CountConsumedByTier(site, total);
      if counted.Some? {
        consumed, countOk := counted.value, true;
      }
    }
    assert countOk <==> AllCounted(site, total);
    rv := [];
    for i := 0 to |LICENSES|
      invariant |rv| == i
      invariant forall j :: 0 <= j < i ==> rv[j].license == LICENSES[j] && ShowsSeats(rv[j], site, total)
    {
      var license := LICENSES[i];
      assert license in LICENSES;
      var purchased := if countOk then LicenseCapacity(license, site) else None;
      var seats := CapacitySeats(purchased);
      var used := if license in consumed then consumed[license] else 0;
      rv := rv + [ListedLicense(license, if seats.None? then None else Some((seats.value, used)))];
    }
    forall i | 0 <= i < |rv|
      ensures site.None? || SomeCountFails(site.value, total) ==> rv[i].seats == None
      ensures site.Some? && !SomeCountFails(site.value, total) ==> ShowsReported(rv[i].seats, site.value, total, i)
    {
      if site.Some? { SeatsShown(rv[i], site.value, total, i); } else { NoSiteNoSeats(rv[i], total); }
    }
  }

  /** For the one filter a tier is counted with, the server reports as total how many users pass it. */
  predicate CountsHonestly(total: TotalByFilter, license: string, users: seq<UserRecord>) {
    var f := CountFilter(license);
    total(f) == Some(Itoa(|Filter(Passes(f), users)|))
  }

  function HasUnfilterableRole(roles: seq<string>): UserRecord -> bool {
    (u: UserRecord) => u.siteRole in roles && u.siteRole == "SiteAdministrator"
  }

  lemma {:induction false} CountsSplit(roles: seq<string>, users: seq<UserRecord>)
    ensures |Filter(HasRole(roles), users)|
      == |Filter(HasRole(Filter(Supported(), roles)), users)| + |Filter(HasUnfilterableRole(roles), users)|
  {
    if users != [] {
      CountsSplit(roles, users[..|users| - 1]);
      FilterMembers(Supported(), roles);
    }
  }

  /** Two tests that agree keep the same elements. */
  lemma {:induction false} FilterAgrees<T(!new)>(p: T -> bool, q: T -> bool, s: seq<T>)
    requires forall x :: p(x) == q(x)
    ensures Filter(p, s) == Filter(q, s)
  {
    if s != [] {
      FilterAgrees(p, q, s[..|s| - 1]);
    }
  }

  /**
   A tier's consumed count is the number of license grants a full walk emits, less the users holding a role
   the filter does not know.
   */
  lemma ConsumedIsGrants(license: string, users: seq<UserRecord>, total: TotalByFilter)
    requires |users| <= MAX_INT64 && CountsHonestly(total, license, users)
    ensures TierCount(total, license)
      == Some(LicenseCount(license, users) - |Filter(HasUnfilterableRole(RolesPerLicense(license)), users)|)
  {
    var roles := RolesPerLicense(license);
    var filterable := Filter(Supported(), roles);
    var filter := SiteRoleFilter(filterable);
    FilterAgrees(Passes(filter), HasRole(filterable), users);
    FilterKeepsAll(Passes(filter), users);
    CountsSplit(roles, users);
    AtoiItoa(|Filter(Passes(filter), users)|);
  }
}
