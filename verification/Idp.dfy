/**
 Which identity provider configuration a new user gets.
 */
module Idp {

  import opened Wrappers
  import opened Sequences

  datatype IdpConfiguration = IdpConfiguration(id: string, name: string, authSetting: string, enabled: bool)

  /** Go's strings.ToUpper and strings.ToLower; nothing about them is assumed. */
  datatype CaseMapping = CaseMapping(upper: string -> string, lower: string -> string)

  /** The configurations request: its answer, a 404 on servers without the endpoint, or another error. */
  datatype Listing = Configurations(configs: seq<IdpConfiguration>) | EndpointMissing | RequestFailed

  /** The chosen configuration id ("" for the site default), or an error. */
  type Selection = Option<string>

  const ALLOWED_AUTH_SETTINGS: seq<string> := ["SAML", "OPENID"]

  /** Enabled, and of a kind that user provisioning supports. */
  function Selectable(m: CaseMapping): IdpConfiguration -> bool {
    (c: IdpConfiguration) => c.enabled && m.upper(c.authSetting) in ALLOWED_AUTH_SETTINGS
  }

  predicate Matches(m: CaseMapping, name: string, c: IdpConfiguration) {
    c.enabled && m.lower(c.name) == m.lower(name)
  }

  method IsAllowedAuthSetting(m: CaseMapping, authSetting: string) returns (allowed: bool)
    ensures allowed <==> m.upper(authSetting) in ALLOWED_AUTH_SETTINGS
  {
    var upper := m.upper(authSetting);
    for i := 0 to |ALLOWED_AUTH_SETTINGS|
      invariant upper !in ALLOWED_AUTH_SETTINGS[..i]
    {
      if upper == ALLOWED_AUTH_SETTINGS[i] {
        return true;
      }
    }
    return false;
  }

  method ListEnabledIdpConfigurations(m: CaseMapping, configs: seq<IdpConfiguration>)
    returns (enabled: seq<IdpConfiguration>)
    ensures enabled == Filter(Selectable(m), configs)
  {
    enabled := [];
    for i := 0 to |configs|
      invariant enabled == Filter(Selectable(m), configs[..i])
    {
      FilterMore(Selectable(m), configs[..i], configs[i]);
      assert configs[..i] + [configs[i]] == configs[..i + 1];
      var allowed := IsAllowedAuthSetting(m, configs[i].authSetting);
      if configs[i].enabled && allowed {
        enabled := enabled + [configs[i]];
      }
    }
    assert configs[..|configs|] == configs;
  }

  ghost predicate IsFirst(m: CaseMapping, configs: seq<IdpConfiguration>, name: string, i: int) {
    0 <= i < |configs| && Matches(m, name, configs[i]) && forall j :: 0 <= j < i ==> !Matches(m, name, configs[j])
  }

  /** The first enabled configuration of that name, ignoring case; it need not be SAML or OPENID. */
  method FindIdpConfigurationByName(m: CaseMapping, configs: seq<IdpConfiguration>, name: string)
    returns (found: Option<IdpConfiguration>)
    ensures found.None? <==> forall c :: c in configs ==> !Matches(m, name, c)
    ensures found.Some? ==> exists i :: IsFirst(m, configs, name, i) && found.value == configs[i]
  {
    for i := 0 to |configs|
      invariant forall j :: 0 <= j < i ==> !Matches(m, name, configs[j])
    {
      if configs[i].enabled && m.lower(configs[i].name) == m.lower(name) {
        assert configs[i] in configs && IsFirst(m, configs, name, i);
        return Some(configs[i]);
      }
    }
    return None;
  }

  /** What selectIDPConfiguration may return for a requested name ("" for none). */
  ghost predicate Selects(m: CaseMapping, listing: Listing, name: string, s: Selection) {
    if name != "" then
      s == match listing
           case Configurations(configs) => FirstNamed(m, configs, name)
           case EndpointMissing => None
           case RequestFailed => None
    else
      s == match listing
           case Configurations(configs) => Unnamed(Filter(Selectable(m), configs))
           case EndpointMissing => Some("")
           case RequestFailed => None
  }

  function FirstNamed(m: CaseMapping, configs: seq<IdpConfiguration>, name: string): Selection {
    if configs == [] then None
    else if Matches(m, name, configs[0]) then Some(configs[0].id)
    else FirstNamed(m, configs[1..], name)
  }

  function Unnamed(enabled: seq<IdpConfiguration>): Selection {
    if |enabled| == 0 then Some("") else if |enabled| == 1 then Some(enabled[0].id) else None
  }

  lemma {:induction false} FirstNamedAt(m: CaseMapping, configs: seq<IdpConfiguration>, name: string, i: nat)
    requires IsFirst(m, configs, name, i)
    ensures FirstNamed(m, configs, name) == Some(configs[i].id)
  {
    if i > 0 {
      FirstNamedAt(m, configs[1..], name, i - 1);
    }
  }

  lemma {:induction false} FirstNamedNone(m: CaseMapping, configs: seq<IdpConfiguration>, name: string)
    requires forall c :: c in configs ==> !Matches(m, name, c)
    ensures FirstNamed(m, configs, name) == None
  {
    if configs != [] {
      FirstNamedNone(m, configs[1..], name);
    }
  }

  /** selectIDPConfiguration. */
  method SelectIdpConfiguration(m: CaseMapping, listing: Listing, name: string) returns (s: Selection)
    ensures Selects(m, listing, name, s)
  {
    if name != "" {
      if !listing.Configurations? {
        return None;
      }
      var cfg := FindIdpConfigurationByName(m, listing.configs, name);
      if cfg.None? {
        FirstNamedNone(m, listing.configs, name);
        return None;
      }
      ghost var i :| IsFirst(m, listing.configs, name, i) && cfg.value == listing.configs[i];
      FirstNamedAt(m, listing.configs, name, i);
      return Some(cfg.value.id);
    }
    match listing {
      case EndpointMissing => return Some("");
      case RequestFailed => return None;
      case Configurations(configs) =>
        var enabledConfigs := ListEnabledIdpConfigurations(m, configs);
        if |enabledConfigs| == 0 {
          return Some("");
        } else if |enabledConfigs| == 1 {
          return Some(enabledConfigs[0].id);
        } else {
          return None;
        }
    }
  }

  /** Whatever is selected is the site default or an enabled configuration's id. */
  lemma SelectsEnabled(m: CaseMapping, configs: seq<IdpConfiguration>, name: string, s: Selection)
    requires Selects(m, Configurations(configs), name, s) && s.Some? && s.value != ""
    ensures exists c :: c in configs && c.enabled && c.id == s.value
  {
    FilterMembers(Selectable(m), configs);
    if name != "" {
      FirstNamedMember(m, configs, name);
    } else {
      assert Filter(Selectable(m), configs)[0] in Filter(Selectable(m), configs);
    }
  }

  lemma {:induction false} FirstNamedMember(m: CaseMapping, configs: seq<IdpConfiguration>, name: string)
    requires FirstNamed(m, configs, name).Some?
    ensures exists c :: c in configs && Matches(m, name, c) && FirstNamed(m, configs, name) == Some(c.id)
  {
    if Matches(m, name, configs[0]) {
      assert configs[0] in configs;
    } else {
      FirstNamedMember(m, configs[1..], name);
      var c :| c in configs[1..] && Matches(m, name, c) && FirstNamed(m, configs[1..], name) == Some(c.id);
      assert c in configs;
    }
  }

  // ------------------------------------------------------------------- permutations

  /** Without a name, the order in which the server lists the configurations does not matter. */
  lemma UnnamedOrderIndependent(m: CaseMapping, a: seq<IdpConfiguration>, b: seq<IdpConfiguration>,
                                s: Selection, s': Selection)
    requires multiset(a) == multiset(b)
    requires Selects(m, Configurations(a), "", s) && Selects(m, Configurations(b), "", s')
    ensures s == s'
  {
    var x, y := Filter(Selectable(m), a), Filter(Selectable(m), b);
    FilterPermutation(Selectable(m), a, b);
    if |x| == 1 {
      assert x == [x[0]] && y == [y[0]];
      assert x[0] in multiset(y);
    }
  }

  /**
   With a name, the order does not matter when the matching enabled configurations share one id, and only
   then for every pair of orders.
   */
  lemma NamedOrderIndependent(m: CaseMapping, a: seq<IdpConfiguration>, name: string)
    ensures (forall b :: multiset(b) == multiset(a) ==> FirstNamed(m, b, name) == FirstNamed(m, a, name))
      <==> (forall c, d :: c in a && d in a && Matches(m, name, c) && Matches(m, name, d) ==> c.id == d.id)
  {
    if forall c, d :: c in a && d in a && Matches(m, name, c) && Matches(m, name, d) ==> c.id == d.id {
      forall b | multiset(b) == multiset(a) ensures FirstNamed(m, b, name) == FirstNamed(m, a, name) {
        assert forall c :: c in b <==> c in multiset(b);
        assert forall c :: c in a <==> c in multiset(a);
        if FirstNamed(m, a, name).Some? { FirstNamedMember(m, a, name); }
        if FirstNamed(m, b, name).Some? { FirstNamedMember(m, b, name); }
        if FirstNamed(m, a, name).None? { FirstNamedNoneOnly(m, a, name); }
        if FirstNamed(m, b, name).None? { FirstNamedNoneOnly(m, b, name); }
      }
    } else {
      var c, d :| c in a && d in a && Matches(m, name, c) && Matches(m, name, d) && c.id != d.id;
      Reordered(m, a, name, c);
      Reordered(m, a, name, d);
    }
  }

  lemma {:induction false} FirstNamedNoneOnly(m: CaseMapping, configs: seq<IdpConfiguration>, name: string)
    requires FirstNamed(m, configs, name) == None
    ensures forall c :: c in configs ==> !Matches(m, name, c)
  {
    if configs != [] {
      FirstNamedNoneOnly(m, configs[1..], name);
      assert forall c :: c in configs ==> c == configs[0] || c in configs[1..];
    }
  }

  /** Any matching configuration comes first in some order. */
  lemma Reordered(m: CaseMapping, a: seq<IdpConfiguration>, name: string, c: IdpConfiguration)
    requires c in a && Matches(m, name, c)
    ensures exists b :: multiset(b) == multiset(a) && FirstNamed(m, b, name) == Some(c.id)
  {
    var i :| 0 <= i < |a| && a[i] == c;
    var b := [c] + a[..i] + a[i + 1..];
    assert a == a[..i] + [c] + a[i + 1..];
    assert multiset(b) == multiset(a);
    assert b[0] == c;
    assert FirstNamed(m, b, name) == Some(c.id);
  }

  // ------------------------------------------------------------- what a selection means

  /** The enabled configurations of the two kinds user provisioning supports. */
  predicate Usable(m: CaseMapping, c: IdpConfiguration) {
    c.enabled && (m.upper(c.authSetting) == "SAML" || m.upper(c.authSetting) == "OPENID")
  }

  ghost predicate IsOnlyUsable(m: CaseMapping, configs: seq<IdpConfiguration>, i: int) {
    && 0 <= i < |configs| && Usable(m, configs[i])
    && forall j :: 0 <= j < |configs| && Usable(m, configs[j]) ==> j == i
  }

  lemma SelectableIsUsable(m: CaseMapping, c: IdpConfiguration)
    ensures Selectable(m)(c) <==> Usable(m, c)
  {
  }

  /** Without a name: an id for the one usable configuration, the site default for none, an error for several. */
  lemma UnnamedMeans(m: CaseMapping, configs: seq<IdpConfiguration>, s: Selection)
    requires Selects(m, Configurations(configs), "", s)
    ensures s == None <==> exists i, j :: 0 <= i < j < |configs| && Usable(m, configs[i]) && Usable(m, configs[j])
    ensures (forall c :: c in configs ==> !Usable(m, c)) ==> s == Some("")
    ensures forall i :: IsOnlyUsable(m, configs, i) ==> s == Some(configs[i].id)
  {
    forall c { SelectableIsUsable(m, c); }
    FilterMembers(Selectable(m), configs);
    forall i, j | 0 <= i < j < |configs| && Usable(m, configs[i]) && Usable(m, configs[j]) ensures s == None {
      FilterTwo(Selectable(m), configs, i, j);
    }
    if s == None {
      var i, j := KeptTwo(Selectable(m), configs);
    }
    forall i | IsOnlyUsable(m, configs, i) ensures s == Some(configs[i].id) {
      FilterOnly(Selectable(m), configs, i);
    }
    if forall c :: c in configs ==> !Usable(m, c) {
      FilterNone(Selectable(m), configs);
    }
  }

  /** With a name: the id of an enabled configuration of that name, ignoring case, and an error if there is none. */
  lemma NamedMeans(m: CaseMapping, configs: seq<IdpConfiguration>, name: string, s: Selection)
    requires name != "" && Selects(m, Configurations(configs), name, s)
    ensures s.Some? <==> exists c :: c in configs && c.enabled && m.lower(c.name) == m.lower(name)
    ensures s.Some? ==> exists c :: c in configs && c.enabled && m.lower(c.name) == m.lower(name) && c.id == s.value
  {
    if s.Some? {
      FirstNamedMember(m, configs, name);
      var c :| c in configs && Matches(m, name, c) && FirstNamed(m, configs, name) == Some(c.id);
      assert c.enabled && m.lower(c.name) == m.lower(name);
    } else {
      FirstNamedNoneOnly(m, configs, name);
      assert forall c :: c in configs && c.enabled ==> m.lower(c.name) != m.lower(name);
    }
  }

  /** A failed request is an error, and so is a missing endpoint if a name was asked for; otherwise the site default. */
  lemma UnlistedMeans(m: CaseMapping, name: string, s: Selection)
    ensures Selects(m, RequestFailed, name, s) <==> s == None
    ensures Selects(m, EndpointMissing, name, s) <==> s == if name == "" then Some("") else None
  {
  }
}
