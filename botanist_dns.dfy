/**
 * The botanist's DNS decisions for a shoot's seed namespace: which DNS
 * providers and entries should exist, the order in which the external and
 * internal pair are run, and which additional providers are applied or
 * removed.
 */
module BotanistDns {
  import opened Wrappers
  import opened SortedStrings
  import opened DnsComponents
  import opened ShootConfig

  /** Name and purpose of the DNS resources for the internal domain. */
  const DNSInternalName := "internal"
  /** Name and purpose of the DNS resources for the external domain. */
  const DNSExternalName := "external"
  /** Role label value of additionally managed DNS providers. */
  const DNSProviderRoleAdditional := "managed-dns-provider"
  /** The label key under which a resource's garden role is recorded. */
  const GardenRole := "gardener.cloud/role"
  /** Provider type meaning "DNS is not managed by the garden". */
  const DNSUnmanaged := "unmanaged"
  /** Suffix of wildcard-DNS cluster domains, which get no DNS resources. */
  const NipIoSuffix := ".nip.io"

  /** The labels every additional provider carries. */
  function RoleLabels(): (l: map<string, string>)
    ensures l.Keys == {GardenRole} && l[GardenRole] == DNSProviderRoleAdditional
  {
    map[GardenRole := DNSProviderRoleAdditional]
  }

  // ---------------------------------------------------------------------------
  // Naming

  /** The provider name built from a secret name and a provider type. */
  function GenerateDNSProviderName(secretName: string, providerType: string): (r: string)
    ensures r == "" <==> secretName == "" && providerType == ""
    ensures secretName == "" ==> r == providerType
    ensures providerType == "" ==> r == secretName
    ensures secretName != "" && providerType != "" ==>
      |r| == |providerType| + 1 + |secretName| &&
      r[..|providerType|] == providerType && r[|providerType|] == '-' &&
      r[|providerType| + 1..] == secretName
  {
    if secretName != "" && providerType != "" then providerType + "-" + secretName
    else if secretName != "" then secretName
    else if providerType != "" then providerType
    else ""
  }

  // ---------------------------------------------------------------------------
  // Requirement predicates

  predicate HasSuffix(s: string, suffix: string)
  {
    |suffix| <= |s| && s[|s| - |suffix|..] == suffix
  }

  /** Whether the shoot gets the DNS provider and entry of its external domain. */
  predicate NeedsExternalDNS(b: Botanist)
    ensures NeedsExternalDNS(b) ==>
      && b.shoot.externalClusterDomain.Some?
      && !HasSuffix(b.shoot.externalClusterDomain.value, NipIoSuffix)
      && b.shoot.externalDomain.Some?
      && b.shoot.externalDomain.value.provider != DNSUnmanaged
  {
    && !b.shoot.disableDNS
    && b.shoot.dns.Some?
    && b.shoot.dns.value.domain.Some?
    && b.shoot.externalClusterDomain.Some?
    && !HasSuffix(b.shoot.externalClusterDomain.value, NipIoSuffix)
    && b.shoot.externalDomain.Some?
    && b.shoot.externalDomain.value.provider != DNSUnmanaged
  }

  /** Whether the shoot gets the DNS provider and entry of the internal domain. */
  predicate NeedsInternalDNS(b: Botanist)
    ensures NeedsInternalDNS(b) ==> b.garden.internalDomain.Some? && b.garden.internalDomain.value.provider != DNSUnmanaged
  {
    && !b.shoot.disableDNS
    && b.garden.internalDomain.Some?
    && b.garden.internalDomain.value.provider != DNSUnmanaged
  }

  /** Whether the shoot declares DNS providers of its own. */
  predicate NeedsAdditionalDNSProviders(b: Botanist)
    ensures NeedsAdditionalDNSProviders(b) ==> b.shoot.dns.Some? && b.shoot.dns.value.providers != []
  {
    && !b.shoot.disableDNS
    && b.shoot.dns.Some?
    && |b.shoot.dns.value.providers| > 0
  }

  // ---------------------------------------------------------------------------
  // Ordering of the external and internal pairs

  /**
   * The operations `ExternalDNS().Deploy` runs, in order: the provider before
   * the entry while external DNS is needed, the entry before the provider once
   * it is not.
   */
  function ExternalDNS(b: Botanist): (r: seq<Op>)
    ensures |r| == 2
    ensures multiset(r) == multiset{b.shoot.components.externalProvider, b.shoot.components.externalEntry}
    ensures NeedsExternalDNS(b) ==> r[0] == b.shoot.components.externalProvider
    ensures !NeedsExternalDNS(b) ==> r[0] == b.shoot.components.externalEntry
  {
    var c := b.shoot.components;
    if NeedsExternalDNS(b) then [c.externalProvider, c.externalEntry]
    else [c.externalEntry, c.externalProvider]
  }

  /** As `ExternalDNS`, for the internal pair and `NeedsInternalDNS`. */
  function InternalDNS(b: Botanist): (r: seq<Op>)
    ensures |r| == 2
    ensures multiset(r) == multiset{b.shoot.components.internalProvider, b.shoot.components.internalEntry}
    ensures NeedsInternalDNS(b) ==> r[0] == b.shoot.components.internalProvider
    ensures !NeedsInternalDNS(b) ==> r[0] == b.shoot.components.internalEntry
  {
    var c := b.shoot.components;
    if NeedsInternalDNS(b) then [c.internalProvider, c.internalEntry]
    else [c.internalEntry, c.internalProvider]
  }

  // ---------------------------------------------------------------------------
  // The external and internal components

  /**
   * The external provider: the external domain's provider, secret and zones,
   * and as included domains the configured ones plus the external cluster
   * domain, each once and ascending; destroy-only when not needed.
   */
  function DefaultExternalDNSProvider(b: Botanist): (r: Op)
    ensures r.component.Provider?
    ensures r.component.provider.name == DNSExternalName
    ensures r.component.provider.purpose == DNSExternalName
    ensures r.component.provider.labels == map[]
    ensures NeedsExternalDNS(b) ==>
      var d := b.shoot.externalDomain.value;
      var v := r.component.provider;
      && r.Deploy?
      && v.provider == d.provider
      && v.secretData == d.secretData
      && v.domains.Some?
      && StrictlySorted(v.domains.value.includes)
      && Elements(v.domains.value.includes)
         == Elements(d.includeDomains) + {b.shoot.externalClusterDomain.value}
      && v.domains.value.excludes == d.excludeDomains
      && v.zones == Some(IncludeExclude(d.includeZones, d.excludeZones))
    ensures !NeedsExternalDNS(b) ==>
      r == Destroy(Provider(DestroyOnlyValues(DNSExternalName, map[])))
  {
    if NeedsExternalDNS(b) then
      var d := b.shoot.externalDomain.value;
      var includes := d.includeDomains + [b.shoot.externalClusterDomain.value];
      assert Elements(includes) == Elements(d.includeDomains) + {b.shoot.externalClusterDomain.value};
      Deploy(Provider(ProviderValues(
        DNSExternalName, DNSExternalName, map[], d.provider, d.secretData,
        Some(IncludeExclude(SortedList(includes), d.excludeDomains)),
        Some(IncludeExclude(d.includeZones, d.excludeZones)))))
    else
      Destroy(Provider(DestroyOnlyValues(DNSExternalName, map[])))
  }

  /** The external entry is always removed. */
  function DefaultExternalDNSEntry(): (r: Op)
    ensures r.Destroy? && r.component == Entry(EntryValues(DNSExternalName))
  {
    Destroy(Entry(EntryValues(DNSExternalName)))
  }

  /**
   * The internal provider: the internal domain's provider, secret and zones,
   * with the internal cluster domain as the only included domain;
   * destroy-only when not needed.
   */
  function DefaultInternalDNSProvider(b: Botanist): (r: Op)
    ensures r.component.Provider?
    ensures r.component.provider.name == DNSInternalName
    ensures r.component.provider.purpose == DNSInternalName
    ensures r.component.provider.labels == map[]
    ensures NeedsInternalDNS(b) ==>
      var d := b.garden.internalDomain.value;
      var v := r.component.provider;
      && r.Deploy?
      && v.provider == d.provider
      && v.secretData == d.secretData
      && v.domains == Some(IncludeExclude([b.shoot.internalClusterDomain], []))
      && v.zones == Some(IncludeExclude(d.includeZones, d.excludeZones))
    ensures !NeedsInternalDNS(b) ==>
      r == Destroy(Provider(DestroyOnlyValues(DNSInternalName, map[])))
  {
    if NeedsInternalDNS(b) then
      var d := b.garden.internalDomain.value;
      Deploy(Provider(ProviderValues(
        DNSInternalName, DNSInternalName, map[], d.provider, d.secretData,
        Some(IncludeExclude([b.shoot.internalClusterDomain], [])),
        Some(IncludeExclude(d.includeZones, d.excludeZones)))))
    else
      Destroy(Provider(DestroyOnlyValues(DNSInternalName, map[])))
  }

  /** The internal entry is always removed. */
  function DefaultInternalDNSEntry(): (r: Op)
    ensures r.Destroy? && r.component == Entry(EntryValues(DNSInternalName))
  {
    Destroy(Entry(EntryValues(DNSInternalName)))
  }

  // ---------------------------------------------------------------------------
  // Additional providers

  /** Why computing the additional providers failed. */
  datatype Error =
    | MissingType(index: nat)             // provider[index] has no type
    | MissingSecretName(index: nat)       // provider[index] has no secret name
    | SecretFetchFailed(secretName: string) // the garden client could not get the secret
    | ListFailed                          // the seed client could not list the live providers

  /** The values of the additional provider declared by `p`. */
  function AdditionalProviderValues(p: DNSProvider, name: string, data: SecretData): (v: ProviderValues)
    requires p.providerType.Some?
    ensures v.name == name && v.purpose == name && v.labels == RoleLabels()
    ensures v.provider == p.providerType.value && v.secretData == data
    ensures v.domains == Some(if p.domains.Some? then p.domains.value else IncludeExclude([], []))
    ensures v.zones == Some(if p.zones.Some? then p.zones.value else IncludeExclude([], []))
  {
    var domains := if p.domains.Some? then p.domains.value else IncludeExclude([], []);
    var zones := if p.zones.Some? then p.zones.value else IncludeExclude([], []);
    ProviderValues(name, name, RoleLabels(), p.providerType.value, data, Some(domains), Some(zones))
  }

  /** The removal of a live additional provider that is no longer declared. */
  function OrphanOp(name: string): (op: Op)
    ensures op.Destroy? && op.component.Provider?
    ensures op.component.provider == DestroyOnlyValues(name, RoleLabels())
  {
    Destroy(Provider(DestroyOnlyValues(name, RoleLabels())))
  }

  /** What one declared provider contributes to the map. */
  datatype Contribution = Skip | Add(name: string, op: Op) | Fail(error: Error)

  /**
   * The provider declared at `index`: primaries and unmanaged ones are skipped,
   * a missing type or secret name or an unreadable secret fails, anything else
   * deploys a provider named after its secret and type.
   */
  function Contribute(p: DNSProvider, index: nat, secrets: map<string, SecretData>): (c: Contribution)
    ensures p.primary == Some(true) ==> c.Skip?
    ensures c.Fail? ==> p.primary != Some(true)
    ensures c.Add? ==>
      && p.providerType.Some? && p.providerType.value != DNSUnmanaged
      && p.secretName.Some? && p.secretName.value in secrets
      && c.op.Deploy? && c.op.component.Provider?
      && c.op.component.provider.name == c.name
      && c.op.component.provider.secretData == secrets[p.secretName.value]
  {
    if p.primary == Some(true) then Skip
    else if p.providerType.None? then Fail(MissingType(index))
    else if p.providerType.value == DNSUnmanaged then Skip
    else if p.secretName.None? then Fail(MissingSecretName(index))
    else if p.secretName.value !in secrets then Fail(SecretFetchFailed(p.secretName.value))
    else
      var name := GenerateDNSProviderName(p.secretName.value, p.providerType.value);
      Add(name, Deploy(Provider(AdditionalProviderValues(p, name, secrets[p.secretName.value]))))
  }

  /** The map built from the first `n` declared providers, later names overwriting earlier ones. */
  function Desired(ps: seq<DNSProvider>, secrets: map<string, SecretData>, n: nat): (r: Result<map<string, Op>, Error>)
    requires n <= |ps|
    ensures r.Success? ==> forall k :: k in r.value ==> r.value[k].Deploy?
    ensures r.Failure? && (r.error.MissingType? || r.error.MissingSecretName?) ==> r.error.index < n
    ensures !r.Failure? || !r.error.ListFailed?
  {
    if n == 0 then Success(map[])
    else
      match Desired(ps, secrets, n - 1)
      case Failure(e) => Failure(e)
      case Success(m) =>
        match Contribute(ps[n - 1], n - 1, secrets)
        case Skip => Success(m)
        case Add(name, op) => Success(m[name := op])
        case Fail(e) => Failure(e)
  }

  /** A removal for every live name that is not a key of `desired`. */
  function Orphans(desired: map<string, Op>, live: seq<string>): (m: map<string, Op>)
    ensures forall k :: k in m <==> k in live && k !in desired
    ensures forall k :: k in m ==> m[k] == OrphanOp(k)
  {
    map k | k in live && k !in desired :: OrphanOp(k)
  }

  /**
   * The specification of `AdditionalDNSProviders`: the declared providers (when
   * any are needed), then a removal for every live additional provider left
   * over; no map at all once something failed.
   */
  function AdditionalDNSPlan(b: Botanist, secrets: map<string, SecretData>, live: Option<seq<string>>)
    : (r: Result<map<string, Op>, Error>)
    ensures r.Success? ==> live.Some? && Elements(live.value) <= r.value.Keys
    ensures r.Failure? && r.error.ListFailed? ==> live.None?
    ensures live.None? ==> r.Failure?
  {
    var desired :=
      if NeedsAdditionalDNSProviders(b) then
        Desired(b.shoot.dns.value.providers, secrets, |b.shoot.dns.value.providers|)
      else Success(map[]);
    if desired.Failure? then desired
    else if live.None? then Failure(ListFailed)
    else Success(desired.value + Orphans(desired.value, live.value))
  }

  lemma {:induction false} DesiredFailureStays(ps: seq<DNSProvider>, secrets: map<string, SecretData>, i: nat, n: nat)
    requires i <= n <= |ps|
    requires Desired(ps, secrets, i).Failure?
    ensures Desired(ps, secrets, n) == Desired(ps, secrets, i)
    decreases n
  {
    if n > i {
      DesiredFailureStays(ps, secrets, i, n - 1);
    }
  }

  lemma OrphansStep(desired: map<string, Op>, items: seq<string>, name: string)
    ensures var m := desired + Orphans(desired, items);
      desired + Orphans(desired, items + [name])
      == if name in m then m else m[name := OrphanOp(name)]
  {
  }

  /**
   * The additional providers of the shoot, keyed by provider name. `secrets`
   * holds the secrets the garden client can read; `live` the names of the
   * role-labelled providers the seed client lists (`None` when listing fails).
   */
  method AdditionalDNSProviders(b: Botanist, secrets: map<string, SecretData>, live: Option<seq<string>>)
    returns (result: Result<map<string, Op>, Error>)
    ensures result == AdditionalDNSPlan(b, secrets, live)
  {
    var additionalProviders: map<string, Op> := map[];

    if NeedsAdditionalDNSProviders(b) {
      var providers := b.shoot.dns.value.providers;
      for i := 0 to |providers|
        invariant Desired(providers, secrets, i) == Success(additionalProviders)
      {
        var p := providers[i];
        if p.primary == Some(true) {
          continue;
        }

        var includeDomains, excludeDomains, includeZones, excludeZones := [], [], [], [];
        if p.domains.Some? {
          includeDomains, excludeDomains := p.domains.value.includes, p.domains.value.excludes;
        }
        if p.zones.Some? {
          includeZones, excludeZones := p.zones.value.includes, p.zones.value.excludes;
        }

        if p.providerType.None? {
          DesiredFailureStays(providers, secrets, i + 1, |providers|);
          return Failure(MissingType(i));
        }
        var providerType := p.providerType.value;
        if providerType == DNSUnmanaged {
          continue;
        }

        if p.secretName.None? {
          DesiredFailureStays(providers, secrets, i + 1, |providers|);
          return Failure(MissingSecretName(i));
        }
        var secretName := p.secretName.value;
        if secretName !in secrets {
          DesiredFailureStays(providers, secrets, i + 1, |providers|);
          return Failure(SecretFetchFailed(secretName));
        }
        var providerName := GenerateDNSProviderName(secretName, providerType);

        additionalProviders := additionalProviders[providerName := Deploy(Provider(ProviderValues(
          providerName, providerName, RoleLabels(), providerType, secrets[secretName],
          Some(IncludeExclude(includeDomains, excludeDomains)),
          Some(IncludeExclude(includeZones, excludeZones)))))];
      }
    }

    // Clean up providers that are no longer declared.
    if live.None? {
      return Failure(ListFailed);
    }
    var items := live.value;
    ghost var desired := additionalProviders;
    for j := 0 to |items|
      invariant additionalProviders == desired + Orphans(desired, items[..j])
    {
      var name := items[j];
      assert items[..j + 1] == items[..j] + [name];
      OrphansStep(desired, items[..j], name);
      if name !in additionalProviders {
        additionalProviders := additionalProviders[name := OrphanOp(name)];
      }
    }
    assert items[..|items|] == items;
    return Success(additionalProviders);
  }
}
