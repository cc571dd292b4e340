/**
 * Properties of the botanist's DNS decisions, stated against reference
 * definitions that do not follow the loop structure of the code.
 */
module BotanistDnsProperties {
  import opened Wrappers
  import opened SortedStrings
  import opened DnsComponents
  import opened ShootConfig
  import opened BotanistDns

  // ---------------------------------------------------------------------------
  // Naming

  /** For one provider type, different secret names never give the same provider name. */
  lemma NameDeterminesSecretForType(providerType: string, secret1: string, secret2: string)
    requires GenerateDNSProviderName(secret1, providerType) == GenerateDNSProviderName(secret2, providerType)
    ensures secret1 == secret2
  {
  }

  /** Across provider types names can collide: the rule does no escaping. */
  lemma NamesCollideAcrossTypes()
    ensures GenerateDNSProviderName("b-c", "a") == GenerateDNSProviderName("c", "a-b") == "a-b-c"
  {
  }

  // ---------------------------------------------------------------------------
  // Requirement predicates

  /**
   * Each missing or excluded piece of configuration turns external DNS off,
   * leaving a destroy-only external provider.
   */
  lemma ExternalDNSNotNeeded(b: Botanist)
    requires
      || b.shoot.disableDNS
      || b.shoot.dns.None?
      || b.shoot.dns.value.domain.None?
      || b.shoot.externalClusterDomain.None?
      || HasSuffix(b.shoot.externalClusterDomain.value, NipIoSuffix)
      || b.shoot.externalDomain.None?
      || b.shoot.externalDomain.value.provider == DNSUnmanaged
    ensures !NeedsExternalDNS(b)
    ensures DefaultExternalDNSProvider(b) == Destroy(Provider(DestroyOnlyValues(DNSExternalName, map[])))
  {
  }

  /** A fully configured, managed external domain gets its provider deployed. */
  lemma ConfiguredExternalDomainIsDeployed(b: Botanist, domain: string, clusterDomain: string, d: Domain)
    requires !b.shoot.disableDNS
    requires b.shoot.dns.Some? && b.shoot.dns.value.domain == Some(domain)
    requires b.shoot.externalClusterDomain == Some(clusterDomain) && !HasSuffix(clusterDomain, NipIoSuffix)
    requires b.shoot.externalDomain == Some(d) && d.provider != DNSUnmanaged
    ensures NeedsExternalDNS(b)
    ensures DefaultExternalDNSProvider(b).Deploy?
    ensures clusterDomain in DefaultExternalDNSProvider(b).component.provider.domains.value.includes
  {
  }

  /** Without a managed internal domain, the internal provider is destroy-only. */
  lemma InternalDNSNotNeeded(b: Botanist)
    requires
      || b.shoot.disableDNS
      || b.garden.internalDomain.None?
      || b.garden.internalDomain.value.provider == DNSUnmanaged
    ensures !NeedsInternalDNS(b)
    ensures DefaultInternalDNSProvider(b) == Destroy(Provider(DestroyOnlyValues(DNSInternalName, map[])))
  {
  }

  /** A managed internal domain gets its provider deployed for the internal cluster domain. */
  lemma ConfiguredInternalDomainIsDeployed(b: Botanist, d: Domain)
    requires !b.shoot.disableDNS
    requires b.garden.internalDomain == Some(d) && d.provider != DNSUnmanaged
    ensures NeedsInternalDNS(b)
    ensures DefaultInternalDNSProvider(b).Deploy?
    ensures DefaultInternalDNSProvider(b).component.provider.domains.value.includes == [b.shoot.internalClusterDomain]
  {
  }

  /**
   * Without declared providers (or with DNS disabled) the plan only removes
   * the live additional providers.
   */
  lemma NoDeclaredProvidersOnlyRemoves(b: Botanist, secrets: map<string, SecretData>, live: seq<string>)
    requires b.shoot.disableDNS || b.shoot.dns.None? || b.shoot.dns.value.providers == []
    ensures !NeedsAdditionalDNSProviders(b)
    ensures var plan := AdditionalDNSPlan(b, secrets, Some(live));
      && plan.Success?
      && plan.value.Keys == Elements(live)
      && forall k :: k in plan.value ==> plan.value[k] == OrphanOp(k)
  {
  }

  /** DNS enabled and at least one declared provider: additional providers are needed. */
  lemma DeclaredProvidersAreNeeded(b: Botanist, dns: DNS)
    requires !b.shoot.disableDNS
    requires b.shoot.dns == Some(dns) && dns.providers != []
    ensures NeedsAdditionalDNSProviders(b)
  {
  }

  /**
   * Disabling DNS turns every category off: the external and internal
   * providers are destroy-only, and every additional provider in the plan is
   * a removal of a live one.
   */
  lemma DisableDNSRemovesEverything(b: Botanist, secrets: map<string, SecretData>, live: seq<string>)
    requires b.shoot.disableDNS
    ensures !NeedsExternalDNS(b) && !NeedsInternalDNS(b) && !NeedsAdditionalDNSProviders(b)
    ensures DefaultExternalDNSProvider(b).Destroy? && DefaultInternalDNSProvider(b).Destroy?
    ensures var plan := AdditionalDNSPlan(b, secrets, Some(live));
      && plan.Success?
      && plan.value.Keys == Elements(live)
      && forall k :: k in plan.value ==> plan.value[k] == OrphanOp(k)
  {
  }

  // ---------------------------------------------------------------------------
  // Ordering, with the components the flow wires in

  /** The components the shoot's flow installs: the four `Default*` constructors. */
  function DefaultComponents(b: Botanist): (c: DNSComponentSet)
    ensures c.externalEntry.Destroy? && c.internalEntry.Destroy?
  {
    DNSComponentSet(
      DefaultExternalDNSProvider(b), DefaultExternalDNSEntry(),
      DefaultInternalDNSProvider(b), DefaultInternalDNSEntry())
  }

  /**
   * With the default components, `ExternalDNS` deploys the external provider
   * strictly before it touches the entry while external DNS is needed, and
   * removes the entry strictly before the provider once it is not.
   */
  lemma ExternalDNSOrder(b: Botanist)
    requires b.shoot.components == DefaultComponents(b)
    ensures var ops := ExternalDNS(b);
      NeedsExternalDNS(b) ==>
        && ops[0].Deploy? && ops[0].component.Provider?
        && ops[1] == Destroy(Entry(EntryValues(DNSExternalName)))
    ensures var ops := ExternalDNS(b);
      !NeedsExternalDNS(b) ==>
        && ops[0] == Destroy(Entry(EntryValues(DNSExternalName)))
        && ops[1] == Destroy(Provider(DestroyOnlyValues(DNSExternalName, map[])))
  {
  }

  /** As `ExternalDNSOrder`, for the internal provider and entry. */
  lemma InternalDNSOrder(b: Botanist)
    requires b.shoot.components == DefaultComponents(b)
    ensures var ops := InternalDNS(b);
      NeedsInternalDNS(b) ==>
        && ops[0].Deploy? && ops[0].component.Provider?
        && ops[1] == Destroy(Entry(EntryValues(DNSInternalName)))
    ensures var ops := InternalDNS(b);
      !NeedsInternalDNS(b) ==>
        && ops[0] == Destroy(Entry(EntryValues(DNSInternalName)))
        && ops[1] == Destroy(Provider(DestroyOnlyValues(DNSInternalName, map[])))
  {
  }

  // ---------------------------------------------------------------------------
  // Reference definitions for the declared additional providers

  /** A declared provider that is neither primary nor unmanaged but has a type. */
  predicate Managed(p: DNSProvider)
  {
    p.primary != Some(true) && p.providerType.Some? && p.providerType.value != DNSUnmanaged
  }

  /**
   * A declared provider that does not stop the computation: primaries pass
   * unchecked, unmanaged ones need only a type, every other one needs a type
   * and a secret name whose secret can be read.
   */
  predicate Acceptable(p: DNSProvider, secrets: map<string, SecretData>)
  {
    || p.primary == Some(true)
    || (p.providerType.Some? && p.providerType.value == DNSUnmanaged)
    || (p.providerType.Some? && p.secretName.Some? && p.secretName.value in secrets)
  }

  /** The error reported for a provider that is not acceptable, declared at `index`. */
  function ExpectedError(p: DNSProvider, index: nat): Error
  {
    if p.providerType.None? then MissingType(index)
    else if p.secretName.None? then MissingSecretName(index)
    else SecretFetchFailed(p.secretName.value)
  }

  function ProviderName(p: DNSProvider): string
    requires p.providerType.Some? && p.secretName.Some?
  {
    GenerateDNSProviderName(p.secretName.value, p.providerType.value)
  }

  /** The names of the managed providers among the first `n` declared. */
  function DeclaredNames(ps: seq<DNSProvider>, n: nat): set<string>
    requires n <= |ps|
  {
    set i | 0 <= i < n && Managed(ps[i]) && ps[i].secretName.Some? :: ProviderName(ps[i])
  }

  /** The names the plan deploys: the declared ones, if additional providers are needed at all. */
  function NeededNames(b: Botanist): set<string>
  {
    if NeedsAdditionalDNSProviders(b) then
      DeclaredNames(b.shoot.dns.value.providers, |b.shoot.dns.value.providers|)
    else {}
  }

  /** One provider's contribution, in terms of the reference definitions. */
  lemma ContributeMatchesChecks(p: DNSProvider, index: nat, secrets: map<string, SecretData>)
    ensures Contribute(p, index, secrets).Fail? <==> !Acceptable(p, secrets)
    ensures !Acceptable(p, secrets) ==> Contribute(p, index, secrets).error == ExpectedError(p, index)
    ensures Contribute(p, index, secrets).Add? <==> Acceptable(p, secrets) && Managed(p)
    ensures Contribute(p, index, secrets).Add? ==>
      && p.secretName.Some?
      && Contribute(p, index, secrets).name == ProviderName(p)
      && Contribute(p, index, secrets).op
         == Deploy(Provider(AdditionalProviderValues(p, ProviderName(p), secrets[p.secretName.value])))
  {
  }

  // ---------------------------------------------------------------------------
  // The declared-provider loop

  lemma {:induction false} DesiredSucceedsIff(ps: seq<DNSProvider>, secrets: map<string, SecretData>, n: nat)
    requires n <= |ps|
    ensures Desired(ps, secrets, n).Success? <==> forall i :: 0 <= i < n ==> Acceptable(ps[i], secrets)
  {
    if n > 0 {
      DesiredSucceedsIff(ps, secrets, n - 1);
      ContributeMatchesChecks(ps[n - 1], n - 1, secrets);
    }
  }

  /** The first unacceptable provider decides the error. */
  lemma {:induction false} DesiredFailsAtFirstUnacceptable(ps: seq<DNSProvider>, secrets: map<string, SecretData>, i: nat)
    requires i < |ps|
    requires forall j :: 0 <= j < i ==> Acceptable(ps[j], secrets)
    requires !Acceptable(ps[i], secrets)
    ensures Desired(ps, secrets, |ps|) == Failure(ExpectedError(ps[i], i))
  {
    DesiredSucceedsIff(ps, secrets, i);
    ContributeMatchesChecks(ps[i], i, secrets);
    assert Desired(ps, secrets, i + 1) == Failure(ExpectedError(ps[i], i));
    DesiredFailureStays(ps, secrets, i + 1, |ps|);
  }

  lemma {:induction false} DesiredKeys(ps: seq<DNSProvider>, secrets: map<string, SecretData>, n: nat)
    requires n <= |ps|
    requires Desired(ps, secrets, n).Success?
    ensures Desired(ps, secrets, n).value.Keys == DeclaredNames(ps, n)
  {
    if n > 0 {
      DesiredKeys(ps, secrets, n - 1);
      var p := ps[n - 1];
      ContributeMatchesChecks(p, n - 1, secrets);
      DesiredSucceedsIff(ps, secrets, n);
      assert Acceptable(p, secrets);
      if Managed(p) {
        assert DeclaredNames(ps, n) == DeclaredNames(ps, n - 1) + {ProviderName(p)};
      } else {
        assert DeclaredNames(ps, n) == DeclaredNames(ps, n - 1);
      }
    }
  }

  lemma {:induction false} DesiredValues(ps: seq<DNSProvider>, secrets: map<string, SecretData>, n: nat)
    requires n <= |ps|
    requires Desired(ps, secrets, n).Success?
    ensures var m := Desired(ps, secrets, n).value;
      forall k :: k in m ==>
        && m[k].Deploy? && m[k].component.Provider?
        && m[k].component.provider.name == k
        && m[k].component.provider.purpose == k
        && m[k].component.provider.labels == RoleLabels()
  {
    if n > 0 {
      DesiredValues(ps, secrets, n - 1);
    }
  }

  /**
   * A managed provider's name maps to its own deployment unless a later
   * declared provider generates the same name: the later one wins.
   */
  lemma {:induction false} DesiredLastDeclaredWins(ps: seq<DNSProvider>, secrets: map<string, SecretData>, n: nat, i: nat)
    requires i < n <= |ps|
    requires Desired(ps, secrets, n).Success?
    requires Managed(ps[i]) && ps[i].secretName.Some?
    requires forall j :: i < j < n && Managed(ps[j]) && ps[j].secretName.Some? ==>
      ProviderName(ps[j]) != ProviderName(ps[i])
    ensures var m := Desired(ps, secrets, n).value;
      && ProviderName(ps[i]) in m
      && ps[i].secretName.value in secrets
      && m[ProviderName(ps[i])]
         == Deploy(Provider(AdditionalProviderValues(ps[i], ProviderName(ps[i]), secrets[ps[i].secretName.value])))
  {
    ContributeMatchesChecks(ps[n - 1], n - 1, secrets);
    DesiredSucceedsIff(ps, secrets, n);
    assert Acceptable(ps[i], secrets);
    if i < n - 1 {
      DesiredLastDeclaredWins(ps, secrets, n - 1, i);
    }
  }

  // ---------------------------------------------------------------------------
  // The whole plan

  /**
   * The plan exists exactly when the live providers could be listed and, if
   * additional providers are needed, every declared provider is acceptable.
   */
  lemma PlanSucceedsIff(b: Botanist, secrets: map<string, SecretData>, live: Option<seq<string>>)
    ensures AdditionalDNSPlan(b, secrets, live).Success? <==>
      && live.Some?
      && (NeedsAdditionalDNSProviders(b) ==>
            forall i :: 0 <= i < |b.shoot.dns.value.providers| ==>
              Acceptable(b.shoot.dns.value.providers[i], secrets))
  {
    if NeedsAdditionalDNSProviders(b) {
      DesiredSucceedsIff(b.shoot.dns.value.providers, secrets, |b.shoot.dns.value.providers|);
    }
  }

  /**
   * The first unacceptable declared provider fails the plan with its index
   * (missing type before missing secret name) or its secret name, whether or
   * not the live providers can be listed.
   */
  lemma PlanFailsAtFirstUnacceptable(b: Botanist, secrets: map<string, SecretData>, live: Option<seq<string>>, i: nat)
    requires NeedsAdditionalDNSProviders(b)
    requires i < |b.shoot.dns.value.providers|
    requires forall j :: 0 <= j < i ==> Acceptable(b.shoot.dns.value.providers[j], secrets)
    requires !Acceptable(b.shoot.dns.value.providers[i], secrets)
    ensures AdditionalDNSPlan(b, secrets, live) == Failure(ExpectedError(b.shoot.dns.value.providers[i], i))
  {
    DesiredFailsAtFirstUnacceptable(b.shoot.dns.value.providers, secrets, i);
  }

  /** With every declared provider acceptable, a failed listing fails the plan. */
  lemma PlanFailsWhenListingFails(b: Botanist, secrets: map<string, SecretData>)
    requires NeedsAdditionalDNSProviders(b) ==>
      forall i :: 0 <= i < |b.shoot.dns.value.providers| ==> Acceptable(b.shoot.dns.value.providers[i], secrets)
    ensures AdditionalDNSPlan(b, secrets, None) == Failure(ListFailed)
  {
    PlanSucceedsIff(b, secrets, None);
    if NeedsAdditionalDNSProviders(b) {
      DesiredSucceedsIff(b.shoot.dns.value.providers, secrets, |b.shoot.dns.value.providers|);
    }
  }

  /** The plan's keys: the declared names united with the live names. */
  lemma PlanKeys(b: Botanist, secrets: map<string, SecretData>, live: seq<string>)
    requires AdditionalDNSPlan(b, secrets, Some(live)).Success?
    ensures AdditionalDNSPlan(b, secrets, Some(live)).value.Keys == NeededNames(b) + Elements(live)
  {
    if NeedsAdditionalDNSProviders(b) {
      DesiredKeys(b.shoot.dns.value.providers, secrets, |b.shoot.dns.value.providers|);
    }
  }

  /**
   * Every plan entry is a provider named after its key and labelled as an
   * additional provider; it is a removal exactly when its name is not declared,
   * in which case it carries nothing but that identity.
   */
  lemma PlanEntries(b: Botanist, secrets: map<string, SecretData>, live: seq<string>)
    requires AdditionalDNSPlan(b, secrets, Some(live)).Success?
    ensures var m := AdditionalDNSPlan(b, secrets, Some(live)).value;
      forall k :: k in m ==>
        && m[k].component.Provider?
        && m[k].component.provider.name == k
        && m[k].component.provider.purpose == k
        && m[k].component.provider.labels == RoleLabels()
        && (m[k].Destroy? <==> k !in NeededNames(b))
        && (m[k].Destroy? ==> m[k] == OrphanOp(k))
    ensures var m := AdditionalDNSPlan(b, secrets, Some(live)).value;
      var ps := if NeedsAdditionalDNSProviders(b) then b.shoot.dns.value.providers else [];
      NeedsAdditionalDNSProviders(b) ==>
        var d := Desired(ps, secrets, |ps|);
        d.Success? && forall k :: k in d.value ==> k in m && m[k] == d.value[k]
  {
    var ps := if NeedsAdditionalDNSProviders(b) then b.shoot.dns.value.providers else [];
    if NeedsAdditionalDNSProviders(b) {
      DesiredKeys(ps, secrets, |ps|);
      DesiredValues(ps, secrets, |ps|);
    }
  }

  /** Declared providers are deployed with their own values; the last one declared under a name wins. */
  lemma PlanDeploysDeclaredProviders(b: Botanist, secrets: map<string, SecretData>, live: seq<string>, i: nat)
    requires AdditionalDNSPlan(b, secrets, Some(live)).Success?
    requires NeedsAdditionalDNSProviders(b)
    requires i < |b.shoot.dns.value.providers|
    requires var ps := b.shoot.dns.value.providers;
      && Managed(ps[i]) && ps[i].secretName.Some?
      && forall j :: i < j < |ps| && Managed(ps[j]) && ps[j].secretName.Some? ==>
           ProviderName(ps[j]) != ProviderName(ps[i])
    ensures var ps := b.shoot.dns.value.providers;
      var m := AdditionalDNSPlan(b, secrets, Some(live)).value;
      && ProviderName(ps[i]) in m
      && ps[i].secretName.value in secrets
      && m[ProviderName(ps[i])]
         == Deploy(Provider(AdditionalProviderValues(ps[i], ProviderName(ps[i]), secrets[ps[i].secretName.value])))
  {
    var ps := b.shoot.dns.value.providers;
    DesiredLastDeclaredWins(ps, secrets, |ps|, i);
  }

  /** A converged namespace, where every live provider is still declared, gets no removal. */
  lemma ConvergedPlanRemovesNothing(b: Botanist, secrets: map<string, SecretData>, live: seq<string>)
    requires AdditionalDNSPlan(b, secrets, Some(live)).Success?
    requires Elements(live) <= NeededNames(b)
    ensures var m := AdditionalDNSPlan(b, secrets, Some(live)).value;
      m.Keys == NeededNames(b) && forall k :: k in m ==> m[k].Deploy?
  {
    PlanKeys(b, secrets, live);
    PlanEntries(b, secrets, live);
  }
}
