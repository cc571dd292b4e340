/**
 * The read-only configuration snapshot the botanist consults: the shoot's DNS
 * section, the garden's default domains and the cluster domains computed for
 * the shoot.
 */
module ShootConfig {
  import opened Wrappers
  import opened DnsComponents

  /** One entry of `shoot.spec.dns.providers`; every field may be unset. */
  datatype DNSProvider = DNSProvider(
    domains: Option<IncludeExclude>,
    primary: Option<bool>,
    secretName: Option<string>,
    providerType: Option<string>,
    zones: Option<IncludeExclude>)

  /** `shoot.spec.dns`. */
  datatype DNS = DNS(domain: Option<string>, providers: seq<DNSProvider>)

  /** A default domain of the garden (the shoot's external one, or the internal one). */
  datatype Domain = Domain(
    provider: string,
    secretData: SecretData,
    includeDomains: seq<string>,
    excludeDomains: seq<string>,
    includeZones: seq<string>,
    excludeZones: seq<string>)

  /** The four DNS components the shoot's flow has been given (`Shoot.Components.DNS`). */
  datatype DNSComponentSet = DNSComponentSet(
    externalProvider: Op,
    externalEntry: Op,
    internalProvider: Op,
    internalEntry: Op)

  datatype Shoot = Shoot(
    disableDNS: bool,
    dns: Option<DNS>,
    externalClusterDomain: Option<string>,
    externalDomain: Option<Domain>,
    internalClusterDomain: string,
    components: DNSComponentSet)

  datatype Garden = Garden(internalDomain: Option<Domain>)

  datatype Botanist = Botanist(shoot: Shoot, garden: Garden)
}
