/**
 * The values handed to the DNS provider and DNS entry components of the seed
 * namespace, and the operation a component performs when it is run.
 */
module DnsComponents {
  import opened Wrappers

  newtype byte = b: int | 0 <= b < 0x100

  /** The data of a Kubernetes secret: key to raw bytes. */
  type SecretData = map<string, seq<byte>>

  datatype IncludeExclude = IncludeExclude(includes: seq<string>, excludes: seq<string>)

  /**
   * The values of a DNSProvider resource. Go's nil map and nil slice are the
   * empty map and the empty sequence; a nil `*IncludeExclude` is `None`.
   */
  datatype ProviderValues = ProviderValues(
    name: string,
    purpose: string,
    labels: map<string, string>,
    provider: string,
    secretData: SecretData,
    domains: Option<IncludeExclude>,
    zones: Option<IncludeExclude>)

  /** The values of a DNSEntry resource (only its name is set here). */
  datatype EntryValues = EntryValues(name: string)

  datatype Component = Provider(provider: ProviderValues) | Entry(entry: EntryValues)

  /**
   * What a component does when its `Deploy` is invoked: apply the resource, or,
   * once wrapped by `component.OpDestroy`, delete it.
   */
  datatype Op = Deploy(component: Component) | Destroy(component: Component)

  /** Provider values that carry only an identity: what a removal needs. */
  function DestroyOnlyValues(name: string, labels: map<string, string>): (v: ProviderValues)
    ensures v.name == name && v.purpose == name && v.labels == labels
    ensures v.provider == "" && v.secretData == map[] && v.domains.None? && v.zones.None?
  {
    ProviderValues(name, name, labels, "", map[], None, None)
  }
}
