# Botanist DNS decisions, modelled in Dafny

This project models the DNS decision logic of Gardener's botanist
(`vendor/github.com/gardener/gardener/pkg/operation/botanist/dns.go`). For one
shoot cluster, the botanist decides which DNS resources its seed namespace
should hold and what happens to each of them:

- the `DNSProvider` and `DNSEntry` of the shoot's external domain;
- the `DNSProvider` and `DNSEntry` of the garden's internal domain;
- one `DNSProvider` for each additional provider declared in
  `shoot.spec.dns.providers`;
- a removal for every live, role-labelled provider that is no longer declared.

Every operation except `AdditionalDNSProviders` is a pure function of a
configuration snapshot (`ShootConfig.Botanist`). `AdditionalDNSProviders`
builds a map in place with two loops, so it is a method. It is proved equal
to the specification function `AdditionalDNSPlan`, and the lemmas in
`BotanistDnsProperties` state what that plan holds.

Files:

- `wrappers.dfy`: `Option` (Go's nil pointers) and `Result` (Go's `(value, error)`).
- `string_order.dfy`: Go's `<` on strings, and the facts that make it a strict total order.
- `sorted_strings.dfy`: `sets.NewString(xs...).List()` as `SortedList`. Its result is
  duplicate-free and ascending, and it is the only such rendering of its element set.
- `dns_components.dfy`: `ProviderValues`, `EntryValues`, and `Op = Deploy | Destroy`.
  `Op` says what running a component's `Deploy` does. `Destroy` is what a
  component wrapped by `component.OpDestroy` does.
- `shoot_config.dfy`: the configuration snapshot. It holds the shoot's DNS section,
  the garden's domains, the computed cluster domains, and the four DNS components
  installed on the shoot.
- `botanist_dns.dfy`: the operations of `dns.go`.
- `botanist_dns_properties.dfy`: the properties.

The clients' calls become inputs:

- `gardenClient.Get` is the map `secrets` from secret name to secret data.
  A name that is absent means that `Get` failed.
- `seedClient.List` is `live: Option<seq<string>>`, the names of the providers
  that carry the `managed-dns-provider` role label. `None` means that `List` failed.

`component.OpWaiter(a, b)` runs `a` and then `b`. It is modelled as the
sequence `[a, b]`.

## Notes on the code

- The `unmanaged` check comes before the secret-name check (`dns.go:242-250`),
  so an unmanaged provider with no secret name is skipped and is not an error.
  A primary provider is skipped before any check (`dns.go:222-224`).
- `NeedsExternalDNS` only tests that the DNS domain and the external cluster
  domain are set (non-nil, `dns.go:323-325`), not that they are non-empty.
- `NeedsAdditionalDNSProviders` counts every declared provider, primary ones
  included (`dns.go:343`).
- Only the external provider's include domains are deduplicated and sorted
  (`dns.go:111`); the additional providers' lists are passed through unchanged
  (`dns.go:226-235`).
- `DefaultExternalDNSEntry` and `DefaultInternalDNSEntry` always return a
  removal (`dns.go:143-211`); nothing in this file deploys an entry.

## Model

| member | source | states |
|---|---|---|
| `BotanistDns.GenerateDNSProviderName` | vendor/github.com/gardener/gardener/pkg/operation/botanist/dns.go:45-56 | empty exactly when both inputs are empty; equal to the non-empty one when the other is empty; otherwise the type, a `-`, then the secret name |
| `BotanistDnsProperties.NameDeterminesSecretForType` | vendor/github.com/gardener/gardener/pkg/operation/botanist/dns.go:45-56 | for any one provider type, empty or not, two secret names (empty ones included) that give the same provider name are equal |
| `BotanistDnsProperties.NamesCollideAcrossTypes` | vendor/github.com/gardener/gardener/pkg/operation/botanist/dns.go:45-48 | secret `b-c` of type `a` and secret `c` of type `a-b` get the same name `a-b-c`: the rule does not escape `-` |
| `BotanistDns.NeedsExternalDNS` | vendor/github.com/gardener/gardener/pkg/operation/botanist/dns.go:321-329 | the seven-conjunct predicate; when it holds, the external cluster domain is set and does not end in `.nip.io`, and the external domain is set and not `unmanaged`, which is what `DefaultExternalDNSProvider` reads |
| `BotanistDns.NeedsInternalDNS` | vendor/github.com/gardener/gardener/pkg/operation/botanist/dns.go:332-336 | the three-conjunct predicate; when it holds, the internal domain is set and not `unmanaged` |
| `BotanistDns.NeedsAdditionalDNSProviders` | vendor/github.com/gardener/gardener/pkg/operation/botanist/dns.go:340-344 | the three-conjunct predicate; when it holds, a DNS spec with a non-empty provider list is present |
| `BotanistDnsProperties.ExternalDNSNotNeeded` | vendor/github.com/gardener/gardener/pkg/operation/botanist/dns.go:321-329 | each failing conjunct (DNS disabled, no DNS spec, no domain, no external cluster domain, a `.nip.io` cluster domain, no external domain, the `unmanaged` provider) makes external DNS unneeded and the external provider destroy-only |
| `BotanistDnsProperties.ConfiguredExternalDomainIsDeployed` | vendor/github.com/gardener/gardener/pkg/operation/botanist/dns.go:321-329 | when all seven conjuncts hold, external DNS is needed and the external provider is deployed, with the cluster domain among its included domains |
| `BotanistDnsProperties.InternalDNSNotNeeded` | vendor/github.com/gardener/gardener/pkg/operation/botanist/dns.go:332-336 | disabled DNS, a missing internal domain, or an `unmanaged` internal domain makes internal DNS unneeded and the internal provider destroy-only |
| `BotanistDnsProperties.ConfiguredInternalDomainIsDeployed` | vendor/github.com/gardener/gardener/pkg/operation/botanist/dns.go:332-336 | with DNS enabled and a managed internal domain, internal DNS is needed and its provider is deployed for exactly the internal cluster domain |
| `BotanistDnsProperties.NoDeclaredProvidersOnlyRemoves` | vendor/github.com/gardener/gardener/pkg/operation/botanist/dns.go:340-344 | with DNS disabled, no DNS spec, or an empty provider list, additional providers are not needed, and the plan holds exactly the live names, each mapped to a destroy-only removal |
| `BotanistDnsProperties.DeclaredProvidersAreNeeded` | vendor/github.com/gardener/gardener/pkg/operation/botanist/dns.go:340-344 | DNS enabled with a DNS spec whose provider list is non-empty makes additional providers needed; with `NoDeclaredProvidersOnlyRemoves` this gives both directions |
| `BotanistDnsProperties.DisableDNSRemovesEverything` | vendor/github.com/gardener/gardener/pkg/operation/botanist/dns.go:321-344 | `DisableDNS` makes all three predicates false; both built-in providers are removals, and every additional-provider entry is a removal of a live one |
| `BotanistDns.ExternalDNS` | vendor/github.com/gardener/gardener/pkg/operation/botanist/dns.go:65-77 | the two external components run once each; the provider runs first when external DNS is needed, the entry runs first otherwise |
| `BotanistDns.InternalDNS` | vendor/github.com/gardener/gardener/pkg/operation/botanist/dns.go:86-98 | the same for the internal pair and `NeedsInternalDNS` |
| `BotanistDnsProperties.ExternalDNSOrder` | vendor/github.com/gardener/gardener/pkg/operation/botanist/dns.go:65-77 | with the default components: when needed, the full provider is deployed strictly before the entry operation; when not needed, the entry is removed strictly before the provider |
| `BotanistDnsProperties.InternalDNSOrder` | vendor/github.com/gardener/gardener/pkg/operation/botanist/dns.go:86-98 | the same for the internal provider and entry |
| `BotanistDns.DefaultExternalDNSProvider` | vendor/github.com/gardener/gardener/pkg/operation/botanist/dns.go:102-140 | named and purposed `external`, with no labels. When needed it deploys the external domain's provider, secret, exclusions and zones; its included domains are ascending and duplicate-free, and are exactly the configured ones plus the external cluster domain. Otherwise it is a removal with no secret, domain or zone data |
| `BotanistDns.DefaultExternalDNSEntry` | vendor/github.com/gardener/gardener/pkg/operation/botanist/dns.go:143-155 | always a removal of the entry named `external` |
| `BotanistDns.DefaultInternalDNSProvider` | vendor/github.com/gardener/gardener/pkg/operation/botanist/dns.go:159-196 | named and purposed `internal`. When needed it deploys the internal domain's provider, secret and zones, and includes exactly `[internalClusterDomain]`. Otherwise it is a destroy-only removal |
| `BotanistDns.DefaultInternalDNSEntry` | vendor/github.com/gardener/gardener/pkg/operation/botanist/dns.go:199-211 | always a removal of the entry named `internal` |
| `SortedStrings.SortedList` | vendor/github.com/gardener/gardener/pkg/operation/botanist/dns.go:111 | the rendering of a string set is strictly ascending, with exactly the input's elements |
| `SortedStrings.StrictlySortedUnique` | vendor/github.com/gardener/gardener/pkg/operation/botanist/dns.go:111 | two strictly ascending lists with the same elements are equal |
| `SortedStrings.SortedListDependsOnlyOnElements` | vendor/github.com/gardener/gardener/pkg/operation/botanist/dns.go:111 | the include-domain list depends only on which domains are configured, not on their order or repetition |
| `DnsComponents.DestroyOnlyValues` | vendor/github.com/gardener/gardener/pkg/operation/botanist/dns.go:128-132 | removal values carry a name (also the purpose) and labels, and no provider type, secret, domains or zones |
| `BotanistDns.RoleLabels` | vendor/github.com/gardener/gardener/pkg/operation/botanist/dns.go:266 | the only label is the garden role `managed-dns-provider` |
| `BotanistDns.AdditionalProviderValues` | vendor/github.com/gardener/gardener/pkg/operation/botanist/dns.go:226-277 | name = purpose = the generated name; role label; declared type; the fetched secret data; declared domains and zones, empty when not declared |
| `BotanistDns.OrphanOp` | vendor/github.com/gardener/gardener/pkg/operation/botanist/dns.go:301-313 | an orphan's operation is a removal whose values carry only its name and the role label |
| `BotanistDns.Orphans` | vendor/github.com/gardener/gardener/pkg/operation/botanist/dns.go:299-315 | one removal for exactly the live names that are not desired keys |
| `BotanistDns.OrphansStep` | vendor/github.com/gardener/gardener/pkg/operation/botanist/dns.go:299-315 | one more live name adds a removal only when the name is not yet a key |
| `BotanistDns.Contribute` | vendor/github.com/gardener/gardener/pkg/operation/botanist/dns.go:222-284 | one iteration of the build loop: a primary provider is skipped; a failure is never caused by a primary; an added entry comes from a provider with a managed type and a readable secret, and deploys a provider named after its key with that secret's data |
| `BotanistDns.Desired` | vendor/github.com/gardener/gardener/pkg/operation/botanist/dns.go:217-286 | the map after the first `n` iterations, later names overwriting earlier ones; on success every entry is a deployment; an index-carrying error names an index below `n`; the loop never reports a listing failure |
| `BotanistDns.AdditionalDNSPlan` | vendor/github.com/gardener/gardener/pkg/operation/botanist/dns.go:216-318 | the whole function as a value: the build loop when needed, then the cleanup; on success the listing succeeded and every live name is a key; a failed listing always yields a failure, and a listing error only comes from a failed listing |
| `BotanistDns.DesiredFailureStays` | vendor/github.com/gardener/gardener/pkg/operation/botanist/dns.go:237-258 | once a declared provider has failed, the later ones do not change the error |
| `BotanistDns.AdditionalDNSProviders` | vendor/github.com/gardener/gardener/pkg/operation/botanist/dns.go:216-318 | the method's result equals `AdditionalDNSPlan`: the declared providers in order, then the orphan cleanup, and no map on any failure |
| `BotanistDnsProperties.ContributeMatchesChecks` | vendor/github.com/gardener/gardener/pkg/operation/botanist/dns.go:222-262 | a declared provider fails exactly when it is not acceptable, with the expected error; it adds a key exactly when it is acceptable and managed, and the key is its generated name |
| `BotanistDnsProperties.DesiredSucceedsIff` | vendor/github.com/gardener/gardener/pkg/operation/botanist/dns.go:220-258 | the build loop over the first `n` providers succeeds exactly when each of them is acceptable |
| `BotanistDnsProperties.DesiredFailsAtFirstUnacceptable` | vendor/github.com/gardener/gardener/pkg/operation/botanist/dns.go:237-258 | the first unacceptable provider decides the error: a missing type (by index), else a missing secret name (by index), else a secret that cannot be fetched (by name) |
| `BotanistDnsProperties.DesiredKeys` | vendor/github.com/gardener/gardener/pkg/operation/botanist/dns.go:220-285 | the built map's keys are exactly the generated names of the managed providers; primary and unmanaged providers add none |
| `BotanistDnsProperties.DesiredValues` | vendor/github.com/gardener/gardener/pkg/operation/botanist/dns.go:260-277 | every built entry deploys a provider whose name and purpose are its key and which carries the role label |
| `BotanistDnsProperties.DesiredLastDeclaredWins` | vendor/github.com/gardener/gardener/pkg/operation/botanist/dns.go:260-284 | a managed provider's name maps to its own deployment unless a later declared provider generates the same name |
| `BotanistDnsProperties.PlanSucceedsIff` | vendor/github.com/gardener/gardener/pkg/operation/botanist/dns.go:216-297 | the plan exists exactly when listing succeeds and, if additional providers are needed, every declared provider is acceptable |
| `BotanistDnsProperties.PlanFailsAtFirstUnacceptable` | vendor/github.com/gardener/gardener/pkg/operation/botanist/dns.go:237-258 | a configuration or secret error takes precedence over a listing failure, and is the first unacceptable provider's error |
| `BotanistDnsProperties.PlanFailsWhenListingFails` | vendor/github.com/gardener/gardener/pkg/operation/botanist/dns.go:289-297 | when no declared provider fails, a failed listing fails the plan |
| `BotanistDnsProperties.PlanKeys` | vendor/github.com/gardener/gardener/pkg/operation/botanist/dns.go:299-317 | on success the keys are the declared names united with the live names |
| `BotanistDnsProperties.PlanEntries` | vendor/github.com/gardener/gardener/pkg/operation/botanist/dns.go:299-315 | every entry is a role-labelled provider named after its key; it is a removal exactly when its name is not declared, and such a removal carries nothing but its identity; when additional providers are needed, every entry the build loop produced is in the plan with exactly the same value, so the cleanup never overwrites a desired entry |
| `BotanistDnsProperties.PlanDeploysDeclaredProviders` | vendor/github.com/gardener/gardener/pkg/operation/botanist/dns.go:260-284 | in the final plan, each declared managed provider that no later one shadows is deployed with its own type, secret data, domains and zones |
| `BotanistDnsProperties.ConvergedPlanRemovesNothing` | vendor/github.com/gardener/gardener/pkg/operation/botanist/dns.go:299-317 | when every live provider is still declared, the plan holds exactly the declared names, all of them deployments |

## Left out

- `DeleteDNSProviders` (`dns.go:347-363`) is left out. It is a `DeleteAllOf` call plus a 5-second poll until the list is empty: cluster I/O and wall-clock timing.
- `DeployExternalDNS` and `DeployInternalDNS` (`dns.go:59-61`, `80-82`) are left out. Each only calls `Deploy` on the sequence that `ExternalDNS` or `InternalDNS` returns.
- Chart rendering and the apply calls behind `dns.NewDNSProvider` and `dns.NewDNSEntry` are not modelled; a component is modelled only as its values and `Deploy`/`Destroy`. The same holds for the waiting inside `component.OpWaiter`, for `ChartApplierSeed`, and for `ChartsRootPath`.
- The seed namespace, the shoot namespace used as the secret key, the context, and the logger are not modelled.
- Error messages are not modelled as text. `Error` records the index or the secret name that the message reports. The underlying cause of a failed `Get` or `List` is not kept.
- The label selector of `List` is not modelled: `live` is taken to hold only the providers that already match it.
- Go's nil and empty maps and slices are one value in the model.
- The assignment of `Shoot.Components.DNS` happens in a file that is not part of this model. `BotanistDnsProperties.DefaultComponents` states the wiring to the four `Default*` constructors as an assumption of the ordering lemmas.
- The label key `gardener.cloud/role` comes from the v1beta1 constants package, which is not part of this model.
- `StringOrder.Less` compares Unicode scalar values. This matches Go's byte-wise order on valid UTF-8 strings; invalid UTF-8 is not modelled.
