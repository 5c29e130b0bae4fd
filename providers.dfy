/** Look-ups over the provider catalogue (src/data/providers.ts). The
    catalogue itself is static reference data and is passed in. */
module Providers {
  import opened Wrappers
  import opened Types
  import opened Seqs

  /** `serviceProviders.find(p => p.id === id)`: the first provider with that
      id, or none when no provider has it. */
  function GetProviderById(providers: seq<ServiceProvider>, id: string): (r: Option<ServiceProvider>)
    ensures r.None? <==> forall i :: 0 <= i < |providers| ==> providers[i].id != id
    ensures r.Some? ==> exists i :: 0 <= i < |providers| && providers[i] == r.value && r.value.id == id &&
                                    forall j :: 0 <= j < i ==> providers[j].id != id
  {
    if providers == [] then None
    else if providers[0].id == id then Some(providers[0])
    else
      var rest := GetProviderById(providers[1..], id);
      assert forall j :: 1 <= j < |providers| ==> providers[j] == providers[1..][j - 1];
      rest
  }

  /** The test `provider.services.includes(service.id)`. */
  function ListedIn(serviceIds: seq<string>): Service -> bool
  {
    (s: Service) => s.id in serviceIds
  }

  /** `getServicesByProviderId`: the services of `allServices` whose id the
      provider lists, in catalogue order; nothing for an unknown provider. */
  function GetServicesByProviderId(providers: seq<ServiceProvider>, providerId: string, allServices: seq<Service>)
    : (r: seq<Service>)
    ensures GetProviderById(providers, providerId).None? ==> r == []
    ensures GetProviderById(providers, providerId).Some? ==>
              forall s :: s in r <==> s in allServices && s.id in GetProviderById(providers, providerId).value.services
    ensures IsSubsequence(r, allServices)
  {
    match GetProviderById(providers, providerId)
    case None => []
    case Some(provider) => Filter(allServices, ListedIn(provider.services))
  }
}
