/** The provider search on the providers page (src/pages/Providers.tsx): a
    case-insensitive substring match on name, description or a specialty. */
module ProviderSearch {
  import opened Types
  import opened Text
  import opened Seqs

  /** `specialty.toLowerCase().includes(query)` for an already lower-cased query. */
  function SpecialtyMatches(loweredQuery: string): string -> bool
  {
    (specialty: string) => Contains(Lower(specialty), loweredQuery)
  }

  /** The search test for an already lower-cased query. */
  function MatchesLowered(loweredQuery: string): ServiceProvider -> bool
  {
    (provider: ServiceProvider) =>
      Contains(Lower(provider.name), loweredQuery) ||
      Contains(Lower(provider.description), loweredQuery) ||
      Any(provider.specialties, SpecialtyMatches(loweredQuery))
  }

  /** The search test for `searchQuery`: the query is lower-cased once. */
  function Matches(searchQuery: string): (r: ServiceProvider -> bool)
    ensures searchQuery == "" ==> forall p: ServiceProvider :: r(p)
    ensures forall p: ServiceProvider :: Contains(Lower(p.name), Lower(searchQuery)) ==> r(p)
    ensures forall p: ServiceProvider :: Contains(Lower(p.description), Lower(searchQuery)) ==> r(p)
  {
    MatchesLowered(Lower(searchQuery))
  }

  /** `filteredProviders`. */
  function FilterProviders(providers: seq<ServiceProvider>, searchQuery: string): (r: seq<ServiceProvider>)
    ensures IsSubsequence(r, providers)
    ensures forall p :: p in r <==> p in providers && Matches(searchQuery)(p)
  {
    Filter(providers, Matches(searchQuery))
  }

  /** A provider is kept exactly when the lower-cased query occurs in its
      lower-cased name, description or one of its specialties. */
  lemma FilterProvidersKeeps(providers: seq<ServiceProvider>, searchQuery: string, p: ServiceProvider)
    requires p in providers
    ensures p in FilterProviders(providers, searchQuery) <==>
              Contains(Lower(p.name), Lower(searchQuery)) ||
              Contains(Lower(p.description), Lower(searchQuery)) ||
              exists k :: 0 <= k < |p.specialties| && Contains(Lower(p.specialties[k]), Lower(searchQuery))
  {
    var q := Lower(searchQuery);
    assert Matches(searchQuery)(p) == MatchesLowered(q)(p);
    assert Any(p.specialties, SpecialtyMatches(q)) <==>
           exists k :: 0 <= k < |p.specialties| && SpecialtyMatches(q)(p.specialties[k]);
  }

  /** An empty search keeps every provider, in order. */
  lemma EmptyQueryKeepsAll(providers: seq<ServiceProvider>)
    ensures FilterProviders(providers, "") == providers
  {
    forall p | p in providers ensures Matches("")(p) {
      ContainsEmpty(Lower(p.name));
    }
    FilterAll(providers, Matches(""));
  }

  /** The search ignores the case of the query. */
  lemma SearchIgnoresQueryCase(providers: seq<ServiceProvider>, searchQuery: string)
    ensures FilterProviders(providers, Upper(searchQuery)) == FilterProviders(providers, searchQuery)
    ensures FilterProviders(providers, Lower(searchQuery)) == FilterProviders(providers, searchQuery)
  {
    LowerOfUpper(searchQuery);
    LowerIdempotent(searchQuery);
  }
}
