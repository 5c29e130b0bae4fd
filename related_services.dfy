/** The related-services box on a service page
    (src/components/RelatedServices.tsx): up to three other services of the
    same category, else up to three other services at all, else nothing. */
module Related {
  import opened Types
  import opened Seqs

  const MaxShown: nat := 3

  /** What the box renders: a heading with its cards, or nothing. */
  datatype Box =
    | RelatedServices(services: seq<Service>)
    | OtherServices(services: seq<Service>)
    | NoServices

  function SameCategoryOtherThan(currentServiceId: string, category: string): Service -> bool
  {
    (s: Service) => s.id != currentServiceId && s.category == category
  }

  /** The box for `currentServiceId` in `category`, over the catalog `services`. */
  function RelatedView(services: seq<Service>, currentServiceId: string, category: string): (r: Box)
    ensures !r.NoServices? ==> 1 <= |r.services| <= MaxShown
    ensures !r.NoServices? ==> forall s :: s in r.services ==> s in services && s.id != currentServiceId
    ensures r.RelatedServices? ==> forall s :: s in r.services ==> s.category == category
  {
    var related := Take(Filter(services, SameCategoryOtherThan(currentServiceId, category)), MaxShown);
    if |related| == 0 then
      var alternative := Take(Filter(services, OtherThan(currentServiceId)), MaxShown);
      if |alternative| == 0 then NoServices else OtherServices(alternative)
    else RelatedServices(related)
  }

  /** The box never shows the current service, shows at most three cards in
      catalog order, shows same-category cards whenever one exists, and shows
      nothing exactly when the catalog holds no other service. */
  lemma RelatedViewSpec(services: seq<Service>, currentServiceId: string, category: string)
    ensures var v := RelatedView(services, currentServiceId, category);
            v.NoServices? <==> forall s :: s in services ==> s.id == currentServiceId
    ensures var v := RelatedView(services, currentServiceId, category);
            v.RelatedServices? <==>
              exists s :: s in services && s.id != currentServiceId && s.category == category
    ensures var v := RelatedView(services, currentServiceId, category);
            !v.NoServices? ==> 1 <= |v.services| <= MaxShown
    ensures var v := RelatedView(services, currentServiceId, category);
            !v.NoServices? ==> forall s :: s in v.services ==> s in services && s.id != currentServiceId
    ensures var v := RelatedView(services, currentServiceId, category);
            v.RelatedServices? ==> forall s :: s in v.services ==> s.category == category
    ensures var v := RelatedView(services, currentServiceId, category);
            v.RelatedServices? ==> v.services == Take(Filter(services, SameCategoryOtherThan(currentServiceId, category)), MaxShown)
    ensures var v := RelatedView(services, currentServiceId, category);
            v.OtherServices? ==> v.services == Take(Filter(services, OtherThan(currentServiceId)), MaxShown)
  {
    var same := Filter(services, SameCategoryOtherThan(currentServiceId, category));
    var other := Filter(services, OtherThan(currentServiceId));
    var v := RelatedView(services, currentServiceId, category);
    if same != [] {
      assert same[0] in same;
    }
    if other != [] {
      assert other[0] in other;
    }
    if !v.NoServices? {
      var f := if v.RelatedServices? then same else other;
      forall s | s in v.services ensures s in f {
        var i :| 0 <= i < |v.services| && v.services[i] == s;
        assert f[i] == s;
      }
    }
  }
}
