/** The comparison list (src/context/compare/CompareContext.tsx): at most
    three services, no service twice. */
module Compare {
  import opened Types
  import opened ServiceList

  const MaxCompareItems: nat := 3

  /** The notice `addToCompare` raises: its title tells the three outcomes apart. */
  datatype CompareOutcome = AlreadyInComparison | LimitReached | Added

  class CompareList {
    var compareList: seq<Service>

    ghost predicate Valid()
      reads this
    {
      |compareList| <= MaxCompareItems && UniqueServiceIds(compareList)
    }

    constructor ()
      ensures Valid() && compareList == []
    {
      compareList := [];
    }

    /** `addToCompare(service)`: a listed id is refused first, then a full list;
        otherwise the service goes at the end. */
    method AddToCompare(service: Service) returns (outcome: CompareOutcome)
      requires Valid()
      modifies this
      ensures Valid()
      ensures outcome == AlreadyInComparison <==> HasServiceId(old(compareList), service.id)
      ensures outcome == LimitReached <==>
                !HasServiceId(old(compareList), service.id) && |old(compareList)| >= MaxCompareItems
      ensures compareList == if outcome == Added then old(compareList) + [service] else old(compareList)
      ensures IsInCompareList(service.id) <==> outcome != LimitReached
    {
      if Includes(compareList, service.id) {
        return AlreadyInComparison;
      }
      if |compareList| >= MaxCompareItems {
        return LimitReached;
      }
      WithAddedSpec(compareList, service);
      compareList := compareList + [service];
      return Added;
    }

    /** `removeFromCompare(serviceId)`. */
    method RemoveFromCompare(serviceId: string)
      requires Valid()
      modifies this
      ensures Valid()
      ensures compareList == Without(old(compareList), serviceId)
      ensures !IsInCompareList(serviceId)
    {
      WithoutUnique(compareList, serviceId);
      compareList := Without(compareList, serviceId);
    }

    /** `isInCompareList(serviceId)`. */
    function IsInCompareList(serviceId: string): (r: bool)
      reads this
      ensures r <==> exists i :: 0 <= i < |compareList| && compareList[i].id == serviceId
    {
      Includes(compareList, serviceId)
    }

    /** `clearCompareList()`. */
    method ClearCompareList()
      modifies this
      ensures Valid() && compareList == []
    {
      compareList := [];
    }
  }
}
