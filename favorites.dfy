/** The favourites list (src/context/favorites/FavoritesContext.tsx). */
module Favorites {
  import opened Types
  import opened ServiceList

  class FavoriteList {
    var favorites: seq<Service>

    constructor ()
      ensures favorites == []
    {
      favorites := [];
    }

    /** `addFavorite(service)`: a listed id leaves the list as it was. */
    method AddFavorite(service: Service)
      modifies this
      ensures favorites == WithAdded(old(favorites), service)
      ensures IsFavorite(service.id)
      ensures UniqueServiceIds(old(favorites)) ==> UniqueServiceIds(favorites)
    {
      WithAddedSpec(favorites, service);
      if !Includes(favorites, service.id) {
        favorites := favorites + [service];
      }
    }

    /** `removeFavorite(serviceId)`: the others stay, in order. */
    method RemoveFavorite(serviceId: string)
      modifies this
      ensures favorites == Without(old(favorites), serviceId)
      ensures !IsFavorite(serviceId)
      ensures UniqueServiceIds(old(favorites)) ==> UniqueServiceIds(favorites)
    {
      if UniqueServiceIds(favorites) {
        WithoutUnique(favorites, serviceId);
      }
      favorites := Without(favorites, serviceId);
    }

    /** `isFavorite(serviceId)`. */
    function IsFavorite(serviceId: string): (r: bool)
      reads this
      ensures r <==> exists i :: 0 <= i < |favorites| && favorites[i].id == serviceId
    {
      Includes(favorites, serviceId)
    }
  }
}
