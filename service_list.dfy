/** The two service lists kept in React state, the comparison list and the
    favourites: membership by service id, removal by id and adding a service
    whose id is not yet listed. */
module ServiceList {
  import opened Types
  import opened Seqs

  /** The test `list.some(s => s.id === id)` applies. */
  function WithId(id: string): Service -> bool
  {
    (s: Service) => s.id == id
  }

  /** `list.some(s => s.id === id)`. */
  function Includes(list: seq<Service>, id: string): (r: bool)
    ensures r <==> HasServiceId(list, id)
  {
    Any(list, WithId(id))
  }

  /** `list.filter(s => s.id !== id)`. */
  function Without(list: seq<Service>, id: string): (r: seq<Service>)
    ensures forall s :: s in r <==> s in list && s.id != id
    ensures !HasServiceId(r, id)
    ensures IsSubsequence(r, list)
  {
    var r := Filter(list, OtherThan(id));
    assert forall i :: 0 <= i < |r| ==> r[i] in r;
    r
  }

  /** Removing an id that is not listed changes nothing. */
  lemma WithoutAbsent(list: seq<Service>, id: string)
    requires !HasServiceId(list, id)
    ensures Without(list, id) == list
  {
    forall s | s in list ensures OtherThan(id)(s) {
      var i :| 0 <= i < |list| && list[i] == s;
    }
    FilterAll(list, OtherThan(id));
  }

  /** Filtering never introduces two elements with the same id. */
  lemma {:induction false} FilterUnique(list: seq<Service>, keep: Service -> bool)
    requires UniqueServiceIds(list)
    ensures UniqueServiceIds(Filter(list, keep))
    decreases |list|
  {
    if list != [] {
      var tail := list[1..];
      FilterUnique(tail, keep);
      var rest := Filter(tail, keep);
      if keep(list[0]) {
        var r := [list[0]] + rest;
        forall i, j | 0 <= i < j < |r| ensures r[i].id != r[j].id {
          if i == 0 {
            assert r[j] in rest;
            var k :| 0 <= k < |tail| && tail[k] == r[j];
            assert list[k + 1] == r[j];
          } else {
            assert r[i] == rest[i - 1] && r[j] == rest[j - 1];
          }
        }
      }
    }
  }

  /** Removing by id keeps the ids unique. */
  lemma WithoutUnique(list: seq<Service>, id: string)
    requires UniqueServiceIds(list)
    ensures UniqueServiceIds(Without(list, id))
  {
    FilterUnique(list, OtherThan(id));
  }

  /** The list after adding `service` unless its id is already listed. */
  function WithAdded(list: seq<Service>, service: Service): seq<Service>
  {
    if Includes(list, service.id) then list else list + [service]
  }

  /** Adding lists the id, appends at the end exactly when it was absent, keeps
      ids unique and is idempotent. */
  lemma WithAddedSpec(list: seq<Service>, service: Service)
    ensures HasServiceId(WithAdded(list, service), service.id)
    ensures HasServiceId(list, service.id) ==> WithAdded(list, service) == list
    ensures !HasServiceId(list, service.id) ==> WithAdded(list, service) == list + [service]
    ensures UniqueServiceIds(list) ==> UniqueServiceIds(WithAdded(list, service))
    ensures WithAdded(WithAdded(list, service), service) == WithAdded(list, service)
  {
    var r := list + [service];
    assert r[|list|] == service;
  }
}
