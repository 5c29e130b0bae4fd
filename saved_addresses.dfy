/** The saved addresses panel (src/components/SavedAddresses.tsx): adding an
    address and making one the default. An address's id is optional, and an
    address without one is never made the default. */
module SavedAddresses {
  import opened Wrappers
  import opened Types

  const MockAddresses: seq<Address> := [
    Address(Some("1"), "John Doe", "john@example.com", "123 Main St", "San Francisco", "CA", "94105", true),
    Address(Some("2"), "John Doe", "john@example.com", "456 Market St", "San Francisco", "CA", "94102", false)
  ]

  /** `addr.id === id`: an address without an id matches no id. */
  predicate HasId(address: Address, id: string)
  {
    address.id == Some(id)
  }

  predicate UniqueAddressIds(addresses: seq<Address>)
  {
    forall i, j :: 0 <= i < j < |addresses| && addresses[i].id.Some? ==> addresses[i].id != addresses[j].id
  }

  predicate AtMostOneDefault(addresses: seq<Address>)
  {
    forall i, j :: 0 <= i < |addresses| && 0 <= j < |addresses| && addresses[i].isDefault && addresses[j].isDefault ==> i == j
  }

  /** The list after `handleSetDefault(id)`. */
  function WithDefault(addresses: seq<Address>, id: string): (r: seq<Address>)
    ensures |r| == |addresses|
    ensures forall i :: 0 <= i < |r| ==> r[i] == addresses[i].(isDefault := HasId(addresses[i], id))
  {
    seq(|addresses|, i requires 0 <= i < |addresses| => addresses[i].(isDefault := HasId(addresses[i], id)))
  }

  /** With ids unique, the address with `id` becomes the only default; when no
      address has it, none is default afterwards. */
  lemma WithDefaultExactlyOne(addresses: seq<Address>, id: string)
    requires UniqueAddressIds(addresses)
    ensures AtMostOneDefault(WithDefault(addresses, id))
    ensures (exists i :: 0 <= i < |addresses| && HasId(addresses[i], id)) <==>
            (exists i :: 0 <= i < |addresses| && WithDefault(addresses, id)[i].isDefault)
  {
  }

  /** The address `handleNewAddress` appends. */
  function NewAddress(addresses: seq<Address>, address: Address, newId: string): (r: Address)
    ensures r.id == Some(newId)
    ensures r.(id := address.id, isDefault := address.isDefault) == address
    ensures r.isDefault <==> addresses == []
  {
    address.(id := Some(newId), isDefault := |addresses| == 0)
  }

  lemma NewAddressKeepsInvariant(addresses: seq<Address>, address: Address, newId: string)
    requires UniqueAddressIds(addresses) && AtMostOneDefault(addresses)
    requires forall i :: 0 <= i < |addresses| ==> !HasId(addresses[i], newId)
    ensures var r := addresses + [NewAddress(addresses, address, newId)];
            UniqueAddressIds(r) && AtMostOneDefault(r)
  {
  }

  class AddressBook {
    var addresses: seq<Address>

    ghost predicate Valid()
      reads this
    {
      UniqueAddressIds(addresses) && AtMostOneDefault(addresses)
    }

    constructor ()
      ensures Valid() && addresses == MockAddresses
    {
      addresses := MockAddresses;
    }

    /** `handleNewAddress(address)`: `newId` stands for `new-${Date.now()}`;
        the appended address is the one handed to `onSelectAddress`. */
    method HandleNewAddress(address: Address, newId: string) returns (selected: Address)
      requires Valid()
      requires forall i :: 0 <= i < |addresses| ==> !HasId(addresses[i], newId)
      modifies this
      ensures Valid()
      ensures selected == NewAddress(old(addresses), address, newId)
      ensures addresses == old(addresses) + [selected]
      ensures selected.isDefault <==> old(addresses) == []
    {
      selected := NewAddress(addresses, address, newId);
      NewAddressKeepsInvariant(addresses, address, newId);
      addresses := addresses + [selected];
    }

    /** `handleSetDefault(id)`. */
    method HandleSetDefault(id: string)
      requires Valid()
      modifies this
      ensures Valid()
      ensures addresses == WithDefault(old(addresses), id)
    {
      WithDefaultExactlyOne(addresses, id);
      addresses := WithDefault(addresses, id);
    }
  }
}
