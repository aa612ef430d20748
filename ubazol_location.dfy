/** The `useState` location store of the second client
    (Ubazol/src/context/LocationContext.js): the current position, the
    delivery address text, and the saved addresses, one of which may be the
    default. */
module UbazolLocation {
  import opened Common
  import opened Seqs

  /** A position with the address text it resolves to. */
  datatype Position = Position(latitude: real, longitude: real, address: string)

  /** A saved address; `title` is the entry's `label` ("Home", "Work"). */
  datatype SavedAddress = SavedAddress(id: string, title: string, address: string, city: string,
                                       zipCode: string, isDefault: bool)

  /** The `addressData` argument: the fields the form fills in, an id the
      caller may supply, and a default flag that does not survive. */
  datatype AddressData = AddressData(id: Option<string>, title: string, address: string, city: string,
                                     zipCode: string, isDefault: Option<bool>)

  const SeedAddress: string := "123 Main Street, Downtown"

  const Seed: seq<SavedAddress> := [
    SavedAddress("1", "Home", "123 Main Street, Downtown", "New York", "10001", true),
    SavedAddress("2", "Work", "456 Business Ave, Midtown", "New York", "10002", false)
  ]

  /** The fixed position `getCurrentPosition` reports. */
  const MockPosition: Position := Position(40.7128, -74.0060, "123 Main Street, Downtown")

  function HasId(id: string): SavedAddress -> bool
  {
    (a: SavedAddress) => a.id == id
  }

  function OtherId(id: string): SavedAddress -> bool
  {
    (a: SavedAddress) => a.id != id
  }

  function DefaultIf(id: string): SavedAddress -> SavedAddress
  {
    (a: SavedAddress) => a.(isDefault := a.id == id)
  }

  predicate UniqueIds(list: seq<SavedAddress>)
  {
    forall i, j :: 0 <= i < |list| && 0 <= j < |list| && list[i].id == list[j].id ==> i == j
  }

  predicate AtMostOneDefault(list: seq<SavedAddress>)
  {
    forall i, j :: 0 <= i < |list| && 0 <= j < |list| && list[i].isDefault && list[j].isDefault ==> i == j
  }

  /** The entry `addAddress` builds: never the default. */
  function NewAddress(data: AddressData, newId: string): (a: SavedAddress)
    ensures !a.isDefault
    ensures a.id == (if data.id.Some? then data.id.value else newId)
    ensures a.title == data.title && a.address == data.address && a.city == data.city && a.zipCode == data.zipCode
  {
    SavedAddress(if data.id.Some? then data.id.value else newId, data.title, data.address, data.city,
                 data.zipCode, false)
  }

  /** The list `setDefaultAddress` computes. */
  function WithDefault(list: seq<SavedAddress>, id: string): seq<SavedAddress>
  {
    Map(list, DefaultIf(id))
  }

  /** Choosing a default marks exactly the entries with the id and unmarks all
      others; with unique ids at most one entry is the default afterwards, and
      none when the id is absent. */
  lemma WithDefaultExact(list: seq<SavedAddress>, id: string)
    ensures var r := WithDefault(list, id);
      && |r| == |list|
      && (forall i :: 0 <= i < |list| ==> r[i] == list[i].(isDefault := list[i].id == id))
      && (UniqueIds(list) ==> AtMostOneDefault(r))
      && ((forall i :: 0 <= i < |list| ==> list[i].id != id) ==> forall i :: 0 <= i < |r| ==> !r[i].isDefault)
  {
    var r := WithDefault(list, id);
    if UniqueIds(list) {
      forall i, j | 0 <= i < |r| && 0 <= j < |r| && r[i].isDefault && r[j].isDefault
        ensures i == j
      {
        assert list[i].id == id && list[j].id == id;
      }
    }
  }

  /** Removing drops every entry with the id and keeps the others, each as
      often as before and in order. */
  lemma RemovedExact(list: seq<SavedAddress>, id: string)
    ensures var r := Filter(list, OtherId(id));
      && (forall a :: a in r <==> a in list && a.id != id)
      && (forall a: SavedAddress :: a.id != id ==> multiset(r)[a] == multiset(list)[a])
      && Subsequence(r, list)
  {
    FilterCounts(list, OtherId(id));
    FilterOrder(list, OtherId(id));
    var r := Filter(list, OtherId(id));
    forall a ensures a in r <==> a in list && a.id != id {
      assert OtherId(id)(a) == (a.id != id);
    }
    forall a: SavedAddress | a.id != id ensures multiset(r)[a] == multiset(list)[a] {
      assert OtherId(id)(a);
    }
  }

  /** Adding an entry and removing entries keep at most one default. */
  lemma AddRemoveKeepOneDefault(list: seq<SavedAddress>, data: AddressData, newId: string, id: string)
    requires AtMostOneDefault(list)
    ensures AtMostOneDefault(list + [NewAddress(data, newId)])
    ensures AtMostOneDefault(Filter(list, OtherId(id)))
  {
    var added := list + [NewAddress(data, newId)];
    forall i, j | 0 <= i < |added| && 0 <= j < |added| && added[i].isDefault && added[j].isDefault
      ensures i == j
    {
      assert i < |list| && j < |list|;
      assert list[i].isDefault && list[j].isDefault;
    }
    var kept := Filter(list, OtherId(id));
    FilterOrder(list, OtherId(id));
    SubsequenceOneDefault(kept, list);
  }

  /** Leaving entries out keeps at most one default. */
  lemma {:induction false} SubsequenceOneDefault(r: seq<SavedAddress>, s: seq<SavedAddress>)
    requires Subsequence(r, s) && AtMostOneDefault(s)
    ensures AtMostOneDefault(r)
    decreases |s|
  {
    if r != [] && s != [] {
      assert AtMostOneDefault(s[1..]) by {
        forall i, j | 0 <= i < |s[1..]| && 0 <= j < |s[1..]| && s[1..][i].isDefault && s[1..][j].isDefault
          ensures i == j
        {
          assert s[i + 1].isDefault && s[j + 1].isDefault;
        }
      }
      if r[0] == s[0] {
        SubsequenceOneDefault(r[1..], s[1..]);
        SubsequenceIn(r[1..], s[1..]);
        if s[0].isDefault {
          forall k | 1 <= k < |r| ensures !r[k].isDefault {
            assert r[k] == r[1..][k - 1];
            LaterNotDefault(s, r[k]);
          }
        }
        forall i, j | 0 <= i < |r| && 0 <= j < |r| && r[i].isDefault && r[j].isDefault
          ensures i == j
        {
          if i > 0 && j > 0 {
            assert r[1..][i - 1].isDefault && r[1..][j - 1].isDefault;
          }
        }
      } else {
        SubsequenceOneDefault(r, s[1..]);
      }
    }
  }

  /** When the first entry is the default, no later entry is. */
  lemma LaterNotDefault(s: seq<SavedAddress>, x: SavedAddress)
    requires AtMostOneDefault(s) && s != [] && s[0].isDefault && x in s[1..]
    ensures !x.isDefault
  {
    var j :| 0 <= j < |s[1..]| && s[1..][j] == x;
    assert s[j + 1] == x;
  }

  /** The sample list has unique ids and one default, the home address, whose
      text is the starting delivery address. */
  lemma SeedWellFormed()
    ensures UniqueIds(Seed) && AtMostOneDefault(Seed)
    ensures Seed[0].isDefault && Seed[0].address == SeedAddress
  {
  }

  /** `LocationProvider`: the fields `currentLocation`, `address` and
      `savedAddresses`. */
  class LocationProvider {
    var currentLocation: Option<Position>
    var address: string
    var savedAddresses: seq<SavedAddress>

    constructor ()
      ensures currentLocation == None && address == SeedAddress && savedAddresses == Seed
    {
      currentLocation := None;
      address := SeedAddress;
      savedAddresses := Seed;
    }

    /** `updateCurrentLocation`. */
    method UpdateCurrentLocation(location: Position)
      modifies this
      ensures currentLocation == Some(location)
      ensures address == old(address) && savedAddresses == old(savedAddresses)
    {
      currentLocation := Some(location);
    }

    /** `updateAddress`. */
    method UpdateAddress(newAddress: string)
      modifies this
      ensures address == newAddress
      ensures currentLocation == old(currentLocation) && savedAddresses == old(savedAddresses)
    {
      address := newAddress;
    }

    /** `addAddress`: appends a non-default entry and returns it. */
    method AddAddress(data: AddressData, newId: string) returns (entry: SavedAddress)
      modifies this
      ensures entry == NewAddress(data, newId) && !entry.isDefault
      ensures savedAddresses == old(savedAddresses) + [entry]
      ensures currentLocation == old(currentLocation) && address == old(address)
    {
      entry := NewAddress(data, newId);
      savedAddresses := savedAddresses + [entry];
    }

    /** `removeAddress`. */
    method RemoveAddress(id: string)
      modifies this
      ensures savedAddresses == Filter(old(savedAddresses), OtherId(id))
      ensures currentLocation == old(currentLocation) && address == old(address)
    {
      savedAddresses := Filter(savedAddresses, OtherId(id));
    }

    /** `setDefaultAddress`: marks the default, then takes its text as the
        delivery address when an entry has the id. */
    method SetDefaultAddress(id: string)
      modifies this
      ensures savedAddresses == WithDefault(old(savedAddresses), id)
      ensures Find(savedAddresses, HasId(id)).None? ==> address == old(address)
      ensures Find(savedAddresses, HasId(id)).Some? ==> address == Find(savedAddresses, HasId(id)).value.address
      ensures currentLocation == old(currentLocation)
      ensures UniqueIds(old(savedAddresses)) ==> AtMostOneDefault(savedAddresses)
    {
      WithDefaultExact(savedAddresses, id);
      var updated := Map(savedAddresses, DefaultIf(id));
      savedAddresses := updated;
      var chosen := Find(updated, HasId(id));
      if chosen.Some? {
        address := chosen.value.address;
      }
    }

    /** `getCurrentPosition`: reports the fixed position and takes its text as
        the delivery address. */
    method GetCurrentPosition() returns (position: Position)
      modifies this
      ensures position == MockPosition
      ensures currentLocation == Some(MockPosition) && address == MockPosition.address
      ensures savedAddresses == old(savedAddresses)
    {
      position := MockPosition;
      currentLocation := Some(position);
      address := position.address;
    }
  }
}
