/** The reducer-based location and address store of the delivery client
    (src/context/LocationContext.js): the current position, the delivery
    address, and the list of saved addresses mirrored to key-value storage. */
module Location {
  import opened Common
  import opened Seqs

  datatype Coordinates = Coordinates(latitude: real, longitude: real)

  /** An address as the user enters it; `title` is the entry's `label`
      ("Home", "Work"). */
  datatype Address = Address(title: string, address: string, city: string, zipCode: string)

  /** A saved entry, `{ id, ...address, createdAt }`. */
  datatype SavedAddress = SavedAddress(id: string, details: Address, createdAt: string)

  /** What `addSavedAddress` receives: an address that may carry its own id. */
  datatype AddressInput = AddressInput(id: Option<string>, details: Address)

  /** The `updates` of `updateSavedAddress`: each field may be missing. */
  datatype AddressPatch = AddressPatch(title: Option<string>, address: Option<string>,
                                       city: Option<string>, zipCode: Option<string>)

  /** The record SET_CURRENT_LOCATION carries. */
  datatype CurrentLocation = CurrentLocation(coordinates: Coordinates, address: Option<string>,
                                             timestamp: string)

  datatype LocationState = LocationState(currentLocation: Option<CurrentLocation>,
                                         deliveryAddress: Option<Address>,
                                         savedAddresses: seq<SavedAddress>,
                                         locationPermission: Option<string>,
                                         loading: bool, error: Option<string>)

  datatype LocationAction =
    | SetLoading(loading: bool)
    | SetCurrentLocation(location: CurrentLocation)
    | SetDeliveryAddress(address: Address)
    | AddSavedAddress(entry: SavedAddress)
    | RemoveSavedAddress(id: string)
    | UpdateSavedAddress(id: string, patch: AddressPatch)
    | LoadSavedAddresses(entries: seq<SavedAddress>)
    | SetLocationPermission(permission: string)
    | SetError(message: string)
    | ClearError
    | Unrecognized(tag: string)  // any other action type

  const Initial: LocationState := LocationState(None, None, [], None, false, None)

  function HasId(id: string): SavedAddress -> bool
  {
    (a: SavedAddress) => a.id == id
  }

  function OtherId(id: string): SavedAddress -> bool
  {
    (a: SavedAddress) => a.id != id
  }

  function Pick(update: Option<string>, current: string): string
  {
    if update.Some? then update.value else current
  }

  /** `{ ...addr, ...updates }` on the address fields. */
  function Patch(patch: AddressPatch): SavedAddress -> SavedAddress
  {
    (a: SavedAddress) =>
      a.(details := Address(Pick(patch.title, a.details.title), Pick(patch.address, a.details.address),
                            Pick(patch.city, a.details.city), Pick(patch.zipCode, a.details.zipCode)))
  }

  /** The list `updateSavedAddress` computes and the reducer produces. */
  function PatchAll(entries: seq<SavedAddress>, id: string, patch: AddressPatch): seq<SavedAddress>
  {
    UpdateWhere(entries, HasId(id), Patch(patch))
  }

  /** `locationReducer`. */
  function Reduce(s: LocationState, a: LocationAction): LocationState
  {
    match a
    case SetLoading(b) => s.(loading := b)
    case SetCurrentLocation(l) => s.(currentLocation := Some(l), loading := false)
    case SetDeliveryAddress(d) => s.(deliveryAddress := Some(d))
    case AddSavedAddress(e) => s.(savedAddresses := s.savedAddresses + [e])
    case RemoveSavedAddress(id) => s.(savedAddresses := Filter(s.savedAddresses, OtherId(id)))
    case UpdateSavedAddress(id, p) => s.(savedAddresses := PatchAll(s.savedAddresses, id, p))
    case LoadSavedAddresses(es) => s.(savedAddresses := es)
    case SetLocationPermission(p) => s.(locationPermission := Some(p))
    case SetError(m) => s.(error := Some(m), loading := false)
    case ClearError => s.(error := None)
    case Unrecognized(_) => s
  }

  /** The entry `addSavedAddress` builds: a generated id that an id in the
      input overrides, the input's fields, and the creation time. */
  function NewEntry(input: AddressInput, newId: string, now: string): SavedAddress
  {
    SavedAddress(if input.id.Some? then input.id.value else newId, input.details, now)
  }

  // ---------------------------------------------------------------------------
  // Properties of the reducer
  // ---------------------------------------------------------------------------

  /** ADD_SAVED_ADDRESS appends the entry and leaves the existing entries and
      every other field as they were. */
  lemma AddSavedAddressAppends(s: LocationState, e: SavedAddress)
    ensures var r := Reduce(s, AddSavedAddress(e));
      && |r.savedAddresses| == |s.savedAddresses| + 1
      && r.savedAddresses[|s.savedAddresses|] == e
      && r.savedAddresses[..|s.savedAddresses|] == s.savedAddresses
      && r.(savedAddresses := s.savedAddresses) == s
  {
    var r := Reduce(s, AddSavedAddress(e));
    assert r.savedAddresses[..|s.savedAddresses|] == s.savedAddresses;
  }

  /** REMOVE_SAVED_ADDRESS keeps exactly the entries with another id, each as
      often as before and in the same order, and changes nothing else. */
  lemma RemoveSavedAddressExact(s: LocationState, id: string)
    ensures var r := Reduce(s, RemoveSavedAddress(id));
      && (forall e: SavedAddress :: e in r.savedAddresses <==> e in s.savedAddresses && e.id != id)
      && (forall e: SavedAddress :: e.id != id ==> multiset(r.savedAddresses)[e] == multiset(s.savedAddresses)[e])
      && Subsequence(r.savedAddresses, s.savedAddresses)
      && r.(savedAddresses := s.savedAddresses) == s
  {
    FilterCounts(s.savedAddresses, OtherId(id));
    FilterOrder(s.savedAddresses, OtherId(id));
    var r := Reduce(s, RemoveSavedAddress(id));
    forall e: SavedAddress ensures e in r.savedAddresses <==> e in s.savedAddresses && e.id != id {
      assert OtherId(id)(e) == (e.id != id);
    }
    forall e: SavedAddress | e.id != id ensures multiset(r.savedAddresses)[e] == multiset(s.savedAddresses)[e] {
      assert OtherId(id)(e);
    }
  }

  /** UPDATE_SAVED_ADDRESS merges the updates into the entries with that id:
      a field the updates carry wins, a field they lack is kept, and the id
      and creation time stay. Other entries and positions do not change. */
  lemma UpdateSavedAddressMerges(s: LocationState, id: string, p: AddressPatch)
    ensures var r := Reduce(s, UpdateSavedAddress(id, p));
      && |r.savedAddresses| == |s.savedAddresses|
      && (forall i :: 0 <= i < |s.savedAddresses| && s.savedAddresses[i].id != id ==>
            r.savedAddresses[i] == s.savedAddresses[i])
      && (forall i :: 0 <= i < |s.savedAddresses| && s.savedAddresses[i].id == id ==>
            var e, e' := s.savedAddresses[i], r.savedAddresses[i];
            && e'.id == e.id && e'.createdAt == e.createdAt
            && e'.details.title == (if p.title.Some? then p.title.value else e.details.title)
            && e'.details.address == (if p.address.Some? then p.address.value else e.details.address)
            && e'.details.city == (if p.city.Some? then p.city.value else e.details.city)
            && e'.details.zipCode == (if p.zipCode.Some? then p.zipCode.value else e.details.zipCode))
      && ((forall i :: 0 <= i < |s.savedAddresses| ==> s.savedAddresses[i].id != id) ==>
            r.savedAddresses == s.savedAddresses)
      && r.(savedAddresses := s.savedAddresses) == s
  {
    var r := Reduce(s, UpdateSavedAddress(id, p));
    if forall i :: 0 <= i < |s.savedAddresses| ==> s.savedAddresses[i].id != id {
      UpdateWhereMissIsIdentity(s.savedAddresses, HasId(id), Patch(p));
    }
  }

  /** SET_CURRENT_LOCATION and SET_ERROR both end loading; CLEAR_ERROR only
      clears the error; SET_DELIVERY_ADDRESS only sets the address; an
      unknown action returns the state unchanged. */
  lemma BookkeepingActions(s: LocationState, l: CurrentLocation, d: Address, m: string, tag: string)
    ensures Reduce(s, SetCurrentLocation(l)) == s.(currentLocation := Some(l), loading := false)
    ensures Reduce(s, SetError(m)) == s.(error := Some(m), loading := false)
    ensures Reduce(s, ClearError) == s.(error := None)
    ensures Reduce(s, SetDeliveryAddress(d)) == s.(deliveryAddress := Some(d))
    ensures Reduce(s, Unrecognized(tag)) == s
  {
  }

  // ---------------------------------------------------------------------------
  // The provider
  // ---------------------------------------------------------------------------

  /** `LocationProvider`: the reducer's state together with what the store
      holds under the keys `savedAddresses` and `deliveryAddress`. Each
      operation writes the store first and updates the state only when the
      write succeeded. */
  class LocationProvider {
    var state: LocationState
    var storedSavedAddresses: Option<seq<SavedAddress>>
    var storedDeliveryAddress: Option<Address>

    constructor (savedAddresses: Option<seq<SavedAddress>>, deliveryAddress: Option<Address>)
      ensures state == Initial
      ensures storedSavedAddresses == savedAddresses && storedDeliveryAddress == deliveryAddress
    {
      state := Initial;
      storedSavedAddresses := savedAddresses;
      storedDeliveryAddress := deliveryAddress;
    }

    /** `setDeliveryAddress`: after a successful write the state carries the
        address; after a failed one only the error is recorded. */
    method SetDeliveryAddress(address: Address, write: Outcome)
      modifies this
      ensures write.Success? ==>
        storedDeliveryAddress == Some(address) &&
        state == old(state).(deliveryAddress := Some(address))
      ensures write.Failure? ==>
        storedDeliveryAddress == old(storedDeliveryAddress) &&
        state == old(state).(error := Some(write.message), loading := false)
      ensures storedSavedAddresses == old(storedSavedAddresses)
    {
      if write.Success? {
        storedDeliveryAddress := Some(address);
        state := Reduce(state, LocationAction.SetDeliveryAddress(address));
      } else {
        state := Reduce(state, LocationAction.SetError(write.message));
      }
    }

    /** `addSavedAddress`: builds the entry, writes the extended list and then
        appends the entry; the list written equals the state's list after. */
    method AddSavedAddress(input: AddressInput, newId: string, now: string, write: Outcome)
      returns (result: Result<SavedAddress>)
      modifies this
      ensures result.Ok? <==> write.Success?
      ensures write.Success? ==>
        && result.value == NewEntry(input, newId, now)
        && state == old(state).(savedAddresses := old(state).savedAddresses + [result.value])
        && storedSavedAddresses == Some(state.savedAddresses)
      ensures write.Failure? ==>
        && result.message == write.message
        && state == old(state).(error := Some(write.message), loading := false)
        && storedSavedAddresses == old(storedSavedAddresses)
      ensures storedDeliveryAddress == old(storedDeliveryAddress)
    {
      var entry := NewEntry(input, newId, now);
      var updated := state.savedAddresses + [entry];
      if write.Failure? {
        state := Reduce(state, LocationAction.SetError(write.message));
        return Err(write.message);
      }
      storedSavedAddresses := Some(updated);
      state := Reduce(state, LocationAction.AddSavedAddress(entry));
      result := Ok(entry);
    }

    /** `removeSavedAddress`. */
    method RemoveSavedAddress(id: string, write: Outcome)
      modifies this
      ensures write.Success? ==>
        && state == Reduce(old(state), LocationAction.RemoveSavedAddress(id))
        && storedSavedAddresses == Some(state.savedAddresses)
      ensures write.Failure? ==>
        && state == old(state).(error := Some(write.message), loading := false)
        && storedSavedAddresses == old(storedSavedAddresses)
      ensures storedDeliveryAddress == old(storedDeliveryAddress)
    {
      var updated := Filter(state.savedAddresses, OtherId(id));
      if write.Failure? {
        state := Reduce(state, LocationAction.SetError(write.message));
        return;
      }
      storedSavedAddresses := Some(updated);
      state := Reduce(state, LocationAction.RemoveSavedAddress(id));
    }

    /** `updateSavedAddress`. */
    method UpdateSavedAddress(id: string, patch: AddressPatch, write: Outcome)
      modifies this
      ensures write.Success? ==>
        && state == Reduce(old(state), LocationAction.UpdateSavedAddress(id, patch))
        && storedSavedAddresses == Some(state.savedAddresses)
      ensures write.Failure? ==>
        && state == old(state).(error := Some(write.message), loading := false)
        && storedSavedAddresses == old(storedSavedAddresses)
      ensures storedDeliveryAddress == old(storedDeliveryAddress)
    {
      var updated := PatchAll(state.savedAddresses, id, patch);
      if write.Failure? {
        state := Reduce(state, LocationAction.SetError(write.message));
        return;
      }
      storedSavedAddresses := Some(updated);
      state := Reduce(state, LocationAction.UpdateSavedAddress(id, patch));
    }

    /** `clearError`. */
    method ClearError()
      modifies this
      ensures state == old(state).(error := None)
      ensures storedSavedAddresses == old(storedSavedAddresses)
      ensures storedDeliveryAddress == old(storedDeliveryAddress)
    {
      state := Reduce(state, LocationAction.ClearError);
    }
  }
}
