/** The reducer-based shopping cart of the delivery client
    (src/context/CartContext.js): line items from one vendor at a time,
    totals derived from the lines, and three fees. */
module Cart {
  import opened Common
  import opened Seqs

  /** The `options` of a line. The source tells two option objects apart by
      their JSON text; the model uses a canonical value compared with `==`. */
  type Options = map<string, string>

  datatype Vendor = Vendor(id: string, name: string, image: string)

  /** What a product screen hands to `addItem`. Prices are in cents. */
  datatype Product = Product(id: string, name: string, price: int, image: string,
                             vendorId: string, vendorName: string, vendorImage: string)

  datatype CartItem = CartItem(id: string, name: string, price: int, image: string,
                               vendorId: string, vendorName: string, quantity: int,
                               options: Options, addedAt: string)

  datatype CartState = CartState(items: seq<CartItem>, totalItems: int, totalPrice: int,
                                 selectedVendor: Option<Vendor>,
                                 deliveryFee: int, serviceFee: int, tax: int,
                                 loading: bool, error: Option<string>)

  /** The record kept under the storage key `cartData`. */
  datatype StoredCart = StoredCart(items: seq<CartItem>, selectedVendor: Option<Vendor>,
                                   deliveryFee: int, serviceFee: int, tax: int)

  /** The payload of UPDATE_FEES: each fee may be missing. */
  datatype Fees = Fees(deliveryFee: Option<int>, serviceFee: Option<int>, tax: Option<int>)

  datatype Totals = Totals(totalItems: int, totalPrice: int)

  datatype CartAction =
    | SetLoading(loading: bool)
    | LoadCart(stored: StoredCart)
    | AddItem(item: CartItem)
    | RemoveItem(id: string, options: Options)
    | UpdateQuantity(id: string, quantity: int, options: Options)
    | ClearCart
    | SetVendor(vendor: Option<Vendor>)
    | UpdateFees(fees: Fees)
    | SetError(message: string)
    | ClearError
    | Unrecognized(tag: string)  // any other action type

  const VendorConflictMessage: string :=
    "You can only order from one vendor at a time. Clear cart to add items from a different vendor."

  const Initial: CartState := CartState([], 0, 0, None, 0, 0, 0, false, None)

  /** A line is identified by its product id together with its options. */
  predicate SameLine(item: CartItem, id: string, options: Options)
  {
    item.id == id && item.options == options
  }

  function Matches(id: string, options: Options): CartItem -> bool
  {
    item => SameLine(item, id, options)
  }

  function Unmatched(id: string, options: Options): CartItem -> bool
  {
    item => !SameLine(item, id, options)
  }

  /** `k` is the first line identified by `(id, options)`. */
  predicate FirstLine(items: seq<CartItem>, id: string, options: Options, k: int)
  {
    0 <= k < |items| && SameLine(items[k], id, options) &&
    forall j :: 0 <= j < k ==> !SameLine(items[j], id, options)
  }

  predicate NoLine(items: seq<CartItem>, id: string, options: Options)
  {
    forall j :: 0 <= j < |items| ==> !SameLine(items[j], id, options)
  }

  function Quantity(item: CartItem): int { item.quantity }

  function LineTotal(item: CartItem): int { item.price * item.quantity }

  function WithQuantity(quantity: int): CartItem -> CartItem
  {
    (item: CartItem) => item.(quantity := quantity)
  }

  function HasQuantity(item: CartItem): bool { item.quantity > 0 }

  /** `calculateTotals`: the number of units and the price of all lines. */
  function CalculateTotals(items: seq<CartItem>): Totals
  {
    Totals(Sum(items, Quantity), Sum(items, LineTotal))
  }

  /** The stored totals are those of the stored lines. */
  predicate TotalsMatch(s: CartState)
  {
    s.totalItems == Sum(s.items, Quantity) && s.totalPrice == Sum(s.items, LineTotal)
  }

  /** A vendor is selected exactly when there are lines, and every line comes from it. */
  predicate VendorConsistent(s: CartState)
  {
    (s.selectedVendor.None? <==> s.items == []) &&
    (s.selectedVendor.Some? ==>
      forall i :: 0 <= i < |s.items| ==> s.items[i].vendorId == s.selectedVendor.value.id)
  }

  /** The lines after ADD_ITEM: the first line with the same identity gains
      the payload's quantity, otherwise the payload is appended. */
  function AddLine(items: seq<CartItem>, item: CartItem): seq<CartItem>
  {
    var k := FindIndex(items, Matches(item.id, item.options));
    if k >= 0 then items[k := items[k].(quantity := items[k].quantity + item.quantity)]
    else items + [item]
  }

  /** `x` is a line of `items` with another identity, or a line of `items`
      with identity `(id, options)` carrying the new quantity. */
  ghost predicate KeptOrReset(items: seq<CartItem>, id: string, quantity: int, options: Options, x: CartItem)
  {
    (x in items && !SameLine(x, id, options)) ||
    exists y :: y in items && SameLine(y, id, options) && x == y.(quantity := quantity)
  }

  /** The lines after UPDATE_QUANTITY: set the quantity of the matching
      lines, then drop every line whose quantity is not positive. */
  function SetLineQuantity(items: seq<CartItem>, id: string, quantity: int, options: Options): seq<CartItem>
  {
    Filter(UpdateWhere(items, Matches(id, options), WithQuantity(quantity)), HasQuantity)
  }

  function WithItems(s: CartState, items: seq<CartItem>): CartState
  {
    var t := CalculateTotals(items);
    s.(items := items, totalItems := t.totalItems, totalPrice := t.totalPrice)
  }

  /** `cartReducer`. */
  function Reduce(s: CartState, a: CartAction): CartState
  {
    match a
    case SetLoading(b) => s.(loading := b)
    case LoadCart(p) =>
      WithItems(s, p.items).(selectedVendor := p.selectedVendor, deliveryFee := p.deliveryFee,
                             serviceFee := p.serviceFee, tax := p.tax, loading := false)
    case AddItem(item) => WithItems(s, AddLine(s.items, item)).(error := None)
    case RemoveItem(id, options) =>
      var items := Filter(s.items, Unmatched(id, options));
      WithItems(s, items).(selectedVendor := if |items| == 0 then None else s.selectedVendor)
    case UpdateQuantity(id, quantity, options) =>
      var items := SetLineQuantity(s.items, id, quantity, options);
      WithItems(s, items).(selectedVendor := if |items| == 0 then None else s.selectedVendor)
    case ClearCart => Initial.(loading := false)
    case SetVendor(v) => s.(selectedVendor := v)
    case UpdateFees(f) =>
      s.(deliveryFee := OrZero(f.deliveryFee), serviceFee := OrZero(f.serviceFee), tax := OrZero(f.tax))
    case SetError(m) => s.(error := Some(m), loading := false)
    case ClearError => s.(error := None)
    case Unrecognized(_) => s
  }

  /** The line `addItem` builds from a product. */
  function LineFor(product: Product, quantity: int, options: Options, now: string): CartItem
  {
    CartItem(product.id, product.name, product.price, product.image,
             product.vendorId, product.vendorName, quantity, options, now)
  }

  function Snapshot(s: CartState): StoredCart
  {
    StoredCart(s.items, s.selectedVendor, s.deliveryFee, s.serviceFee, s.tax)
  }

  // ---------------------------------------------------------------------------
  // Properties of the reducer
  // ---------------------------------------------------------------------------

  lemma FirstLineUnique(items: seq<CartItem>, id: string, options: Options, k: int)
    requires FirstLine(items, id, options, k)
    ensures FindIndex(items, Matches(id, options)) == k
  {
    var m := FindIndex(items, Matches(id, options));
    assert Matches(id, options)(items[k]);
  }

  /** ADD_ITEM raises the quantity of the first line with the payload's
      identity and leaves every other line in place; when no line has that
      identity it appends the payload. Only lines, totals and `error` change. */
  lemma AddItemMergesOrAppends(s: CartState, item: CartItem)
    ensures var r := Reduce(s, AddItem(item));
      && r.selectedVendor == s.selectedVendor && r.loading == s.loading
      && r.deliveryFee == s.deliveryFee && r.serviceFee == s.serviceFee && r.tax == s.tax
      && r.error == None
      && TotalsMatch(r)
      && (NoLine(s.items, item.id, item.options) ==> r.items == s.items + [item])
      && (forall k :: FirstLine(s.items, item.id, item.options, k) ==>
            && |r.items| == |s.items|
            && r.items[k] == s.items[k].(quantity := s.items[k].quantity + item.quantity)
            && forall j :: 0 <= j < |s.items| && j != k ==> r.items[j] == s.items[j])
  {
    forall k | FirstLine(s.items, item.id, item.options, k)
      ensures FindIndex(s.items, Matches(item.id, item.options)) == k
    {
      FirstLineUnique(s.items, item.id, item.options, k);
    }
    if NoLine(s.items, item.id, item.options) {
      assert forall j :: 0 <= j < |s.items| ==> !Matches(item.id, item.options)(s.items[j]);
    }
  }

  /** ADD_ITEM on a cart whose totals are right adds the payload's quantity to
      the unit count and that many units, at the price of the line that
      receives them, to the price. A merged line keeps its own price. */
  lemma AddItemTotals(s: CartState, item: CartItem)
    requires TotalsMatch(s)
    ensures var r := Reduce(s, AddItem(item));
      && r.totalItems == s.totalItems + item.quantity
      && (NoLine(s.items, item.id, item.options) ==>
            r.totalPrice == s.totalPrice + item.price * item.quantity)
      && (forall k :: FirstLine(s.items, item.id, item.options, k) ==>
            r.totalPrice == s.totalPrice + s.items[k].price * item.quantity)
  {
    var k := FindIndex(s.items, Matches(item.id, item.options));
    if k >= 0 {
      var old_ := s.items[k];
      var new_ := old_.(quantity := old_.quantity + item.quantity);
      SumReplace(s.items, k, new_, Quantity);
      SumReplace(s.items, k, new_, LineTotal);
      assert LineTotal(new_) == LineTotal(old_) + old_.price * item.quantity by {
        assert old_.price * (old_.quantity + item.quantity)
            == old_.price * old_.quantity + old_.price * item.quantity;
      }
      forall k' | FirstLine(s.items, item.id, item.options, k') ensures k' == k {
        FirstLineUnique(s.items, item.id, item.options, k');
      }
      assert !NoLine(s.items, item.id, item.options) by {
        assert Matches(item.id, item.options)(s.items[k]);
      }
    } else {
      SumConcat(s.items, [item], Quantity);
      SumConcat(s.items, [item], LineTotal);
      forall k' | 0 <= k' < |s.items| ensures !FirstLine(s.items, item.id, item.options, k') {
        assert !Matches(item.id, item.options)(s.items[k']);
      }
    }
  }

  /** REMOVE_ITEM keeps exactly the lines with another identity, each as
      often as before and in the same order, recomputes the totals, and
      drops the vendor exactly when no line is left. */
  lemma RemoveItemExact(s: CartState, id: string, options: Options)
    ensures var r := Reduce(s, RemoveItem(id, options));
      && (forall x :: x in r.items <==> x in s.items && !SameLine(x, id, options))
      && (forall x :: !SameLine(x, id, options) ==> multiset(r.items)[x] == multiset(s.items)[x])
      && Subsequence(r.items, s.items)
      && TotalsMatch(r)
      && (r.items == [] ==> r.selectedVendor == None)
      && (r.items != [] ==> r.selectedVendor == s.selectedVendor)
      && r.deliveryFee == s.deliveryFee && r.serviceFee == s.serviceFee && r.tax == s.tax
      && r.loading == s.loading && r.error == s.error
  {
    var r := Reduce(s, RemoveItem(id, options));
    FilterCounts(s.items, Unmatched(id, options));
    FilterOrder(s.items, Unmatched(id, options));
    forall x ensures x in r.items <==> x in s.items && !SameLine(x, id, options) {
      assert Unmatched(id, options)(x) == !SameLine(x, id, options);
    }
    forall x | !SameLine(x, id, options) ensures multiset(r.items)[x] == multiset(s.items)[x] {
      assert Unmatched(id, options)(x);
    }
  }

  /** The lines UPDATE_QUANTITY leaves: no line with a non-positive quantity
      survives, and a line survives exactly when it had another identity or
      is a matching line carrying the new quantity. */
  lemma {:induction false} SetLineQuantityContents(items: seq<CartItem>, id: string, quantity: int, options: Options)
    ensures var r := SetLineQuantity(items, id, quantity, options);
      && (forall x :: x in r ==> x.quantity > 0)
      && (forall x :: x in r <==> x.quantity > 0 && KeptOrReset(items, id, quantity, options, x))
  {
    var u := UpdateWhere(items, Matches(id, options), WithQuantity(quantity));
    var r := Filter(u, HasQuantity);
    forall x
      ensures x in r <==> x.quantity > 0 && KeptOrReset(items, id, quantity, options, x)
    {
      if x in u {
        var i :| 0 <= i < |u| && u[i] == x;
        if !SameLine(items[i], id, options) {
          assert x == items[i];
        } else {
          assert x == items[i].(quantity := quantity);
        }
      }
      if x in items && !SameLine(x, id, options) {
        var i :| 0 <= i < |items| && items[i] == x;
        assert u[i] == x;
      }
      if exists y :: y in items && SameLine(y, id, options) && x == y.(quantity := quantity) {
        var y :| y in items && SameLine(y, id, options) && x == y.(quantity := quantity);
        var i :| 0 <= i < |items| && items[i] == y;
        assert u[i] == x;
      }
    }
  }

  /** The lines UPDATE_QUANTITY leaves keep the order of the updated list,
      and every line with a positive quantity occurs in them as often as in
      the updated list. */
  lemma SetLineQuantityCounts(items: seq<CartItem>, id: string, quantity: int, options: Options)
    ensures var u := UpdateWhere(items, Matches(id, options), WithQuantity(quantity));
      && (forall x: CartItem :: x.quantity > 0 ==> multiset(SetLineQuantity(items, id, quantity, options))[x] == multiset(u)[x])
      && Subsequence(SetLineQuantity(items, id, quantity, options), u)
  {
    var u := UpdateWhere(items, Matches(id, options), WithQuantity(quantity));
    FilterOrder(u, HasQuantity);
    FilterCounts(u, HasQuantity);
    forall x: CartItem | x.quantity > 0
      ensures multiset(Filter(u, HasQuantity))[x] == multiset(u)[x]
    {
      assert HasQuantity(x);
    }
  }

  /** UPDATE_QUANTITY sets the quantity of the matching lines, drops every
      line left without a positive quantity, keeps each surviving line as
      often as the updated list had it and in the same order, recomputes the
      totals and drops the vendor exactly when no line is left. */
  lemma UpdateQuantitySetsAndDrops(s: CartState, id: string, quantity: int, options: Options)
    ensures var r := Reduce(s, UpdateQuantity(id, quantity, options));
      && (forall x :: x in r.items ==> x.quantity > 0)
      && (forall x :: x in r.items <==> x.quantity > 0 && KeptOrReset(s.items, id, quantity, options, x))
    ensures var r := Reduce(s, UpdateQuantity(id, quantity, options));
      var u := UpdateWhere(s.items, Matches(id, options), WithQuantity(quantity));
      && (forall x: CartItem :: x.quantity > 0 ==> multiset(r.items)[x] == multiset(u)[x])
      && Subsequence(r.items, u)
    ensures var r := Reduce(s, UpdateQuantity(id, quantity, options));
      && TotalsMatch(r)
      && (r.items == [] ==> r.selectedVendor == None)
      && (r.items != [] ==> r.selectedVendor == s.selectedVendor)
      && r.deliveryFee == s.deliveryFee && r.serviceFee == s.serviceFee && r.tax == s.tax
      && r.loading == s.loading && r.error == s.error
  {
    var r := Reduce(s, UpdateQuantity(id, quantity, options));
    assert r.items == SetLineQuantity(s.items, id, quantity, options);
    SetLineQuantityContents(s.items, id, quantity, options);
    SetLineQuantityCounts(s.items, id, quantity, options);
  }

  /** Setting a line to a non-positive quantity is removing it, as long as
      every line had a positive quantity. */
  lemma {:induction false} SetLineQuantityNonPositiveIsRemove(items: seq<CartItem>, id: string, quantity: int, options: Options)
    requires quantity <= 0
    requires forall i :: 0 <= i < |items| ==> items[i].quantity > 0
    ensures SetLineQuantity(items, id, quantity, options) == Filter(items, Unmatched(id, options))
  {
    if items != [] {
      var u := UpdateWhere(items, Matches(id, options), WithQuantity(quantity));
      assert u[1..] == UpdateWhere(items[1..], Matches(id, options), WithQuantity(quantity));
      SetLineQuantityNonPositiveIsRemove(items[1..], id, quantity, options);
    }
  }

  /** `updateQuantity(id, q, options)` with `q <= 0` has the same effect as
      `removeItem(id, options)` on a cart whose lines all have positive quantities. */
  lemma UpdateQuantityNonPositiveIsRemove(s: CartState, id: string, quantity: int, options: Options)
    requires quantity <= 0
    requires forall i :: 0 <= i < |s.items| ==> s.items[i].quantity > 0
    ensures Reduce(s, UpdateQuantity(id, quantity, options)) == Reduce(s, RemoveItem(id, options))
  {
    SetLineQuantityNonPositiveIsRemove(s.items, id, quantity, options);
    SameLinesSameState(s, id, quantity, options);
  }

  /** UPDATE_QUANTITY and REMOVE_ITEM build the rest of the state from the
      lines alone, so equal lines give equal states. */
  lemma SameLinesSameState(s: CartState, id: string, quantity: int, options: Options)
    requires SetLineQuantity(s.items, id, quantity, options) == Filter(s.items, Unmatched(id, options))
    ensures Reduce(s, UpdateQuantity(id, quantity, options)) == Reduce(s, RemoveItem(id, options))
  {
  }

  /** CLEAR_CART yields the initial cart: no lines, zero totals and fees,
      no vendor, not loading, no error. */
  lemma ClearCartIsInitial(s: CartState)
    ensures var r := Reduce(s, ClearCart);
      && r.items == [] && r.totalItems == 0 && r.totalPrice == 0
      && r.selectedVendor == None
      && r.deliveryFee == 0 && r.serviceFee == 0 && r.tax == 0
      && !r.loading && r.error == None
  {
  }

  /** UPDATE_FEES overwrites all three fees, a missing value becoming 0, and
      changes nothing else. */
  lemma UpdateFeesOverwrites(s: CartState, fees: Fees)
    ensures var r := Reduce(s, UpdateFees(fees));
      && r.deliveryFee == (if fees.deliveryFee.Some? then fees.deliveryFee.value else 0)
      && r.serviceFee == (if fees.serviceFee.Some? then fees.serviceFee.value else 0)
      && r.tax == (if fees.tax.Some? then fees.tax.value else 0)
      && r.items == s.items && r.totalItems == s.totalItems && r.totalPrice == s.totalPrice
      && r.selectedVendor == s.selectedVendor && r.loading == s.loading && r.error == s.error
  {
  }

  /** SET_ERROR records the message and ends loading; CLEAR_ERROR only clears
      the message; SET_VENDOR only sets the vendor; an unknown action changes nothing. */
  lemma BookkeepingActions(s: CartState, m: string, v: Option<Vendor>, tag: string)
    ensures Reduce(s, SetError(m)) == s.(error := Some(m), loading := false)
    ensures Reduce(s, ClearError) == s.(error := None)
    ensures Reduce(s, SetVendor(v)) == s.(selectedVendor := v)
    ensures Reduce(s, Unrecognized(tag)) == s
  {
  }

  /** Storing a cart and loading it again at start-up (SET_LOADING then
      LOAD_CART on the initial state) gives back the same cart. */
  lemma LoadCartRoundTrip(s: CartState)
    requires TotalsMatch(s)
    ensures Reduce(Reduce(Initial, SetLoading(true)), LoadCart(Snapshot(s)))
         == s.(loading := false, error := None)
  {
  }

  /** Every action recomputing the lines leaves totals that match them; the
      other actions do not touch lines or totals. */
  lemma ReduceKeepsTotals(s: CartState, a: CartAction)
    requires TotalsMatch(s) || a.LoadCart? || a.AddItem? || a.RemoveItem? || a.UpdateQuantity? || a.ClearCart?
    ensures TotalsMatch(Reduce(s, a))
  {
  }

  // ---------------------------------------------------------------------------
  // The provider
  // ---------------------------------------------------------------------------

  /** `CartProvider`: holds the reducer's state; every operation dispatches. */
  class CartProvider {
    var state: CartState

    ghost predicate Valid()
      reads this
    {
      TotalsMatch(state) && VendorConsistent(state)
    }

    constructor ()
      ensures state == Initial && Valid()
    {
      state := Initial;
    }

    /** `addItem`: refuses a product of another vendor; otherwise merges or
        appends the line and, when no vendor was selected, selects the product's.
        The source's defaults `quantity = 1` and `options = {}` are explicit here. */
    method AddItem(product: Product, quantity: int, options: Options, now: string) returns (result: Outcome)
      requires Valid()
      modifies this
      ensures Valid()
      ensures result.Failure? <==>
        old(state).selectedVendor.Some? && old(state).selectedVendor.value.id != product.vendorId
      ensures result.Failure? ==>
        result.message == VendorConflictMessage &&
        state == old(state).(error := Some(VendorConflictMessage), loading := false)
      ensures result.Success? ==>
        && state.items == AddLine(old(state).items, LineFor(product, quantity, options, now))
        && state.totalItems == old(state).totalItems + quantity
        && state.selectedVendor ==
             (if old(state).selectedVendor.None?
              then Some(Vendor(product.vendorId, product.vendorName, product.vendorImage))
              else old(state).selectedVendor)
        && state.error == None && state.loading == old(state).loading
        && state.deliveryFee == old(state).deliveryFee && state.serviceFee == old(state).serviceFee
        && state.tax == old(state).tax
    {
      if state.selectedVendor.Some? && state.selectedVendor.value.id != product.vendorId {
        state := Reduce(state, CartAction.SetError(VendorConflictMessage));
        return Failure(VendorConflictMessage);
      }
      var item := LineFor(product, quantity, options, now);
      var before := state;
      AddItemMergesOrAppends(before, item);
      AddItemTotals(before, item);
      state := Reduce(state, CartAction.AddItem(item));
      if before.selectedVendor.None? {
        state := Reduce(state, CartAction.SetVendor(Some(Vendor(product.vendorId, product.vendorName, product.vendorImage))));
      }
      AddLineKeepsVendor(before.items, item, product.vendorId);
      result := Success;
    }

    /** `removeItem`. */
    method RemoveItem(id: string, options: Options)
      requires Valid()
      modifies this
      ensures Valid()
      ensures state == Reduce(old(state), CartAction.RemoveItem(id, options))
    {
      var before := state;
      RemoveItemExact(before, id, options);
      state := Reduce(state, CartAction.RemoveItem(id, options));
      forall i | 0 <= i < |state.items| && state.selectedVendor.Some?
        ensures state.items[i].vendorId == state.selectedVendor.value.id
      {
        assert state.items[i] in before.items;
      }
    }

    /** `updateQuantity`. */
    method UpdateQuantity(id: string, quantity: int, options: Options)
      requires Valid()
      modifies this
      ensures Valid()
      ensures state == Reduce(old(state), CartAction.UpdateQuantity(id, quantity, options))
    {
      var before := state;
      UpdateQuantitySetsAndDrops(before, id, quantity, options);
      state := Reduce(state, CartAction.UpdateQuantity(id, quantity, options));
      forall i | 0 <= i < |state.items| && state.selectedVendor.Some?
        ensures state.items[i].vendorId == state.selectedVendor.value.id
      {
        var x := state.items[i];
        assert x in state.items;
        if x in before.items {
          var j :| 0 <= j < |before.items| && before.items[j] == x;
        } else {
          var y :| y in before.items && SameLine(y, id, options) && x == y.(quantity := quantity);
          var j :| 0 <= j < |before.items| && before.items[j] == y;
        }
      }
    }

    /** `clearCart`: erases the stored cart and, once that succeeded, resets
        the state. A failed erase is only logged. */
    method ClearCart(removal: Outcome)
      requires Valid()
      modifies this
      ensures Valid()
      ensures removal.Success? ==> state == Initial
      ensures removal.Failure? ==> state == old(state)
    {
      if removal.Success? {
        state := Reduce(state, CartAction.ClearCart);
      }
    }

    /** `updateFees`. */
    method UpdateFees(fees: Fees)
      requires Valid()
      modifies this
      ensures Valid()
      ensures state == Reduce(old(state), CartAction.UpdateFees(fees))
    {
      state := Reduce(state, CartAction.UpdateFees(fees));
    }

    /** `clearError`. */
    method ClearError()
      requires Valid()
      modifies this
      ensures Valid()
      ensures state == old(state).(error := None)
    {
      state := Reduce(state, CartAction.ClearError);
    }

    /** `getCartTotal`: the stored price total plus the three fees, which is
        the price of every line plus the fees. */
    function GetCartTotal(): (total: int)
      reads this
      requires Valid()
      ensures total == Sum(state.items, LineTotal) + state.deliveryFee + state.serviceFee + state.tax
    {
      state.totalPrice + state.deliveryFee + state.serviceFee + state.tax
    }

    /** `getItemCount`: the number of units over all lines. */
    function GetItemCount(): (count: int)
      reads this
      requires Valid()
      ensures count == Sum(state.items, Quantity)
    {
      state.totalItems
    }

    /** `isItemInCart`. */
    function IsItemInCart(id: string, options: Options): (present: bool)
      reads this
      ensures present <==> exists i :: 0 <= i < |state.items| && SameLine(state.items[i], id, options)
    {
      FindIndex(state.items, Matches(id, options)) >= 0
    }

    /** `getItemQuantity`: the quantity of the first line with that identity,
        or 0 when there is none. */
    function GetItemQuantity(id: string, options: Options): (quantity: int)
      reads this
      ensures NoLine(state.items, id, options) ==> quantity == 0
      ensures forall k :: FirstLine(state.items, id, options, k) ==> quantity == state.items[k].quantity
    {
      match Find(state.items, Matches(id, options))
      case None => 0
      case Some(item) => item.quantity
    }
  }

  /** Adding a line of vendor `v` to lines of vendor `v` keeps every line of vendor `v`. */
  lemma AddLineKeepsVendor(items: seq<CartItem>, item: CartItem, v: string)
    requires forall i :: 0 <= i < |items| ==> items[i].vendorId == v
    requires item.vendorId == v
    ensures var r := AddLine(items, item);
      r != [] && forall i :: 0 <= i < |r| ==> r[i].vendorId == v
  {
  }
}
