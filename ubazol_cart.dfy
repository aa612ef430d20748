/** The `useState` cart of the second client (Ubazol/src/context/CartContext.js):
    a list of lines and the vendor they come from, held in two fields that
    the operations overwrite. Prices are integer cents. */
module UbazolCart {
  import opened Common
  import opened Seqs

  /** A menu item as the vendor screen passes it in. */
  datatype MenuItem = MenuItem(id: string, name: string, price: int, vendorId: string, vendorName: string)

  /** `{ ...item, quantity }`. */
  datatype Line = Line(item: MenuItem, quantity: int)

  datatype Vendor = Vendor(id: string, name: string)

  /** The two fields together, as one value. */
  datatype Basket = Basket(cart: seq<Line>, vendor: Option<Vendor>)

  function VendorOf(item: MenuItem): Vendor
  {
    Vendor(item.vendorId, item.vendorName)
  }

  function HasId(id: string): Line -> bool
  {
    (l: Line) => l.item.id == id
  }

  function OtherId(id: string): Line -> bool
  {
    (l: Line) => l.item.id != id
  }

  function AddQuantity(quantity: int): Line -> Line
  {
    (l: Line) => l.(quantity := l.quantity + quantity)
  }

  function SetQuantity(quantity: int): Line -> Line
  {
    (l: Line) => l.(quantity := quantity)
  }

  function Quantity(l: Line): int { l.quantity }

  function LineTotal(l: Line): int { l.item.price * l.quantity }

  predicate UniqueIds(cart: seq<Line>)
  {
    forall i, j :: 0 <= i < |cart| && 0 <= j < |cart| && cart[i].item.id == cart[j].item.id ==> i == j
  }

  /** The cart's invariant: a vendor is chosen exactly when there are lines,
      every line comes from it, and no id appears on two lines. */
  predicate Consistent(b: Basket)
  {
    && (b.vendor.None? <==> b.cart == [])
    && (b.vendor.Some? ==> forall i :: 0 <= i < |b.cart| ==> b.cart[i].item.vendorId == b.vendor.value.id)
    && UniqueIds(b.cart)
  }

  /** The cart `addToCart` leaves: an item from another vendor than the chosen
      one replaces the cart and the vendor; an item already in the cart adds
      to that line; a new item is appended, choosing its vendor when none
      was chosen. */
  function Added(b: Basket, item: MenuItem, quantity: int): Basket
  {
    if b.vendor.Some? && b.vendor.value.id != item.vendorId then
      Basket([Line(item, quantity)], Some(VendorOf(item)))
    else if Find(b.cart, HasId(item.id)).Some? then
      Basket(UpdateWhere(b.cart, HasId(item.id), AddQuantity(quantity)), b.vendor)
    else
      Basket(b.cart + [Line(item, quantity)], if b.vendor.None? then Some(VendorOf(item)) else b.vendor)
  }

  /** The cart `removeFromCart` leaves: the lines with another id, and no
      vendor once there are none. */
  function Removed(b: Basket, id: string): Basket
  {
    var rest := Filter(b.cart, OtherId(id));
    Basket(rest, if rest == [] then None else b.vendor)
  }

  /** The cart `updateQuantity` leaves. */
  function QuantityUpdated(b: Basket, id: string, quantity: int): Basket
  {
    if quantity <= 0 then Removed(b, id)
    else Basket(UpdateWhere(b.cart, HasId(id), SetQuantity(quantity)), b.vendor)
  }

  /** `cart.reduce((total, item) => total + item.price * item.quantity, total)`,
      folding from the left as `reduce` does. */
  function FoldPrice(cart: seq<Line>, total: int): (r: int)
    ensures r == total + Sum(cart, LineTotal)
  {
    if cart == [] then total else FoldPrice(cart[1..], total + LineTotal(cart[0]))
  }

  /** `cart.reduce((total, item) => total + item.quantity, total)`. */
  function FoldItems(cart: seq<Line>, total: int): (r: int)
    ensures r == total + Sum(cart, Quantity)
  {
    if cart == [] then total else FoldItems(cart[1..], total + cart[0].quantity)
  }

  // ---------------------------------------------------------------------------
  // Properties
  // ---------------------------------------------------------------------------

  /** Updating the single line that carries an id is replacing it in place. */
  lemma UpdateSingle(cart: seq<Line>, k: int, id: string, f: Line -> Line)
    requires UniqueIds(cart) && 0 <= k < |cart| && cart[k].item.id == id
    ensures UpdateWhere(cart, HasId(id), f) == cart[k := f(cart[k])]
  {
    var r := UpdateWhere(cart, HasId(id), f);
    forall i | 0 <= i < |cart| ensures r[i] == cart[k := f(cart[k])][i] {
      if i != k {
        assert cart[i].item.id != id;
      }
    }
  }

  /** Adding keeps the cart consistent. */
  lemma AddedKeepsConsistent(b: Basket, item: MenuItem, quantity: int)
    requires Consistent(b)
    ensures Consistent(Added(b, item, quantity))
  {
    var r := Added(b, item, quantity);
    if !(b.vendor.Some? && b.vendor.value.id != item.vendorId) && Find(b.cart, HasId(item.id)).None? {
      assert forall i :: 0 <= i < |b.cart| ==> b.cart[i].item.id != item.id;
      assert r.cart == b.cart + [Line(item, quantity)];
      forall i, j | 0 <= i < |r.cart| && 0 <= j < |r.cart| && r.cart[i].item.id == r.cart[j].item.id
        ensures i == j
      {
        if i < |b.cart| && j < |b.cart| {
          assert b.cart[i].item.id == b.cart[j].item.id;
        }
      }
    }
  }

  /** What adding does, case by case: a vendor switch leaves the one new
      line; adding an id already present raises that line's quantity and
      leaves every other line; a new id is appended after the old lines.
      Apart from a vendor switch, the item count grows by the quantity. */
  lemma AddedCases(b: Basket, item: MenuItem, quantity: int)
    requires Consistent(b)
    ensures var r := Added(b, item, quantity);
      && (b.vendor.Some? && b.vendor.value.id != item.vendorId ==>
            r.cart == [Line(item, quantity)] && r.vendor == Some(VendorOf(item))
            && Sum(r.cart, Quantity) == quantity)
      && (!(b.vendor.Some? && b.vendor.value.id != item.vendorId) ==>
            && Sum(r.cart, Quantity) == Sum(b.cart, Quantity) + quantity
            && r.vendor == Some(if b.vendor.Some? then b.vendor.value else VendorOf(item)))
      && (!(b.vendor.Some? && b.vendor.value.id != item.vendorId) && Find(b.cart, HasId(item.id)).Some? ==>
            && |r.cart| == |b.cart|
            && (forall i :: 0 <= i < |b.cart| && b.cart[i].item.id != item.id ==> r.cart[i] == b.cart[i])
            && (forall i :: 0 <= i < |b.cart| && b.cart[i].item.id == item.id ==>
                  r.cart[i] == b.cart[i].(quantity := b.cart[i].quantity + quantity)))
      && (!(b.vendor.Some? && b.vendor.value.id != item.vendorId) && Find(b.cart, HasId(item.id)).None? ==>
            r.cart == b.cart + [Line(item, quantity)])
  {
    var r := Added(b, item, quantity);
    if b.vendor.Some? && b.vendor.value.id != item.vendorId {
      assert r.cart[1..] == [];
    } else if Find(b.cart, HasId(item.id)).Some? {
      var k := FindIndex(b.cart, HasId(item.id));
      UpdateSingle(b.cart, k, item.id, AddQuantity(quantity));
      SumReplace(b.cart, k, AddQuantity(quantity)(b.cart[k]), Quantity);
    } else {
      SumConcat(b.cart, [Line(item, quantity)], Quantity);
      assert [Line(item, quantity)][1..] == [];
    }
  }

  /** Removing keeps exactly the lines with another id, in order, and keeps
      the cart consistent. */
  lemma RemovedExact(b: Basket, id: string)
    requires Consistent(b)
    ensures var r := Removed(b, id);
      && Consistent(r)
      && (forall l :: l in r.cart <==> l in b.cart && l.item.id != id)
      && Subsequence(r.cart, b.cart)
  {
    FilterOrder(b.cart, OtherId(id));
    var r := Removed(b, id);
    forall l ensures l in r.cart <==> l in b.cart && l.item.id != id {
      assert OtherId(id)(l) == (l.item.id != id);
    }
    SubsequenceUnique(r.cart, b.cart);
    if r.vendor.Some? {
      forall i | 0 <= i < |r.cart| ensures r.cart[i].item.vendorId == r.vendor.value.id {
        assert r.cart[i] in b.cart;
      }
    }
  }

  /** A subsequence of a list with unique ids has unique ids. */
  lemma {:induction false} SubsequenceUnique(r: seq<Line>, s: seq<Line>)
    requires Subsequence(r, s) && UniqueIds(s)
    ensures UniqueIds(r)
    decreases |s|
  {
    if r != [] && s != [] {
      assert UniqueIds(s[1..]) by {
        forall i, j | 0 <= i < |s[1..]| && 0 <= j < |s[1..]| && s[1..][i].item.id == s[1..][j].item.id
          ensures i == j
        {
          assert s[i + 1].item.id == s[j + 1].item.id;
        }
      }
      if r[0] == s[0] {
        SubsequenceUnique(r[1..], s[1..]);
        SubsequenceIn(r[1..], s[1..]);
        forall k | 1 <= k < |r| ensures r[k].item.id != r[0].item.id {
          assert r[k] == r[1..][k - 1];
          NotFirst(s, r[k]);
        }
        forall i, j | 0 <= i < |r| && 0 <= j < |r| && r[i].item.id == r[j].item.id
          ensures i == j
        {
          if i > 0 && j > 0 {
            assert r[1..][i - 1].item.id == r[1..][j - 1].item.id;
          }
        }
      } else {
        SubsequenceUnique(r, s[1..]);
      }
    }
  }

  /** With unique ids, no later entry shares the first entry's id. */
  lemma NotFirst(s: seq<Line>, x: Line)
    requires UniqueIds(s) && s != [] && x in s[1..]
    ensures x.item.id != s[0].item.id
  {
    var j :| 0 <= j < |s[1..]| && s[1..][j] == x;
    assert s[j + 1] == x;
  }

  /** A quantity at or below zero removes the lines with the id; a positive
      one sets it on those lines and leaves the rest; either way the cart
      stays consistent. */
  lemma QuantityUpdatedExact(b: Basket, id: string, quantity: int)
    requires Consistent(b)
    ensures var r := QuantityUpdated(b, id, quantity);
      && Consistent(r)
      && (quantity <= 0 ==> r == Removed(b, id) && forall i :: 0 <= i < |r.cart| ==> r.cart[i].item.id != id)
      && (quantity > 0 ==>
            && |r.cart| == |b.cart| && r.vendor == b.vendor
            && (forall i :: 0 <= i < |b.cart| && b.cart[i].item.id == id ==>
                  r.cart[i] == b.cart[i].(quantity := quantity))
            && (forall i :: 0 <= i < |b.cart| && b.cart[i].item.id != id ==> r.cart[i] == b.cart[i]))
  {
    var r := QuantityUpdated(b, id, quantity);
    if quantity <= 0 {
      RemovedExact(b, id);
      forall i | 0 <= i < |r.cart| ensures r.cart[i].item.id != id {
        assert r.cart[i] in r.cart;
      }
    } else {
      assert UniqueIds(r.cart) by {
        forall i, j | 0 <= i < |r.cart| && 0 <= j < |r.cart| && r.cart[i].item.id == r.cart[j].item.id
          ensures i == j
        {
          assert b.cart[i].item.id == b.cart[j].item.id;
        }
      }
    }
  }

  /** Adding to the single line carrying an id raises the price sum by that
      line's price times the quantity. */
  lemma MergedPrice(cart: seq<Line>, k: int, id: string, quantity: int)
    requires UniqueIds(cart) && 0 <= k < |cart| && cart[k].item.id == id
    ensures Sum(UpdateWhere(cart, HasId(id), AddQuantity(quantity)), LineTotal) ==
            Sum(cart, LineTotal) + cart[k].item.price * quantity
  {
    var l := cart[k];
    var m := l.(quantity := l.quantity + quantity);
    assert AddQuantity(quantity)(l) == m;
    UpdateSingle(cart, k, id, AddQuantity(quantity));
    SumReplace(cart, k, m, LineTotal);
    LineTotalGrows(l, quantity);
  }

  lemma LineTotalGrows(l: Line, quantity: int)
    ensures LineTotal(l.(quantity := l.quantity + quantity)) == LineTotal(l) + l.item.price * quantity
  {
    var p := l.item.price;
    assert p * (l.quantity + quantity) == p * l.quantity + p * quantity;
  }

  /** `getTotalPrice` after adding: a vendor switch leaves the new line's
      price alone; adding to a line already in the cart raises the total by
      that line's price times the quantity (the line keeps its own price);
      a new line raises it by the item's price times the quantity. */
  lemma AddedTotalPrice(b: Basket, item: MenuItem, quantity: int)
    requires Consistent(b)
    ensures var r := Added(b, item, quantity);
      var k := FindIndex(b.cart, HasId(item.id));
      && (b.vendor.Some? && b.vendor.value.id != item.vendorId ==>
            FoldPrice(r.cart, 0) == item.price * quantity)
      && (!(b.vendor.Some? && b.vendor.value.id != item.vendorId) && k >= 0 ==>
            FoldPrice(r.cart, 0) == FoldPrice(b.cart, 0) + b.cart[k].item.price * quantity)
      && (!(b.vendor.Some? && b.vendor.value.id != item.vendorId) && k < 0 ==>
            FoldPrice(r.cart, 0) == FoldPrice(b.cart, 0) + item.price * quantity)
  {
    var r := Added(b, item, quantity);
    var k := FindIndex(b.cart, HasId(item.id));
    if b.vendor.Some? && b.vendor.value.id != item.vendorId {
      assert r.cart[1..] == [];
    } else if k >= 0 {
      assert HasId(item.id)(b.cart[k]);
      assert Find(b.cart, HasId(item.id)).Some?;
      MergedPrice(b.cart, k, item.id, quantity);
    } else {
      SumConcat(b.cart, [Line(item, quantity)], LineTotal);
      assert [Line(item, quantity)][1..] == [];
    }
  }

  // ---------------------------------------------------------------------------
  // The provider
  // ---------------------------------------------------------------------------

  /** `CartProvider`: the fields `cart` and `vendor`. */
  class CartProvider {
    var cart: seq<Line>
    var vendor: Option<Vendor>

    function Contents(): Basket
      reads this
    {
      Basket(cart, vendor)
    }

    ghost predicate Valid()
      reads this
    {
      Consistent(Contents())
    }

    constructor ()
      ensures Valid() && cart == [] && vendor == None
    {
      cart := [];
      vendor := None;
    }

    /** `addToCart`; the source's default `quantity = 1` is explicit here. */
    method AddToCart(item: MenuItem, quantity: int)
      requires Valid()
      modifies this
      ensures Valid()
      ensures Contents() == Added(old(Contents()), item, quantity)
    {
      AddedKeepsConsistent(Contents(), item, quantity);
      if vendor.Some? && vendor.value.id != item.vendorId {
        cart := [Line(item, quantity)];
        vendor := Some(VendorOf(item));
      } else {
        var existing := Find(cart, HasId(item.id));
        if existing.Some? {
          cart := UpdateWhere(cart, HasId(item.id), AddQuantity(quantity));
        } else {
          cart := cart + [Line(item, quantity)];
          if vendor.None? {
            vendor := Some(VendorOf(item));
          }
        }
      }
    }

    /** `removeFromCart`. */
    method RemoveFromCart(id: string)
      requires Valid()
      modifies this
      ensures Valid()
      ensures Contents() == Removed(old(Contents()), id)
    {
      RemovedExact(Contents(), id);
      var rest := Filter(cart, OtherId(id));
      cart := rest;
      if |rest| == 0 {
        vendor := None;
      }
    }

    /** `updateQuantity`. */
    method UpdateQuantity(id: string, quantity: int)
      requires Valid()
      modifies this
      ensures Valid()
      ensures Contents() == QuantityUpdated(old(Contents()), id, quantity)
    {
      QuantityUpdatedExact(Contents(), id, quantity);
      if quantity <= 0 {
        RemoveFromCart(id);
      } else {
        cart := UpdateWhere(cart, HasId(id), SetQuantity(quantity));
      }
    }

    /** `clearCart`. */
    method ClearCart()
      modifies this
      ensures Valid() && cart == [] && vendor == None
    {
      cart := [];
      vendor := None;
    }

    /** `getTotalPrice`. */
    function GetTotalPrice(): (total: int)
      reads this
      ensures total == Sum(cart, LineTotal)
    {
      FoldPrice(cart, 0)
    }

    /** `getTotalItems`. */
    function GetTotalItems(): (count: int)
      reads this
      ensures count == Sum(cart, Quantity)
    {
      FoldItems(cart, 0)
    }
  }
}
