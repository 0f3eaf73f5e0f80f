/** The point of sale's cart as a value: the list updaters that the cart
    handlers pass to `setCart`, the derived amounts (subtotal, discount,
    total, change) and the invariant the handlers keep. */
module CartLedger {
  import opened Wrappers
  import opened Types
  import opened Seqs

  // ---------------------------------------------------------------------
  // Amounts

  predicate IsWhole(x: real) {
    x == x.Floor as real
  }

  /** The per-kilo price is used only for a line flagged as a weigh-in whose
      product has a per-kilo price other than zero; every other line is
      charged the unit price. */
  predicate UsesKiloPrice(l: CartLine) {
    l.isWeighted && l.product.pricePerKg.Some? && l.product.pricePerKg.value != 0.0
  }

  function LinePrice(l: CartLine): real {
    if UsesKiloPrice(l) then l.product.pricePerKg.value else l.product.price
  }

  function LineAmount(l: CartLine): real {
    LinePrice(l) * l.quantity
  }

  /** The cart's subtotal: the amounts of its lines added up from the left,
      starting at zero. */
  function Subtotal(cart: seq<CartLine>): (r: real)
    ensures cart == [] ==> r == 0.0
  {
    if cart == [] then 0.0 else Subtotal(cart[..|cart| - 1]) + LineAmount(cart[|cart| - 1])
  }

  /** The discount's share of the subtotal, for a percentage `discount`:
      nothing at 0%, and at most the subtotal for a percentage up to 100. */
  function DiscountAmount(subtotal: real, discount: real): (r: real)
    ensures discount == 0.0 ==> r == 0.0
    ensures discount == 100.0 ==> r == subtotal
    ensures subtotal >= 0.0 && 0.0 <= discount <= 100.0 ==> 0.0 <= r <= subtotal
  {
    assert subtotal >= 0.0 && 0.0 <= discount <= 100.0 ==> subtotal * (discount / 100.0) <= subtotal * 1.0;
    subtotal * (discount / 100.0)
  }

  /** What is left to pay: the whole subtotal at 0%, nothing at 100%, and
      between the two for any percentage in range. */
  function Total(subtotal: real, discount: real): (r: real)
    ensures discount == 0.0 ==> r == subtotal
    ensures discount == 100.0 ==> r == 0.0
    ensures subtotal >= 0.0 && 0.0 <= discount <= 100.0 ==> 0.0 <= r <= subtotal
  {
    subtotal - DiscountAmount(subtotal, discount)
  }

  /** The change shown for a cash payment: the tender minus the total once
      a tender has been typed, and zero for any other method or an empty
      tender field. */
  function Change(selected: Option<PaymentMethod>, cashReceived: Option<real>, total: real): real {
    if selected == Some(Cash) && cashReceived.Some? then cashReceived.value - total else 0.0
  }

  /** "Confirmar pago" is enabled unless no method is selected, or cash is
      selected with an empty tender field or a negative change. */
  predicate ConfirmEnabled(selected: Option<PaymentMethod>, cashReceived: Option<real>, total: real) {
    !(selected.None? || (selected == Some(Cash) && (cashReceived.None? || Change(selected, cashReceived, total) < 0.0)))
  }

  /** Confirming needs a method, and for cash a tender that covers the
      total; the change is then exactly what the tender exceeds the total
      by, and zero for the other methods. */
  lemma ConfirmEnabledIff(selected: Option<PaymentMethod>, cashReceived: Option<real>, total: real)
    ensures ConfirmEnabled(selected, cashReceived, total) <==>
      selected.Some? && (selected.value == Cash ==> cashReceived.Some? && cashReceived.value >= total)
    ensures ConfirmEnabled(selected, cashReceived, total) && selected == Some(Cash) ==>
      Change(selected, cashReceived, total) == cashReceived.value - total >= 0.0
    ensures selected != Some(Cash) ==> Change(selected, cashReceived, total) == 0.0
  {
  }

  /** The subtotal of two carts laid end to end is the sum of their
      subtotals: the order of the lines does not matter to the amount. */
  lemma {:induction false} SubtotalAppend(a: seq<CartLine>, b: seq<CartLine>)
    ensures Subtotal(a + b) == Subtotal(a) + Subtotal(b)
  {
    if b == [] {
      assert a + b == a;
    } else {
      var c := a + b;
      assert c[..|c| - 1] == a + b[..|b| - 1];
      SubtotalAppend(a, b[..|b| - 1]);
    }
  }

  lemma SubtotalOfOne(l: CartLine)
    ensures Subtotal([l]) == LineAmount(l)
  {
    assert [l][..0] == [];
  }

  /** Replacing one line changes the subtotal by the difference of the two
      lines' amounts. */
  lemma SubtotalReplace(cart: seq<CartLine>, k: nat, l: CartLine)
    requires k < |cart|
    ensures Subtotal(cart[k := l]) == Subtotal(cart) - LineAmount(cart[k]) + LineAmount(l)
  {
    assert cart == cart[..k] + [cart[k]] + cart[k + 1..];
    assert cart[k := l] == cart[..k] + [l] + cart[k + 1..];
    SubtotalAppend(cart[..k] + [cart[k]], cart[k + 1..]);
    SubtotalAppend(cart[..k], [cart[k]]);
    SubtotalAppend(cart[..k] + [l], cart[k + 1..]);
    SubtotalAppend(cart[..k], [l]);
    SubtotalOfOne(cart[k]);
    SubtotalOfOne(l);
  }

  /** Weigh-ins are never merged: two weigh-ins of one product are two
      lines, and together they add the per-kilo price times the sum of the
      two weights. */
  lemma WeighInsAddUp(cart: seq<CartLine>, p: Product, w1: real, w2: real)
    requires p.pricePerKg.Some? && p.pricePerKg.value != 0.0
    ensures |cart + [CartLine(p, w1, true), CartLine(p, w2, true)]| == |cart| + 2
    ensures Subtotal(cart + [CartLine(p, w1, true), CartLine(p, w2, true)])
      == Subtotal(cart) + p.pricePerKg.value * (w1 + w2)
  {
    var x, y := CartLine(p, w1, true), CartLine(p, w2, true);
    SubtotalAppend(cart, [x, y]);
    assert [x, y] == [x] + [y];
    SubtotalAppend([x], [y]);
    SubtotalOfOne(x);
    SubtotalOfOne(y);
  }

  /** Prices that are not negative and positive quantities give a subtotal
      that is not negative. */
  lemma {:induction false} SubtotalNonNegative(cart: seq<CartLine>)
    requires forall l :: l in cart ==> PricesNonNegative(l.product) && l.quantity > 0.0
    ensures Subtotal(cart) >= 0.0
  {
    if cart != [] {
      SubtotalNonNegative(cart[..|cart| - 1]);
      var l := cart[|cart| - 1];
      assert LinePrice(l) >= 0.0;
    }
  }

  /** With a discount between 0 and 100 percent, the discount is the given
      share of the subtotal and the total lies between zero and the
      subtotal. */
  lemma TotalBounds(subtotal: real, discount: real)
    requires subtotal >= 0.0 && 0.0 <= discount <= 100.0
    ensures 0.0 <= DiscountAmount(subtotal, discount) <= subtotal
    ensures Total(subtotal, discount) == subtotal * (100.0 - discount) / 100.0
    ensures 0.0 <= Total(subtotal, discount) <= subtotal
  {
    assert subtotal * (discount / 100.0) <= subtotal * 1.0;
  }

  /** An empty cart costs nothing, whatever the discount. */
  lemma EmptyCartCostsNothing(discount: real)
    ensures Subtotal([]) == 0.0
    ensures DiscountAmount(Subtotal([]), discount) == 0.0
    ensures Total(Subtotal([]), discount) == 0.0
  {
  }

  // ---------------------------------------------------------------------
  // The ledger invariant

  predicate PricesNonNegative(p: Product) {
    p.price >= 0.0 && (p.pricePerKg.Some? ==> p.pricePerKg.value >= 0.0)
  }

  /** The point of sale's fixed product list: ids are unique, prices are not
      negative and discrete products hold a whole number of units. */
  predicate CatalogValid(catalog: seq<Product>) {
    && (forall p, q :: p in catalog && q in catalog && p.id == q.id ==> p == q)
    && (forall p :: p in catalog ==> PricesNonNegative(p) && (!p.isWeighted ==> IsWhole(p.stock)))
  }

  /** A line holds a positive quantity within the product's stock, a whole
      number of units when it is not a weigh-in, and is flagged a weigh-in
      exactly when its product is sold by weight. */
  predicate LineValid(l: CartLine) {
    && 0.0 < l.quantity <= l.product.stock
    && (!l.isWeighted ==> IsWhole(l.quantity))
    && l.isWeighted == l.product.isWeighted
  }

  predicate NoLineFor(cart: seq<CartLine>, id: string) {
    forall l :: l in cart ==> l.product.id != id
  }

  /** A discrete (not weighed) line is the only line of its product. */
  predicate DistinctDiscrete(cart: seq<CartLine>) {
    cart == [] ||
    ((!cart[0].isWeighted ==> NoLineFor(cart[1..], cart[0].product.id)) && DistinctDiscrete(cart[1..]))
  }

  predicate LedgerValid(catalog: seq<Product>, cart: seq<CartLine>) {
    && CatalogValid(catalog)
    && (forall l :: l in cart ==> l.product in catalog && LineValid(l))
    && DistinctDiscrete(cart)
  }

  /** Two lines of one product in a valid ledger are both weigh-ins, or are
      the same line. */
  lemma {:induction false} DistinctAt(cart: seq<CartLine>, i: nat, j: nat)
    requires DistinctDiscrete(cart)
    requires i < j < |cart| && !cart[i].isWeighted
    ensures cart[i].product.id != cart[j].product.id
  {
    if i > 0 {
      DistinctAt(cart[1..], i - 1, j - 1);
    } else {
      assert cart[j] in cart[1..];
    }
  }

  lemma DiscreteLineUnique(catalog: seq<Product>, cart: seq<CartLine>, i: nat, j: nat)
    requires LedgerValid(catalog, cart)
    requires i < |cart| && j < |cart| && !cart[i].isWeighted
    requires cart[i].product.id == cart[j].product.id
    ensures i == j
  {
    assert cart[i] in cart && cart[j] in cart;
    if i < j {
      DistinctAt(cart, i, j);
    } else if j < i {
      DistinctAt(cart, j, i);
    }
  }

  /** Carts whose lines pairwise hold the same product with the same flag. */
  predicate SameItems(a: seq<CartLine>, b: seq<CartLine>) {
    |a| == |b| && forall i :: 0 <= i < |a| ==> a[i].product == b[i].product && a[i].isWeighted == b[i].isWeighted
  }

  lemma {:induction false} SameItemsDistinct(a: seq<CartLine>, b: seq<CartLine>)
    requires SameItems(a, b) && DistinctDiscrete(a)
    ensures DistinctDiscrete(b)
  {
    if a != [] {
      assert SameItems(a[1..], b[1..]);
      SameItemsDistinct(a[1..], b[1..]);
      if !b[0].isWeighted {
        forall l | l in b[1..] ensures l.product.id != b[0].product.id {
          var k :| 0 <= k < |b[1..]| && b[1..][k] == l;
          assert a[1..][k] in a[1..];
        }
      }
    }
  }

  lemma {:induction false} DistinctAppend(a: seq<CartLine>, x: CartLine)
    requires DistinctDiscrete(a)
    requires forall l :: l in a && !l.isWeighted ==> l.product.id != x.product.id
    ensures DistinctDiscrete(a + [x])
  {
    if a != [] {
      assert (a + [x])[1..] == a[1..] + [x];
      DistinctAppend(a[1..], x);
    }
  }

  lemma {:induction false} DistinctFilter(cart: seq<CartLine>, keep: CartLine -> bool)
    requires DistinctDiscrete(cart)
    ensures DistinctDiscrete(Filter(cart, keep))
  {
    if cart != [] {
      DistinctFilter(cart[1..], keep);
      var rest := Filter(cart[1..], keep);
      if keep(cart[0]) {
        assert Filter(cart, keep) == [cart[0]] + rest;
        assert ([cart[0]] + rest)[1..] == rest;
        if !cart[0].isWeighted {
          forall l | l in rest ensures l.product.id != cart[0].product.id {
            assert l in cart[1..];
          }
        }
      } else {
        assert Filter(cart, keep) == [] + rest;
        assert [] + rest == rest;
      }
    }
  }

  // ---------------------------------------------------------------------
  // addToCart

  /** The first line of the product `id` (`prev.find`). */
  function FindLine(cart: seq<CartLine>, id: string): (r: Option<CartLine>)
    ensures r.None? <==> NoLineFor(cart, id)
    ensures r.Some? ==> r.value in cart && r.value.product.id == id
    ensures r.Some? ==> exists k :: (0 <= k < |cart| && cart[k] == r.value
      && forall j :: 0 <= j < k ==> cart[j].product.id != id)
  {
    if cart == [] then None
    else if cart[0].product.id == id then Some(cart[0])
    else FindLine(cart[1..], id)
  }

  /** Every line of the product `id` one unit up (`prev.map`). */
  function Incremented(cart: seq<CartLine>, id: string): (r: seq<CartLine>)
    ensures SameItems(cart, r)
  {
    seq(|cart|, i requires 0 <= i < |cart| =>
      if cart[i].product.id == id then cart[i].(quantity := cart[i].quantity + 1.0) else cart[i])
  }

  /** The cart after `addToCart` of a discrete product in stock: a new line
      of one unit, or the existing line one unit up while below the stock. */
  function AddedToCart(cart: seq<CartLine>, p: Product): (r: seq<CartLine>)
    ensures |cart| <= |r| <= |cart| + 1
    ensures |r| == |cart| + 1 <==> NoLineFor(cart, p.id)
  {
    match FindLine(cart, p.id)
    case None => cart + [CartLine(p, 1.0, false)]
    case Some(existing) => if existing.quantity >= p.stock then cart else Incremented(cart, p.id)
  }

  /** The line `k` of a discrete catalog product is its only line. */
  lemma DiscreteLineAlone(catalog: seq<Product>, cart: seq<CartLine>, p: Product, k: nat)
    requires LedgerValid(catalog, cart) && p in catalog && !p.isWeighted
    requires k < |cart| && cart[k].product.id == p.id
    ensures cart[k].product == p && !cart[k].isWeighted
    ensures forall i :: 0 <= i < |cart| && i != k ==> cart[i].product.id != p.id
  {
    assert cart[k] in cart;
    forall i | 0 <= i < |cart| && i != k ensures cart[i].product.id != p.id {
      if cart[i].product.id == p.id {
        DiscreteLineUnique(catalog, cart, k, i);
      }
    }
  }

  /** With its only line at `k`, adding the product raises that line by
      one unit while below the stock and leaves the cart alone otherwise. */
  lemma AddToCartAt(catalog: seq<Product>, cart: seq<CartLine>, p: Product, k: nat)
    requires LedgerValid(catalog, cart) && p in catalog && !p.isWeighted
    requires k < |cart| && cart[k].product.id == p.id
    ensures AddedToCart(cart, p) ==
      if cart[k].quantity < p.stock then cart[k := cart[k].(quantity := cart[k].quantity + 1.0)] else cart
  {
    DiscreteLineAlone(catalog, cart, p, k);
    var e := FindLine(cart, p.id).value;
    var m :| 0 <= m < |cart| && cart[m] == e;
    assert m == k;
    if cart[k].quantity < p.stock {
      var r := Incremented(cart, p.id);
      assert forall i :: 0 <= i < |cart| ==> r[i] == cart[k := cart[k].(quantity := cart[k].quantity + 1.0)][i];
    }
  }

  /** Adding a discrete product in stock appends a line of one unit when
      the cart has none of it; otherwise its single line rises by exactly
      one unit while below the stock, and the cart is unchanged at the
      stock. */
  lemma AddToCartEffect(catalog: seq<Product>, cart: seq<CartLine>, p: Product)
    requires LedgerValid(catalog, cart) && p in catalog && !p.isWeighted && p.stock > 0.0
    ensures NoLineFor(cart, p.id) ==> AddedToCart(cart, p) == cart + [CartLine(p, 1.0, false)]
    ensures forall k :: 0 <= k < |cart| && cart[k].product.id == p.id ==>
      AddedToCart(cart, p) ==
        if cart[k].quantity < p.stock then cart[k := cart[k].(quantity := cart[k].quantity + 1.0)] else cart
  {
    forall k | 0 <= k < |cart| && cart[k].product.id == p.id
      ensures AddedToCart(cart, p) ==
        if cart[k].quantity < p.stock then cart[k := cart[k].(quantity := cart[k].quantity + 1.0)] else cart
    {
      AddToCartAt(catalog, cart, p, k);
    }
  }

  lemma WholeStep(q: real, stock: real)
    requires IsWhole(q) && IsWhole(stock) && q < stock
    ensures IsWhole(q + 1.0) && q + 1.0 <= stock
  {
    assert q.Floor < stock.Floor;
    assert (q + 1.0).Floor == q.Floor + 1;
  }

  /** Replacing a line by a valid line of the same product keeps the
      ledger invariant. */
  lemma ReplaceKeepsLedger(catalog: seq<Product>, cart: seq<CartLine>, k: nat, l: CartLine)
    requires LedgerValid(catalog, cart) && k < |cart|
    requires l.product == cart[k].product && l.isWeighted == cart[k].isWeighted && LineValid(l)
    ensures LedgerValid(catalog, cart[k := l])
  {
    var r := cart[k := l];
    assert SameItems(cart, r);
    SameItemsDistinct(cart, r);
    assert cart[k] in cart;
    forall x | x in r ensures x.product in catalog && LineValid(x) {
      var i :| 0 <= i < |r| && r[i] == x;
      if i != k {
        assert cart[i] in cart;
      }
    }
  }

  /** `addToCart` keeps the ledger invariant; in particular a discrete line
      never rises above the product's stock. */
  lemma AddToCartKeepsLedger(catalog: seq<Product>, cart: seq<CartLine>, p: Product)
    requires LedgerValid(catalog, cart) && p in catalog && !p.isWeighted && p.stock > 0.0
    ensures LedgerValid(catalog, AddedToCart(cart, p))
  {
    if NoLineFor(cart, p.id) {
      assert IsWhole(1.0);
      DistinctAppend(cart, CartLine(p, 1.0, false));
    } else {
      var k :| 0 <= k < |cart| && cart[k].product.id == p.id;
      AddToCartAt(catalog, cart, p, k);
      DiscreteLineAlone(catalog, cart, p, k);
      if cart[k].quantity < p.stock {
        assert cart[k] in cart;
        WholeStep(cart[k].quantity, p.stock);
        ReplaceKeepsLedger(catalog, cart, k, cart[k].(quantity := cart[k].quantity + 1.0));
      }
    }
  }

  /** Every line of the product is below the product's stock (vacuously
      so when the cart holds none). */
  predicate BelowStock(cart: seq<CartLine>, p: Product) {
    forall l :: l in cart && l.product.id == p.id ==> l.quantity < p.stock
  }

  /** While the product is below its stock, adding it raises the subtotal by
      exactly its unit price; at the stock the cart stays as it was. */
  lemma AddToCartSubtotal(catalog: seq<Product>, cart: seq<CartLine>, p: Product)
    requires LedgerValid(catalog, cart) && p in catalog && !p.isWeighted && p.stock > 0.0
    ensures BelowStock(cart, p) ==> Subtotal(AddedToCart(cart, p)) == Subtotal(cart) + p.price
    ensures !BelowStock(cart, p) ==> AddedToCart(cart, p) == cart
  {
    if NoLineFor(cart, p.id) {
      var x := CartLine(p, 1.0, false);
      SubtotalAppend(cart, [x]);
      SubtotalOfOne(x);
    } else {
      var k :| 0 <= k < |cart| && cart[k].product.id == p.id;
      AddToCartSubtotalAt(catalog, cart, p, k);
    }
  }

  /** One more unit on a discrete line adds the product's unit price. */
  lemma OneMoreUnit(l: CartLine)
    requires !l.isWeighted
    ensures LineAmount(l.(quantity := l.quantity + 1.0)) == LineAmount(l) + l.product.price
  {
  }

  lemma AddToCartSubtotalAt(catalog: seq<Product>, cart: seq<CartLine>, p: Product, k: nat)
    requires LedgerValid(catalog, cart) && p in catalog && !p.isWeighted
    requires k < |cart| && cart[k].product.id == p.id
    ensures BelowStock(cart, p) ==> Subtotal(AddedToCart(cart, p)) == Subtotal(cart) + p.price
    ensures !BelowStock(cart, p) ==> AddedToCart(cart, p) == cart
  {
    AddToCartAt(catalog, cart, p, k);
    DiscreteLineAlone(catalog, cart, p, k);
    assert cart[k] in cart;
    if cart[k].quantity < p.stock {
      assert BelowStock(cart, p) by {
        forall l | l in cart && l.product.id == p.id ensures l.quantity < p.stock {
          var i :| 0 <= i < |cart| && cart[i] == l;
        }
      }
      var l := cart[k].(quantity := cart[k].quantity + 1.0);
      SubtotalReplace(cart, k, l);
      OneMoreUnit(cart[k]);
    }
  }

  // ---------------------------------------------------------------------
  // updateQuantity

  /** One line after `updateQuantity(id, delta)`: the map step followed by
      the filter that drops the nulls. */
  function UpdatedLine(l: CartLine, id: string, delta: int): (r: seq<CartLine>)
    ensures |r| <= 1
    ensures forall k :: 0 <= k < |r| ==> r[k].product == l.product && r[k].isWeighted == l.isWeighted
    ensures r != [] && r != [l] ==> r[0].quantity == l.quantity + delta as real <= l.product.stock
    ensures l.product.id != id ==> r == [l]
  {
    if l.product.id != id then [l]
    else
      var q := l.quantity + delta as real;
      if q <= 0.0 then []
      else if q > l.product.stock then [l]
      else [l.(quantity := q)]
  }

  function QuantityUpdated(cart: seq<CartLine>, id: string, delta: int): (r: seq<CartLine>)
    ensures |r| <= |cart|
  {
    if cart == [] then [] else UpdatedLine(cart[0], id, delta) + QuantityUpdated(cart[1..], id, delta)
  }

  lemma {:induction false} QuantityUpdatedAppend(a: seq<CartLine>, b: seq<CartLine>, id: string, delta: int)
    ensures QuantityUpdated(a + b, id, delta) == QuantityUpdated(a, id, delta) + QuantityUpdated(b, id, delta)
  {
    if a == [] {
      assert a + b == b;
    } else {
      assert (a + b)[1..] == a[1..] + b;
      QuantityUpdatedAppend(a[1..], b, id, delta);
    }
  }

  lemma {:induction false} QuantityUpdatedNoMatch(cart: seq<CartLine>, id: string, delta: int)
    requires NoLineFor(cart, id)
    ensures QuantityUpdated(cart, id, delta) == cart
  {
    if cart != [] {
      QuantityUpdatedNoMatch(cart[1..], id, delta);
    }
  }

  /** For the only line of a product, `updateQuantity` removes the line when
      the new quantity is zero or less, leaves it unchanged when the new
      quantity exceeds the stock, and otherwise sets the new quantity; the
      lines before and after it stay as they were, in order. */
  lemma UpdateQuantityAt(cart: seq<CartLine>, k: nat, delta: int)
    requires k < |cart|
    requires forall i :: 0 <= i < |cart| && i != k ==> cart[i].product.id != cart[k].product.id
    ensures var l := cart[k];
      var q := l.quantity + delta as real;
      QuantityUpdated(cart, l.product.id, delta) ==
        cart[..k]
        + (if q <= 0.0 then [] else if q > l.product.stock then [l] else [l.(quantity := q)])
        + cart[k + 1..]
  {
    var id := cart[k].product.id;
    assert cart == cart[..k] + [cart[k]] + cart[k + 1..];
    assert NoLineFor(cart[..k], id) by {
      forall l | l in cart[..k] ensures l.product.id != id {
        var i :| 0 <= i < k && cart[..k][i] == l;
      }
    }
    assert NoLineFor(cart[k + 1..], id) by {
      forall l | l in cart[k + 1..] ensures l.product.id != id {
        var i :| 0 <= i < |cart| - k - 1 && cart[k + 1..][i] == l;
        assert l == cart[k + 1 + i];
      }
    }
    QuantityUpdatedSplice(cart[..k], cart[k], cart[k + 1..], delta);
  }

  lemma QuantityUpdatedSplice(pre: seq<CartLine>, x: CartLine, post: seq<CartLine>, delta: int)
    requires NoLineFor(pre, x.product.id) && NoLineFor(post, x.product.id)
    ensures QuantityUpdated(pre + [x] + post, x.product.id, delta) == pre + UpdatedLine(x, x.product.id, delta) + post
  {
    var id := x.product.id;
    assert [x][1..] == [];
    assert QuantityUpdated([x], id, delta) == UpdatedLine(x, id, delta) + [];
    calc {
      QuantityUpdated(pre + [x] + post, id, delta);
      { QuantityUpdatedAppend(pre + [x], post, id, delta); }
      QuantityUpdated(pre + [x], id, delta) + QuantityUpdated(post, id, delta);
      { QuantityUpdatedAppend(pre, [x], id, delta); }
      QuantityUpdated(pre, id, delta) + QuantityUpdated([x], id, delta) + QuantityUpdated(post, id, delta);
      { QuantityUpdatedNoMatch(pre, id, delta); QuantityUpdatedNoMatch(post, id, delta); }
      pre + UpdatedLine(x, id, delta) + post;
    }
  }

  /** The minus button on the only line of a product holding one unit or
      less removes that line. */
  lemma MinusOnLastUnitRemoves(cart: seq<CartLine>, k: nat)
    requires k < |cart| && cart[k].quantity <= 1.0
    requires forall i :: 0 <= i < |cart| && i != k ==> cart[i].product.id != cart[k].product.id
    ensures QuantityUpdated(cart, cart[k].product.id, -1) == cart[..k] + cart[k + 1..]
  {
    UpdateQuantityAt(cart, k, -1);
    assert cart[..k] + [] + cart[k + 1..] == cart[..k] + cart[k + 1..];
  }

  /** The lines of every other product come out of `updateQuantity` as they
      went in, in the same order. */
  lemma {:induction false} UpdateQuantityKeepsOthers(cart: seq<CartLine>, id: string, delta: int)
    ensures Filter(QuantityUpdated(cart, id, delta), NotProduct(id)) == Filter(cart, NotProduct(id))
  {
    if cart != [] {
      UpdateQuantityKeepsOthers(cart[1..], id, delta);
      FilterAppend(UpdatedLine(cart[0], id, delta), QuantityUpdated(cart[1..], id, delta), NotProduct(id));
      var u := UpdatedLine(cart[0], id, delta);
      if u != [] {
        assert u[1..] == [];
      }
    }
  }

  lemma {:induction false} QuantityUpdatedLines(cart: seq<CartLine>, id: string, delta: int, other: string)
    requires NoLineFor(cart, other)
    ensures NoLineFor(QuantityUpdated(cart, id, delta), other)
  {
    if cart != [] {
      QuantityUpdatedLines(cart[1..], id, delta, other);
    }
  }

  lemma WholeShift(q: real, delta: int)
    requires IsWhole(q)
    ensures IsWhole(q + delta as real)
  {
    assert (q + delta as real).Floor == q.Floor + delta;
  }

  /** The line that `updateQuantity` leaves in place of a valid line is a
      valid line of the same product. */
  lemma UpdatedLineValid(l: CartLine, id: string, delta: int)
    requires LineValid(l)
    ensures |UpdatedLine(l, id, delta)| <= 1
    ensures forall x :: x in UpdatedLine(l, id, delta) ==>
      x.product == l.product && x.isWeighted == l.isWeighted && LineValid(x)
  {
    if !l.isWeighted {
      WholeShift(l.quantity, delta);
    }
  }

  /** `updateQuantity` keeps the ledger invariant: quantities stay positive,
      within the stock and whole for discrete lines. */
  lemma {:induction false} UpdateQuantityKeepsLedger(catalog: seq<Product>, cart: seq<CartLine>, id: string, delta: int)
    requires LedgerValid(catalog, cart)
    ensures LedgerValid(catalog, QuantityUpdated(cart, id, delta))
  {
    if cart != [] {
      assert LedgerValid(catalog, cart[1..]) by {
        forall l | l in cart[1..] ensures l in cart { }
      }
      UpdateQuantityKeepsLedger(catalog, cart[1..], id, delta);
      var u := UpdatedLine(cart[0], id, delta);
      var rest := QuantityUpdated(cart[1..], id, delta);
      assert cart[0] in cart;
      UpdatedLineValid(cart[0], id, delta);
      assert QuantityUpdated(cart, id, delta) == u + rest;
      if u != [] {
        assert u == [u[0]];
        assert (u + rest)[1..] == rest;
        if !u[0].isWeighted {
          QuantityUpdatedLines(cart[1..], id, delta, cart[0].product.id);
        }
      } else {
        assert u + rest == rest;
      }
    }
  }

  // ---------------------------------------------------------------------
  // removeFromCart

  /** The filter test of `removeFromCart(id)`: the line is of another product. */
  function NotProduct(id: string): CartLine -> bool {
    (l: CartLine) => l.product.id != id
  }

  /** The cart after `removeFromCart(id)`: every line of that product gone,
      every other line kept in order. */
  function WithoutProduct(cart: seq<CartLine>, id: string): (r: seq<CartLine>)
    ensures NoLineFor(r, id)
    ensures forall l :: l in cart && l.product.id != id ==> l in r
    ensures forall l :: l in r ==> l in cart
  {
    Filter(cart, NotProduct(id))
  }

  /** Removing a product drops all its weigh-ins at once, since lines are
      found by product id. */
  lemma RemoveDropsEveryWeighIn(cart: seq<CartLine>, p: Product, w1: real, w2: real)
    ensures WithoutProduct(cart + [CartLine(p, w1, true), CartLine(p, w2, true)], p.id) == WithoutProduct(cart, p.id)
  {
    var extra := [CartLine(p, w1, true), CartLine(p, w2, true)];
    FilterAppend(cart, extra, NotProduct(p.id));
    assert extra[1..][1..] == [];
  }

  lemma RemoveKeepsLedger(catalog: seq<Product>, cart: seq<CartLine>, id: string)
    requires LedgerValid(catalog, cart)
    ensures LedgerValid(catalog, WithoutProduct(cart, id))
  {
    DistinctFilter(cart, NotProduct(id));
  }

  // ---------------------------------------------------------------------
  // confirmWeight

  /** A weigh-in of a weighed catalog product within its stock keeps the
      ledger invariant, whatever weigh-ins of it the cart already holds. */
  lemma WeighInKeepsLedger(catalog: seq<Product>, cart: seq<CartLine>, p: Product, weight: real)
    requires LedgerValid(catalog, cart) && p in catalog && p.isWeighted && 0.0 < weight <= p.stock
    ensures LedgerValid(catalog, cart + [CartLine(p, weight, true)])
  {
    DistinctAppend(cart, CartLine(p, weight, true));
  }
}
