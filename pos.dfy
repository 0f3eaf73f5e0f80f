/** The point-of-sale screen: its product grid filter, the cart handlers,
    the weigh-in, discount and payment dialogs, as a terminal whose fields
    are the screen's state. The cart updaters themselves live in
    `CartLedger`; each handler here applies one of them and keeps the
    ledger invariant. */
module PointOfSale {
  import opened Wrappers
  import opened Types
  import opened Text
  import opened Seqs
  import Auth
  import CartLedger

  // ---------------------------------------------------------------------
  // The product grid

  /** The name matches the query ignoring case, or the barcode contains the
      query exactly as typed. */
  predicate MatchesSearch(p: Product, query: string) {
    Contains(Lower(p.name), Lower(query)) || (p.barcode.Some? && Contains(p.barcode.value, query))
  }

  predicate InCategory(p: Product, category: string) {
    category == "Todos" || p.category == Some(category)
  }

  function ShownOnGrid(query: string, category: string): Product -> bool {
    (p: Product) => MatchesSearch(p, query) && InCategory(p, category) && p.isActive
  }

  /** The products on the grid: active ones matching the search and the
      category tab, in catalog order. */
  function VisibleProducts(catalog: seq<Product>, query: string, category: string): (r: seq<Product>)
    ensures |r| <= |catalog|
    ensures forall p :: p in r <==>
      p in catalog && MatchesSearch(p, query) && InCategory(p, category) && p.isActive
  {
    Filter(catalog, ShownOnGrid(query, category))
  }

  /** With an empty search box the grid shows every active product of the
      chosen category tab. */
  lemma EmptySearchShowsCategory(catalog: seq<Product>, category: string)
    ensures forall p :: p in VisibleProducts(catalog, "", category) <==>
      p in catalog && InCategory(p, category) && p.isActive
  {
    forall p: Product ensures MatchesSearch(p, "") {
      assert Lower("") == "";
      assert IsPrefix("", Lower(p.name));
    }
  }

  /** A search typed in any case finds the same names as its lower-case
      form, since both sides are lowered before comparing. */
  lemma SearchIgnoresCaseOfName(p: Product, query: string)
    requires Contains(Lower(p.name), Lower(query))
    ensures MatchesSearch(p, query) && MatchesSearch(p, Lower(query))
  {
    LowerIdempotent(query);
  }

  /** The first catalog product whose barcode is exactly the scanned code. */
  function FindByBarcode(catalog: seq<Product>, code: string): (r: Option<Product>)
    ensures r.Some? ==> r.value in catalog && r.value.barcode == Some(code)
    ensures r.None? ==> forall p :: p in catalog ==> p.barcode != Some(code)
    ensures r.Some? ==> exists k :: (0 <= k < |catalog| && catalog[k] == r.value
      && forall j :: 0 <= j < k ==> catalog[j].barcode != Some(code))
  {
    if catalog == [] then None
    else if catalog[0].barcode == Some(code) then Some(catalog[0])
    else FindByBarcode(catalog[1..], code)
  }

  // ---------------------------------------------------------------------
  // The discount dialog

  /** The password the session user carries. `User` declares no password,
      so `user?.password` is undefined whoever is signed in. */
  function StoredPassword(user: Option<User>): Option<string> {
    None
  }

  /** The discount dialog's checks: the typed password equals the stored
      one, and the parsed percentage is a number other than zero, not
      negative and at most 100. */
  predicate DiscountAccepted(percentage: Option<real>, password: string, stored: Option<string>) {
    !(Some(password) != stored) &&
    !(percentage.None? || percentage.value == 0.0 || percentage.value <= 0.0 || percentage.value > 100.0)
  }

  /** A discount goes through exactly when the password matches and the
      percentage lies in (0, 100]. */
  lemma DiscountAcceptedIff(percentage: Option<real>, password: string, stored: Option<string>)
    ensures DiscountAccepted(percentage, password, stored) <==>
      stored == Some(password) && percentage.Some? && 0.0 < percentage.value <= 100.0
  {
  }

  /** No session user can authorise a discount: there is no stored password
      to match. */
  lemma NoUserCanAuthoriseDiscount(user: Option<User>, percentage: Option<real>, password: string)
    ensures !DiscountAccepted(percentage, password, StoredPassword(user))
  {
  }

  // ---------------------------------------------------------------------
  // The terminal

  /** The payment dialog's states. Processing is set and replaced within one
      handler, so it is never observed and is not a state here. */
  datatype PaymentStatus = Idle | Succeeded | Failed

  class PosTerminal {
    const catalog: seq<Product>
    var cart: seq<CartLine>
    var discount: real
    var weightProduct: Option<Product>
    var paymentOpen: bool
    var selectedPayment: Option<PaymentMethod>
    var cashReceived: Option<real>
    var paymentStatus: PaymentStatus

    /** The cart is a valid ledger over the catalog, the discount a
        percentage, and a pending weigh-in is of a weighed catalog product. */
    ghost predicate Valid()
      reads this
    {
      && CartLedger.LedgerValid(catalog, cart)
      && 0.0 <= discount <= 100.0
      && (weightProduct.Some? ==> weightProduct.value in catalog && weightProduct.value.isWeighted)
    }

    /** The screen as first rendered: empty cart, no discount, no dialog. */
    constructor (catalog: seq<Product>)
      requires CartLedger.CatalogValid(catalog)
      ensures Valid()
      ensures this.catalog == catalog && cart == [] && discount == 0.0 && weightProduct == None
      ensures !paymentOpen && selectedPayment == None && cashReceived == None && paymentStatus == Idle
    {
      this.catalog := catalog;
      cart, discount, weightProduct := [], 0.0, None;
      paymentOpen, selectedPayment, cashReceived, paymentStatus := false, None, None, Idle;
    }

    function Subtotal(): real
      reads this
    {
      CartLedger.Subtotal(cart)
    }

    function Total(): real
      reads this
    {
      CartLedger.Total(Subtotal(), discount)
    }

    function Change(): real
      reads this
    {
      CartLedger.Change(selectedPayment, cashReceived, Total())
    }

    /** Whether "Confirmar pago" is enabled. */
    function CanConfirm(): (r: bool)
      reads this
      ensures r <==> (selectedPayment.Some? &&
        (selectedPayment.value == Cash ==> cashReceived.Some? && cashReceived.value >= Total()))
    {
      CartLedger.ConfirmEnabledIff(selectedPayment, cashReceived, Total());
      CartLedger.ConfirmEnabled(selectedPayment, cashReceived, Total())
    }

    /** Whether the discount button is shown: for owners and administrators,
        once the cart holds something. */
    function CanApplyDiscount(user: Option<User>): (r: bool)
      reads this
      ensures r <==> user.Some? && user.value.role in [Owner, Administrador] && |cart| > 0
    {
      Auth.Permits(user, [Owner, Administrador]) && |cart| > 0
    }

    /** In a valid terminal nothing is owed below zero and the discount never
        exceeds the subtotal. */
    lemma TotalWithinSubtotal()
      requires Valid()
      ensures 0.0 <= Total() <= Subtotal()
    {
      CartLedger.SubtotalNonNegative(cart);
      CartLedger.TotalBounds(Subtotal(), discount);
    }

    /** `addToCart`: nothing for a product out of stock; a weighed product
        opens the weigh-in dialog and leaves the cart alone; a discrete
        product goes through the ledger's add. */
    method AddToCart(product: Product)
      requires Valid() && product in catalog
      modifies this`cart, this`weightProduct
      ensures Valid()
      ensures product.stock <= 0.0 ==> cart == old(cart) && weightProduct == old(weightProduct)
      ensures product.stock > 0.0 && product.isWeighted ==>
        cart == old(cart) && weightProduct == Some(product)
      ensures product.stock > 0.0 && !product.isWeighted ==>
        cart == CartLedger.AddedToCart(old(cart), product) && weightProduct == old(weightProduct)
    {
      if product.stock <= 0.0 {
        return;
      }
      if product.isWeighted {
        weightProduct := Some(product);
        return;
      }
      CartLedger.AddToCartKeepsLedger(catalog, cart, product);
      cart := CartLedger.AddedToCart(cart, product);
    }

    /** The plus and minus buttons of a line. */
    method UpdateQuantity(productId: string, delta: int)
      requires Valid()
      modifies this`cart
      ensures Valid()
      ensures cart == CartLedger.QuantityUpdated(old(cart), productId, delta)
    {
      CartLedger.UpdateQuantityKeepsLedger(catalog, cart, productId, delta);
      cart := CartLedger.QuantityUpdated(cart, productId, delta);
    }

    /** The remove button of a line: every line of that product goes. */
    method RemoveFromCart(productId: string)
      requires Valid()
      modifies this`cart
      ensures Valid()
      ensures cart == CartLedger.WithoutProduct(old(cart), productId)
      ensures CartLedger.NoLineFor(cart, productId)
    {
      CartLedger.RemoveKeepsLedger(catalog, cart, productId);
      cart := CartLedger.WithoutProduct(cart, productId);
    }

    method ClearCart()
      requires Valid()
      modifies this`cart, this`discount
      ensures Valid()
      ensures cart == [] && discount == 0.0
      ensures Subtotal() == 0.0 && Total() == 0.0
    {
      cart, discount := [], 0.0;
    }

    /** The barcode form: an empty code does nothing; otherwise the first
        product carrying exactly that barcode is added when it is active and
        in stock, and nothing happens when there is none. */
    method SubmitBarcode(code: string)
      requires Valid()
      modifies this`cart, this`weightProduct
      ensures Valid()
      ensures var found := FindByBarcode(catalog, code);
        if code != "" && found.Some? && found.value.isActive && found.value.stock > 0.0 then
          if found.value.isWeighted then cart == old(cart) && weightProduct == found
          else cart == CartLedger.AddedToCart(old(cart), found.value) && weightProduct == old(weightProduct)
        else cart == old(cart) && weightProduct == old(weightProduct)
    {
      if code == "" {
        return;
      }
      var found := FindByBarcode(catalog, code);
      if found.Some? && found.value.isActive && found.value.stock > 0.0 {
        AddToCart(found.value);
      }
    }

    /** "Agregar" in the weigh-in dialog: a weight above zero and within the
        stock appends one new weigh-in line and closes the dialog; anything
        else (no dialog, an empty or non-numeric field, zero, a negative or
        too large weight) changes nothing. */
    method ConfirmWeight(weight: Option<real>)
      requires Valid()
      modifies this`cart, this`weightProduct
      ensures Valid()
      ensures var p := old(weightProduct);
        if p.Some? && weight.Some? && 0.0 < weight.value <= p.value.stock then
          cart == old(cart) + [CartLine(p.value, weight.value, true)] && weightProduct == None
        else
          cart == old(cart) && weightProduct == old(weightProduct)
    {
      if weightProduct.None? {
        return;
      }
      if weight.None? || weight.value == 0.0 || weight.value <= 0.0 {
        return;
      }
      if weight.value > weightProduct.value.stock {
        return;
      }
      CartLedger.WeighInKeepsLedger(catalog, cart, weightProduct.value, weight.value);
      cart := cart + [CartLine(weightProduct.value, weight.value, true)];
      weightProduct := None;
    }

    /** Closing the weigh-in dialog without adding. */
    method CancelWeight()
      requires Valid()
      modifies this`weightProduct
      ensures Valid() && weightProduct == None
    {
      weightProduct := None;
    }

    /** "Confirmar descuento" against the signed-in user's stored password
        (which `StoredPassword` gives as absent for every user): the
        discount is replaced only when the checks pass. */
    method ApplyDiscount(percentage: Option<real>, password: string, stored: Option<string>)
      requires Valid()
      modifies this`discount
      ensures Valid()
      ensures DiscountAccepted(percentage, password, stored) ==> discount == percentage.value
      ensures !DiscountAccepted(percentage, password, stored) ==> discount == old(discount)
    {
      if Some(password) != stored {
        return;
      }
      if percentage.None? || percentage.value == 0.0 || percentage.value <= 0.0 || percentage.value > 100.0 {
        return;
      }
      discount := percentage.value;
    }

    /** "Cobrar" is disabled while the cart is empty. */
    method OpenPayment()
      modifies this`paymentOpen
      ensures paymentOpen == (old(paymentOpen) || |cart| > 0)
    {
      if |cart| > 0 {
        paymentOpen := true;
      }
    }

    /** Dismissing the payment dialog, or "Cancelar" while choosing. */
    method ClosePayment()
      modifies this`paymentOpen
      ensures !paymentOpen
    {
      paymentOpen := false;
    }

    method SelectPayment(m: PaymentMethod)
      modifies this`selectedPayment
      ensures selectedPayment == Some(m)
    {
      selectedPayment := Some(m);
    }

    /** Typing in the cash field; `None` is the empty field. */
    method EnterCash(tender: Option<real>)
      modifies this`cashReceived
      ensures cashReceived == tender
    {
      cashReceived := tender;
    }

    /** `processPayment`, with the payment provider's answer as `approved`:
        nothing without a method, else success or error. */
    method ProcessPayment(approved: bool)
      modifies this`paymentStatus
      ensures selectedPayment.None? ==> paymentStatus == old(paymentStatus)
      ensures selectedPayment.Some? ==> paymentStatus == (if approved then Succeeded else Failed)
    {
      if selectedPayment.None? {
        return;
      }
      paymentStatus := if approved then Succeeded else Failed;
    }

    /** "Nueva venta" after a successful payment: a fresh sale. */
    method CompletePayment()
      requires Valid()
      modifies this`cart, this`discount, this`paymentOpen, this`paymentStatus, this`selectedPayment, this`cashReceived
      ensures Valid()
      ensures cart == [] && discount == 0.0
      ensures !paymentOpen && paymentStatus == Idle && selectedPayment == None && cashReceived == None
    {
      cart, discount := [], 0.0;
      paymentOpen, paymentStatus, selectedPayment, cashReceived := false, Idle, None, None;
    }

    /** "Reintentar" after an error: back to choosing, the sale intact. */
    method RetryPayment()
      modifies this`paymentStatus
      ensures paymentStatus == Idle
    {
      paymentStatus := Idle;
    }

    /** "Cancelar" after an error. */
    method CancelAfterError()
      modifies this`paymentOpen, this`paymentStatus
      ensures !paymentOpen && paymentStatus == Idle
    {
      paymentOpen, paymentStatus := false, Idle;
    }
  }
}
