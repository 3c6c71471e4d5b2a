/**
 * The sales screen: the sale form's derived values (available stock,
 * discounted price, royalty), the ordered validation chain that guards
 * `addSale`, the record it builds, the handlers that edit the form, and the
 * history table of the latest sales.
 */
module SalesManagement {
  import opened Types
  import opened Sequences
  import opened StoreContext

  /**
   * The form's `saleData`. A text field is None while empty and otherwise
   * holds the number it parses to.
   */
  datatype SaleFormData = SaleFormData(
    productId: Option<Id>,
    size: Option<Size>,
    quantity: Option<int>,
    unitPrice: Option<real>,
    discountPercent: Option<real>,
    royaltyPercent: Option<real>)

  /** The form as first shown and as reset after a sale: royalty "0", everything else empty. */
  const EmptySaleForm := SaleFormData(None, None, None, None, None, Some(0.0))

  /** `products.find(p => p.id === productId)`: the first product carrying the id. */
  function FindProduct(products: seq<Product>, id: Option<Id>): (r: Option<Product>)
    ensures r.Some? <==> id.Some? && exists i :: 0 <= i < |products| && products[i].id == id.value
    ensures r.Some? ==> r.value.id == id.value
    ensures r.Some? ==> exists i :: 0 <= i < |products| && products[i] == r.value &&
                                    forall j :: 0 <= j < i ==> products[j].id != id.value
  {
    if id.None? || products == [] then None
    else if products[0].id == id.value then Some(products[0])
    else
      var r := FindProduct(products[1..], id);
      assert forall i :: 1 <= i < |products| ==> products[i] == products[1..][i - 1];
      r
  }

  /** `availableStock`: the chosen size's quantity of the chosen product, 0 when either is missing. */
  function AvailableStock(products: seq<Product>, form: SaleFormData): int
  {
    match FindProduct(products, form.productId)
    case None => 0
    case Some(p) => if form.size.Some? then p.sizes.Get(form.size.value) else 0
  }

  /**
   * In a catalogue whose ids are unique, the available stock is the chosen
   * size's quantity of the product carrying the chosen id; with no product
   * chosen, no size chosen, or no product carrying the id, it is 0.
   */
  lemma AvailableStockSpec(products: seq<Product>, form: SaleFormData)
    requires UniqueIds(products)
    ensures forall i :: 0 <= i < |products| && form.productId == Some(products[i].id) && form.size.Some? ==>
              AvailableStock(products, form) == products[i].sizes.Get(form.size.value)
    ensures form.productId.None? || form.size.None? ==> AvailableStock(products, form) == 0
    ensures (forall p :: p in products ==> Some(p.id) != form.productId) ==> AvailableStock(products, form) == 0
  {
    var found := FindProduct(products, form.productId);
    if found.Some? {
      var k :| 0 <= k < |products| && products[k] == found.value
               && forall j :: 0 <= j < k ==> products[j].id != form.productId.value;
      forall i | 0 <= i < |products| && form.productId == Some(products[i].id)
        ensures products[i] == found.value
      {
        assert products[i].id == products[k].id;
      }
    }
  }

  /** The discount field read as a number, 0 while empty. */
  function DiscountPercent(form: SaleFormData): real { form.discountPercent.GetOr(0.0) }

  /** The royalty choice read as a number, 0 while empty. */
  function RoyaltyPercent(form: SaleFormData): real { form.royaltyPercent.GetOr(0.0) }

  /** A separate step: the verifier does not find this nonlinear fact inside `FinalPrice`. */
  lemma ProductNonNegative(a: real, b: real)
    ensures 0.0 <= a && 0.0 <= b ==> 0.0 <= a * b
  {
  }

  /** `finalPrice`: the catalogue price less the discount. */
  function FinalPrice(price: real, discountPercent: real): (r: real)
    ensures discountPercent == 0.0 ==> r == price
    ensures 0.0 <= price && 0.0 <= discountPercent <= 100.0 ==> 0.0 <= r <= price
    ensures r * 100.0 == price * (100.0 - discountPercent)
  {
    ProductNonNegative(price, discountPercent / 100.0);
    ProductNonNegative(price, 1.0 - discountPercent / 100.0);
    price - price * (discountPercent / 100.0)
  }

  /** `totalSaleValue`: quantity times unit price, each 0 while empty. */
  function SaleValue(form: SaleFormData): real
  {
    (form.quantity.GetOr(0) as real) * form.unitPrice.GetOr(0.0)
  }

  /** `royaltyAmount`: the royalty share of the sale's value. */
  function RoyaltyAmount(form: SaleFormData): real
  {
    SaleValue(form) * (RoyaltyPercent(form) / 100.0)
  }

  datatype SaleError =
    | MissingFields
    | InsufficientStock(available: int)
    | InvalidPrice
    | InvalidDiscount
    | ProductNotFound

  predicate Filled(form: SaleFormData)
  {
    form.productId.Some? && form.size.Some? && form.quantity.Some? && form.unitPrice.Some?
  }

  /**
   * The checks of `handleSubmit` in their order (required fields, stock,
   * unit price, discount), then the sale record it hands to `addSale`.
   * ProductNotFound stands for the `selectedProduct!` dereference failing,
   * which only a quantity of at most 0 for a vanished product reaches.
   */
  function CheckSale(products: seq<Product>, form: SaleFormData): Result<SaleData, SaleError>
  {
    if !Filled(form) then Failure(MissingFields)
    else
      var available := AvailableStock(products, form);
      var quantity := form.quantity.value;
      var unitPrice := form.unitPrice.value;
      var discount := DiscountPercent(form);
      if quantity > available then Failure(InsufficientStock(available))
      else if unitPrice <= 0.0 then Failure(InvalidPrice)
      else if discount < 0.0 || discount > 100.0 then Failure(InvalidDiscount)
      else
        match FindProduct(products, form.productId)
        case None => Failure(ProductNotFound)
        case Some(p) =>
          var royalty := RoyaltyPercent(form);
          var amount := RoyaltyAmount(form);
          Success(SaleData(
            form.productId.value, p.name, form.size.value, quantity, unitPrice,
            (quantity as real) * unitPrice,
            if royalty > 0.0 then Some(royalty) else None,
            if amount > 0.0 then Some(amount) else None))
  }

  /** A sale is accepted exactly when every check passes and the product exists. */
  lemma CheckSaleAccepts(products: seq<Product>, form: SaleFormData)
    ensures CheckSale(products, form).Success? <==>
              && Filled(form)
              && form.quantity.value <= AvailableStock(products, form)
              && form.unitPrice.value > 0.0
              && 0.0 <= DiscountPercent(form) <= 100.0
              && FindProduct(products, form.productId).Some?
  {
  }

  /** The checks run in order: a missing field hides every other error, then stock, then price, then discount. */
  lemma CheckSaleOrder(products: seq<Product>, form: SaleFormData)
    ensures !Filled(form) ==> CheckSale(products, form) == Failure(MissingFields)
    ensures Filled(form) && form.quantity.value > AvailableStock(products, form) ==>
              CheckSale(products, form) == Failure(InsufficientStock(AvailableStock(products, form)))
    ensures Filled(form) && form.quantity.value <= AvailableStock(products, form) && form.unitPrice.value <= 0.0 ==>
              CheckSale(products, form) == Failure(InvalidPrice)
    ensures Filled(form) && form.quantity.value <= AvailableStock(products, form) && form.unitPrice.value > 0.0
            && (DiscountPercent(form) < 0.0 || DiscountPercent(form) > 100.0) ==>
              CheckSale(products, form) == Failure(InvalidDiscount)
  {
  }

  /**
   * The recorded sale carries the form's product, size, quantity and unit
   * price, the product's current name, `totalPrice = quantity * unitPrice`,
   * and royalty fields only when positive, the amount being the royalty share
   * of the total.
   */
  lemma AcceptedSaleRecord(products: seq<Product>, form: SaleFormData)
    requires CheckSale(products, form).Success?
    ensures var d := CheckSale(products, form).value;
            && FindProduct(products, form.productId).Some?
            && d.productName == FindProduct(products, form.productId).value.name
            && Some(d.productId) == form.productId && Some(d.size) == form.size
            && Some(d.quantity) == form.quantity && Some(d.unitPrice) == form.unitPrice
            && d.totalPrice == (d.quantity as real) * d.unitPrice
            && (d.royaltyPercent.Some? <==> RoyaltyPercent(form) > 0.0)
            && (d.royaltyPercent.Some? ==> d.royaltyPercent.value == RoyaltyPercent(form))
            && (d.royaltyAmount.Some? ==> d.royaltyAmount.value == d.totalPrice * RoyaltyPercent(form) / 100.0)
            && (d.quantity > 0 ==> (d.royaltyAmount.Some? <==> d.royaltyPercent.Some?))
  {
    var d := CheckSale(products, form).value;
    var r := RoyaltyPercent(form);
    if d.quantity > 0 && r > 0.0 {
      assert d.totalPrice > 0.0;
      assert d.totalPrice * (r / 100.0) > 0.0;
    }
  }

  /**
   * On the form's path the floor never fires: when the product's id is
   * unique, the sold size drops by exactly the quantity and stays
   * non-negative; selling all that is available leaves exactly 0.
   */
  lemma AcceptedSaleTakesExactStock(products: seq<Product>, form: SaleFormData, i: int)
    requires UniqueIds(products)
    requires CheckSale(products, form).Success?
    requires 0 <= i < |products| && Some(products[i].id) == form.productId
    ensures var d := CheckSale(products, form).value;
            var after := Restock(products, d.productId, d.size, -d.quantity)[i].sizes.Get(d.size);
            && after == products[i].sizes.Get(d.size) - d.quantity
            && after >= 0
  {
    var found := FindProduct(products, form.productId).value;
    var k :| 0 <= k < |products| && products[k] == found
             && forall j :: 0 <= j < k ==> products[j].id != form.productId.value;
    assert k == i;
  }

  // ---------------------------------------------------------------------------
  // Form handlers

  /** `handleProductChange`: choose the product, take its price as unit price, clear size and discount. */
  function ProductChanged(products: seq<Product>, form: SaleFormData, id: Id): SaleFormData
  {
    form.(productId := Some(id),
          unitPrice := match FindProduct(products, Some(id))
                       case Some(p) => Some(p.price)
                       case None => None,
          size := None,
          discountPercent := None)
  }

  /**
   * After a product change no size is chosen (nothing is available yet), the
   * unit price is the product's undiscounted price, and quantity and royalty
   * are kept.
   */
  lemma ProductChangeResetsPricing(products: seq<Product>, form: SaleFormData, id: Id)
    ensures var f := ProductChanged(products, form, id);
            && f.productId == Some(id) && f.size.None? && AvailableStock(products, f) == 0
            && DiscountPercent(f) == 0.0
            && f.quantity == form.quantity && f.royaltyPercent == form.royaltyPercent
            && (FindProduct(products, Some(id)).Some? ==>
                  f.unitPrice == Some(FinalPrice(FindProduct(products, Some(id)).value.price, DiscountPercent(f))))
            && (FindProduct(products, Some(id)).None? ==> f.unitPrice.None?)
  {
  }

  /**
   * `handleDiscountChange` as written: the price it writes is the
   * `finalPrice` of the render the handler belongs to, computed from the
   * discount the field held BEFORE this change.
   */
  function DiscountChangedAsWritten(products: seq<Product>, form: SaleFormData, discount: Option<real>): SaleFormData
  {
    var selected := FindProduct(products, form.productId);
    form.(discountPercent := discount,
          unitPrice := if selected.Some? && discount.Some? then Some(FinalPrice(selected.value.price, DiscountPercent(form)))
                       else if selected.Some? then Some(selected.value.price)
                       else None)
  }

  /**
   * Entering a 10% discount in one change event (a paste) on a product of
   * 100 leaves the unit price at 100, not 90.
   */
  lemma DiscountChangeLagsAsWritten()
    ensures var p := Product(1, "Camiseta", "", 100.0, None, Sizes(5, 5, 5, 5, 5, 5), 0);
            var form := ProductChanged([p], EmptySaleForm, 1);
            var after := DiscountChangedAsWritten([p], form, Some(10.0));
            && after.discountPercent == Some(10.0)
            && after.unitPrice == Some(100.0)
            && FinalPrice(100.0, 10.0) == 90.0
  {
  }

  /**
   * Typing the same 10% as two keystrokes, "1" then "0", leaves the unit
   * price at 99: each change applies the discount typed before it.
   */
  lemma DiscountTypedDigitByDigitAsWritten()
    ensures var p := Product(1, "Camiseta", "", 100.0, None, Sizes(5, 5, 5, 5, 5, 5), 0);
            var form := ProductChanged([p], EmptySaleForm, 1);
            var afterOne := DiscountChangedAsWritten([p], form, Some(1.0));
            var afterTen := DiscountChangedAsWritten([p], afterOne, Some(10.0));
            && afterOne.unitPrice == Some(100.0)
            && afterTen.discountPercent == Some(10.0)
            && afterTen.unitPrice == Some(99.0)
            && FinalPrice(100.0, 10.0) == 90.0
  {
  }

  /** `handleDiscountChange` as intended: the unit price follows the discount just typed. */
  function DiscountChanged(products: seq<Product>, form: SaleFormData, discount: Option<real>): SaleFormData
  {
    var selected := FindProduct(products, form.productId);
    form.(discountPercent := discount,
          unitPrice := if selected.Some? && discount.Some? then Some(FinalPrice(selected.value.price, discount.value))
                       else if selected.Some? then Some(selected.value.price)
                       else None)
  }

  /** With a product selected, the unit price after a discount change is that product's discounted price. */
  lemma DiscountChangeAppliesDiscount(products: seq<Product>, form: SaleFormData, discount: Option<real>)
    ensures var f := DiscountChanged(products, form, discount);
            && f.discountPercent == discount
            && f.productId == form.productId && f.size == form.size && f.quantity == form.quantity
            && (FindProduct(products, form.productId).Some? ==>
                  f.unitPrice == Some(FinalPrice(FindProduct(products, form.productId).value.price, DiscountPercent(f))))
            && (FindProduct(products, form.productId).None? ==> f.unitPrice.None?)
  {
  }

  /** The written handler agrees with the intended one only when the discount did not change. */
  lemma DiscountHandlersAgreeOnlyWhenUnchanged(products: seq<Product>, form: SaleFormData, d: real)
    requires FindProduct(products, form.productId).Some?
    requires FindProduct(products, form.productId).value.price != 0.0
    ensures DiscountChangedAsWritten(products, form, Some(d)) == DiscountChanged(products, form, Some(d))
            <==> DiscountPercent(form) == d
  {
    var price := FindProduct(products, form.productId).value.price;
    var old_ := DiscountPercent(form);
    if FinalPrice(price, old_) == FinalPrice(price, d) {
      assert price * (100.0 - old_) == price * (100.0 - d);
      assert price * (d - old_) == 0.0;
    }
  }

  // ---------------------------------------------------------------------------
  // History table

  const HistoryLength := 10

  /** `sales.slice(-10).reverse()`: the latest ten sales, newest first. */
  function History(sales: seq<Sale>): (h: seq<Sale>)
    ensures |h| == Min(HistoryLength, |sales|)
    ensures forall k :: 0 <= k < |h| ==> h[k] == sales[|sales| - 1 - k]
  {
    Reverse(sales[|sales| - Min(HistoryLength, |sales|)..])
  }

  /** The catalogue after a recorded sale: the sold size of the sold product lost the quantity. */
  predicate StockTaken(before: seq<Product>, after: seq<Product>, d: SaleData)
  {
    after == Restock(before, d.productId, d.size, -d.quantity)
  }

  /** The sale form's state: `saleData`, replaced by each handler. */
  class SaleForm {
    var saleData: SaleFormData

    constructor ()
      ensures saleData == EmptySaleForm
    {
      saleData := EmptySaleForm;
    }

    /** `handleSubmit`: when every check passes, record the sale and reset the form; otherwise change nothing. */
    method HandleSubmit(store: Store, now: Day) returns (outcome: Result<SaleData, SaleError>)
      modifies this, store
      ensures outcome == CheckSale(old(store.products), old(saleData))
      ensures outcome.Success? ==>
                && store.sales == old(store.sales) + [NewSale(outcome.value, old(store.nextId), now)]
                && StockTaken(old(store.products), store.products, outcome.value)
                && store.nextId == old(store.nextId) + 1
                && saleData == EmptySaleForm
      ensures outcome.Failure? ==>
                && store.sales == old(store.sales) && store.products == old(store.products)
                && store.nextId == old(store.nextId) && saleData == old(saleData)
      ensures StockNonNegative(old(store.products)) ==> StockNonNegative(store.products)
    {
      outcome := CheckSale(store.products, saleData);
      if outcome.Success? {
        RecordSale(store, outcome.value, now);
      }
    }

    /** The success branch of `handleSubmit`: `addSale`, then the form is reset. */
    method RecordSale(store: Store, sale: SaleData, now: Day)
      modifies this, store
      ensures store.sales == old(store.sales) + [NewSale(sale, old(store.nextId), now)]
      ensures StockTaken(old(store.products), store.products, sale)
      ensures store.nextId == old(store.nextId) + 1
      ensures saleData == EmptySaleForm
      ensures StockNonNegative(old(store.products)) ==> StockNonNegative(store.products)
    {
      store.AddSale(sale, now);
      saleData := EmptySaleForm;
    }

    /** `handleProductChange`. */
    method HandleProductChange(products: seq<Product>, id: Id)
      modifies this
      ensures saleData == ProductChanged(products, old(saleData), id)
    {
      saleData := ProductChanged(products, saleData, id);
    }

    /** `handleDiscountChange`, with the unit price following the new discount. */
    method HandleDiscountChange(products: seq<Product>, discount: Option<real>)
      modifies this
      ensures saleData == DiscountChanged(products, old(saleData), discount)
    {
      saleData := DiscountChanged(products, saleData, discount);
    }
  }
}
