/**
 * The shop's entities: a product with a stock quantity per size label, and
 * a recorded sale, together with the sums over the sale ledger that both the
 * dashboard and the reports compute.
 */
module Types {

  datatype Option<+T> = None | Some(value: T) {
    /** The `x || default` of the views: the value when present, the default otherwise. */
    function GetOr(default: T): T {
      match this
      case Some(v) => v
      case None => default
    }
  }

  datatype Result<+R, +E> = Success(value: R) | Failure(error: E)

  /** Record identifiers. The application derives them from the clock; here a counter issues them. */
  type Id = nat

  /** A calendar day (UTC), counted from an arbitrary origin. */
  type Day = int

  /** The size labels every product is created with. */
  datatype Size = PP | P | M | G | GG | XG

  /** Quantity on hand for each size label. */
  datatype Sizes = Sizes(pp: int, p: int, m: int, g: int, gg: int, xg: int)
  {
    function Get(z: Size): int
    {
      match z
      case PP => pp
      case P => p
      case M => m
      case G => g
      case GG => gg
      case XG => xg
    }

    /** `{ ...sizes, [z]: v }`: slot `z` becomes `v`, every other slot is kept. */
    function Set(z: Size, v: int): (r: Sizes)
      ensures r.Get(z) == v
      ensures forall w :: w != z ==> r.Get(w) == Get(w)
    {
      match z
      case PP => this.(pp := v)
      case P => this.(p := v)
      case M => this.(m := v)
      case G => this.(g := v)
      case GG => this.(gg := v)
      case XG => this.(xg := v)
    }

    predicate NonNegative()
    {
      forall z :: Get(z) >= 0
    }

    /** Sum of the quantities of all sizes: the per-product total the views show. */
    function Total(): (t: int)
      ensures NonNegative() ==> t >= 0
    {
      assert NonNegative() ==> Get(PP) >= 0 && Get(P) >= 0 && Get(M) >= 0
                               && Get(G) >= 0 && Get(GG) >= 0 && Get(XG) >= 0;
      pp + p + m + g + gg + xg
    }

    /** Writing one slot changes the total by exactly the difference in that slot. */
    lemma SetChangesTotal(z: Size, v: int)
      ensures Set(z, v).Total() == Total() - Get(z) + v
    {
    }
  }

  datatype Product = Product(
    id: Id,
    name: string,
    description: string,
    price: real,
    image: Option<string>,
    sizes: Sizes,
    createdAt: Day)

  /** A product without the fields the store assigns (`Omit<Product, 'id' | 'createdAt'>`). */
  datatype ProductData = ProductData(
    name: string,
    description: string,
    price: real,
    image: Option<string>,
    sizes: Sizes)

  /** `Partial<Product>`: each field is either carried (Some) or absent (None). */
  datatype ProductPatch = ProductPatch(
    id: Option<Id>,
    name: Option<string>,
    description: Option<string>,
    price: Option<real>,
    image: Option<string>,
    sizes: Option<Sizes>,
    createdAt: Option<Day>)

  datatype Sale = Sale(
    id: Id,
    productId: Id,
    productName: string,
    size: Size,
    quantity: int,
    unitPrice: real,
    totalPrice: real,
    royaltyPercent: Option<real>,
    royaltyAmount: Option<real>,
    createdAt: Day)

  /** A sale without the fields the store assigns (`Omit<Sale, 'id' | 'createdAt'>`). */
  datatype SaleData = SaleData(
    productId: Id,
    productName: string,
    size: Size,
    quantity: int,
    unitPrice: real,
    totalPrice: real,
    royaltyPercent: Option<real>,
    royaltyAmount: Option<real>)

  /** `sales.reduce((total, sale) => total + sale.totalPrice, 0)`, folded from the left. */
  function TotalRevenue(sales: seq<Sale>): real
  {
    if sales == [] then 0.0
    else TotalRevenue(sales[..|sales| - 1]) + sales[|sales| - 1].totalPrice
  }

  /** The number of units the ledger records, folded from the left. */
  function TotalQuantity(sales: seq<Sale>): int
  {
    if sales == [] then 0
    else TotalQuantity(sales[..|sales| - 1]) + sales[|sales| - 1].quantity
  }

  /** Recording one more sale adds exactly its price and its quantity to the totals. */
  lemma {:induction false} TotalsOfAppend(a: seq<Sale>, b: seq<Sale>)
    ensures TotalRevenue(a + b) == TotalRevenue(a) + TotalRevenue(b)
    ensures TotalQuantity(a + b) == TotalQuantity(a) + TotalQuantity(b)
  {
    if b != [] {
      var n := |b| - 1;
      assert (a + b)[..|a + b| - 1] == a + b[..n];
      TotalsOfAppend(a, b[..n]);
    } else {
      assert a + b == a;
    }
  }

  /** No sales: zero revenue. Every price non-negative: non-negative revenue. */
  lemma {:induction false} TotalRevenueNonNegative(sales: seq<Sale>)
    requires forall i :: 0 <= i < |sales| ==> sales[i].totalPrice >= 0.0
    ensures TotalRevenue(sales) >= 0.0
    ensures sales == [] ==> TotalRevenue(sales) == 0.0
  {
    if sales != [] {
      TotalRevenueNonNegative(sales[..|sales| - 1]);
    }
  }
}
