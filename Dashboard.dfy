/**
 * The dashboard view: number of products, total stock, total revenue and the
 * low-stock list, all read from the current catalogue and ledger.
 */
module Dashboard {
  import opened Types
  import opened Sequences
  import opened StoreContext

  /** A product is listed as low on stock when its total is below this (zero included). */
  const LowStockThreshold := 10

  /** `totalStock`: the sum over all products of the sum over their sizes. */
  function TotalStock(products: seq<Product>): int
  {
    if products == [] then 0
    else products[0].sizes.Total() + TotalStock(products[1..])
  }

  /** `lowStockProducts`: the products whose total stock is below the threshold, in catalogue order. */
  function LowStock(products: seq<Product>): seq<Product>
  {
    if products == [] then []
    else if products[0].sizes.Total() < LowStockThreshold then [products[0]] + LowStock(products[1..])
    else LowStock(products[1..])
  }

  /**
   * `totalProducts` is the catalogue's length. Deleting an id lowers it by
   * the number of products carrying that id: by exactly one when the id is
   * present and ids are unique, and not at all when it is absent.
   */
  lemma {:induction false} TotalProductsAfterDelete(products: seq<Product>, id: Id)
    ensures |WithoutProduct(products, id)| == |products| - CountId(products, id)
    ensures UniqueIds(products) && (exists p :: p in products && p.id == id) ==>
              |WithoutProduct(products, id)| == |products| - 1
    ensures (forall p :: p in products ==> p.id != id) ==> |WithoutProduct(products, id)| == |products|
  {
    if products != [] {
      TotalProductsAfterDelete(products[1..], id);
    }
    CountIdZero(products, id);
    if UniqueIds(products) {
      CountIdUnique(products, id);
    }
  }

  /** With every quantity non-negative the total stock is non-negative; an empty catalogue holds none. */
  lemma {:induction false} TotalStockNonNegative(products: seq<Product>)
    requires StockNonNegative(products)
    ensures TotalStock(products) >= 0
    ensures products == [] ==> TotalStock(products) == 0
  {
    if products != [] {
      assert products[0].sizes.NonNegative();
      TotalStockNonNegative(products[1..]);
    }
  }

  /**
   * An unclamped stock update moves the total stock by `delta` for every
   * product carrying the id: a sale of `q` units of a product whose id is
   * unique and which had at least `q` in stock takes exactly `q` off the total.
   */
  lemma {:induction false} TotalStockAfterRestock(products: seq<Product>, id: Id, z: Size, delta: int)
    requires forall i :: 0 <= i < |products| && products[i].id == id ==> products[i].sizes.Get(z) + delta >= 0
    ensures TotalStock(Restock(products, id, z, delta)) == TotalStock(products) + delta * CountId(products, id)
  {
    if products != [] {
      var rest := products[1..];
      var r := Restock(products, id, z, delta);
      assert r[1..] == Restock(rest, id, z, delta);
      TotalStockAfterRestock(rest, id, z, delta);
      var c := CountId(rest, id);
      if products[0].id == id {
        RestockOneTotal(products[0], z, delta);
        MulSucc(delta, c);
      }
    }
  }

  /** Kept apart so the nonlinear step does not enter the inductive proof's context. */
  lemma MulSucc(d: int, c: int)
    ensures d * (c + 1) == d * c + d
  {
  }

  /** One product's unclamped stock update moves its total by exactly `delta`. */
  lemma RestockOneTotal(p: Product, z: Size, delta: int)
    requires p.sizes.Get(z) + delta >= 0
    ensures RestockOne(p, z, delta).sizes.Total() == p.sizes.Total() + delta
  {
    p.sizes.SetChangesTotal(z, Max0(p.sizes.Get(z) + delta));
  }

  /** How many products carry `id`. */
  function CountId(products: seq<Product>, id: Id): nat
  {
    if products == [] then 0
    else (if products[0].id == id then 1 else 0) + CountId(products[1..], id)
  }

  /** No product carries `id` exactly when the count is 0. */
  lemma {:induction false} CountIdZero(products: seq<Product>, id: Id)
    ensures CountId(products, id) == 0 <==> forall p :: p in products ==> p.id != id
  {
    if products != [] {
      CountIdZero(products[1..], id);
      assert forall p :: p in products <==> p == products[0] || p in products[1..];
    }
  }

  /** In a catalogue whose ids are unique, at most one product carries any id. */
  lemma {:induction false} CountIdUnique(products: seq<Product>, id: Id)
    requires UniqueIds(products)
    ensures CountId(products, id) <= 1
  {
    if products != [] {
      var rest := products[1..];
      assert UniqueIds(rest) by {
        forall i, j | 0 <= i < |rest| && 0 <= j < |rest| && rest[i].id == rest[j].id
          ensures i == j
        {
          assert products[i + 1].id == products[j + 1].id;
        }
      }
      CountIdUnique(rest, id);
      if products[0].id == id {
        forall p | p in rest
          ensures p.id != id
        {
          var j :| 0 <= j < |rest| && rest[j] == p;
          assert products[j + 1] == p;
        }
        CountIdZero(rest, id);
      }
    }
  }

  /** A product is listed exactly when it is in the catalogue and its total is below the threshold. */
  lemma {:induction false} LowStockMembers(products: seq<Product>)
    ensures forall p :: p in LowStock(products) <==> p in products && p.sizes.Total() < LowStockThreshold
  {
    if products != [] {
      LowStockMembers(products[1..]);
      assert products == [products[0]] + products[1..];
    }
  }

  /** The listed products keep their catalogue order. */
  lemma {:induction false} LowStockKeepsOrder(products: seq<Product>)
    ensures IsSubsequence(LowStock(products), products)
  {
    if products != [] {
      var rest := LowStock(products[1..]);
      LowStockKeepsOrder(products[1..]);
      if products[0].sizes.Total() < LowStockThreshold {
        assert ([products[0]] + rest)[1..] == rest;
      } else {
        LowStockMembers(products[1..]);
        assert rest == [] || rest[0] != products[0] by {
          if rest != [] { assert rest[0] in rest; }
        }
      }
    }
  }
}
