/**
 * The in-memory store behind every view: the product catalogue and the sale
 * ledger, and the five operations that replace them (add, update and delete a
 * product; record a sale; adjust one size's stock of one product).
 */
module StoreContext {
  import opened Types
  import opened Sequences

  /** `Math.max(0, x)`: the floor applied to every stock write. */
  function Max0(x: int): int { if x < 0 then 0 else x }

  predicate StockNonNegative(products: seq<Product>)
  {
    forall i :: 0 <= i < |products| ==> products[i].sizes.NonNegative()
  }

  predicate UniqueIds(products: seq<Product>)
  {
    forall i, j :: 0 <= i < |products| && 0 <= j < |products| && products[i].id == products[j].id ==> i == j
  }

  function NewProduct(data: ProductData, id: Id, now: Day): Product
  {
    Product(id, data.name, data.description, data.price, data.image, data.sizes, now)
  }

  function NewSale(data: SaleData, id: Id, now: Day): Sale
  {
    Sale(id, data.productId, data.productName, data.size, data.quantity, data.unitPrice,
         data.totalPrice, data.royaltyPercent, data.royaltyAmount, now)
  }

  /** `{ ...product, ...patch }`: every field the patch carries overrides, the others are kept. */
  function ApplyPatch(p: Product, patch: ProductPatch): Product
  {
    Product(
      patch.id.GetOr(p.id),
      patch.name.GetOr(p.name),
      patch.description.GetOr(p.description),
      patch.price.GetOr(p.price),
      if patch.image.Some? then patch.image else p.image,
      patch.sizes.GetOr(p.sizes),
      patch.createdAt.GetOr(p.createdAt))
  }

  /** The `map` of updateProduct: every product whose id matches is patched, in place. */
  function UpdateProducts(products: seq<Product>, id: Id, patch: ProductPatch): (r: seq<Product>)
    ensures |r| == |products|
    ensures forall i :: 0 <= i < |products| ==>
              r[i] == if products[i].id == id then ApplyPatch(products[i], patch) else products[i]
  {
    if products == [] then []
    else
      [if products[0].id == id then ApplyPatch(products[0], patch) else products[0]]
      + UpdateProducts(products[1..], id, patch)
  }

  /** The `filter` of deleteProduct: the products whose id differs from `id`. */
  function WithoutProduct(products: seq<Product>, id: Id): seq<Product>
  {
    if products == [] then []
    else if products[0].id == id then WithoutProduct(products[1..], id)
    else [products[0]] + WithoutProduct(products[1..], id)
  }

  /** One product after `updateProductStock`: slot `z` becomes `max(0, old + delta)`. */
  function RestockOne(p: Product, z: Size, delta: int): Product
  {
    p.(sizes := p.sizes.Set(z, Max0(p.sizes.Get(z) + delta)))
  }

  /** The `map` of updateProductStock over the catalogue. */
  function Restock(products: seq<Product>, id: Id, z: Size, delta: int): (r: seq<Product>)
    ensures |r| == |products|
    ensures forall i :: 0 <= i < |products| ==>
              r[i] == if products[i].id == id then RestockOne(products[i], z, delta) else products[i]
  {
    if products == [] then []
    else
      [if products[0].id == id then RestockOne(products[0], z, delta) else products[0]]
      + Restock(products[1..], id, z, delta)
  }

  // ---------------------------------------------------------------------------
  // updateProduct

  /** Fields the patch carries override, all other fields are kept, only matching products change. */
  lemma UpdateProductsEffect(products: seq<Product>, id: Id, patch: ProductPatch, i: int)
    requires 0 <= i < |products|
    ensures var q := UpdateProducts(products, id, patch)[i];
            && (products[i].id != id ==> q == products[i])
            && (products[i].id == id ==>
                  && q.name == (if patch.name.Some? then patch.name.value else products[i].name)
                  && q.price == (if patch.price.Some? then patch.price.value else products[i].price)
                  && q.sizes == (if patch.sizes.Some? then patch.sizes.value else products[i].sizes)
                  && q.description == (if patch.description.Some? then patch.description.value else products[i].description)
                  && (patch.image.Some? ==> q.image == patch.image)
                  && (patch.image.None? ==> q.image == products[i].image)
                  && (patch.id.Some? ==> q.id == patch.id.value)
                  && (patch.id.None? ==> q.id == id)
                  && (patch.createdAt.Some? ==> q.createdAt == patch.createdAt.value)
                  && (patch.createdAt.None? ==> q.createdAt == products[i].createdAt))
  {
  }

  /** A patch without an id cannot make two products share an id. */
  lemma UpdateProductsKeepsIdsUnique(products: seq<Product>, id: Id, patch: ProductPatch)
    requires UniqueIds(products) && patch.id.None?
    ensures UniqueIds(UpdateProducts(products, id, patch))
  {
    var r := UpdateProducts(products, id, patch);
    forall i, j | 0 <= i < |r| && 0 <= j < |r| && r[i].id == r[j].id
      ensures i == j
    {
      assert r[i].id == products[i].id && r[j].id == products[j].id;
    }
  }

  // ---------------------------------------------------------------------------
  // deleteProduct

  /** Exactly the products with another id remain. */
  lemma {:induction false} WithoutProductMembers(products: seq<Product>, id: Id)
    ensures forall p :: p in WithoutProduct(products, id) <==> p in products && p.id != id
  {
    if products != [] {
      WithoutProductMembers(products[1..], id);
      assert products == [products[0]] + products[1..];
    }
  }

  /** Removing products never makes two of the remaining ones share an id. */
  lemma {:induction false} WithoutProductKeepsIdsUnique(products: seq<Product>, id: Id)
    requires UniqueIds(products)
    ensures UniqueIds(WithoutProduct(products, id))
  {
    if products != [] {
      var rest := products[1..];
      assert UniqueIds(rest) by {
        forall i, j | 0 <= i < |rest| && 0 <= j < |rest| && rest[i].id == rest[j].id
          ensures i == j
        {
          assert products[i + 1].id == products[j + 1].id;
        }
      }
      WithoutProductKeepsIdsUnique(rest, id);
      if products[0].id != id {
        var tail := WithoutProduct(rest, id);
        WithoutProductMembers(rest, id);
        forall k | 0 <= k < |tail|
          ensures tail[k].id != products[0].id
        {
          assert tail[k] in rest;
          var j :| 0 <= j < |rest| && rest[j] == tail[k];
          assert products[j + 1] == tail[k];
        }
      }
    }
  }

  /** The survivors keep their order. */
  lemma {:induction false} WithoutProductKeepsOrder(products: seq<Product>, id: Id)
    ensures IsSubsequence(WithoutProduct(products, id), products)
  {
    if products != [] {
      var rest := WithoutProduct(products[1..], id);
      WithoutProductKeepsOrder(products[1..], id);
      if products[0].id == id {
        WithoutProductMembers(products[1..], id);
        assert rest == [] || rest[0] != products[0] by {
          if rest != [] { assert rest[0] in rest; }
        }
      } else {
        assert ([products[0]] + rest)[1..] == rest;
      }
    }
  }

  /** Deleting twice is deleting once. */
  lemma {:induction false} WithoutProductIdempotent(products: seq<Product>, id: Id)
    ensures WithoutProduct(WithoutProduct(products, id), id) == WithoutProduct(products, id)
  {
    if products != [] {
      WithoutProductIdempotent(products[1..], id);
      if products[0].id != id {
        var rest := WithoutProduct(products[1..], id);
        assert ([products[0]] + rest)[1..] == rest;
      }
    }
  }

  /** The catalogue shrinks exactly when some product carries the id. */
  lemma {:induction false} WithoutProductLength(products: seq<Product>, id: Id)
    ensures |WithoutProduct(products, id)| <= |products|
    ensures |WithoutProduct(products, id)| == |products| <==> forall p :: p in products ==> p.id != id
  {
    if products != [] {
      WithoutProductLength(products[1..], id);
      assert forall p :: p in products <==> p == products[0] || p in products[1..];
    }
  }

  // ---------------------------------------------------------------------------
  // updateProductStock

  /** Slot `z` of a matching product becomes `max(0, old + delta)`; its other slots and fields are kept. */
  lemma RestockEffect(products: seq<Product>, id: Id, z: Size, delta: int, i: int)
    requires 0 <= i < |products|
    ensures var q := Restock(products, id, z, delta)[i];
            && (products[i].id != id ==> q == products[i])
            && (products[i].id == id ==>
                  && q.sizes.Get(z) == Max0(products[i].sizes.Get(z) + delta)
                  && (forall w :: w != z ==> q.sizes.Get(w) == products[i].sizes.Get(w))
                  && q.(sizes := products[i].sizes) == products[i])
  {
  }

  /** An id that matches no product leaves the catalogue as it was. */
  lemma {:induction false} RestockUnknownId(products: seq<Product>, id: Id, z: Size, delta: int)
    requires forall p :: p in products ==> p.id != id
    ensures Restock(products, id, z, delta) == products
  {
    if products != [] {
      RestockUnknownId(products[1..], id, z, delta);
    }
  }

  /** The floor keeps every quantity non-negative, whatever the delta. */
  lemma RestockKeepsNonNegative(products: seq<Product>, id: Id, z: Size, delta: int)
    requires StockNonNegative(products)
    ensures StockNonNegative(Restock(products, id, z, delta))
  {
    var r := Restock(products, id, z, delta);
    forall i | 0 <= i < |r|
      ensures r[i].sizes.NonNegative()
    {
      assert products[i].sizes.NonNegative();
    }
  }

  /** Restock never changes ids, so it keeps them unique. */
  lemma RestockKeepsIds(products: seq<Product>, id: Id, z: Size, delta: int)
    ensures forall i :: 0 <= i < |products| ==> Restock(products, id, z, delta)[i].id == products[i].id
    ensures UniqueIds(products) ==> UniqueIds(Restock(products, id, z, delta))
  {
  }

  /** A `-q` update followed by a `+q` update restores every quantity that was at least `q`. */
  lemma RestockRoundTrip(products: seq<Product>, id: Id, z: Size, q: int)
    requires forall i :: 0 <= i < |products| && products[i].id == id ==>
               0 <= products[i].sizes.Get(z) && q <= products[i].sizes.Get(z)
    ensures Restock(Restock(products, id, z, -q), id, z, q) == products
  {
    var once := Restock(products, id, z, -q);
    var twice := Restock(once, id, z, q);
    forall i | 0 <= i < |products|
      ensures twice[i] == products[i]
    {
      if products[i].id == id {
        var s := products[i].sizes;
        assert once[i].sizes == s.Set(z, s.Get(z) - q);
        assert twice[i].sizes == s.Set(z, s.Get(z) - q).Set(z, s.Get(z));
        assert s.Set(z, s.Get(z) - q).Set(z, s.Get(z)) == s by {
          match z
          case PP => case P => case M => case G => case GG => case XG =>
        }
      }
    }
  }

  /** The store: `products` and `sales` are replaced by each operation. */
  class Store {
    var products: seq<Product>
    var sales: seq<Sale>
    /** The next identifier to hand out (the model of `Date.now().toString()`). */
    var nextId: Id

    /** Every id in use was handed out before `nextId`. */
    ghost predicate IdsIssued()
      reads this
    {
      && (forall p :: p in products ==> p.id < nextId)
      && (forall s :: s in sales ==> s.id < nextId)
    }

    constructor ()
      ensures products == [] && sales == []
      ensures IdsIssued()
    {
      products := [];
      sales := [];
      nextId := 0;
    }

    /** Appends one product with a fresh id and the given fields. */
    method AddProduct(data: ProductData, now: Day)
      modifies this
      ensures products == old(products) + [NewProduct(data, old(nextId), now)]
      ensures sales == old(sales) && nextId == old(nextId) + 1
      ensures old(IdsIssued()) ==> IdsIssued() && forall p :: p in old(products) ==> p.id != old(nextId)
      ensures old(IdsIssued()) && UniqueIds(old(products)) ==> UniqueIds(products)
      ensures StockNonNegative(old(products)) && data.sizes.NonNegative() ==> StockNonNegative(products)
    {
      products := products + [NewProduct(data, nextId, now)];
      nextId := nextId + 1;
    }

    /** Patches every product carrying `id`; nothing else changes. */
    method UpdateProduct(id: Id, patch: ProductPatch)
      modifies this
      ensures products == UpdateProducts(old(products), id, patch)
      ensures sales == old(sales) && nextId == old(nextId)
      ensures old(IdsIssued()) && patch.id.None? ==> IdsIssued()
      ensures UniqueIds(old(products)) && patch.id.None? ==> UniqueIds(products)
      ensures StockNonNegative(old(products)) && (patch.sizes.Some? ==> patch.sizes.value.NonNegative())
              ==> StockNonNegative(products)
    {
      var before := products;
      products := UpdateProducts(products, id, patch);
      if patch.id.None? && UniqueIds(before) {
        UpdateProductsKeepsIdsUnique(before, id, patch);
      }
      assert forall p :: p in products ==> exists i :: 0 <= i < |before| && p == UpdateProducts(before, id, patch)[i];
    }

    /** Removes every product carrying `id`; the others keep their order. */
    method DeleteProduct(id: Id)
      modifies this
      ensures products == WithoutProduct(old(products), id)
      ensures sales == old(sales) && nextId == old(nextId)
      ensures old(IdsIssued()) ==> IdsIssued()
      ensures UniqueIds(old(products)) ==> UniqueIds(products)
      ensures StockNonNegative(old(products)) ==> StockNonNegative(products)
    {
      WithoutProductMembers(products, id);
      if UniqueIds(products) {
        WithoutProductKeepsIdsUnique(products, id);
      }
      products := WithoutProduct(products, id);
    }

    /** Writes `max(0, old + delta)` into slot `z` of every product carrying `id`. */
    method UpdateProductStock(id: Id, z: Size, delta: int)
      modifies this
      ensures products == Restock(old(products), id, z, delta)
      ensures sales == old(sales) && nextId == old(nextId)
      ensures old(IdsIssued()) ==> IdsIssued()
      ensures UniqueIds(old(products)) ==> UniqueIds(products)
      ensures StockNonNegative(old(products)) ==> StockNonNegative(products)
    {
      var before := products;
      products := Restock(products, id, z, delta);
      RestockKeepsIds(before, id, z, delta);
      if StockNonNegative(before) {
        RestockKeepsNonNegative(before, id, z, delta);
      }
      assert forall p :: p in products ==> exists i :: 0 <= i < |before| && p == products[i] && p.id == before[i].id;
    }

    /** The `setSales` half of `addSale`: the sale joins the ledger under a fresh id. */
    method AppendSale(data: SaleData, now: Day)
      modifies this
      ensures sales == old(sales) + [NewSale(data, old(nextId), now)]
      ensures products == old(products) && nextId == old(nextId) + 1
      ensures old(IdsIssued()) ==> IdsIssued()
    {
      sales := sales + [NewSale(data, nextId, now)];
      nextId := nextId + 1;
    }

    /** Appends the sale with a fresh id, then takes its quantity off the sold size. */
    method AddSale(data: SaleData, now: Day)
      modifies this
      ensures sales == old(sales) + [NewSale(data, old(nextId), now)]
      ensures products == Restock(old(products), data.productId, data.size, -data.quantity)
      ensures nextId == old(nextId) + 1
      ensures old(IdsIssued()) ==> IdsIssued()
      ensures UniqueIds(old(products)) ==> UniqueIds(products)
      ensures StockNonNegative(old(products)) ==> StockNonNegative(products)
    {
      AppendSale(data, now);
      UpdateProductStock(data.productId, data.size, -data.quantity);
    }
  }
}
