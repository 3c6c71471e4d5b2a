/**
 * The product screen: the product form, its validation and the product
 * record it builds, the add-or-update dispatch, loading a product into the
 * form for editing, and the confirmed delete.
 */
module ProductManagement {
  import opened Types
  import opened StoreContext

  /** The six quantity fields of the form, None while a field is empty. */
  datatype SizeFields = SizeFields(pp: Option<int>, p: Option<int>, m: Option<int>,
                                   g: Option<int>, gg: Option<int>, xg: Option<int>)
  {
    function Get(z: Size): Option<int>
    {
      match z
      case PP => pp
      case P => p
      case M => m
      case G => g
      case GG => gg
      case XG => xg
    }
  }

  /** The form's `formData`: name and description as typed, price None while empty. */
  datatype ProductFormData = ProductFormData(
    name: string,
    description: string,
    price: Option<real>,
    sizes: SizeFields)

  const EmptySizeFields := SizeFields(None, None, None, None, None, None)

  /** The form as first shown and after `resetForm`: every field empty. */
  const EmptyProductForm := ProductFormData("", "", None, EmptySizeFields)

  /** `parseInt(field) || 0` for each size: an empty field counts as 0. */
  function ParseSizes(f: SizeFields): (s: Sizes)
    ensures forall z :: s.Get(z) == f.Get(z).GetOr(0)
  {
    Sizes(f.pp.GetOr(0), f.p.GetOr(0), f.m.GetOr(0), f.g.GetOr(0), f.gg.GetOr(0), f.xg.GetOr(0))
  }

  /** The quantities written back into the fields (`qty.toString()`), none of them empty. */
  function SizeFieldsOf(s: Sizes): (f: SizeFields)
    ensures forall z :: f.Get(z) == Some(s.Get(z))
  {
    SizeFields(Some(s.pp), Some(s.p), Some(s.m), Some(s.g), Some(s.gg), Some(s.xg))
  }

  /** Reading back the quantities the form was filled with gives the same quantities. */
  lemma ParseSizesOfFields(s: Sizes)
    ensures ParseSizes(SizeFieldsOf(s)) == s
  {
  }

  datatype FormError = NameOrPriceMissing

  /**
   * The check and the `productData` of `handleSubmit`: name and price are
   * required; the record carries no image.
   */
  function BuildProductData(form: ProductFormData): Result<ProductData, FormError>
  {
    if form.name == [] || form.price.None? then Failure(NameOrPriceMissing)
    else Success(ProductData(form.name, form.description, form.price.value, None, ParseSizes(form.sizes)))
  }

  /**
   * The form is refused exactly when the name or the price is empty; an
   * accepted form yields its name, description and price, no image, and each
   * size's typed quantity or 0.
   */
  lemma BuildProductDataSpec(form: ProductFormData)
    ensures BuildProductData(form).Failure? <==> form.name == [] || form.price.None?
    ensures BuildProductData(form).Success? ==>
              var d := BuildProductData(form).value;
              && d.name == form.name && d.description == form.description
              && Some(d.price) == form.price && d.image.None?
              && forall z :: d.sizes.Get(z) == form.sizes.Get(z).GetOr(0)
  {
  }

  /** `handleEdit`'s form contents: the product's fields as typed values. */
  function EditForm(p: Product): ProductFormData
  {
    ProductFormData(p.name, p.description, Some(p.price), SizeFieldsOf(p.sizes))
  }

  /**
   * `productData` passed to `updateProduct`, read as a partial product: it
   * carries name, description, price and sizes, and neither id, image nor
   * creation day, which the product therefore keeps.
   */
  function PatchOf(d: ProductData): ProductPatch
  {
    ProductPatch(None, Some(d.name), Some(d.description), Some(d.price), d.image, Some(d.sizes), None)
  }

  /** Loading a named product into the form and submitting it unchanged gives back its own fields. */
  lemma EditSubmitRoundTrip(p: Product)
    requires p.name != []
    ensures BuildProductData(EditForm(p)) == Success(ProductData(p.name, p.description, p.price, None, p.sizes))
    ensures ApplyPatch(p, PatchOf(BuildProductData(EditForm(p)).value)) == p
  {
    ParseSizesOfFields(p.sizes);
  }

  /**
   * Saving an edit without changing any field leaves a catalogue whose ids
   * are unique exactly as it was.
   */
  lemma UnchangedEditKeepsCatalogue(products: seq<Product>, p: Product)
    requires UniqueIds(products) && p in products && p.name != []
    ensures UpdateProducts(products, p.id, PatchOf(BuildProductData(EditForm(p)).value)) == products
  {
    EditSubmitRoundTrip(p);
    var patch := PatchOf(BuildProductData(EditForm(p)).value);
    var r := UpdateProducts(products, p.id, patch);
    var k :| 0 <= k < |products| && products[k] == p;
    forall i | 0 <= i < |products|
      ensures r[i] == products[i]
    {
      if products[i].id == p.id {
        assert i == k;
      }
    }
  }

  /** The product screen's state: the form and the id of the product being edited, if any. */
  class ProductForm {
    var formData: ProductFormData
    var isEditing: Option<Id>

    constructor ()
      ensures formData == EmptyProductForm && isEditing.None?
    {
      formData := EmptyProductForm;
      isEditing := None;
    }

    /** `resetForm`: empty fields, nothing being edited. */
    method ResetForm()
      modifies this
      ensures formData == EmptyProductForm && isEditing.None?
    {
      formData := EmptyProductForm;
      isEditing := None;
    }

    /**
     * `handleSubmit`: a refused form changes nothing; an accepted one updates
     * the product being edited, or adds a new product, then resets the form.
     */
    method HandleSubmit(store: Store, now: Day) returns (r: Result<ProductData, FormError>)
      modifies this, store
      ensures r == BuildProductData(old(formData))
      ensures r.Failure? ==>
                && formData == old(formData) && isEditing == old(isEditing)
                && store.products == old(store.products) && store.sales == old(store.sales)
                && store.nextId == old(store.nextId)
      ensures r.Success? ==> formData == EmptyProductForm && isEditing.None? && store.sales == old(store.sales)
      ensures r.Success? && old(isEditing).Some? ==>
                && store.products == UpdateProducts(old(store.products), old(isEditing).value, PatchOf(r.value))
                && store.nextId == old(store.nextId)
      ensures r.Success? && old(isEditing).None? ==>
                && store.products == old(store.products) + [NewProduct(r.value, old(store.nextId), now)]
                && store.nextId == old(store.nextId) + 1
      ensures r.Success? && StockNonNegative(old(store.products)) && r.value.sizes.NonNegative() ==>
                StockNonNegative(store.products)
    {
      r := BuildProductData(formData);
      if r.Success? {
        Save(store, r.value, now);
      }
    }

    /** The accepted branch of `handleSubmit`: dispatch on `isEditing`, then `resetForm`. */
    method Save(store: Store, data: ProductData, now: Day)
      modifies this, store
      ensures formData == EmptyProductForm && isEditing.None? && store.sales == old(store.sales)
      ensures old(isEditing).Some? ==>
                && store.products == UpdateProducts(old(store.products), old(isEditing).value, PatchOf(data))
                && store.nextId == old(store.nextId)
      ensures old(isEditing).None? ==>
                && store.products == old(store.products) + [NewProduct(data, old(store.nextId), now)]
                && store.nextId == old(store.nextId) + 1
      ensures StockNonNegative(old(store.products)) && data.sizes.NonNegative() ==> StockNonNegative(store.products)
    {
      if isEditing.Some? {
        store.UpdateProduct(isEditing.value, PatchOf(data));
      } else {
        store.AddProduct(data, now);
      }
      ResetForm();
    }

    /** `handleEdit`: the product's fields fill the form and it becomes the one being edited. */
    method HandleEdit(p: Product)
      modifies this
      ensures formData == EditForm(p) && isEditing == Some(p.id)
    {
      formData := EditForm(p);
      isEditing := Some(p.id);
    }

    /** `handleDelete`: the product is removed only when the user confirms. */
    method HandleDelete(store: Store, id: Id, confirmed: bool)
      modifies store
      ensures confirmed ==> store.products == WithoutProduct(old(store.products), id)
      ensures !confirmed ==> store.products == old(store.products)
      ensures store.sales == old(store.sales) && store.nextId == old(store.nextId)
    {
      if confirmed {
        store.DeleteProduct(id);
      }
    }
  }
}
