/**
 * The product shapes of func/schemas.py.
 *
 * `ProductBase` declares four business fields, each optional and
 * defaulting to `None`. `Product` adds the store-assigned `id`;
 * `ProductCreate` makes all four fields required and non-null;
 * `ProductPartialUpdate` keeps them optional, and what matters about it is
 * which fields the request set explicitly (`dict(exclude_unset=True)`),
 * so each of its fields is three-valued: unset, set to a value, set to null.
 */
module Schemas {
  import opened Wrappers

  /** Prices are floats in the source; nothing computes on them. */
  type Price = real

  /** The four business fields shared by every product shape. */
  datatype Field = Title | Description | PurchPrice | SalesPrice

  /** The value of one business field, null being `None`. */
  datatype FieldValue = Text(text: Option<string>) | Amount(amount: Option<Price>)

  /** A stored product: the base fields (each may be null) plus a required id. */
  datatype Product = Product(
    id: int,
    title: Option<string>,
    description: Option<string>,
    purchPrice: Option<Price>,
    salesPrice: Option<Price>)
  {
    /** Attribute access by field name. */
    function Get(f: Field): (v: FieldValue) {
      match f
      case Title => Text(title)
      case Description => Text(description)
      case PurchPrice => Amount(purchPrice)
      case SalesPrice => Amount(salesPrice)
    }
  }

  /** The create payload: all four fields present and non-null, no id. */
  datatype ProductCreate = ProductCreate(
    title: string,
    description: string,
    purchPrice: Price,
    salesPrice: Price)

  /** One field of a partial update: left out of the request, or set (possibly to null). */
  datatype Patch<T> = Unset | Set(value: Option<T>)
  {
    /** The field after the update: the set value, or `current` when unset. */
    function ApplyTo(current: Option<T>): (r: Option<T>)
      ensures Unset? ==> r == current
      ensures Set? ==> r == value
    {
      if Set? then value else current
    }
  }

  /** The partial-update payload: the same four fields, no id. */
  datatype ProductPartialUpdate = ProductPartialUpdate(
    title: Patch<string>,
    description: Patch<string>,
    purchPrice: Patch<Price>,
    salesPrice: Patch<Price>)
  {
    /** The keys of `dict(exclude_unset=True)`: the fields the request set. */
    function SetFields(): (keys: set<Field>)
      ensures Title in keys <==> title.Set?
      ensures Description in keys <==> description.Set?
      ensures PurchPrice in keys <==> purchPrice.Set?
      ensures SalesPrice in keys <==> salesPrice.Set?
    {
      (if title.Set? then {Title} else {}) +
      (if description.Set? then {Description} else {}) +
      (if purchPrice.Set? then {PurchPrice} else {}) +
      (if salesPrice.Set? then {SalesPrice} else {})
    }

    /** The value `dict(exclude_unset=True)` holds for a set field. */
    function Get(f: Field): (v: FieldValue)
      requires f in SetFields()
    {
      match f
      case Title => Text(title.value)
      case Description => Text(description.value)
      case PurchPrice => Amount(purchPrice.value)
      case SalesPrice => Amount(salesPrice.value)
    }
  }

  /** A partial update whose request body set no field at all (`{}`). */
  const NothingSet := ProductPartialUpdate(Unset, Unset, Unset, Unset)

  /** `Product(id=idx, **product.dict())`: a create payload with an id attached. */
  function FromCreate(id: int, payload: ProductCreate): (p: Product)
    ensures p.id == id
    ensures p.title == Some(payload.title) && p.description == Some(payload.description)
    ensures p.purchPrice == Some(payload.purchPrice) && p.salesPrice == Some(payload.salesPrice)
  {
    Product(id, Some(payload.title), Some(payload.description),
            Some(payload.purchPrice), Some(payload.salesPrice))
  }

  /**
   * `db_product.copy(update=product.dict(exclude_unset=True))`: every field the
   * update set (null included) is overwritten, every other field and the id
   * are kept.
   */
  function Merge(p: Product, update: ProductPartialUpdate): (r: Product)
    ensures r.id == p.id
    ensures forall f :: r.Get(f) == if f in update.SetFields() then update.Get(f) else p.Get(f)
  {
    Product(p.id,
            update.title.ApplyTo(p.title),
            update.description.ApplyTo(p.description),
            update.purchPrice.ApplyTo(p.purchPrice),
            update.salesPrice.ApplyTo(p.salesPrice))
  }

  /** A request sets no field exactly when every one of its fields is unset. */
  lemma NoSetFieldsIffNothingSet(update: ProductPartialUpdate)
    ensures update.SetFields() == {} <==> update == NothingSet
  {
  }

  /** Merging an update that sets nothing leaves the product as it was. */
  lemma MergeNothingIsIdentity(p: Product)
    ensures Merge(p, NothingSet) == p
  {
  }

  /** Applying the same partial update twice is the same as applying it once. */
  lemma MergeIdempotent(p: Product, update: ProductPartialUpdate)
    ensures Merge(Merge(p, update), update) == Merge(p, update)
  {
  }
}
