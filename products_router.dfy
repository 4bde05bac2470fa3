/**
 * The request handlers of func/routers/products.py.
 *
 * Each handler calls the store and decides the response: the value it
 * returns, an `ApiException` it raises (which the boundary turns into an
 * HTTP status with a `{code, description}` body), or an exception from the
 * store that nothing catches.
 */
module ProductsRouter {
  import opened Wrappers
  import opened Schemas
  import opened Exceptions
  import opened Format
  import opened Orm

  /** How a handler ends. */
  datatype Response<T> =
    | Returned(value: T)
    | Raised(error: ApiException)
    | Crashed(fault: Fault)

  const RetrieveFailedCode := "Unable to retrieve product"
  const UpdateFailedCode := "Unable to update product"
  const InvalidRequestCode := "Invalid request"
  const NoPropertyDescription := "Please specify at least one property!"

  /** `f"Product with the id {product_id} does not exist"`. */
  function NotFoundDescription(id: int): (d: string)
    ensures |d| == 35 + |IntToDecimal(id)|
    ensures d[..20] == "Product with the id "
    ensures d[20..|d| - 15] == IntToDecimal(id)
    ensures d[|d| - 15..] == " does not exist"
  {
    "Product with the id " + IntToDecimal(id) + " does not exist"
  }

  /** The not-found description names the id: two ids never share one. */
  lemma NotFoundDescriptionNamesId(a: int, b: int)
    requires NotFoundDescription(a) == NotFoundDescription(b)
    ensures a == b
  {
    IntToDecimalInjective(a, b);
  }

  /** POST /products/: pass on what the store's `add_product` produces. */
  method AddProduct(db: FakeDataBaseManager, payload: ProductCreate) returns (r: Response<Product>)
    requires db.Valid()
    modifies db
    ensures db.Valid()
    ensures match NewProduct(old(db.products), payload)
      case Success(p) => r == Returned(p) && db.products == old(db.products) + [p]
      case Failure(f) => r == Crashed(f) && db.products == old(db.products)
  {
    var added := db.AddProduct(payload);
    match added
    case Success(p) => r := Returned(p);
    case Failure(f) => r := Crashed(f);
  }

  /** GET /products/: the stored list as it is, possibly empty; never a failure. */
  method ReadProducts(db: FakeDataBaseManager) returns (r: Response<seq<Product>>)
    ensures r == Returned(db.products)
  {
    var products := db.GetProducts();
    r := Returned(products);
  }

  /** GET /products/{id}: the product, or a 404 naming the id. */
  method ReadProduct(db: FakeDataBaseManager, id: int) returns (r: Response<Product>)
    ensures r.Returned? || r.Raised?
    ensures r.Raised? ==> r.error.statusCode == 404
    ensures match Lookup(db.products, id)
      case None => r == Raised(EntityNotFound(RetrieveFailedCode, NotFoundDescription(id)))
      case Some(p) => r == Returned(p)
  {
    var product := db.GetProduct(id);
    if product == None {
      return Raised(EntityNotFound(RetrieveFailedCode, NotFoundDescription(id)));
    }
    r := Returned(product.value);
  }

  /**
   * PATCH /products/{id}: a 400 for a request that sets no field, without
   * touching the store; otherwise the store's merge, or a 404 naming the id.
   */
  method UpdateProduct(db: FakeDataBaseManager, id: int, update: ProductPartialUpdate)
    returns (r: Response<Product>)
    requires db.Valid()
    modifies db
    ensures db.Valid()
    ensures update.SetFields() == {} ==>
      r == Raised(ApiException(BadRequest, InvalidRequestCode, NoPropertyDescription)) &&
      db.products == old(db.products)
    ensures update.SetFields() != {} ==> match IndexOfId(old(db.products), id)
      case None =>
        r == Raised(EntityNotFound(UpdateFailedCode, NotFoundDescription(id))) &&
        db.products == old(db.products)
      case Some(k) =>
        r == Returned(Merge(old(db.products)[k], update)) &&
        db.products == old(db.products)[k := r.value]
  {
    if |update.SetFields()| == 0 {
      return Raised(ApiException(BadRequest, InvalidRequestCode, NoPropertyDescription));
    }
    var product := db.UpdateProduct(id, update);
    if product == None {
      return Raised(EntityNotFound(UpdateFailedCode, NotFoundDescription(id)));
    }
    r := Returned(product.value);
  }

  /** DELETE /products/{id}: call the store's delete and return nothing. */
  method DeleteProduct(db: FakeDataBaseManager, id: int) returns (r: Response<()>)
    requires db.Valid()
    modifies db
    ensures db.Valid()
    ensures match IndexOfId(old(db.products), id)
      case None => r == Crashed(UnboundProductDel) && db.products == old(db.products)
      case Some(k) => r == Returned(()) && db.products == old(db.products)[..k] + old(db.products)[k + 1..]
    ensures Lookup(db.products, id) == None
  {
    var deleted := db.DeleteProduct(id);
    match deleted
    case Success(_) => r := Returned(());
    case Failure(f) => r := Crashed(f);
  }

  /** Creating, listing and deleting on a fresh store, with the responses they get. */
  method CreateAndDeleteScenario() {
    var db := new FakeDataBaseManager();
    var listed := ReadProducts(db);
    assert listed == Returned(SeedProducts);

    var created := AddProduct(db, ProductCreate("P4", "D", 1.0, 2.0));
    assert created.Returned? && created.value.id == 4;
    listed := ReadProducts(db);
    assert |listed.value| == 4;

    assert db.products[1].id == 2;
    var gone := DeleteProduct(db, 2);
    assert gone == Returned(());
    var got := ReadProduct(db, 2);
    assert got.Raised? && got.error.statusCode == 404 && got.error.code == RetrieveFailedCode;
    listed := ReadProducts(db);
    assert |listed.value| == 3 && listed.value[0].id == 1 && listed.value[1].id == 3;

    // Deleting a missing id is not a no-op in this store: it crashes.
    gone := DeleteProduct(db, 2);
    assert gone == Crashed(UnboundProductDel);
  }

  /** Partial updates on a fresh store, with the responses they get. */
  method UpdateScenario() {
    var db := new FakeDataBaseManager();

    // An empty request body is refused before the store is asked.
    var patched := UpdateProduct(db, 99, NothingSet);
    assert patched.Raised? && patched.error.statusCode == 400;

    // Changing only the title keeps the other fields.
    patched := UpdateProduct(db, 1, ProductPartialUpdate(Set(Some("X")), Unset, Unset, Unset));
    assert patched.Returned? && patched.value.title == Some("X");
    assert patched.value.description == Some("Desc 1") && patched.value.salesPrice == Some(20.0);
  }
}
