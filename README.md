# Product store and handlers, modelled in Dafny

This project models the core of a small CRUD API for a "product" resource
served from a serverless function: the in-memory product store
`FakeDataBaseManager`, the request handlers that sit on top of it, the
product record shapes and the typed API failures.

- `schemas.dfy` (module `Schemas`): `Product` (an id plus four nullable
  business fields), `ProductCreate` (four required non-null fields),
  `ProductPartialUpdate` (four three-state fields: unset, set to a value,
  set to null) and the merge that `copy(update=dict(exclude_unset=True))`
  performs. `ProductBase` is not a separate type: its four optional fields,
  defaulting to `None`, appear as the `Option` fields of `Product` and as the
  `Patch` fields of `ProductPartialUpdate` (unset means the default).
- `exceptions.dfy` (module `Exceptions`): `ApiException(statusCode, code,
  description)` as a datatype; `EntityNotFoundException` as the subset type
  of it whose status code is 404, so every not-found failure is an API
  failure by its type.
- `orm.dfy` (module `Orm`): the store as a class over `seq<Product>` whose
  methods change the list in place as the source does (append, slot
  assignment, removal), with the class invariant that ids are unique. The
  linear scan is specified once, by `IndexOfId` (first index whose id
  matches); the list comprehension of `get_product` and Python's
  `list.remove` are modelled as written and proved to agree with it.
- `products_router.dfy` (module `ProductsRouter`): one method per handler,
  returning `Returned(value)`, `Raised(ApiException)` or `Crashed(fault)`
  for a store exception that nothing catches.
- `format.dfy` (module `Format`): Python's `str(int)`, used in the 404
  descriptions, with the round trip that shows the description names the id.
- `wrappers.dfy`: `Option` and `Result`.

Three behaviours of the store are easy to misread:
- Deleting an id that is not stored is not a silent no-op. The loop binds
  `product_del` only on a match, so the `if product_del:` that follows
  raises `UnboundLocalError`, and the handler passes that on as a server
  error (`Fault.UnboundProductDel`). The list is left unchanged.
- Adding to an empty store has no fallback id: `max` of an empty list
  raises `ValueError` (`Fault.MaxOfEmptySequence`).
- A partial update that sets a field to `null` does overwrite it with
  `None`: `exclude_unset` drops only fields the request left out.

The store's returned objects are pydantic models, which are always truthy,
so the handlers' `if not product` tests are modelled as `None` tests.

## Model

| member | source | states |
|---|---|---|
| `Schemas.Merge` | func/orm/__init__.py:117-119 | the merged product keeps the id; every field the update set (null included) takes the update's value, every unset field keeps the stored value |
| `Schemas.FromCreate` | func/orm/__init__.py:103 | the stored product carries the given id and the payload's title, description and both prices, none of them null |
| `Schemas.ProductPartialUpdate.SetFields` | func/routers/products.py:68 | a field is among the keys of `dict(exclude_unset=True)` exactly when the request set it, null included |
| `Schemas.Patch.ApplyTo` | func/orm/__init__.py:119 | a set field yields the update's value (null included), an unset field yields the current value |
| `Schemas.NoSetFieldsIffNothingSet` | func/schemas.py:39-43 | an update has no explicitly set field exactly when all four of its fields are unset |
| `Schemas.MergeNothingIsIdentity` | func/orm/__init__.py:118-119 | merging an update that sets nothing gives back the stored product |
| `Schemas.MergeIdempotent` | func/orm/__init__.py:118-119 | applying the same partial update twice equals applying it once |
| `Exceptions.EntityNotFound` | func/utilities/exceptions.py:18-29 | the not-found failure is an `ApiException` with status 404 that keeps the code and description passed to it |
| `Format.NatToDecimal` | func/routers/products.py:52 | the id in the description is written as at least one decimal digit, with no leading zero, and a one-digit number (0 included, as "0") as exactly one digit |
| `Format.DecimalRoundTrip` | func/routers/products.py:52 | reading back the digits written for `n` gives `n` |
| `Format.IntToDecimal` | func/routers/products.py:52 | the written integer is the digits of a non-negative number, or `-` followed by the digits of the magnitude of a negative one |
| `Format.NatToDecimalInjective` | func/routers/products.py:52 | distinct non-negative integers are written as distinct digit strings |
| `Format.IntToDecimalInjective` | func/routers/products.py:52 | distinct integers are written as distinct strings |
| `Orm.MaxId` | func/orm/__init__.py:101 | `max` of the stored ids is one of the stored ids and is at least every stored id |
| `Orm.IndexOfId` | func/orm/__init__.py:115-116 | the scan returns the first index whose product has the id, and `None` exactly when no stored product has it |
| `Orm.MatchingProducts` | func/orm/__init__.py:112 | the comprehension keeps only products with the requested id |
| `Orm.WithoutId` | func/orm/__init__.py:124-131 | what remains after deleting an id holds no product with that id |
| `Orm.RemoveFirst` | func/orm/__init__.py:131 | `list.remove` shortens the list by exactly one element |
| `Orm.NewProduct` | func/orm/__init__.py:99-106 | adding fails exactly when the store is empty; otherwise the new id is one above a stored id and above every stored id, and title, description and both prices are the payload's |
| `Orm.MatchingHeadIsFirstMatch` | func/orm/__init__.py:111-112 | the head of the comprehension, or `None` when it is empty, is the first stored product with the id |
| `Orm.LookupFindsStored` | func/orm/__init__.py:111-112 | with unique ids, lookup returns `p` exactly when `p` is stored and carries the id |
| `Orm.RemoveFirstAt` | func/orm/__init__.py:125-131 | removing the first product with the id by value removes exactly the slot the scan stopped at |
| `Orm.RemoveAtIndexOfId` | func/orm/__init__.py:124-131 | with unique ids, removing that slot removes every product with the id, keeps the others in order and keeps ids unique |
| `Orm.UniqueIdsAfterRemoveAt` | func/orm/__init__.py:131 | removing one entry from a list with unique ids leaves the ids unique |
| `Orm.WithoutIdUnchanged` | func/orm/__init__.py:124-131 | filtering out an id no product carries changes nothing |
| `Orm.FakeDataBaseManager.constructor` | func/orm/__init__.py:72-97 | a new store holds exactly the three seed products, ids 1, 2, 3 in that order, and ids are unique |
| `Orm.FakeDataBaseManager.AddProduct` | func/orm/__init__.py:99-106 | returns the product `NewProduct` describes, appended at the end with earlier entries untouched; an empty store is left as it is; ids stay unique |
| `Orm.FakeDataBaseManager.GetProducts` | func/orm/__init__.py:108-109 | returns the stored list as it is |
| `Orm.FakeDataBaseManager.GetProduct` | func/orm/__init__.py:111-112 | returns the first stored product with the id, `None` exactly when no stored product has it, and changes nothing |
| `Orm.FakeDataBaseManager.UpdateProduct` | func/orm/__init__.py:114-122 | when the id is found, replaces that slot only with the merge and returns it, all other entries and the order unchanged; otherwise returns `None` and leaves the list unchanged; ids stay unique |
| `Orm.FakeDataBaseManager.DeleteProduct` | func/orm/__init__.py:124-131 | when the id is found, removes that one entry and keeps the rest in order; otherwise fails with the unbound-local fault and leaves the list unchanged; afterwards no product with the id is stored |
| `ProductsRouter.NotFoundDescription` | func/routers/products.py:52 | the description is the fixed prefix, the id as `str` writes it, and the fixed suffix |
| `ProductsRouter.NotFoundDescriptionNamesId` | func/routers/products.py:52 | different ids give different not-found descriptions |
| `ProductsRouter.AddProduct` | func/routers/products.py:17-28 | returns exactly the product the store adds, or passes on the store's fault on an empty store |
| `ProductsRouter.ReadProducts` | func/routers/products.py:36-39 | returns the stored list, possibly empty, and never fails |
| `ProductsRouter.ReadProduct` | func/routers/products.py:47-53 | returns the found product; when the store finds none, raises a 404 with code "Unable to retrieve product" and the description naming the id; nothing else can happen |
| `ProductsRouter.UpdateProduct` | func/routers/products.py:57-76 | an update with no set field raises 400 "Invalid request" / "Please specify at least one property!" with the store untouched; otherwise a missing id raises 404 "Unable to update product", and a found one returns the merged product the store wrote |
| `ProductsRouter.DeleteProduct` | func/routers/products.py:80-82 | calls the store's delete unconditionally: returns nothing when the id was stored, passes on the store's fault when it was not; afterwards no product with the id is stored |

## Left out

- The application object, router registration and the serverless entry
  point (func/main/__init__.py): framework plumbing.
- The exception handler that copies `code` and `description` into a JSON
  body (func/main/__init__.py): serialisation only; a `Raised` response
  carries exactly the status, code and description it would copy.
- The singleton wiring of `get_db` (func/dependencies.py): the handlers
  take the store as a parameter instead.
- The abstract `DatabaseManagerBase`: the handlers are modelled against its
  single implementation, whose behaviour differs from the interface's
  annotations: `update_product` is declared to return a `Product` but
  returns `None` for a missing id, and `add_product` and `delete_product`
  document no failure but raise one (on an empty store and on a missing id).
- Pydantic's parsing and validation, field documentation and
  `response_model` filtering: the validated shapes are taken as given.
- Prices are floats in the source; they are never computed on and are
  modelled as `real`.
- Logging calls.
- Concurrent access to the shared store: the code has no synchronisation.
- `Orm.FakeDataBaseManager.GetProducts`: returns the list by value; in the
  source the caller receives the store's own list object (aliasing).
