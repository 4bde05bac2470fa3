/**
 * The in-memory product store of func/orm/__init__.py.
 *
 * `FakeDataBaseManager` keeps an ordered list of products and scans it
 * linearly on every lookup. Its list changes in place: `add_product`
 * appends, `update_product` overwrites one slot, `delete_product` removes
 * one element. Two of its operations raise an exception nobody catches:
 * `add_product` on an empty store (`max` of an empty list) and
 * `delete_product` of an id that is not stored (the local `product_del` is
 * read before it was ever bound). The abstract `DatabaseManagerBase` has
 * this class as its only implementation, which departs from the interface's
 * annotations: `update_product` is declared to return a product but returns
 * `None` for a missing id, and `add_product` and `delete_product` document
 * no failure but raise one.
 */
module Orm {
  import opened Wrappers
  import opened Schemas

  /** Python exceptions the store raises and the request handlers do not catch. */
  datatype Fault =
    | MaxOfEmptySequence  // ValueError from max() over an empty list
    | UnboundProductDel   // UnboundLocalError: product_del is bound only when an id matches

  /** The store's invariant: no two stored products share an id. */
  ghost predicate UniqueIds(s: seq<Product>) {
    forall i, j :: 0 <= i < j < |s| ==> s[i].id != s[j].id
  }

  /** `max([p.id for p in s])`: an id that is stored and not below any stored id. */
  function MaxId(s: seq<Product>): (m: int)
    requires |s| > 0
    ensures exists i :: 0 <= i < |s| && s[i].id == m
    ensures forall i :: 0 <= i < |s| ==> s[i].id <= m
  {
    if |s| == 1 then s[0].id
    else
      var rest := MaxId(s[1..]);
      assert forall i :: 0 <= i < |s| - 1 ==> s[1..][i] == s[i + 1];
      if s[0].id >= rest then s[0].id else rest
  }

  /** The linear scan: the index of the first stored product with this id, if any. */
  function IndexOfId(s: seq<Product>, id: int): (r: Option<nat>)
    ensures r.Some? ==> r.value < |s| && s[r.value].id == id
    ensures r.Some? ==> forall j :: 0 <= j < r.value ==> s[j].id != id
    ensures r.None? <==> forall j :: 0 <= j < |s| ==> s[j].id != id
  {
    if |s| == 0 then None
    else if s[0].id == id then Some(0)
    else match IndexOfId(s[1..], id)
      case None => None
      case Some(k) => Some(k + 1)
  }

  /** The first stored product with this id, or `None`. */
  function Lookup(s: seq<Product>, id: int): (r: Option<Product>) {
    match IndexOfId(s, id)
    case None => None
    case Some(k) => Some(s[k])
  }

  /** `[p for p in s if p.id == id]`. */
  function MatchingProducts(s: seq<Product>, id: int): (r: seq<Product>)
    ensures |r| <= |s|
    ensures forall i :: 0 <= i < |r| ==> r[i].id == id
  {
    if |s| == 0 then []
    else (if s[0].id == id then [s[0]] else []) + MatchingProducts(s[1..], id)
  }

  /**
   * Reference definition of what a delete leaves behind: every product
   * without this id, in order. With unique ids it equals removing the slot
   * the scan finds (`RemoveAtIndexOfId`).
   */
  function WithoutId(s: seq<Product>, id: int): (r: seq<Product>)
    ensures |r| <= |s|
    ensures forall i :: 0 <= i < |r| ==> r[i].id != id
  {
    if |s| == 0 then []
    else (if s[0].id != id then [s[0]] else []) + WithoutId(s[1..], id)
  }

  /** `list.remove(x)`: the list without its first element equal to `x`. */
  function RemoveFirst(s: seq<Product>, x: Product): (r: seq<Product>)
    requires x in s
    ensures |r| == |s| - 1
  {
    if s[0] == x then s[1..] else [s[0]] + RemoveFirst(s[1..], x)
  }

  /**
   * What `add_product` does on the list `s`: fail when `s` is empty, else
   * the payload under the id `max + 1`, which is above every stored id.
   */
  function NewProduct(s: seq<Product>, payload: ProductCreate): (r: Result<Product, Fault>)
    ensures r.Failure? <==> s == []
    ensures r.Failure? ==> r.error == MaxOfEmptySequence
    ensures r.Success? ==> exists i :: 0 <= i < |s| && s[i].id == r.value.id - 1
    ensures r.Success? ==> forall i :: 0 <= i < |s| ==> s[i].id < r.value.id
    ensures r.Success? ==> r.value.title == Some(payload.title)
    ensures r.Success? ==> r.value.description == Some(payload.description)
    ensures r.Success? ==> r.value.purchPrice == Some(payload.purchPrice)
    ensures r.Success? ==> r.value.salesPrice == Some(payload.salesPrice)
  {
    if s == [] then Failure(MaxOfEmptySequence) else Success(FromCreate(MaxId(s) + 1, payload))
  }

  /** The three products every new store starts with. */
  const SeedProducts: seq<Product> := [
    Product(1, Some("Product 1"), Some("Desc 1"), Some(10.0), Some(20.0)),
    Product(2, Some("Product 2"), Some("Desc 2"), Some(20.0), Some(30.0)),
    Product(3, Some("Product 3"), Some("Desc 3"), Some(40.0), Some(65.0))
  ]

  /** The comprehension `get_product` takes the head of finds the same product as the scan. */
  lemma {:induction false} MatchingHeadIsFirstMatch(s: seq<Product>, id: int)
    ensures match IndexOfId(s, id)
      case None => MatchingProducts(s, id) == []
      case Some(k) => MatchingProducts(s, id) != [] && MatchingProducts(s, id)[0] == s[k]
  {
    if |s| > 0 && s[0].id != id {
      MatchingHeadIsFirstMatch(s[1..], id);
    }
  }

  /** With unique ids, the lookup finds `p` exactly when `p` is stored under that id. */
  lemma LookupFindsStored(s: seq<Product>, id: int, p: Product)
    requires UniqueIds(s)
    ensures Lookup(s, id) == Some(p) <==> p in s && p.id == id
  {
  }

  /** `list.remove` of the first product with an id removes exactly that slot. */
  lemma {:induction false} RemoveFirstAt(s: seq<Product>, k: nat)
    requires k < |s|
    requires forall j :: 0 <= j < k ==> s[j] != s[k]
    ensures RemoveFirst(s, s[k]) == s[..k] + s[k + 1..]
  {
    if k > 0 {
      assert s[1..][k - 1] == s[k];
      RemoveFirstAt(s[1..], k - 1);
      assert s[..k] + s[k + 1..] == [s[0]] + (s[1..][..k - 1] + s[1..][k..]);
    }
  }

  /**
   * With unique ids, removing the slot the scan finds removes every product
   * with that id and keeps all others in their order; ids stay unique.
   */
  lemma {:induction false} RemoveAtIndexOfId(s: seq<Product>, id: int, k: nat)
    requires UniqueIds(s)
    requires IndexOfId(s, id) == Some(k)
    ensures s[..k] + s[k + 1..] == WithoutId(s, id)
    ensures UniqueIds(s[..k] + s[k + 1..])
  {
    var t := s[..k] + s[k + 1..];
    if k == 0 {
      assert forall j :: 0 <= j < |s| - 1 ==> s[1..][j].id != id;
      WithoutIdUnchanged(s[1..], id);
    } else {
      assert IndexOfId(s[1..], id) == Some(k - 1);
      assert UniqueIds(s[1..]) by {
        forall i, j | 0 <= i < j < |s| - 1 ensures s[1..][i].id != s[1..][j].id {
          assert s[1..][i] == s[i + 1] && s[1..][j] == s[j + 1];
        }
      }
      RemoveAtIndexOfId(s[1..], id, k - 1);
      assert t == [s[0]] + (s[1..][..k - 1] + s[1..][k..]);
    }
    UniqueIdsAfterRemoveAt(s, k);
  }

  /** Removing one slot from a list with unique ids leaves the ids unique. */
  lemma UniqueIdsAfterRemoveAt(s: seq<Product>, k: nat)
    requires UniqueIds(s) && k < |s|
    ensures UniqueIds(s[..k] + s[k + 1..])
  {
    var t := s[..k] + s[k + 1..];
    forall i, j | 0 <= i < j < |t| ensures t[i].id != t[j].id {
      var i' := if i < k then i else i + 1;
      var j' := if j < k then j else j + 1;
      assert t[i] == s[i'] && t[j] == s[j'] && i' < j';
    }
  }

  /** Filtering out an id that no product carries changes nothing. */
  lemma {:induction false} WithoutIdUnchanged(s: seq<Product>, id: int)
    requires forall j :: 0 <= j < |s| ==> s[j].id != id
    ensures WithoutId(s, id) == s
  {
    if |s| > 0 {
      WithoutIdUnchanged(s[1..], id);
    }
  }

  /** The list-backed product table. */
  class FakeDataBaseManager {
    /** `self._products`, in insertion order. */
    var products: seq<Product>

    ghost predicate Valid()
      reads this
    {
      UniqueIds(products)
    }

    /** A new store holds the three seed products, ids 1, 2 and 3 in that order. */
    constructor ()
      ensures Valid()
      ensures products == SeedProducts
      ensures |products| == 3 && products[0].id == 1 && products[1].id == 2 && products[2].id == 3
    {
      products := SeedProducts;
    }

    /** `add_product`: append the payload under the id `max + 1`; fails on an empty store. */
    method AddProduct(payload: ProductCreate) returns (r: Result<Product, Fault>)
      requires Valid()
      modifies this
      ensures Valid()
      ensures r == NewProduct(old(products), payload)
      ensures products == if r.Success? then old(products) + [r.value] else old(products)
    {
      if |products| == 0 {
        return Failure(MaxOfEmptySequence);
      }
      var idx := MaxId(products) + 1;
      var inserted := FromCreate(idx, payload);
      products := products + [inserted];
      r := Success(inserted);
    }

    /** `get_products`: the whole list, possibly empty. */
    method GetProducts() returns (r: seq<Product>)
      ensures r == products
    {
      r := products;
    }

    /** `get_product`: the first product with this id, or `None`; the store is only read. */
    method GetProduct(id: int) returns (r: Option<Product>)
      ensures r == Lookup(products, id)
      ensures r.Some? ==> r.value in products && r.value.id == id
      ensures r.None? <==> forall p :: p in products ==> p.id != id
    {
      var matches := MatchingProducts(products, id);
      MatchingHeadIsFirstMatch(products, id);
      r := if matches == [] then None else Some(matches[0]);
    }

    /**
     * `update_product`: merge the set fields into the first product with this
     * id, in its slot, and return it; `None` and no change when the id is absent.
     */
    method UpdateProduct(id: int, update: ProductPartialUpdate) returns (r: Option<Product>)
      requires Valid()
      modifies this
      ensures Valid()
      ensures match IndexOfId(old(products), id)
        case None => r == None && products == old(products)
        case Some(k) =>
          r == Some(Merge(old(products)[k], update)) && products == old(products)[k := r.value]
    {
      var i := 0;
      while i < |products|
        invariant 0 <= i <= |products|
        invariant products == old(products)
        invariant forall j :: 0 <= j < i ==> products[j].id != id
      {
        if products[i].id == id {
          var updated := Merge(products[i], update);
          products := products[i := updated];
          return Some(updated);
        }
        i := i + 1;
      }
      return None;
    }

    /**
     * `delete_product`: remove the first product with this id, keeping the
     * others in order; with no such product it raises instead, leaving the
     * list as it was. Either way no product with this id is left.
     */
    method DeleteProduct(id: int) returns (r: Result<(), Fault>)
      requires Valid()
      modifies this
      ensures Valid()
      ensures match IndexOfId(old(products), id)
        case None => r == Failure(UnboundProductDel) && products == old(products)
        case Some(k) => r == Success(()) && products == old(products)[..k] + old(products)[k + 1..]
      ensures products == WithoutId(old(products), id)
      ensures Lookup(products, id) == None
    {
      var productDel: Option<Product> := None;  // None while the local is unbound
      var i := 0;
      while i < |products|
        invariant 0 <= i <= |products|
        invariant productDel == None
        invariant forall j :: 0 <= j < i ==> products[j].id != id
      {
        if products[i].id == id {
          productDel := Some(products[i]);
          break;
        }
        i := i + 1;
      }
      if productDel == None {
        WithoutIdUnchanged(products, id);
        return Failure(UnboundProductDel);
      }
      RemoveFirstAt(products, i);
      RemoveAtIndexOfId(products, id, i);
      products := RemoveFirst(products, productDel.value);
      r := Success(());
    }
  }
}
