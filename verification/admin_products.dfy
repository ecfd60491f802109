/** The mobile "Manage Products" admin screen (android/app/admin/products.tsx):
    a local copy of the catalog that can lose products and have their stock
    flag flipped, with the three counts shown above the list. */
module AdminProducts {
  import opened Seqs
  import opened Catalog

  /** `prev.filter(p => p.id !== productId)` */
  function WithoutProduct(list: seq<Product>, productId: string): (r: seq<Product>)
    ensures forall p :: p in r ==> p in list && p.id != productId
    ensures forall p :: p in list && p.id != productId ==> p in r
    ensures multiset(r) <= multiset(list)
    ensures forall p :: p in list && p.id != productId ==> multiset(r)[p] == multiset(list)[p]
  {
    FilterCounts(list, (p: Product) => p.id != productId);
    Filter(list, (p: Product) => p.id != productId)
  }

  /** Deleting keeps the other products in their original order. */
  lemma DeleteKeepsOrder(list: seq<Product>, productId: string)
    ensures IsSubsequence(WithoutProduct(list, productId), list)
  {
    FilterIsSubsequence(list, (p: Product) => p.id != productId);
  }

  /** Deleting an id that no product has changes nothing. */
  lemma DeleteAbsentId(list: seq<Product>, productId: string)
    requires forall i :: 0 <= i < |list| ==> list[i].id != productId
    ensures WithoutProduct(list, productId) == list
  {
    FilterKeepsAll(list, (p: Product) => p.id != productId);
  }

  /** `{ ...p, inStock: !p.inStock }` for the matching product. */
  function ToggledIfMatch(p: Product, productId: string): Product {
    if p.id == productId then p.(inStock := !p.inStock) else p
  }

  /** `prev.map(p => p.id === productId ? { ...p, inStock: !p.inStock } : p)` */
  function WithStockToggled(list: seq<Product>, productId: string): (r: seq<Product>)
    ensures |r| == |list|
    ensures forall i :: 0 <= i < |list| && list[i].id == productId ==>
      r[i] == list[i].(inStock := !list[i].inStock)
    ensures forall i :: 0 <= i < |list| && list[i].id != productId ==> r[i] == list[i]
  {
    seq(|list|, i requires 0 <= i < |list| => ToggledIfMatch(list[i], productId))
  }

  /** Toggling the same id twice restores the list. */
  lemma ToggleTwiceRestores(list: seq<Product>, productId: string)
    ensures WithStockToggled(WithStockToggled(list, productId), productId) == list
  {
    var once := WithStockToggled(list, productId);
    var twice := WithStockToggled(once, productId);
    forall i | 0 <= i < |list|
      ensures twice[i] == list[i]
    {
      assert once[i].id == list[i].id;
    }
  }

  function InStockCount(list: seq<Product>): nat {
    |Filter(list, (p: Product) => p.inStock)|
  }

  function OutOfStockCount(list: seq<Product>): nat {
    |Filter(list, (p: Product) => !p.inStock)|
  }

  /** The in-stock and out-of-stock counts add up to the total. */
  lemma CountsAddUp(list: seq<Product>)
    ensures InStockCount(list) + OutOfStockCount(list) == |list|
  {
    FilterPartition(list, (p: Product) => p.inStock, (p: Product) => !p.inStock);
  }

  /** The screen opens on the catalog with 8 products, 7 in stock, 1 out. */
  lemma InitialCounts()
    ensures |Products| == 8 && InStockCount(Products) == 7 && OutOfStockCount(Products) == 1
  {
    OnlyProductFiveOutOfStock();
    CountsAddUp(Products);
  }

  /** Toggling a product that is in the list moves it from one count to the
      other when its id is unique. */
  lemma {:induction false} ToggleMovesOneProduct(list: seq<Product>, k: nat)
    requires k < |list|
    requires forall i :: 0 <= i < |list| && i != k ==> list[i].id != list[k].id
    ensures InStockCount(WithStockToggled(list, list[k].id)) ==
      if list[k].inStock then InStockCount(list) - 1 else InStockCount(list) + 1
  {
    var id := list[k].id;
    var t := WithStockToggled(list, id);
    var inStock := (p: Product) => p.inStock;
    if k == 0 {
      assert t[1..] == list[1..] by {
        forall i | 0 <= i < |list| - 1 ensures t[1..][i] == list[1..][i] {
          assert list[i + 1].id != id;
        }
      }
    } else {
      var rest := list[1..];
      assert list[0].id != id;
      ToggleMovesOneProduct(rest, k - 1);
      assert WithStockToggled(rest, id) == t[1..];
    }
  }

  class AdminProductsScreen {
    var productList: seq<Product>

    constructor ()
      ensures productList == Products
    {
      productList := Products;
    }

    /** `handleDeleteProduct`; `confirmed` is the answer to the "Are you
        sure?" dialog. */
    method HandleDeleteProduct(productId: string, confirmed: bool)
      modifies this
      ensures productList == if confirmed then WithoutProduct(old(productList), productId) else old(productList)
    {
      if confirmed {
        productList := WithoutProduct(productList, productId);
      }
    }

    method HandleToggleStock(productId: string)
      modifies this
      ensures productList == WithStockToggled(old(productList), productId)
    {
      productList := WithStockToggled(productList, productId);
    }
  }
}
