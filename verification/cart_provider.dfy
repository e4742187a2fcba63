/**
 The stateful side of `CartProvider` in `useCart.tsx`: the committed cart and
 the copy of it held in the durable store under the cart key, and the three
 mutations that work on a copy of the cart and then commit it to both.
 Each mutation is proved against its step function in CartTransitions.
 */
module CartProviderState {
  import opened CartTransitions

  /** The cart a fresh provider reads from the store: the stored cart, or the
      empty cart when the key is absent. */
  function Load(stored: Option<seq<Product>>): seq<Product>
  {
    match stored
    case Some(items) => items
    case None => []
  }

  /** `items.findIndex(product => product.id === productId)`, and the index
      behind `items.find(...)`: the first index holding the id, or -1. */
  method FindIndexOf(items: seq<Product>, productId: int) returns (index: int)
    ensures IsFirstMatch(items, productId, index)
    ensures index == FirstIndex(items, productId)
  {
    index := 0;
    while index < |items|
      invariant 0 <= index <= |items|
      invariant forall j :: 0 <= j < index ==> items[j].id != productId
    {
      if items[index].id == productId {
        FirstMatchIsFirstIndex(items, productId, index);
        return;
      }
      index := index + 1;
    }
    index := -1;
    FirstMatchIsFirstIndex(items, productId, index);
  }

  class CartProvider {
    /** The cart state the UI reads. */
    var cart: seq<Product>
    /** What the durable store holds under the cart key; None when absent. */
    var stored: Option<seq<Product>>

    /** Reloading from the store reproduces the committed cart. */
    predicate Synced()
      reads this
    {
      cart == Load(stored)
    }

    /** The lazy initial state: read the store, fall back to the empty cart. */
    constructor (storage: Option<seq<Product>>)
      ensures stored == storage
      ensures cart == Load(storage)
      ensures Synced()
    {
      stored := storage;
      cart := Load(storage);
    }

    /** `setCart(next)` followed by writing `next` to the store. */
    method Commit(next: seq<Product>)
      modifies this
      ensures cart == next && stored == Some(next)
      ensures Synced()
    {
      cart := next;
      stored := Some(next);
    }

    method AddProduct(productId: int, stock: Fetch<int>, catalog: Fetch<CatalogItem>) returns (outcome: Outcome)
      modifies this
      ensures var s := AddStep(old(cart), productId, stock, catalog);
        && outcome == s.outcome
        && (s.commit.Some? ==> cart == s.commit.value && stored == Some(cart))
        && (s.commit.None? ==> cart == old(cart) && stored == old(stored))
      ensures old(Synced()) ==> Synced()
    {
      var working := cart;
      var i := FindIndexOf(working, productId);
      if stock.FetchFailed? {
        return FetchError;
      }
      var stockAmount := stock.value;
      var currentAmount := if i >= 0 then working[i].amount else 0;
      var amount := currentAmount + 1;
      if amount > stockAmount {
        return StockExceeded;
      }
      if i >= 0 {
        working := working[i := working[i].(amount := amount)];
      } else {
        if catalog.FetchFailed? {
          return FetchError;
        }
        var data := catalog.value;
        working := working + [Product(data.id, data.details, 1)];
      }
      Commit(working);
      outcome := Ok;
    }

    method RemoveProduct(productId: int) returns (outcome: Outcome)
      modifies this
      ensures var s := RemoveStep(old(cart), productId);
        && outcome == s.outcome
        && (s.commit.Some? ==> cart == s.commit.value && stored == Some(cart))
        && (s.commit.None? ==> cart == old(cart) && stored == old(stored))
      ensures old(Synced()) ==> Synced()
    {
      var working := cart;
      var i := FindIndexOf(working, productId);
      if i >= 0 {
        working := working[..i] + working[i + 1..];
        Commit(working);
        outcome := Ok;
      } else {
        outcome := NotFound;
      }
    }

    method UpdateProductAmount(productId: int, amount: int, stock: Fetch<int>) returns (outcome: Outcome)
      modifies this
      ensures var s := UpdateStep(old(cart), productId, amount, stock);
        && outcome == s.outcome
        && (s.commit.Some? ==> cart == s.commit.value && stored == Some(cart))
        && (s.commit.None? ==> cart == old(cart) && stored == old(stored))
      ensures old(Synced()) ==> Synced()
    {
      if amount <= 0 {
        return Ignored;
      }
      if stock.FetchFailed? {
        return FetchError;
      }
      if amount > stock.value {
        return StockExceeded;
      }
      var updated := SetAmounts(cart, productId, amount);
      Commit(updated);
      outcome := Ok;
    }
  }

  /** Starting from an empty store with stock 5 for product 1: the first five
      additions succeed (amounts 1 to 5), the sixth is rejected, and the cart
      and the store end with five units of the catalog product. */
  method RepeatedAddScenario(d: Details) returns (final: seq<Product>, last: Outcome)
    ensures final == [Product(1, d, 5)]
    ensures last == StockExceeded
  {
    var provider := new CartProvider(None);
    var data := CatalogItem(1, d);
    var o := provider.AddProduct(1, Fetched(5), Fetched(data));
    assert o == Ok && provider.cart == [Product(1, d, 1)];
    o := provider.AddProduct(1, Fetched(5), Fetched(data));
    assert o == Ok && provider.cart == [Product(1, d, 2)];
    o := provider.AddProduct(1, Fetched(5), Fetched(data));
    assert o == Ok && provider.cart == [Product(1, d, 3)];
    o := provider.AddProduct(1, Fetched(5), Fetched(data));
    assert o == Ok && provider.cart == [Product(1, d, 4)];
    o := provider.AddProduct(1, Fetched(5), Fetched(data));
    assert o == Ok && provider.cart == [Product(1, d, 5)];
    last := provider.AddProduct(1, Fetched(5), Fetched(data));
    final := provider.stored.value;
  }

  /** A cart holding three units of product 2, stock 10: setting the amount
      to 7 succeeds, and setting it to 0 afterwards changes nothing. */
  method UpdateScenario(d: Details) returns (final: seq<Product>, first: Outcome, second: Outcome)
    ensures final == [Product(2, d, 7)]
    ensures first == Ok && second == Ignored
  {
    var provider := new CartProvider(Some([Product(2, d, 3)]));
    first := provider.UpdateProductAmount(2, 7, Fetched(10));
    second := provider.UpdateProductAmount(2, 0, Fetched(10));
    final := provider.cart;
  }
}
