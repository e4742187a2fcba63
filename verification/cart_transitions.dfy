/**
 The pure rules of the shopping cart in `useCart.tsx`: line items, the
 first-match search that `find` and `findIndex` perform, the `map` that
 rewrites amounts, and for each of the three cart mutations a function that
 says, given the current cart and what the stock and catalog services
 answered, which outcome the user is told and which cart (if any) is committed.
 */
module CartTransitions {

  datatype Option<+T> = None | Some(value: T)

  /** The answer of a remote endpoint: a parsed value, or an error (network,
      not found, malformed body) that makes the awaiting code throw. */
  datatype Fetch<+T> = Fetched(value: T) | FetchFailed

  /** What the user is told: nothing (`Ok`, `Ignored`) or one of the toasts. */
  datatype Outcome =
    | Ok             // committed to the cart and the store
    | StockExceeded  // "Quantidade solicitada fora de estoque"
    | FetchError     // the catch branch of addProduct / updateProductAmount
    | NotFound       // the catch branch of removeProduct
    | Ignored        // updateProductAmount with a non-positive amount

  /** Catalog fields other than the id and the amount (title, price, image),
      carried along untouched. */
  datatype Details = Details(title: string, price: real, image: string)

  /** One line of the cart: a product and how many units of it are wanted. */
  datatype Product = Product(id: int, details: Details, amount: int)

  /** The body of a catalog response: the product without an amount. */
  datatype CatalogItem = CatalogItem(id: int, details: Details)

  /** The result of one mutation: the outcome, and the cart that is
      committed to state and store, or None when nothing is written. */
  datatype Step = Step(outcome: Outcome, commit: Option<seq<Product>>)

  /** `i` is what `findIndex(p => p.id === productId)` returns on `items`:
      the first index holding the id, or -1 when no item holds it. */
  predicate IsFirstMatch(items: seq<Product>, productId: int, i: int)
  {
    && -1 <= i < |items|
    && (i >= 0 ==> items[i].id == productId)
    && forall j :: 0 <= j < |items| && (i < 0 || j < i) ==> items[j].id != productId
  }

  function FirstIndex(items: seq<Product>, productId: int): (r: int)
    ensures IsFirstMatch(items, productId, r)
  {
    if items == [] then -1
    else if items[0].id == productId then 0
    else
      var k := FirstIndex(items[1..], productId);
      if k < 0 then -1 else k + 1
  }

  /** The first match is unique, so any index satisfying IsFirstMatch is FirstIndex. */
  lemma FirstMatchIsFirstIndex(items: seq<Product>, productId: int, i: int)
    requires IsFirstMatch(items, productId, i)
    ensures FirstIndex(items, productId) == i
  {
  }

  /** The `cart.map` of updateProductAmount: every item whose id matches gets
      `amount`; everything else is kept. */
  function SetAmounts(items: seq<Product>, productId: int, amount: int): (r: seq<Product>)
    ensures |r| == |items|
    ensures forall k :: 0 <= k < |items| ==>
      && r[k].id == items[k].id
      && r[k].details == items[k].details
      && r[k].amount == (if items[k].id == productId then amount else items[k].amount)
  {
    if items == [] then []
    else
      var head := if items[0].id == productId then items[0].(amount := amount) else items[0];
      [head] + SetAmounts(items[1..], productId, amount)
  }

  /** At most one line item per product id. */
  predicate UniqueIds(items: seq<Product>)
  {
    forall i, j :: 0 <= i < j < |items| ==> items[i].id != items[j].id
  }

  /** Ids are unique and every line asks for at least one unit. */
  predicate WellFormed(items: seq<Product>)
  {
    UniqueIds(items) && forall k :: 0 <= k < |items| ==> items[k].amount >= 1
  }

  /** addProduct(productId) on `cart`, given the stock and catalog answers.
      The catalog is consulted only for a product not yet in the cart. */
  function AddStep(cart: seq<Product>, productId: int, stock: Fetch<int>, catalog: Fetch<CatalogItem>): (s: Step)
    ensures s.commit.Some? <==> s.outcome == Ok
    ensures s.outcome in {Ok, StockExceeded, FetchError}
  {
    match stock
    case FetchFailed => Step(FetchError, None)
    case Fetched(stockAmount) =>
      var i := FirstIndex(cart, productId);
      var amount := (if i >= 0 then cart[i].amount else 0) + 1;
      if amount > stockAmount then Step(StockExceeded, None)
      else if i >= 0 then Step(Ok, Some(cart[i := cart[i].(amount := amount)]))
      else
        match catalog
        case FetchFailed => Step(FetchError, None)
        case Fetched(data) => Step(Ok, Some(cart + [Product(data.id, data.details, 1)]))
  }

  /** removeProduct(productId) on `cart`: splice out the first match. */
  function RemoveStep(cart: seq<Product>, productId: int): (s: Step)
    ensures s.commit.Some? <==> s.outcome == Ok
    ensures s.outcome in {Ok, NotFound}
  {
    var i := FirstIndex(cart, productId);
    if i >= 0 then Step(Ok, Some(cart[..i] + cart[i + 1..]))
    else Step(NotFound, None)
  }

  /** updateProductAmount({productId, amount}) on `cart`, given the stock answer. */
  function UpdateStep(cart: seq<Product>, productId: int, amount: int, stock: Fetch<int>): (s: Step)
    ensures s.commit.Some? <==> s.outcome == Ok
    ensures s.outcome in {Ok, Ignored, StockExceeded, FetchError}
  {
    if amount <= 0 then Step(Ignored, None)
    else
      match stock
      case FetchFailed => Step(FetchError, None)
      case Fetched(stockAmount) =>
        if amount > stockAmount then Step(StockExceeded, None)
        else Step(Ok, Some(SetAmounts(cart, productId, amount)))
  }

  // ---------------------------------------------------------------------
  // addProduct

  /** A product already in the cart gains one unit when stock allows it;
      the other lines, their order and the length stay as they were. */
  lemma AddMergesExisting(cart: seq<Product>, productId: int, i: int, stockAmount: int, catalog: Fetch<CatalogItem>)
    requires IsFirstMatch(cart, productId, i) && i >= 0
    requires cart[i].amount + 1 <= stockAmount
    ensures var s := AddStep(cart, productId, Fetched(stockAmount), catalog);
      && s.outcome == Ok && s.commit.Some?
      && |s.commit.value| == |cart|
      && s.commit.value[i].id == cart[i].id
      && s.commit.value[i].details == cart[i].details
      && s.commit.value[i].amount == cart[i].amount + 1
      && (forall k :: 0 <= k < |cart| && k != i ==> s.commit.value[k] == cart[k])
  {
  }

  /** When the current amount (0 for an absent product) plus one exceeds the
      stock, the request is rejected and nothing is committed. */
  lemma AddRejectsOverStock(cart: seq<Product>, productId: int, i: int, stockAmount: int, catalog: Fetch<CatalogItem>)
    requires IsFirstMatch(cart, productId, i)
    requires (if i >= 0 then cart[i].amount else 0) + 1 > stockAmount
    ensures AddStep(cart, productId, Fetched(stockAmount), catalog) == Step(StockExceeded, None)
  {
  }

  /** A product not in the cart, with stock for one unit and a catalog answer,
      is appended with amount 1 behind the untouched earlier lines. */
  lemma AddAppendsNew(cart: seq<Product>, productId: int, stockAmount: int, data: CatalogItem)
    requires forall k :: 0 <= k < |cart| ==> cart[k].id != productId
    requires stockAmount >= 1
    ensures var s := AddStep(cart, productId, Fetched(stockAmount), Fetched(data));
      && s.outcome == Ok && s.commit.Some?
      && |s.commit.value| == |cart| + 1
      && s.commit.value[..|cart|] == cart
      && s.commit.value[|cart|] == Product(data.id, data.details, 1)
  {
  }

  /** A failed stock lookup, or a failed catalog lookup for a new product,
      reports an error and commits nothing. */
  lemma AddAbortsOnFetchFailure(cart: seq<Product>, productId: int, stock: Fetch<int>, catalog: Fetch<CatalogItem>)
    requires stock.FetchFailed? || (
      && (forall k :: 0 <= k < |cart| ==> cart[k].id != productId)
      && stock.value >= 1 && catalog.FetchFailed?)
    ensures AddStep(cart, productId, stock, catalog) == Step(FetchError, None)
  {
  }

  /** addProduct keeps a well-formed cart well-formed, provided the catalog
      returns the product that was asked for. */
  lemma AddPreservesWellFormed(cart: seq<Product>, productId: int, stock: Fetch<int>, catalog: Fetch<CatalogItem>)
    requires WellFormed(cart)
    requires catalog.Fetched? ==> catalog.value.id == productId
    ensures var s := AddStep(cart, productId, stock, catalog);
      s.commit.Some? ==> WellFormed(s.commit.value)
  {
  }

  /** The line touched by a committed addProduct never asks for more units
      than the stock answer allowed. */
  lemma AddRespectsStock(cart: seq<Product>, productId: int, stockAmount: int, catalog: Fetch<CatalogItem>)
    requires AddStep(cart, productId, Fetched(stockAmount), catalog).outcome == Ok
    ensures var r := AddStep(cart, productId, Fetched(stockAmount), catalog).commit.value;
      exists k :: 0 <= k < |r| && r[k].amount <= stockAmount &&
        (k < |cart| ==> r[k].id == productId && r[k].amount == cart[k].amount + 1)
  {
    var r := AddStep(cart, productId, Fetched(stockAmount), catalog).commit.value;
    var i := FirstIndex(cart, productId);
    if i >= 0 {
      assert 0 <= i < |r| && r[i].amount <= stockAmount;
    } else {
      assert 0 <= |cart| < |r| && r[|cart|].amount <= stockAmount;
    }
  }

  // ---------------------------------------------------------------------
  // removeProduct

  /** Exactly the first line with the id is spliced out; the others keep their
      relative order and the length drops by one. */
  lemma RemoveTakesOutFirstMatch(cart: seq<Product>, productId: int, i: int)
    requires IsFirstMatch(cart, productId, i) && i >= 0
    ensures var s := RemoveStep(cart, productId);
      && s.outcome == Ok && s.commit.Some?
      && |s.commit.value| == |cart| - 1
      && s.commit.value[..i] == cart[..i]
      && s.commit.value[i..] == cart[i + 1..]
      && multiset(s.commit.value) + multiset{cart[i]} == multiset(cart)
  {
    FirstMatchIsFirstIndex(cart, productId, i);
    var r := cart[..i] + cart[i + 1..];
    assert cart == cart[..i] + [cart[i]] + cart[i + 1..];
    assert r[..i] == cart[..i];
    assert r[i..] == cart[i + 1..];
  }

  /** Removing an id that is not in the cart is an error and commits nothing. */
  lemma RemoveMissingFails(cart: seq<Product>, productId: int)
    requires forall k :: 0 <= k < |cart| ==> cart[k].id != productId
    ensures RemoveStep(cart, productId) == Step(NotFound, None)
  {
  }

  /** With unique ids, removal leaves exactly the lines of other products. */
  lemma RemoveKeepsOtherProducts(cart: seq<Product>, productId: int)
    requires UniqueIds(cart)
    requires RemoveStep(cart, productId).outcome == Ok
    ensures var r := RemoveStep(cart, productId).commit.value;
      forall p :: p in r <==> p in cart && p.id != productId
  {
  }

  /** removeProduct keeps a well-formed cart well-formed. */
  lemma RemovePreservesWellFormed(cart: seq<Product>, productId: int)
    requires WellFormed(cart)
    ensures var s := RemoveStep(cart, productId);
      s.commit.Some? ==> WellFormed(s.commit.value)
  {
  }

  // ---------------------------------------------------------------------
  // Round trips between the mutations

  /** Adding a new product and then removing it gives back the original cart,
      provided the catalog returns the product that was asked for. */
  lemma AddThenRemoveRestores(cart: seq<Product>, productId: int, stockAmount: int, data: CatalogItem)
    requires forall k :: 0 <= k < |cart| ==> cart[k].id != productId
    requires stockAmount >= 1 && data.id == productId
    ensures var added := AddStep(cart, productId, Fetched(stockAmount), Fetched(data));
      && added.outcome == Ok
      && RemoveStep(added.commit.value, productId) == Step(Ok, Some(cart))
  {
    FirstMatchIsFirstIndex(cart, productId, -1);
    var r := cart + [Product(productId, data.details, 1)];
    assert IsFirstMatch(r, productId, |cart|);
    FirstMatchIsFirstIndex(r, productId, |cart|);
    assert r[..|cart|] + r[|cart| + 1..] == cart;
  }

  /** Adding one unit of a product already in the cart and then setting its
      amount back to the old value gives back the original cart, when ids are
      unique and the stock still allows the old amount. */
  lemma AddThenUpdateRestores(cart: seq<Product>, productId: int, i: int, stockAmount: int,
                              catalog: Fetch<CatalogItem>, laterStock: int)
    requires UniqueIds(cart)
    requires IsFirstMatch(cart, productId, i) && i >= 0
    requires cart[i].amount + 1 <= stockAmount
    requires 0 < cart[i].amount <= laterStock
    ensures var added := AddStep(cart, productId, Fetched(stockAmount), catalog);
      && added.outcome == Ok
      && UpdateStep(added.commit.value, productId, cart[i].amount, Fetched(laterStock)) == Step(Ok, Some(cart))
  {
    FirstMatchIsFirstIndex(cart, productId, i);
    var r := cart[i := cart[i].(amount := cart[i].amount + 1)];
    var u := SetAmounts(r, productId, cart[i].amount);
    forall k | 0 <= k < |cart| ensures u[k] == cart[k] {
      if k == i {
        assert u[k].id == cart[k].id && u[k].details == cart[k].details && u[k].amount == cart[k].amount;
      } else {
        assert r[k] == cart[k] && cart[k].id != productId;
        assert u[k].id == cart[k].id && u[k].details == cart[k].details && u[k].amount == cart[k].amount;
      }
    }
    assert u == cart;
  }

  // ---------------------------------------------------------------------
  // updateProductAmount

  /** A non-positive amount is ignored silently, whatever the stock says. */
  lemma UpdateIgnoresNonPositive(cart: seq<Product>, productId: int, amount: int, stock: Fetch<int>)
    requires amount <= 0
    ensures UpdateStep(cart, productId, amount, stock) == Step(Ignored, None)
  {
  }

  /** An amount above the stock is rejected, and a failed stock lookup is an
      error; neither commits anything. */
  lemma UpdateRejects(cart: seq<Product>, productId: int, amount: int, stock: Fetch<int>)
    requires amount > 0
    requires stock.FetchFailed? || amount > stock.value
    ensures UpdateStep(cart, productId, amount, stock) ==
      Step(if stock.FetchFailed? then FetchError else StockExceeded, None)
  {
  }

  /** An amount within stock is written into every line of the product; every
      other field, every other line, the length and the order are kept. */
  lemma UpdateSetsMatching(cart: seq<Product>, productId: int, amount: int, stockAmount: int)
    requires 0 < amount <= stockAmount
    ensures var s := UpdateStep(cart, productId, amount, Fetched(stockAmount));
      && s.outcome == Ok && s.commit.Some?
      && |s.commit.value| == |cart|
      && forall k :: 0 <= k < |cart| ==>
        s.commit.value[k] == (if cart[k].id == productId then cart[k].(amount := amount) else cart[k])
  {
  }

  /** Updating an id that is not in the cart commits the cart unchanged. */
  lemma SetAmountsOfAbsentId(cart: seq<Product>, productId: int, amount: int)
    requires forall k :: 0 <= k < |cart| ==> cart[k].id != productId
    ensures SetAmounts(cart, productId, amount) == cart
  {
  }

  lemma UpdateAbsentKeepsCart(cart: seq<Product>, productId: int, amount: int, stockAmount: int)
    requires forall k :: 0 <= k < |cart| ==> cart[k].id != productId
    requires 0 < amount <= stockAmount
    ensures UpdateStep(cart, productId, amount, Fetched(stockAmount)) == Step(Ok, Some(cart))
  {
    SetAmountsOfAbsentId(cart, productId, amount);
  }

  /** updateProductAmount keeps a well-formed cart well-formed. */
  lemma UpdatePreservesWellFormed(cart: seq<Product>, productId: int, amount: int, stock: Fetch<int>)
    requires WellFormed(cart)
    ensures var s := UpdateStep(cart, productId, amount, stock);
      s.commit.Some? ==> WellFormed(s.commit.value)
  {
  }
}
