# Shopping cart state transitions (RocketShoes `useCart`)

This project models the cart logic of the `CartProvider` React component in
`src/hooks/useCart.tsx`. The provider keeps an ordered list of line items and
mirrors it into the browser's local storage under the key `@RocketShoes:cart`.
Each line item has a product id, catalog details and an amount. There are three
mutations:

- `addProduct(productId)` asks the stock endpoint how many units exist. If the
  product is already in the cart, it adds one unit to that line. Otherwise it
  fetches the product from the catalog endpoint and appends it with amount 1.
  When the new amount would exceed the stock, it shows a stock toast instead.
- `removeProduct(productId)` splices out the first line with that id. When no
  line has it, it shows an error toast.
- `updateProductAmount({productId, amount})` ignores amounts of 0 or less. It
  rejects amounts above the stock. Otherwise it maps the cart, writing the new
  amount into every line with that id.

Every successful mutation commits the new cart to the component state and then
writes it to the store. Every failure before that commit (a failed fetch, a
stock rejection, a missing id, an ignored amount) leaves both as they were.

The model has two modules:

- `CartTransitions` (`cart_transitions.dfy`) holds the pure rules. It defines
  the data types and `FirstIndex`, the semantics of `find`/`findIndex`. It
  defines `SetAmounts`, the `cart.map` of the update. For each mutation it has
  one step function (`AddStep`, `RemoveStep`, `UpdateStep`). A step function
  returns the outcome and the cart to commit, if any. Lemmas prove the
  properties of each mutation. Further lemmas prove that each mutation keeps
  the cart well formed: unique ids and every amount at least 1.
- `CartProviderState` (`cart_provider.dfy`) holds the provider as a class. The
  class has two fields: `cart` (the component state) and `stored` (what the
  store holds under the cart key). `FindIndexOf` is the search loop behind
  `find` and `findIndex`. Each mutation method works on a copy of `cart` and
  then calls `Commit`, and is proved equal to its step function. The methods
  also keep the persistence invariant `Synced`: reloading from the store
  reproduces the committed cart. Two client methods run concrete add and
  update sequences.

The outside world is passed in as parameters. The stock and catalog answers are
`Fetch` values: `Fetched(value)` or `FetchFailed`. Toasts become an `Outcome`
tag: `Ok`, `StockExceeded`, `FetchError`, `NotFound` or `Ignored`.

Two consequences of the code worth stating:

- Unparsable stored text makes `JSON.parse` (line 31) throw; the model only
  takes a decoded cart or an absent key.
- With stock 5 the sixth add is already rejected (5 + 1 > 5);
  `RepeatedAddScenario` proves it.

## Model

| member | source | states |
|---|---|---|
| CartTransitions.FirstIndex | src/hooks/useCart.tsx:40 | the result is the first index whose id matches, or -1 when no item matches (what `find`/`findIndex` select) |
| CartTransitions.FirstMatchIsFirstIndex | src/hooks/useCart.tsx:74 | the first-match index is unique: any index meeting that description equals `FirstIndex` |
| CartTransitions.SetAmounts | src/hooks/useCart.tsx:104-113 | same length; every line keeps its id and details; matching lines get the new amount and all others keep their old amount |
| CartTransitions.AddStep | src/hooks/useCart.tsx:37-69 | something is committed exactly when the outcome is `Ok`; the only outcomes are `Ok`, stock exceeded, or a fetch error |
| CartTransitions.RemoveStep | src/hooks/useCart.tsx:71-86 | something is committed exactly when the outcome is `Ok`; the only outcomes are `Ok` or not found |
| CartTransitions.UpdateStep | src/hooks/useCart.tsx:88-121 | something is committed exactly when the outcome is `Ok`; the only outcomes are `Ok`, ignored, stock exceeded, or a fetch error |
| CartTransitions.AddMergesExisting | src/hooks/useCart.tsx:40-53 | product present at first index i with amount a, and a+1 ≤ stock: `Ok`; line i has amount a+1 with the same id and details; every other line, the order and the length are unchanged |
| CartTransitions.AddRejectsOverStock | src/hooks/useCart.tsx:44-51 | (current amount, or 0 if absent) + 1 > stock: stock-exceeded outcome and nothing committed |
| CartTransitions.AddAppendsNew | src/hooks/useCart.tsx:54-61 | product absent, stock ≥ 1, catalog answered: `Ok`; length grows by one; earlier lines are untouched; the last line is the catalog item with amount 1 |
| CartTransitions.AddAbortsOnFetchFailure | src/hooks/useCart.tsx:42-68 | a failed stock fetch, or a failed catalog fetch for an absent product: fetch-error outcome and nothing committed |
| CartTransitions.AddPreservesWellFormed | src/hooks/useCart.tsx:45-61 | if the catalog returns the requested id, a committed add keeps ids unique and every amount ≥ 1 |
| CartTransitions.AddRespectsStock | src/hooks/useCart.tsx:44-61 | after a committed add, the line it touched has amount ≤ stock; an existing line grew by exactly one |
| CartTransitions.RemoveTakesOutFirstMatch | src/hooks/useCart.tsx:73-79 | id first found at i: `Ok`; the committed cart is the lines before i followed by the lines after i; length drops by one; the multiset loses exactly that line |
| CartTransitions.RemoveMissingFails | src/hooks/useCart.tsx:76-84 | id absent: not-found outcome and nothing committed |
| CartTransitions.RemoveKeepsOtherProducts | src/hooks/useCart.tsx:74-77 | with unique ids, a line is in the result exactly when it was in the cart with a different id |
| CartTransitions.RemovePreservesWellFormed | src/hooks/useCart.tsx:73-77 | a committed removal keeps ids unique and every amount ≥ 1 |
| CartTransitions.AddThenRemoveRestores | src/hooks/useCart.tsx:54-79 | adding an absent product (catalog returns the requested id, stock ≥ 1) and then removing it commits exactly the original cart |
| CartTransitions.AddThenUpdateRestores | src/hooks/useCart.tsx:52-113 | with unique ids, adding one unit to a present product and then updating it back to its old amount (within the later stock) commits exactly the original cart |
| CartTransitions.UpdateIgnoresNonPositive | src/hooks/useCart.tsx:93-95 | amount ≤ 0: ignored outcome and nothing committed, whatever the stock says |
| CartTransitions.UpdateRejects | src/hooks/useCart.tsx:96-120 | positive amount with a failed stock fetch gives a fetch error; amount above stock gives stock exceeded; neither commits |
| CartTransitions.UpdateSetsMatching | src/hooks/useCart.tsx:104-115 | 0 < amount ≤ stock: `Ok`; same length and order; each matching line is that line with the new amount; every other line is unchanged |
| CartTransitions.SetAmountsOfAbsentId | src/hooks/useCart.tsx:104-113 | mapping over a cart without the id returns the same cart |
| CartTransitions.UpdateAbsentKeepsCart | src/hooks/useCart.tsx:104-115 | id absent, 0 < amount ≤ stock: `Ok`, and the committed cart equals the old one |
| CartTransitions.UpdatePreservesWellFormed | src/hooks/useCart.tsx:104-113 | a committed update keeps ids unique and every amount ≥ 1 |
| CartProviderState.FindIndexOf | src/hooks/useCart.tsx:73-74 | the loop returns the first index whose id matches, or -1, and that index equals `FirstIndex` |
| CartProviderState.CartProvider.constructor | src/hooks/useCart.tsx:26-35 | the store is as given; the cart is the loaded cart; cart and store are in sync |
| CartProviderState.CartProvider.Commit | src/hooks/useCart.tsx:64-65 | state and store both hold the new cart afterwards |
| CartProviderState.CartProvider.AddProduct | src/hooks/useCart.tsx:37-69 | returns the outcome of `AddStep` on the old cart; on `Ok`, cart and store both hold the committed cart; otherwise both are exactly as before; sync is preserved |
| CartProviderState.CartProvider.RemoveProduct | src/hooks/useCart.tsx:71-86 | returns the outcome of `RemoveStep`; on `Ok`, cart and store both hold the committed cart; otherwise both are unchanged; sync is preserved |
| CartProviderState.CartProvider.UpdateProductAmount | src/hooks/useCart.tsx:88-121 | returns the outcome of `UpdateStep`; on `Ok`, cart and store both hold the mapped cart; otherwise both are unchanged; sync is preserved |
| CartProviderState.RepeatedAddScenario | src/hooks/useCart.tsx:37-69 | from an empty store with stock 5, five adds of product 1 give amount 5; the sixth add is rejected and the store still holds amount 5 |
| CartProviderState.UpdateScenario | src/hooks/useCart.tsx:88-121 | cart `[{id 2, amount 3}]`, stock 10: updating to 7 gives `Ok` and amount 7; then updating to 0 is ignored and the amount stays 7 |

## Left out

- The React wiring is not modelled: `createContext`, `useState`, the provider JSX and the `useCart` hook (lines 1, 23, 123-134). The provider is a class with two fields.
- The HTTP calls to the stock and product endpoints (lines 42, 56, 96) are not modelled. Their answers are `Fetch` parameters.
- A stock response without a numeric `amount` is not modelled. In the code, `x > undefined` is false, so such a response would let the change through. The model takes the stock figure as an integer.
- Toast notifications (lines 49, 67, 84, 101, 119) are not modelled. Each method returns an `Outcome` tag instead.
- JSON serialisation through local storage (lines 28-31, 65, 79, 115) is not modelled. The store field holds the decoded cart, and `None` stands for an absent key (or an empty string, which line 30 also treats as absent). Unparsable stored text makes line 31 throw. That case is not modelled.
- Asynchronous interleaving is not modelled, including the stale `cart` closure captured across `await` (lines 39, 42). Calls are taken to run one after another.
- The shallow copy at line 39 means line 53 also changes the item object held by the old state array. The model treats the working copy as a value. This sharing is only visible on the path that commits right away.
- JavaScript number semantics are not modelled. Ids and amounts are unbounded integers, so non-integer amounts, `NaN` and floating-point rounding are out of scope. Price and the other catalog fields are opaque `Details`.
- AddPreservesWellFormed: id uniqueness holds only if the catalog answer carries the requested id. The code takes the new line's id from the response (`...data`, line 58). The lemma assumes the two ids are equal, and the methods do not require it.
- Reading the `cart` value the context exposes (line 125) is not modelled as an operation. It is a plain read of the `cart` field, so two reads with no mutation between them agree.
- Commit: store writes are assumed to succeed. In the code, `localStorage.setItem` (lines 65, 79, 115) runs after `setCart` (lines 64, 78, 114) inside the same `try`; if it throws (quota exceeded, storage disabled), the state is already committed, the store keeps the old cart and the error toast of the catch (lines 67, 84, 119) is shown. The model does not capture that path, so `Synced` is preserved only under this assumption.
