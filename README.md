# Shopping-cart store of the Memoirs Vietnam storefront, in Dafny

This project models the client-side cart store of the Memoirs Vietnam web
front end (`src/store/cartStore.ts`). The store keeps one ordered list of cart
entries. Each `CartItem` has a product `id`, a `name`, a unit `price`, a
quantity `qty` and an optional `image`. The store offers four operations:

- `addItem` looks up the first entry with the item's id. If there is one, its
  quantity grows by the item's quantity in place. Otherwise the item is
  appended.
- `removeItem` keeps only the entries whose id differs from the given one.
- `clearCart` empties the list.
- `total` folds `price * qty` over the entries from the left, starting at 0.

Everything lives in module `Cart` (`cart_store.dfy`):

- `CartItem` is a datatype. `IndexOf` (the lookup `find` does), `Added`,
  `Removed` and `Sum` are functions on sequences of entries. The lemmas beside
  them state what each operation does to the list and to the total.
- `CartStore` is a class with one mutable field `items`. Its methods
  `AddItem`, `RemoveItem` and `ClearCart` reassign that field. `AddItem`
  updates the matching entry's quantity where `find` located it. Each method's
  postcondition ties the new list to the function of the old list and repeats
  the total and id facts that follow. `Total` walks the entries with an
  accumulator, as `reduce` does, and is proved to return `Sum` of them.
- `Sum` is a left fold, the same order `reduce` uses.

## Model

| member | source | states |
|---|---|---|
| `Cart.IndexOf` | src/store/cartStore.ts:23 | a found position holds the first entry with the searched id (no earlier entry has it); None is returned exactly when no entry has that id |
| `Cart.Added` | src/store/cartStore.ts:21-29 | the list `addItem` leaves: the first entry with the item's id gets its `qty` raised by `item.qty`, else the item is appended; its properties are stated by `AddedSpec`, `SumAdded` and `AddedThenRemoved` |
| `Cart.AddedSpec` | src/store/cartStore.ts:21-29 | a new id is appended as the last entry after the unchanged old entries; an existing id keeps the length, changes only its first entry, and that entry changes only in `qty`, which becomes old `qty` plus `item.qty`; the set of ids grows by exactly the item's id; distinct ids stay distinct |
| `Cart.SumAdded` | src/store/cartStore.ts:21-33 | the total after adding rises by `item.price * item.qty` for a new id, and by the existing entry's price times `item.qty` for an id already present |
| `Cart.AddedThenRemoved` | src/store/cartStore.ts:21-31 | removing an id afterwards undoes adding an item with that id, whether the add appended or merged |
| `Cart.Removed` | src/store/cartStore.ts:31 | the list `removeItem` leaves, the `filter` keeping entries whose id differs; its properties are stated by `RemovedSpec`, `RemovedConcat`, `RemovedAbsent`, `RemovedIdempotent` and `RemovedCommute` |
| `Cart.RemovedSpec` | src/store/cartStore.ts:31 | after removal an entry is present exactly when it was present before and its id differs from the removed one; the ids left are the old ids minus the removed one; the list never grows; distinct ids stay distinct |
| `Cart.RemovedConcat` | src/store/cartStore.ts:31 | removal distributes over concatenation, so the kept entries stay in their original relative order |
| `Cart.RemovedAbsent` | src/store/cartStore.ts:31 | removing leaves the list unchanged if and only if no entry has that id |
| `Cart.RemovedIdempotent` | src/store/cartStore.ts:31 | removing the same id twice gives the same list as removing it once |
| `Cart.RemovedCommute` | src/store/cartStore.ts:31 | removing two ids gives the same list in either order |
| `Cart.Sum` | src/store/cartStore.ts:33 | the value `total` computes, `price * qty` folded from the left starting at 0; its properties are stated by `SumConcat`, `SumUpdate`, `SumAdded`, `SumRemoved` and `SumNonNegative` |
| `Cart.SumNonNegative` | src/store/cartStore.ts:33 | a cart whose prices and quantities are all non-negative has a non-negative total |
| `Cart.SumConcat` | src/store/cartStore.ts:33 | the total of a concatenation is the sum of the two totals |
| `Cart.SumUpdate` | src/store/cartStore.ts:25-33 | replacing one entry changes the total by the new entry's `price * qty` minus the old one's |
| `Cart.SumRemoved` | src/store/cartStore.ts:31-33 | the old total is the total after removal plus the total of exactly the removed entries |
| `Cart.SumRemovedDistinct` | src/store/cartStore.ts:31-33 | with distinct ids, removing an entry's id lowers the total by that entry's `price * qty` |
| `Cart.CartStore.constructor` | src/store/cartStore.ts:20 | a new store holds an empty cart whose total is 0 |
| `Cart.CartStore.Total` | src/store/cartStore.ts:33 | walking the entries from the first with an accumulator that starts at 0 yields exactly `Sum` of the current entries, the left fold whose properties the `Sum*` lemmas prove; the store is not changed |
| `Cart.CartStore.AddItem` | src/store/cartStore.ts:21-30 | the new list is `Added` of the old one; the ids grow by the item's id; distinct ids stay distinct; the total rises as `SumAdded` states |
| `Cart.CartStore.RemoveItem` | src/store/cartStore.ts:31 | the new list is `Removed` of the old one; no entry has the removed id; the total falls by the total of the removed entries |
| `Cart.CartStore.ClearCart` | src/store/cartStore.ts:32 | the list is empty and the total is 0 |

## Left out

- The zustand `create`/`set`/`get` machinery and the React re-render subscription (src/store/cartStore.ts:1,19) are not modelled. The store is a plain object with one `items` field. The shallow copy `[...items]` at line 26 only signals a change to subscribers, so the model does not copy.
- Aliasing is not modelled. Line 25 mutates the stored `CartItem` object itself. The caller's object, if it was the one appended earlier, changes too, and so does the list of the previous state. The model treats entries as values.
- JavaScript `number` is not modelled. `price` and `qty` are unbounded integers (whole dong), so there is no floating-point rounding. The `toLocaleString` display formatting is also left out.
- The source does not validate `price` or `qty`, and neither does the model: zero and negative values are accepted.
- src/app/(main)/context/CartContext.tsx and src/components/CartSidebar.tsx hold a second, context-based cart and its rendering. They are not part of this model. The same holds for the rest of the repository: page components, the axios client in src/lib/api.ts, the token decoding in src/components/Header.tsx, route constants and type declarations.
