# Shopping cart store, modelled in Dafny

This project models the logic of a browser-side shopping cart script
(`scripts/cart.js`). The cart is an ordered list of line items
`{name, price, quantity}` kept in the browser's storage under the key `cart`.
The page's buttons call four operations on it: add to cart, change a
quantity, remove a line item and clear the cart. After each change the cart
is re-rendered. When a product is added, a popup whose element id comes from
a slug of the product name is shown.

Modules:

- `Wrappers` (`wrappers.dfy`): `Option`, used for the storage slot (absent key) and for a quantity that is admitted or refused.
- `Slug` (`slug.dfy`): `slugifyProductName` as three pure string transforms (lower-case, whitespace runs to `-`, strip to `[a-z0-9-]`) and their composition `Slugify`, with lemmas about each stage.
- `Items` (`items.dfy`): the `LineItem` datatype, the two cart invariants (names unique, quantities positive) and the pure effect of each operation on the list (`Added`, `Spliced`, `Changed`), plus `Total`. The lemmas state what each effect does, what it leaves alone, and that it keeps both invariants.
- `Cart` (`cart.dfy`): class `CartStore`, whose field `slot` is the stored value (`None` when the key is absent). `Load` applies the `|| []` default. The methods `AddToCart`, `ChangeQuantity`, `RemoveItem`, `ClearCart` and `DisplayCart` work on the stored list. Each one ties the new stored cart to the pure effect in `Items` and returns the view it renders.

Prices are integer cents. Quantities are integers. The parsed quantity is a
`Cart.Number`: an integer, NaN, or an infinity, which are the results
`parseInt` can give.

`removeItem` calls `cart.splice(index, 1)`. The model gives `splice` its
JavaScript meaning for every integer index: a negative index counts from the
end, and an index past the end removes nothing. The rendered buttons only
ever pass valid indices, so this matters only for other callers.
`changeQuantity` reads `cart[index].quantity`, which faults when `index`
does not name a line item, so `ChangeQuantity` requires a valid index.

## Model

| member | source | states |
|---|---|---|
| Slug.Lower | scripts/cart.js:4 | `toLowerCase()` on ASCII letters: same length; see `Slug.LowerAt`, `Slug.LowerIdentity` and `Slug.LowerAppend` for what it does to each character |
| Slug.IsSpace | scripts/cart.js:5 | the characters of JavaScript's `\s` class, by code point; see `Slug.CollapseNoSpace` and `Slug.CollapseRun` |
| Slug.CollapseSpaces | scripts/cart.js:5 | `.replace(/\s+/g, '-')`: never longer than its input; see `Slug.CollapseNoSpace`, `Slug.CollapseRun`, `Slug.CollapseAppend`, `Slug.CollapseIdentity` and `Slug.CollapseSpacesSolid` |
| Slug.StripDisallowed | scripts/cart.js:6 | `.replace(/[^a-z0-9\-]/g, '')`: never longer than its input; see `Slug.StripOnlySlugChars`, `Slug.StripKeepsSlugChars`, `Slug.StripIdentity` and `Slug.StripAppend` |
| Slug.Slugify | scripts/cart.js:2-7 | the slug holds only characters of `[a-z0-9-]`, so no whitespace, and is no longer than the name |
| Slug.LowerAt | scripts/cart.js:4 | lower-casing maps each character on its own: ASCII A-Z to a-z, everything else unchanged |
| Slug.LowerIdentity | scripts/cart.js:4 | lower-casing leaves a string unchanged exactly when it has no upper-case letter |
| Slug.LowerAppend | scripts/cart.js:4 | lower-casing distributes over concatenation |
| Slug.SkipSpacesSpec | scripts/cart.js:5 | skipping a leading whitespace run drops only whitespace and stops at a non-space |
| Slug.CollapseNoSpace | scripts/cart.js:5 | after replacing `\s+` with `-`, no whitespace is left |
| Slug.CollapseRun | scripts/cart.js:5 | a whole whitespace run, of any length, becomes exactly one `-` |
| Slug.CollapseAppend | scripts/cart.js:5 | when the first part ends in a non-space, the two parts are collapsed independently |
| Slug.CollapseIdentity | scripts/cart.js:5 | collapsing leaves a string unchanged exactly when it holds no whitespace |
| Slug.CollapseSpacesSolid | scripts/cart.js:5 | collapsing changes only whitespace and dashes; all other characters survive in order |
| Slug.StripOnlySlugChars | scripts/cart.js:6 | after deleting `[^a-z0-9-]`, only slug characters remain |
| Slug.StripKeepsSlugChars | scripts/cart.js:6 | each slug character is kept as often as it occurs, and every other character is dropped |
| Slug.StripIdentity | scripts/cart.js:6 | stripping leaves a string unchanged exactly when it holds only slug characters |
| Slug.StripAppend | scripts/cart.js:6 | stripping distributes over concatenation |
| Slug.SlugifyPlain | scripts/cart.js:2-7 | a word of letters, digits and dashes slugifies to its lower case |
| Slug.SlugifyIdempotent | scripts/cart.js:2-7 | slugifying a slug gives it back unchanged |
| Slug.SlugifyJoin | scripts/cart.js:2-7 | a single space between two words becomes a dash between their slugs |
| Slug.SlugifyDropsTrailing | scripts/cart.js:2-7 | for a name that is empty or does not end in whitespace, a trailing character that is not a letter, digit, dash or whitespace does not change the slug, so such names share a popup id |
| Slug.SlugifyFan | scripts/cart.js:139 | "Honeywell TurboForce Wall Fan" slugifies to "honeywell-turboforce-wall-fan" |
| Slug.SlugifyFanName | scripts/cart.js:139 | `Slugify("Honeywell TurboForce Wall Fan")` is `"honeywell-turboforce-wall-fan"`, stated on the literal name |
| Slug.SlugifyLamp | scripts/cart.js:145 | "Desk Lamp" slugifies to "desk-lamp" |
| Slug.SlugifyCollision | scripts/cart.js:11 | "Desk Lamp!" and "Desk Lamp" give the same popup id |
| Items.Added | scripts/cart.js:38-48 | the effect of `addToCart` on the list: raise the first line item with the name, or append one; see `Items.AddedMerges`, `Items.AddedAppends`, `Items.AddedQuantityOf` and `Items.AddedWellFormed` |
| Items.Spliced | scripts/cart.js:109 | `cart.splice(index, 1)`; see `Items.SplicedInRange`, `Items.SplicedPastEnd` and `Items.SplicedWellFormed` |
| Items.Changed | scripts/cart.js:95-101 | the effect of `changeQuantity`: removal at zero or below, else an in-place quantity update; see `Items.ChangedToNothing`, `Items.ChangedInPlace` and `Items.ChangedWellFormed` |
| Items.Total | scripts/cart.js:71-73 | the grand total, the sum of price times quantity; see `Items.TotalAppend` and `Items.AddedTotal` |
| Items.FindByName | scripts/cart.js:38 | the result is the position of the first line item with that name; None exactly when no line item has it |
| Items.SpliceStart | scripts/cart.js:109 | `splice`'s start: the index itself when in range, counted from the end when negative, clamped to the length |
| Items.RemoveAt | scripts/cart.js:109 | removing position i shortens the list by one, keeps the items before i and shifts the later ones down by one |
| Items.AddedMerges | scripts/cart.js:38-41 | adding a name already present raises only that line item's quantity, by exactly the amount added; length, order, names, prices and all other items are unchanged |
| Items.AddedAppends | scripts/cart.js:42-48 | adding a new name appends `{name, price, quantity}` at the end and keeps all earlier line items |
| Items.AddedWellFormed | scripts/cart.js:35-48 | adding a positive quantity keeps names unique and quantities positive |
| Items.AddedHolds | scripts/cart.js:38-48 | after an addition the cart holds a line item with that name |
| Items.AddedQuantityOf | scripts/cart.js:38-48 | the quantity held under the added name grows by exactly the amount added; every other name's quantity is unchanged |
| Items.QuantityOfAbsent | scripts/cart.js:38 | a name with no line item holds quantity zero |
| Items.QuantityOfUnique | scripts/cart.js:38-41 | with unique names, the quantity held under a name is that of its single line item |
| Items.AddedTotal | scripts/cart.js:38-48 | the total grows by the amount added times the price of the line item that received it: the stored price if the product was already there, otherwise the given price |
| Items.RemoveAtWellFormed | scripts/cart.js:109 | removing one line item keeps names unique and quantities positive |
| Items.SplicedInRange | scripts/cart.js:107-109 | `removeItem(i)` with `0 <= i < length` yields `items[..i] + items[i+1..]`, one shorter |
| Items.SplicedPastEnd | scripts/cart.js:109 | an index at or past the end removes nothing |
| Items.SplicedWellFormed | scripts/cart.js:107-112 | for any index, removal keeps names unique and quantities positive |
| Items.ChangedToNothing | scripts/cart.js:95-98 | a change that brings the quantity to zero or below removes that line item, as `removeItem(index)` does |
| Items.ChangedByMinusQuantity | scripts/cart.js:95-98 | subtracting the whole quantity is the same as `removeItem(index)` |
| Items.ChangedInPlace | scripts/cart.js:99-101 | a change that leaves a positive quantity sets only that quantity; the length, the name, the price and all other line items are unchanged |
| Items.ChangedWellFormed | scripts/cart.js:93-104 | changing a quantity keeps names unique and quantities positive |
| Items.TotalAppend | scripts/cart.js:71-73 | a running total over the line items in order adds price times quantity for each |
| Items.DeskLampScenario | scripts/cart.js:28-53 | adding 2 lamps at 1999 cents gives a 3998 total; adding 1 more merges to quantity 3 and a 5997 total; removing index 0 empties the cart |
| Cart.ViewOf | scripts/cart.js:64-87 | the rendered view: the empty-cart message, or one row per line item and the total; see `Cart.ViewRows` |
| Cart.PopupId | scripts/cart.js:11 | the id `showPopup` looks up, `popup-` and the slug; see `Cart.PopupIdShape` |
| Cart.GuardRefuses | scripts/cart.js:29-30 | the refusal test as written: NaN and numbers at or below zero are refused, `Infinity` is not; see `Cart.InfinityStoredAsNull` |
| Cart.StoredQuantity | scripts/cart.js:50 | `JSON.stringify` keeps an integer quantity and writes NaN and the infinities as `null` |
| Cart.InfinityStoredAsNull | scripts/cart.js:29-50 | an infinite parsed quantity passes the guard and is stored as `null` |
| Cart.Admitted | scripts/cart.js:29-30 | the admitted quantity is exactly a positive integer, and it is stored unchanged |
| Cart.AdmittedMatchesGuard | scripts/cart.js:29-30 | `Admitted` refuses exactly what the guard refuses, except that it also refuses `Infinity` |
| Cart.ViewRows | scripts/cart.js:64-87 | the empty-cart view is shown exactly for an empty cart; otherwise there is one row per line item showing its name, unit price, quantity and line total, each row's button index is its position, and the total is the cart total |
| Cart.PopupIdShape | scripts/cart.js:11 | the popup id is `popup-` followed by slug characters only |
| Cart.CartStore.Load | scripts/cart.js:35 | an absent key reads as the empty cart; a stored list reads as itself |
| Cart.CartStore.AddToCart | scripts/cart.js:28-53 | refuses, storing nothing, exactly when the quantity is not a positive integer (NaN, zero or below, or infinite); otherwise stores the `Added` cart, keeps both invariants, asks for popup `popup-<slug>` and renders the new cart |
| Cart.CartStore.ChangeQuantity | scripts/cart.js:93-104 | stores the `Changed` cart (removal at zero or below, in-place update otherwise), keeps both invariants and renders it |
| Cart.CartStore.RemoveItem | scripts/cart.js:107-112 | stores the `splice(index, 1)` result, keeps both invariants and renders it |
| Cart.CartStore.ClearCart | scripts/cart.js:115-118 | removes the key, so the cart reads as empty, and renders the empty-cart view |
| Cart.CartStore.DisplayCart | scripts/cart.js:56-90 | returns the view of the stored cart, with the total accumulated by the loop over the line items |

## Left out

- DOM and UI: the element lookups, `innerHTML` string building, `style.display` changes, `closePopup`, `checkout`, `closeModal` and the event listeners are not modelled. `showPopup` is modelled only as the popup id that `AddToCart` returns; whether that element exists, and the `console.warn`, are not.
- `displayCart` returns early when its two target elements are missing (line 62). That is a DOM check and is not modelled. `DisplayCart` returns the rows and total it would render, not HTML.
- Storage and serialisation: `localStorage` and `JSON.parse`/`JSON.stringify` are replaced by the `slot` field. Corrupt stored text makes `JSON.parse` throw, and the source does not handle that, so there is no behaviour to model.
- Numbers: prices are integer cents, so `parseFloat`, floating-point `price * quantity`, the running float total and `toFixed(2)` formatting are not modelled. Totals here are exact.
- Cart.CartStore.AddToCart: takes the result of `parseInt` as a `Number`; the digit parsing itself is not modelled. An integer result is taken to be exact, so the rounding of `existingItem.quantity += quantity` (line 41) above 2^53 is not modelled. An infinite result is refused, which is the corrected guard (see Findings): the source lets `Infinity` through and stores it as `null`, breaking the positive-quantity invariant. The default `quantity = 1` and the callers' `value || 1` are up to the caller, which passes `Int(1)`.
- `alert` is modelled as the `Refused` outcome; the message is not modelled.
- `RemoveItem` takes an integer index. JavaScript's truncation of fractional or non-numeric indices is not modelled.
- Slug.LowerChar: only ASCII A-Z have a case mapping. JavaScript's full-Unicode `toLowerCase` also maps U+0130 and U+212A to ASCII letters (which would then survive the strip); the model drops them instead. Other non-ASCII characters are removed by the strip step either way. The whitespace class is JavaScript's full `\s` set.
- Several browser tabs writing the same key at once (lost updates) are not modelled.
- `handleProductCart` only forwards its arguments to `addToCart`, so it has no model of its own.

Where the code goes beyond the plain description of the cart, the model follows the code:

- `removeItem` uses `splice`'s full index rules rather than requiring a valid position.
- Adding a product that is already in the cart keeps the stored price and ignores the given one (`Items.AddedMerges`, `Items.AddedTotal`).

## Findings

| source | as written | input that shows it | evidently intended | confidence | as-written member | corrected member |
|---|---|---|---|---|---|---|
| scripts/cart.js:29-30 | the guard `quantity <= 0 \|\| isNaN(quantity)` lets an infinite quantity through; line 50 then stores it as `null` | a quantity of 400 nines: `parseInt` gives `Infinity`, which is neither `<= 0` nor NaN | refuse every quantity that is not a finite positive number | medium, not executed | Cart.InfinityStoredAsNull | Cart.Admitted |
