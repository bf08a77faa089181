# PureBeans storefront pages — a Dafny model

A model of the three page scripts of a small client-side coffee storefront:

- **Services.js** (the product-selection page): product cards shown three per
  page with next/previous buttons that stop at the ends. A set of selected
  card indices, toggled by each card's select button. A cancel-all button
  that asks for confirmation first. A checkout button that writes the selected
  products (`{name, price}`) to the browser's local storage under
  `selectedProducts` and opens the invoice page.
- **Login.js** (the login gate): both fields are trimmed. Empty fields and
  passwords shorter than 8 are rejected before anything else. The fields are
  then compared exactly with the one valid pair. On success the user name is
  remembered in storage (or forgotten). On failure a counter goes up, and the
  error page opens from the third failure on. On load, a remembered user name
  fills in the form.
- **Invoice.js** (the invoice page): reads the payload (an absent key gives
  an empty order) and shows one row per product with quantity 1. It computes
  subtotal, taxes (10%), discount (5%) and total. Purchase shows a numbered
  receipt, removes the payload and goes back to the product page. Cancel keeps
  the payload and goes back only if the user agrees.

Module `Browser` (browser.dfy) holds what the pages share: the local storage
as a class over a `map<string, StoredValue>`, the product `Entry`, and the
`Redirect` a handler issues. Modules `Services`, `Login` and `Invoice` follow
the three scripts. Each page is a class whose fields are the script's mutable
state, and each event handler is a method. Confirmation answers and storage
failures are method parameters. Navigation is a returned `Redirect`. The
rendered DOM (active cards, selected marks, disabled buttons, table rows) is
returned as values. Module `Site` (site.dfy) runs the pages one after another
on one store.

Three behaviours of the code a reader might not expect:

- The checkout payload lists the selected products in the order they were
  (last) selected, because a JavaScript `Set` iterates in insertion order.
  It is not in ascending index order. Deselecting and reselecting a card
  moves it to the end (`Services.ToggleTwiceSelected`,
  `Services.PayloadFollowsSelectionOrder`).
- Stored text under `selectedProducts` that is not valid JSON is not read as
  an empty order: `JSON.parse` throws and the invoice script stops, so the
  `Invoice.InvoicePage` constructor requires a readable payload. (The model's
  `Text` value under that key stands for such text.)
- After the third failed login, every further failure also redirects to the
  error page, because the check is `failedAttempts >= 3`.

With no cards at all, `totalPages` is 0. The next button is then not disabled,
because `1 !== 0`, but clicking it does nothing
(`Services.ServicesPage.UpdateNavigationButtons`).

## Model

| member | source | states |
|---|---|---|
| `Services.PageCount` | Services.js:19-21 | the page count is the ceiling of cards / 3: the least p with p·3 ≥ cards, and 0 exactly when there are no cards |
| `Services.PageOfCardInRange` | Services.js:19-21 | every card's page (index / 3 + 1) lies in 1..totalPages |
| `Services.EveryPageHoldsACard` | Services.js:19-21 | every page in 1..totalPages starts at a card index below the card count |
| `Services.AtMostThreeActive` | Services.js:37-47 | at most 3 cards are on any one page |
| `Services.Remove` | Services.js:142 | deleting an index removes exactly that index, keeps the others, and keeps indices distinct |
| `Services.RemoveAt` | Services.js:142 | deleting the k-th selected index keeps the others in their order |
| `Services.RemoveAppended` | Services.js:145 | deleting an index that was just added (and was not there before) restores the selection exactly |
| `Services.Toggle` | Services.js:139-146 | toggling i flips i's membership, leaves every other index's membership alone, and keeps indices distinct |
| `Services.ToggleTwiceMembership` | Services.js:139-146 | toggling the same index twice restores every index's membership |
| `Services.ToggleTwiceUnselected` | Services.js:139-146 | toggling an unselected index twice restores the selection exactly |
| `Services.ToggleTwiceSelected` | Services.js:139-146 | toggling a selected index twice moves it to the end of the selection order |
| `Services.Payload` | Services.js:168-179 | the payload has one entry per selected index, in selection order, each the card at that index |
| `Services.ServicesPage.constructor` | Services.js:18-25 | page load: page 1, nothing selected, totalPages = ceil(cards / 3) |
| `Services.ServicesPage.ShowCards` | Services.js:37-47 | card i is active exactly when i / 3 + 1 is the shown page, i.e. exactly when i is among that page's cards (at most 3 by `Services.AtMostThreeActive`) |
| `Services.ServicesPage.UpdateNavigationButtons` | Services.js:57-60 | prev is disabled exactly on page 1 and next exactly on the last page; with cards, a button is disabled exactly when its handler would do nothing |
| `Services.ServicesPage.UpdateSelectionUI` | Services.js:71-97 | card i is marked selected exactly when i is selected; checkout and cancel-all show exactly when the selection is non-empty, i.e. when some card is marked |
| `Services.ServicesPage.Next` | Services.js:107-112 | the page advances by one only before the last page; the selection is unchanged; 1 ≤ page ≤ totalPages is kept |
| `Services.ServicesPage.Prev` | Services.js:117-122 | the page goes back by one only after page 1; the selection is unchanged; 1 ≤ page ≤ totalPages is kept |
| `Services.ServicesPage.ToggleSelect` | Services.js:139-150 | only the clicked index changes membership; the page is unchanged; indices stay distinct and in range |
| `Services.ServicesPage.CancelAll` | Services.js:197-206 | a confirmed cancel empties the selection; a declined one changes nothing |
| `Services.ServicesPage.Checkout` | Services.js:162-191 | an empty selection writes nothing and stays; a failed write stays and leaves storage as it was; otherwise exactly the payload is written under `selectedProducts` and the invoice page opens |
| `Services.PaginationKeepsSelection` | Services.js:107-146 | selecting card 0, going to page 2 and back keeps card 0 selected and returns to page 1 |
| `Services.PayloadFollowsSelectionOrder` | Services.js:169 | selecting card 2 then card 0 writes [card 2, card 0] |
| `Login.LeadingSpace` | Login.js:15 | the length of the longest all-whitespace prefix |
| `Login.TrailingSpace` | Login.js:15 | the length of the longest all-whitespace suffix |
| `Login.Trim` | Login.js:15-18 | the result is the input with its leading and trailing whitespace runs cut off, and neither starts nor ends with whitespace |
| `Login.TrimEmptyIffBlank` | Login.js:15-27 | a trimmed field is empty exactly when the raw field is all whitespace |
| `Login.TrimKeepsTrimmed` | Login.js:15-18 | a field without whitespace at either end is left as it is |
| `Login.TrimIdempotent` | Login.js:15-18 | trimming twice is trimming once |
| `Login.Classify` | Login.js:24-36 | login succeeds exactly on the exact valid pair; empty fields and short passwords are rejected before the comparison; the length check never rejects the valid password |
| `Login.RememberedName` | Login.js:72-74 | a remembered name counts only when present and non-empty |
| `Login.LoginPage.constructor` | Login.js:67-80 | on load the counter is 0; a remembered name fills the user field and ticks the box, otherwise the form is left as it was |
| `Login.LoginPage.HandleLogin` | Login.js:13-60 | decides on the trimmed fields; validation failures change neither counter nor storage nor page; success sets or removes `rememberedUsername` and opens the product page; a mismatch adds exactly 1 to the counter and opens the error page exactly when the counter reaches 3 or more |
| `Login.ThirdFailureRedirects` | Login.js:48-58 | blank and short inputs never count; the error page opens on the third mismatch and not before |
| `Invoice.SumAppend` | Invoice.js:48-54 | the subtotal of two payloads joined is the sum of their subtotals |
| `Invoice.SumNonNegative` | Invoice.js:48-54 | with non-negative prices the subtotal is non-negative |
| `Invoice.PriceAtMostSum` | Invoice.js:48-54 | with non-negative prices every price is at most the subtotal |
| `Invoice.ReadPayload` | Invoice.js:34 | an absent key reads as an empty payload; a stored product list reads as itself; text that is not valid JSON does not read |
| `Invoice.ChargesFor` | Invoice.js:89-91 | taxes are 10% and the discount 5% of the subtotal and the total is subtotal + taxes − discount; hence the total is 105% of the subtotal, taxes are twice the discount, and for a non-negative subtotal 0 ≤ discount ≤ taxes and total ≥ subtotal |
| `Invoice.LatteAndMuffin` | Invoice.js:89-91 | a 4.50 and a 2.25 product give 6.75, 0.675, 0.3375 and 7.0875 |
| `Invoice.BuildRows` | Invoice.js:48-81 | one row per entry in payload order with quantity 1 and row total equal to the price; the subtotal is the sum of the prices |
| `Invoice.ReceiptLines` | Invoice.js:127-129 | the receipt lists the entries numbered 1..n in payload order |
| `Invoice.InvoicePage.constructor` | Invoice.js:33-104 | the page shows the stored payload (or nothing), one row per entry, and charges computed from the sum of its prices |
| `Invoice.InvoicePage.HandlePurchase` | Invoice.js:115-145 | the receipt lists the payload and the charges; `selectedProducts` is removed and no other key changes; the product page opens |
| `Invoice.InvoicePage.HandleCancelExit` | Invoice.js:151-158 | storage is not touched; the product page opens exactly when the user agrees |
| `Site.CheckoutThenPurchase` | Invoice.js:140-141 | what checkout writes is what the invoice page shows, totalled at 105%; after purchase the next invoice is empty and the remembered name survives |
| `Site.CancelKeepsPayload` | Invoice.js:151-158 | after cancel the next visit to the invoice page shows the same products |
| `Site.FailedCheckoutLeavesEmptyInvoice` | Services.js:181-190 | starting from a store with no payload, a failed write at checkout does not navigate and leaves an empty invoice with zero charges |
| `Site.FailedCheckoutKeepsOldPayload` | Services.js:181-190 | a failed write at checkout leaves an earlier payload in place, so the next invoice page shows that old order, not the new selection |
| `Site.RememberMeAcrossReloads` | Login.js:36-47 | logging in with remember-me pre-fills the next login form; logging in without it stops the pre-fill |

## Left out

- DOM access and rendering (`querySelector`, `classList`, `textContent`, `createElement`, `style.display`). Their effects are returned as values: active flags, selected marks, disabled flags, rows.
- Event-listener wiring and `DOMContentLoaded`. Each handler is a method, and the page-load code is the class constructor.
- `alert`, `confirm` and `window.print`. A confirm answer is a boolean parameter and alerts become outcome tags. The print button (Invoice.js:164-166) changes no state and is not modelled.
- The hard-coded redirect URLs. They are the `Redirect` values `ToServices`, `ToInvoice` and `ToError`.
- The internals of `localStorage`, and `JSON.stringify`/`JSON.parse`. Storage is a typed key→value map. A `Text` value under `selectedProducts` stands for text that is not valid JSON. The invoice page's parse throws on it, and the model requires it not to be there rather than modelling the stopped script.
- Other JSON under `selectedProducts` is not modelled: `null`, `false` or `0` parse and `|| []` makes them an empty order (as for an absent key); `{}` or a number parse and the script stops at `forEach` (Invoice.js:48); an array with an entry whose price is not a number stops the script at `formatNumber(price)` (Invoice.js:66). Only the product page writes that key, and it always writes a product list.
- Storage write failures (such as a full store) are a boolean input to `Services.ServicesPage.Checkout`.
- Login.LoginPage.HandleLogin: a throwing `rememberedUsername` write (Login.js:40, outside any try/catch; a full or disabled store) aborts the handler before the redirect at Login.js:47. This is not modelled: the model's successful login always writes and opens the product page. `JSON.stringify` cannot throw on name/price entries.
- `parseFloat(...replace('$', ''))` on card prices (Services.js:173) and `toFixed(2)` formatting (Invoice.js:24-26). Cards carry an exact `real` price and all arithmetic is exact, so IEEE rounding and the two-decimal display are not modelled.
- The receipt's date (`new Date().toLocaleString()`), the customer name and email constants, and the receipt's text layout. The receipt is modelled as its numbered product lines and its charges.
- JavaScript strings are UTF-16 code units while Dafny's `char` is a Unicode scalar value. Characters outside the Basic Multilingual Plane are one `char` here and two code units in the source. Trimming and the comparison with the fixed credentials come out the same either way. The 8-character length check does not: the source counts code units, so a password with such characters can pass it there and fail it here.
- A `rememberedUsername` value that is not text is not modelled. Only the login page writes that key, and it always writes text.
