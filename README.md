# Inventory page: a verified model of its decision layer

The repository is a browser page for a shop inventory. It loads the product list from a
remote API, shows it as a table with statistics, filters it by a search box and a type
selector, and creates, updates and deletes products through a form and row buttons.
Almost all of `app.js` is DOM and `fetch` glue. This project models the deterministic
part inside it:

- the two quantity classifiers of a row (row highlight and quantity badge);
- the filter chain of the search box;
- the statistics (product count and inventory value);
- the rule by which a list load replaces, or keeps, the product store;
- the form's create/edit mode and the request each action sends;
- the data of each table row: ID prefix, type badge class, quantity classes and the
  escaped name written into the row's handlers.

Modules, one per component of the page:

- `Catalog`: the product record and the two demonstration products.
- `Text`: ASCII `toLowerCase`, `includes`, `substring(0, 8)`, the letter filter of the
  type badge and the apostrophe escaping.
- `Seqs`: an order-preserving `filter` and the subsequence relation.
- `Stock`: `getStockClass` and `getQuantityBadgeClass`.
- `Search`: `filterProducts`.
- `Stats`: the `reduce` of `updateStats`.
- `Api`: requests, the API's replies (as inputs), routes and notifications.
- `Render`: the rows of `updateProductsTable`, with the row loop as a method.
- `Page`: a class holding the page's state (`allProducts`, `productId`, the other form
  fields, the submit button, the table body and the two statistics) and the handlers
  that change it.
- `Wrappers`: `Option`.

The network is not modelled. What a call answered is a parameter of the handler that
made it: `ListReply` for the list call, `Reply` for create, update and delete. Price is
an integer number of cents.

After a failed connection `showExampleData` (app.js:293-314) renders the two
demonstration products and writes their count, but never assigns `allProducts`, so the
store keeps its old value. `Page.InventoryPage.LoadProducts` states this.

## Model

| member | source | states |
|---|---|---|
| `Stock.StockClass` | app.js:278-283 | `low-stock` exactly for q < 5 (zero included), `medium-stock` exactly for 5 <= q < 10, `high-stock` exactly for q >= 10 |
| `Stock.QuantityBadgeClass` | app.js:285-290 | `bg-danger` exactly for q = 0, `bg-warning text-dark` exactly for q < 5 other than 0, `bg-info` exactly for 5 <= q < 10, `bg-success` exactly for q >= 10 |
| `Stock.StockTierMonotone` | app.js:278-283 | more stock never gives a lower highlight tier |
| `Stock.BadgeRefinesStock` | app.js:278-290 | badge and highlight agree on the 5-9 and >= 10 bands; the low highlight band is exactly the badge's danger and warning classes |
| `Stock.ZeroDistinguishesOnlyTheBadge` | app.js:278-290 | zero gets the same highlight as 1 and 4, but a badge different from theirs |
| `Text.ToLower` | app.js:206 | same length; each character is the ASCII-lowered input character; no upper-case letter remains |
| `Text.ToLowerIdempotent` | app.js:206 | lowering twice equals lowering once |
| `Text.Contains` | app.js:213-214 | the empty term is always contained; a contained term is no longer than the text; a prefix is contained |
| `Text.NoMatchWithoutCharacter` | app.js:211-215 | when no character of a text lowers to some character of the term, the lowered text does not contain the term |
| `Text.ContainsIff` | app.js:213-214 | the `includes` scan succeeds exactly when the term occurs at some offset |
| `Text.IdPrefix` | app.js:70 | the ID shown has length min(8, length of RowKey) and is a prefix of RowKey |
| `Text.TypeClass` | app.js:64 | `badge-` followed only by a-z characters; they form a subsequence of the lowered type and keep every a-z character of it, with its multiplicity |
| `Text.EscapeQuotes` | app.js:89 | the escaped name is one character longer per apostrophe, and every apostrophe in it follows a backslash |
| `Text.EscapeRoundTrip` | app.js:89 | reading the escaped name back (a backslash-apostrophe pair stands for an apostrophe) gives the original name |
| `Text.EscapeWithoutQuotes` | app.js:89 | a name with no apostrophe is copied unchanged |
| `Seqs.Filter` | app.js:212-219 | the result is no longer than the input, holds exactly the input elements that pass the test, and only such elements |
| `Seqs.FilterIsSubsequence` | app.js:212-219 | a filter result is an order-preserving subsequence of its input |
| `Seqs.FilterFilter` | app.js:211-220 | two filters in a row select what one filter with the conjunction selects |
| `Seqs.FilterIdempotent` | app.js:212-219 | filtering twice with the same test equals filtering once |
| `Search.FilterProducts` | app.js:205-220 | the result is an order-preserving subsequence of `allProducts`; a product is in it exactly when the term is empty or the lowered name or location contains the lowered term, and the type filter is empty or equals the type |
| `Search.SingleFilter` | app.js:209-220 | the guarded two-stage chain equals one pass with the combined selection rule |
| `Search.NoFilterShowsAll` | app.js:209-220 | an empty search box and an empty type filter show every loaded product, in order |
| `Search.FilterProductsIdempotent` | app.js:205-220 | filtering the filtered list again with the same inputs changes nothing |
| `Search.SearchSelectsFirst` | app.js:206-216 | for any non-empty search input: a product whose lowered name or location contains the lowered input, followed by one whose fields do not, selects the first alone |
| `Search.ExampleSearchByName` | app.js:211-216 | searching "laptop" in the demonstration products yields exactly the laptop |
| `Search.ExampleSearchByType` | app.js:218-220 | the type filter "Ropa" on the demonstration products yields exactly the shirt |
| `Stats.TotalValue` | app.js:228 | non-negative prices and quantities give a non-negative inventory value |
| `Stats.TotalValueConcat` | app.js:228 | the inventory value of an empty store is 0, and the value is additive over concatenation |
| `Stats.TotalValueCons` | app.js:228 | the value of a store is its first product's price times quantity plus the value of the rest |
| `Stats.ExampleStats` | app.js:226-228 | the demonstration products (`Catalog.ExampleProducts`, app.js:294-311) count 2 and are worth 427482 cents (4274.82) |
| `Render.RowFor` | app.js:62-93 | a row carries its product, an ID prefix of length min(8, length of RowKey), a type class of `badge-` and a-z letters only, the highlight and badge tiers of its quantity, and an escaped name that reads back as the product's name |
| `Render.RenderTable` | app.js:42-103 | the loop yields the empty state exactly for an absent or empty input, and otherwise one row per product, in input order |
| `Render.RendersDeterministic` | app.js:42-103 | what is rendered depends on the input alone, so repeated renders of the same input (an empty one included) agree |
| `Render.EmptyStateIff` | app.js:45-58 | the empty state appears exactly when the input is absent or has no products |
| `Api.IsSuccessStatus` | app.js:23 | exactly `frontend_ready` and `exitoso` count as a successful list answer |
| `Api.MessageOr` | app.js:29 | a present non-empty server message is shown as is; otherwise the fallback; a non-empty fallback never gives an empty message |
| `Api.Route` | app.js:2 | a request is read as an operation only when its URL starts with the API base URL |
| `Api.ListRequest` | app.js:20 | the list call is read as the list operation and has no body |
| `Api.SubmitRequest` | app.js:109-137 | a submit is read as the update of exactly the edited id in edit mode and as a create otherwise, and carries the form data |
| `Api.DeleteRequest` | app.js:184-186 | a delete is read as the removal of exactly the given id and has no body |
| `Api.RequestsSeparateProducts` | app.js:126 | update requests for two different ids differ, and so do delete requests |
| `Page.InventoryPage.constructor` | app.js:3 | the page starts with an empty store and the form in create mode |
| `Page.InventoryPage.UpdateStats` | app.js:226-232 | the count shown is the store's length and the value shown is the store's inventory value |
| `Page.InventoryPage.ShowExampleData` | app.js:293-314 | the demonstration rows and their count are shown; the store and the inventory value are left alone |
| `Page.InventoryPage.LoadProducts` | app.js:16-39 | the list request is sent; on `frontend_ready` or `exitoso` the store becomes `datos` (or empty when absent) and table and statistics follow it; on any other status nothing changes and a warning carries the server message or the default; on a failed call the store is unchanged and the demonstration rows are shown |
| `Page.InventoryPage.FilterProducts` | app.js:205-223 | the table shows the filtered store; the store and statistics do not change |
| `Page.InventoryPage.ResetForm` | app.js:235-240 | the product id becomes empty (create mode), the fields get their defaults, the button reads "Agregar Producto" |
| `Page.InventoryPage.EditProduct` | app.js:157-173 | the product id becomes the row's id, the fields its values, the button reads "Guardar Cambios"; an info notice names the product |
| `Page.InventoryPage.EditFromRow` | app.js:88-89 | as this model reads the handler text, clicking the edit button of a row built by `RowFor` puts that product's key and fields, its name with the apostrophe escapes undone, into the form, switches the button to "Guardar Cambios" and names the product in the info notice |
| `Page.InventoryPage.HandleProductSubmit` | app.js:106-154 | the request follows the mode the form was in; only an ok answer resets the form and asks for a reload; a non-ok or failed call leaves the id, fields and button unchanged, with the matching error notice |
| `Page.InventoryPage.SubmitThenReload` | app.js:106-154 | a non-ok or failed submit changes nothing and sends no reload; an ok one resets the form and button and sends the list request, after which store, table and statistics follow the rule of `LoadProducts` for its answer |
| `Page.DeleteProduct` | app.js:176-202 | without confirmation nothing is sent or shown; with it a DELETE of the id is sent, and a reload follows exactly on an ok answer, with a success notice; a non-ok answer gives a danger notice with the server message or "Error al eliminar", a failed call one with "No se pudo eliminar el producto" |

## Left out

- Network calls, `async`/`await` and `response.json()` are not modelled. Each handler takes what the call answered as a parameter. A failed fetch and a body that is not JSON are one case (`ListUnreachable`, `Unreachable`).
- `Page.InventoryPage.HandleProductSubmit` does not itself run the reload it asks for, because `loadProducts()` is started without `await`; `SubmitThenReload` shows the sequence once the reload has answered.
- Overlapping requests in flight are not modelled. The code gives their answers no order, so each handler runs to completion alone.
- DOM output is represented by data. The HTML markup, the empty-state button, the badge text, `toFixed(2)` formatting, the loading spinner, `focus`, `scrollTo` and the demonstration-mode alert banner are left out. So are the toast titles and the Bootstrap colour mapping; a notification is its kind and its message.
- The `confirm()` dialog is a boolean input of `Page.DeleteProduct`. The product name shown in the dialog is not modelled.
- `parseInt` and `parseFloat` of the form fields are not modelled. The fields already hold an integer quantity and a price in integer cents.
- The default values that `form.reset()` restores come from the page's HTML, which is not part of this model. One fixed value, `DefaultFields`, stands for them. The constructor also gives fixed initial values to the table and statistics, which the HTML provides.
- Floating-point prices are not modelled. Prices are integer cents, so `totalValue` is an exact sum with no float rounding.
- Quantities are integers. A fractional `Cantidad` is not modelled.
- `Text.ToLower`: JavaScript's `toLowerCase` is Unicode-aware. The model lowers ASCII letters only and keeps every other character.
- `Text.IdPrefix`: JavaScript's `substring` counts UTF-16 code units, the model counts characters. They differ only on characters outside the Basic Multilingual Plane.
- `Text.EscapeRoundTrip` pairs the escaping with its own inverse, not with JavaScript's full reading of a string literal. Other escapes are not modelled: a backslash within the name, and the unescaped `RowKey`, `Tipo` and `Ubicacion` in the same handler text.
- `Page.InventoryPage.EditFromRow` reads the handler text with `Text.UnescapeQuotes` only. In the browser the attribute is first HTML-decoded (an `&amp;` in a field becomes `&`) and then read as JavaScript: a backslash in the name starts another escape (`\n` becomes a newline), a trailing backslash or a `"` breaks the handler, and an apostrophe in `RowKey`, `Tipo` or `Ubicacion`, which are not escaped, breaks it too. For such rows the form does not receive the product's exact values.
- `Api.Route` is this model's own reading of a URL, standing for the API, which is not modelled; the real API's query parsing is not part of this model.
- `Api.SubmitRequest`: the id is appended without URL encoding (app.js:126), so a real query reader sees a different id when it contains `&`, `#`, `%` or `+`, and `fetch` drops everything from a `#` on. `Api.Route` takes the rest of the URL verbatim, so the model does not show this.
- `Api.DeleteRequest`: the same holds for the unencoded id of app.js:184.
- A product without `Tipo`, `RowKey` or `Nombre` makes `updateProductsTable` throw a TypeError after app.js:24 has already replaced `allProducts`; `loadProducts`' catch then shows the demonstration rows and the connection warning over the new store. In the model every product has string fields, so this cannot happen.
- Event wiring (`DOMContentLoaded`, the `submit` and `input` listeners) and writing the API URL into the page are left out. So is `console.error`.
