# Ghost Commerce storefront: cart, catalog and order logic in Dafny

This project models the client-side logic of the Ghost Commerce storefront, a
React shop that sells in FCFA and sends orders to the owner over WhatsApp. It
covers these parts:

- **the cart** kept by the shop page: add, remove, set a quantity, the unit
  count on the badge and the price total;
- **the cart sheet**: its −/+/trash buttons, its header and what it shows for an
  empty cart;
- **the product card's add-to-cart guard**: a product with sizes waits for a
  size, and the disabled flag and label follow from that;
- **the WhatsApp order message** built on the checkout page, and the link that
  carries it;
- **the demo catalog handlers** of the shop page, and the product list loaded
  from the backend with its create, update and delete operations;
- **the administration page and the product form**: record defaulting, image
  fallback, update-or-create dispatch, reset and required-field validation.

Prices are integers, because FCFA has no minor unit. Ids are strings, and the
clock-made id of a new demo product is a parameter.

Where the source changes state, the model does too. The shop page, the product
list hook, the administration page and the product form are classes. Their
methods assign the fields the handlers set. The new lists come from the pure
functions of `Cart`, `Keyed`, `Storefront` and `ProductStore`. The order
message is built by methods that append to a string, as the source does with
`+=`, and they are proved equal to a line-by-line specification
(`Checkout.OrderLines`).

Modules, one per file:

- `Wrappers`: the Option type.
- `Seqs`: facts about sequences shared by the list and text proofs.
- `Keyed`: ordered lists keyed by id, with find, filter and map-by-id.
- `Catalog`: the product, row and cart-line records, the chosen file and upload
  outcome shared by both forms, and decimal rendering of
  integers.
- `Cart` and `Storefront`: src/pages/Index.tsx.
- `CartSheet`: src/components/Cart/CartSheet.tsx.
- `ProductCard`: src/components/Products/ProductCard.tsx.
- `Checkout`: src/pages/Checkout.tsx.
- `ProductStore`: src/hooks/useProducts.tsx.
- `Admin`: src/pages/Admin.tsx.
- `ProductForm`: src/components/Admin/ProductForm.tsx.

Some behaviours of the code are easy to misread:

- **Adding a product already in the cart** only raises that line's quantity.
  The line keeps the size it was first added with; the new size is not stored.
  See `Cart.AddExisting`.
- **Setting a quantity** removes the line only for exactly 0. A negative
  quantity is stored as given. See `Cart.UpdateOverwrites`.
- **Line quantities** can therefore be 0 or less after a direct negative update.
  The cart invariant "at least one unit per line" (`CartSheet.WellFormed`) is
  proved to hold through every button of the sheet and through `addToCart`. It
  is not claimed for `updateCartQuantity` with a negative argument.
- **The administration page's submit** has no catch. Neither page that renders
  it passes an upload callback, so choosing a file makes the upload throw. The
  handler then stops before the add or update call and before the reset
  (`UploadThrows` in `Admin.AdminPanel.HandleSubmit`).

## Model

| member | source | states |
|---|---|---|
| Keyed.RemoveKey | src/pages/Index.tsx:89 | the filtered list is no longer than the input and holds no element with the removed key |
| Keyed.UpdateKey | src/pages/Index.tsx:82-84 | mapping by id keeps the length of the list |
| Keyed.UpdateKeyIndex | src/pages/Index.tsx:82-84 | at each position the map-by-id applies `f` exactly where the key matches and keeps every other element |
| Keyed.RemoveKeyMember | src/pages/Index.tsx:89 | an element survives the filter iff it was in the list and its key differs from the removed one |
| Keyed.RemoveKeyAppend | src/pages/Index.tsx:89 | filtering distributes over concatenation, so survivors keep their relative order |
| Keyed.RemoveKeyAbsent | src/pages/Index.tsx:89 | filtering out a key that is absent returns the list unchanged |
| Keyed.RemoveKeyAt | src/pages/Index.tsx:89 | with unique keys, filtering out the key at index k removes exactly element k |
| Keyed.RemoveKeyKeepsUnique | src/pages/Index.tsx:89 | filtering preserves key uniqueness |
| Keyed.UpdateKeyKeepsUnique | src/pages/Index.tsx:82-84 | a key-preserving map-by-id preserves key uniqueness |
| Keyed.UpdateKeyAbsent | src/pages/Index.tsx:82-84 | mapping an absent key returns the list unchanged |
| Keyed.UpdateKeyAppend | src/pages/Index.tsx:82-84 | map-by-id distributes over concatenation |
| Keyed.UpdateKeyAt | src/pages/Index.tsx:82-84 | with unique keys, mapping the key at index k changes exactly element k to `f` of it |
| Catalog.ChosenImage | src/pages/Admin.tsx:57 | the kept image is the uploaded URL iff the upload gave a non-empty one, else the current image |
| Catalog.NatToString | src/pages/Checkout.tsx:31 | decimal text of a natural: non-empty, digits only, no leading zero |
| Catalog.IntToString | src/pages/Checkout.tsx:31 | decimal text of an integer: non-empty, starting with '-' iff negative |
| Catalog.NatToStringRoundTrip | src/pages/Admin.tsx:99 | reading back the decimal text of a natural gives that natural |
| Catalog.IntToStringRoundTrip | src/pages/Admin.tsx:99 | reading back the decimal text of any integer (sign included) gives that integer |
| Cart.AddToCart | src/pages/Index.tsx:52-72 | afterwards the product is in the cart; the length stays if it was there and grows by one otherwise |
| Cart.RemoveFromCart | src/pages/Index.tsx:89 | afterwards no line holds the removed id |
| Cart.UpdateQuantity | src/pages/Index.tsx:75-86 | 0 leaves no line with the id; any other value keeps the length. Exact contents: UpdateZeroRemoves, UpdateOverwrites, UpdateAbsent |
| Cart.UnitCount | src/pages/Index.tsx:145 | 0 for an empty cart, never negative when no quantity is; additive (UnitCountAppend), raised by one by addToCart (UnitCountAdd) |
| Cart.Total | src/components/Cart/CartSheet.tsx:34 | 0 for an empty cart, never negative for non-negative prices and quantities; additive (TotalAppend) and independent of line order (TotalPermutation) |
| Cart.AddExisting | src/pages/Index.tsx:53-63 | with unique ids, adding a product held at line k gives the same list with only line k's quantity raised by one (size and price kept) |
| Cart.AddNew | src/pages/Index.tsx:66-71 | adding a product not in the cart keeps every earlier line and appends the line (product, 1) |
| Cart.AddKeepsUnique | src/pages/Index.tsx:51-73 | addToCart preserves one line per id |
| Cart.AddKeepsPositive | src/pages/Index.tsx:51-73 | addToCart keeps every quantity at least 1 when each already was, with or without unique ids |
| Cart.UnitCountAppend | src/pages/Index.tsx:145 | the unit count of a concatenation is the sum of the unit counts |
| Cart.TotalAppend | src/components/Cart/CartSheet.tsx:34 | the price total of a concatenation is the sum of the totals |
| Cart.UnitCountAdd | src/pages/Index.tsx:51-73 | with unique ids, addToCart raises the unit count by exactly one |
| Cart.UnitCountAtLeastLines | src/pages/Index.tsx:145 | when every line holds a unit, the unit count is at least the number of lines |
| Cart.TotalPermutation | src/components/Cart/CartSheet.tsx:34 | carts with the same lines in any order have the same total |
| Cart.UpdateZeroRemoves | src/pages/Index.tsx:76-79 | quantity 0 is exactly removal, and the id is then absent |
| Cart.UpdateOverwrites | src/pages/Index.tsx:81-85 | any non-zero quantity, negatives included, keeps the length and overwrites the quantity of exactly the lines with that id |
| Cart.UpdateAbsent | src/pages/Index.tsx:81-85 | updating an id not in the cart leaves it unchanged |
| Cart.UpdateKeepsUnique | src/pages/Index.tsx:75-86 | updateCartQuantity preserves one line per id |
| Cart.AddTwiceIsQuantityTwo | src/pages/Index.tsx:51-86 | adding a new product twice equals adding it once and setting its quantity to 2 |
| Cart.RemoveLine | src/pages/Index.tsx:88-89 | with unique ids, removing line k's id removes exactly line k |
| Cart.RemoveKeepsOthers | src/pages/Index.tsx:89 | a line survives removal iff it was in the cart and belongs to another product |
| Cart.RemoveKeepsOrder | src/pages/Index.tsx:89 | removal distributes over concatenation, so surviving lines keep their order |
| Cart.RemoveAbsent | src/pages/Index.tsx:89 | removing an id not in the cart is a no-op |
| Cart.RemoveKeepsUnique | src/pages/Index.tsx:89 | removeFromCart preserves one line per id |
| CartSheet.MinusRequest | src/components/Cart/CartSheet.tsx:78 | − asks to set that line's id to one less than its quantity when it holds at least one, and to exactly 0 otherwise |
| CartSheet.PlusRequest | src/components/Cart/CartSheet.tsx:89 | characterised by PlusIsReAdd: + has the effect of adding the line's product again |
| CartSheet.TrashRequest | src/components/Cart/CartSheet.tsx:97 | characterised by TrashRemovesLine: the trash request removes exactly its own line |
| CartSheet.MinusAtOneRemoves | src/components/Cart/CartSheet.tsx:78 | − on a line holding one unit removes exactly that line |
| CartSheet.MinusDecrements | src/components/Cart/CartSheet.tsx:78 | − on a line holding more lowers only that line's quantity by one |
| CartSheet.PlusIsReAdd | src/components/Cart/CartSheet.tsx:89 | + on a line has the effect of adding its product to the cart again |
| CartSheet.TrashRemovesLine | src/components/Cart/CartSheet.tsx:97 | the trash button removes exactly its own line |
| CartSheet.DropLineKeepsWellFormed | src/components/Cart/CartSheet.tsx:97 | dropping a line keeps ids unique and quantities positive |
| CartSheet.DecrementKeepsWellFormed | src/components/Cart/CartSheet.tsx:78 | − on a line above one keeps the cart well-formed |
| CartSheet.ButtonsKeepCartWellFormed | src/components/Cart/CartSheet.tsx:74-98 | whichever button of whichever line is pressed, a well-formed cart stays well-formed |
| CartSheet.HeaderText | src/components/Cart/CartSheet.tsx:49 | characterised by HeaderPlural: the line count, with "s" exactly past one line |
| CartSheet.HeaderPlural | src/components/Cart/CartSheet.tsx:49 | the header reads "n articles" iff there is more than one line, and "n article" iff at most one |
| CartSheet.Render | src/components/Cart/CartSheet.tsx:55-107 | the empty message shows iff there are no lines; the total (the cart total) and checkout button show iff there are |
| ProductCard.HandleAddToCart | src/components/Products/ProductCard.tsx:32-38 | nothing is added iff a size is needed and missing; otherwise the product is added with the chosen size, or none for "" |
| ProductCard.Disabled | src/components/Products/ProductCard.tsx:129 | the button is disabled iff out of stock or a size is needed and missing |
| ProductCard.ButtonLabel | src/components/Products/ProductCard.tsx:132-135 | characterised by LabelPriority: each label exactly in its case |
| ProductCard.LabelPriority | src/components/Products/ProductCard.tsx:132-135 | each of the three labels shows exactly in its case, out of stock first, then missing size, then ready |
| ProductCard.NoSizesNeverBlock | src/components/Products/ProductCard.tsx:33 | null or empty sizes never require a selection, so the handler always adds |
| ProductCard.HandlerIgnoresStock | src/components/Products/ProductCard.tsx:32-38 | the handler's outcome does not depend on stock; an out-of-stock product is held back only by the disabled flag |
| ProductCard.EnabledClickAddsOneUnit | src/components/Products/ProductCard.tsx:129 | a click on an enabled button raises the cart's unit count by exactly one |
| Checkout.OrderLines | src/pages/Checkout.tsx:17-38 | characterised by MessageOpening, BlockPosition, SizeLineIff, BlockShape, OrderBullets and EmptyCartMessage |
| Checkout.OrderMessage | src/pages/Checkout.tsx:16-39 | characterised by MessageOpening and MessageClosing; FormatOrderForWhatsApp returns its encoding |
| Checkout.AppendBlock | src/pages/Checkout.tsx:27-35 | appending one item's block extends the message by the text of that item's block lines |
| Checkout.StartMessage | src/pages/Checkout.tsx:17-25 | the opening text is exactly the banner, customer and details-heading lines |
| Checkout.AppendFooter | src/pages/Checkout.tsx:38 | the footer extends the message by the blank, total and blank lines |
| Checkout.AppendBlocks | src/pages/Checkout.tsx:26-36 | the loop over items extends the message by the blocks of all items in cart order |
| Checkout.FormatOrderForWhatsApp | src/pages/Checkout.tsx:16-42 | the result is the encoding of the order message specified line by line |
| Checkout.BlockBullets | src/pages/Checkout.tsx:27 | each item block holds exactly one bullet line |
| Checkout.FrameBullets | src/pages/Checkout.tsx:17-38 | the header and footer hold no bullet line |
| Checkout.ItemLinesAppend | src/pages/Checkout.tsx:26-36 | the blocks of a concatenation are the blocks of each part in order |
| Checkout.BlockPosition | src/pages/Checkout.tsx:26-36 | item k's block lies between the blocks of the items before it and those after it |
| Checkout.ItemBullets | src/pages/Checkout.tsx:26-36 | the item section holds exactly one bullet line per cart line |
| Checkout.OrderBullets | src/pages/Checkout.tsx:16-42 | the whole message holds exactly one bullet line per cart line |
| Checkout.SizeLineIff | src/pages/Checkout.tsx:28-30 | a block has a "Taille:" line iff its item has a non-empty size |
| Checkout.BlockShape | src/pages/Checkout.tsx:27-35 | a block has 7 lines with a size, 6 without; it shows the name, quantity, unit price, line total `price * quantity` and image, in that order |
| Checkout.EmptyCartMessage | src/pages/Checkout.tsx:26-38 | with no items the message is the header followed by the total lines |
| Checkout.MessageOpening | src/pages/Checkout.tsx:17-23 | the message starts with the banner line, then the customer lines Nom, Email, Téléphone, Adresse in order |
| Checkout.MessageClosing | src/pages/Checkout.tsx:38-39 | the message ends with a blank line, the order-total line, a blank line and the thanks |
| Checkout.TwoLineOrder | src/pages/Checkout.tsx:26-52 | for a 2×250000 line and a 1×45000 line sized M: total 545000, two blocks, only the second sized, total line 545000 |
| Checkout.OwnerNumber | src/pages/Checkout.tsx:56 | the owner number is the variable when set and non-empty, else +221781562041 |
| Checkout.WhatsAppUrl | src/pages/Checkout.tsx:57 | the link starts with https://wa.me/, ends with the encoded message and has the summed length |
| Checkout.UrlCarriesMessage | src/pages/Checkout.tsx:57 | splitting the link at its first '?' gives back the base with the owner and `?text=` with the message |
| Checkout.DefaultUrlCarriesMessage | src/pages/Checkout.tsx:56-57 | with no variable set, the link splits into the default number and the message |
| Checkout.HandleWhatsAppSend | src/pages/Checkout.tsx:54-58 | the opened link is built from the owner number and the encoded message of the cart with its total |
| Storefront.InitialProducts | src/pages/Index.tsx:10-41 | three demo products with distinct ids, the first two in stock and the third not |
| Storefront.ReplaceById | src/pages/Index.tsx:126-129 | replacing by id keeps the catalog's length |
| Storefront.DeleteById | src/pages/Index.tsx:136-138 | afterwards no catalog entry has the deleted id |
| Storefront.ViewOf | src/pages/Index.tsx:147-157 | checkout shows iff the page is checkout; admin shows iff not checkout and (admin page or admin mode) |
| Storefront.ReplaceByIdIndex | src/pages/Index.tsx:126-129 | each entry with the product's id becomes the product; the others stay in place |
| Storefront.ReplaceByIdKeepsUnique | src/pages/Index.tsx:126-129 | updating a product preserves unique catalog ids |
| Storefront.DeleteByIdMember | src/pages/Index.tsx:136-138 | an entry survives deletion iff it was there with another id |
| Storefront.DeleteByIdKeepsOrder | src/pages/Index.tsx:136-138 | deletion distributes over concatenation, so survivors keep their order |
| Storefront.ShopPage.constructor | src/pages/Index.tsx:44-48 | demo catalog, empty cart, sheet closed, shop page, not admin |
| Storefront.ShopPage.TotalCartItems | src/pages/Index.tsx:145 | the cart's unit count; ShopPage.AddToCart raises it by exactly one |
| Storefront.ShopPage.AddToCart | src/pages/Index.tsx:51-73 | the cart becomes addToCart of the old cart, stays one line per id, the badge rises by exactly one, other state unchanged |
| Storefront.ShopPage.RemoveFromCart | src/pages/Index.tsx:88-94 | the cart loses that id's lines and stays one line per id; other state unchanged |
| Storefront.ShopPage.UpdateCartQuantity | src/pages/Index.tsx:75-86 | 0 removes, any other value overwrites, the cart stays one line per id; other state unchanged |
| Storefront.ShopPage.HandleCheckout | src/pages/Index.tsx:96-99 | the page becomes checkout, the sheet closes, the checkout view shows, nothing else changes |
| Storefront.ShopPage.AddProduct | src/pages/Index.tsx:114-124 | exactly one product with the given id is appended to the catalog |
| Storefront.ShopPage.UpdateProduct | src/pages/Index.tsx:126-134 | the catalog is replaced by id; cart and page state unchanged |
| Storefront.ShopPage.DeleteProduct | src/pages/Index.tsx:136-143 | the catalog entries with that id go; the cart is untouched |
| Storefront.ShopPage.SetCartOpen | src/pages/Index.tsx:162 | the sheet's open flag becomes the given value, nothing else changes |
| Storefront.ShopPage.EnterAdmin | src/pages/Index.tsx:193 | admin mode turns on and, off the checkout page, the admin view shows |
| Storefront.ShopPage.LeaveToShop | src/pages/Index.tsx:164-167 | back to the shop page; leaving admin turns admin mode off and shows the shop |
| ProductStore.ReplaceRows | src/hooks/useProducts.tsx:83 | replacing rows by id keeps the length |
| ProductStore.DeleteRows | src/hooks/useProducts.tsx:106 | afterwards no row has the deleted id |
| ProductStore.FetchedRows | src/hooks/useProducts.tsx:35 | null data gives the empty list, otherwise the data itself |
| ProductStore.UploadProductImage | src/hooks/useProducts.tsx:116-126 | a URL is returned iff the upload succeeded, and it is the upload's secure_url |
| ProductStore.ReplaceRowsIndex | src/hooks/useProducts.tsx:83 | each row with the id becomes the returned row; the others stay in place |
| ProductStore.ReplaceRowsAbsent | src/hooks/useProducts.tsx:83 | updating an id that is not loaded leaves the list unchanged |
| ProductStore.DeleteRowsMember | src/hooks/useProducts.tsx:106 | a row survives iff it was loaded with another id |
| ProductStore.DeleteRowsKeepsOrder | src/hooks/useProducts.tsx:106 | deletion distributes over concatenation, so survivors keep their order |
| ProductStore.DeleteUndoesCreate | src/hooks/useProducts.tsx:58-106 | deleting a freshly created row with a new id restores the list before the create |
| ProductStore.ProductList.constructor | src/hooks/useProducts.tsx:19-20 | no rows and loading |
| ProductStore.ProductList.FetchProducts | src/hooks/useProducts.tsx:22-42 | on success the rows (or [] for null) replace the list, on failure it is kept; loading ends false either way |
| ProductStore.ProductList.CreateProduct | src/hooks/useProducts.tsx:44-66 | on success the row is prepended and returned; on error the list is unchanged and null is returned |
| ProductStore.ProductList.UpdateProduct | src/hooks/useProducts.tsx:68-91 | on success rows with the id become the returned row, which is returned; on error unchanged and null |
| ProductStore.ProductList.DeleteProduct | src/hooks/useProducts.tsx:93-114 | returns true iff the delete succeeded, and then the rows with the id go; on error unchanged |
| Admin.StockOrTrue | src/pages/Admin.tsx:31 | a missing stock flag reads as true; a present one, false included, is kept |
| Admin.ConvertToUIProduct | src/pages/Admin.tsx:23-32 | id, name and price copied; null description, image and category become ""; null stock becomes true |
| Admin.SubmittedImage | src/pages/Admin.tsx:53-58 | without a file the form's image; with one, the uploaded URL when non-empty, else the form's image |
| Admin.SubmittedData | src/pages/Admin.tsx:60-68 | the submitted fields are the form's, with the parsed price and the chosen image |
| Admin.Dispatch | src/pages/Admin.tsx:70-74 | the call is an update of the edited product's id iff a product is being edited, otherwise an add, carrying the data |
| Admin.EditForm | src/pages/Admin.tsx:96-104 | characterised by EditFormMatchesCard and EditThenSubmit: the row's fields, with the price as its decimal text |
| Admin.EditFormMatchesCard | src/pages/Admin.tsx:94-104 | the edit form shows a row with the same text, image and stock flag as its product card |
| Admin.EditThenSubmit | src/pages/Admin.tsx:50-107 | editing a row and submitting it unchanged updates that row with its own values |
| Admin.FailedUploadSendsPreview | src/pages/Admin.tsx:174-181 | after choosing a file, a failed upload submits the browser preview URL as the image |
| Admin.AdminPanel.constructor | src/pages/Admin.tsx:35-46 | not editing, no product, the default form, no file |
| Admin.AdminPanel.ResetForm | src/pages/Admin.tsx:79-92 | the form is back to its defaults, no file, not editing, no product |
| Admin.AdminPanel.HandleSubmit | src/pages/Admin.tsx:50-77 | no call is made iff a file is chosen and the upload throws, and then the state is unchanged; otherwise the one call is the dispatch of the submitted data for the product being edited, and the form is reset |
| Admin.AdminPanel.HandleEdit | src/pages/Admin.tsx:94-107 | the row becomes the edited product, fills the form with defaults for nulls, drops the file and opens editing |
| Admin.AdminPanel.ToggleEditing | src/pages/Admin.tsx:118 | editing flips; nothing else changes |
| Admin.AdminPanel.ChooseFile | src/pages/Admin.tsx:174-181 | the chosen file (or none) is kept; a file puts its preview URL in the form's image |
| ProductForm.InitialFormData | src/components/Admin/ProductForm.tsx:21-28 | the form opens with the product's fields, nulls as "" and true, or "", 0, "" and true with no product |
| ProductForm.SubmittedData | src/components/Admin/ProductForm.tsx:54-68 | nothing is submitted iff a file was chosen and the upload threw; otherwise every field is the form's, and the image is the chosen one |
| ProductForm.MissingRequired | src/components/Admin/ProductForm.tsx:47 | characterised by NewFormIsIncomplete and FormState.StartSubmit: refused exactly for an empty name or a zero price |
| ProductForm.NewFormIsIncomplete | src/components/Admin/ProductForm.tsx:47-50 | a form opened without a product is refused, and for any typed name and price it is accepted iff the name is non-empty and the price is not 0 |
| ProductForm.InitialFormMatchesCard | src/components/Admin/ProductForm.tsx:21-30 | the form opened on a row agrees with that row's product card on every shown field |
| ProductForm.OpenThenSubmit | src/components/Admin/ProductForm.tsx:21-68 | opening a row and submitting without a file sends the row's own values |
| ProductForm.EmptyUploadKeepsImage | src/components/Admin/ProductForm.tsx:57-62 | an upload answering null or "" keeps the form's image and the product is still submitted |
| ProductForm.RemoveThenSubmit | src/components/Admin/ProductForm.tsx:76-80 | after removing the image a submit sends an empty image URL |
| ProductForm.FormState.constructor | src/components/Admin/ProductForm.tsx:21-31 | the initial form, no file, the preview is the form's image, not loading |
| ProductForm.FormState.StartSubmit | src/components/Admin/ProductForm.tsx:47-52 | the submit starts iff name and price are present, and then loading is on; the form is untouched |
| ProductForm.FormState.FinishSubmit | src/components/Admin/ProductForm.tsx:54-73 | the upload is asked iff a file is chosen, the submitted data is as specified, and loading ends false |
| ProductForm.FormState.HandleSubmit | src/components/Admin/ProductForm.tsx:45-74 | a refused form asks neither callback and keeps the state; a valid one is loading while it runs, submits as specified and ends not loading |
| ProductForm.FormState.HandleImageChange | src/components/Admin/ProductForm.tsx:33-36 | a chosen file is kept; no file leaves the state |
| ProductForm.FormState.PreviewLoaded | src/components/Admin/ProductForm.tsx:37-41 | the file reader's answer becomes the preview, nothing else changes |
| ProductForm.FormState.RemoveImage | src/components/Admin/ProductForm.tsx:76-80 | file, preview and image URL are cleared together; the other fields are kept |

## Left out

- Toast notifications, console logging, JSX markup, styling and animation are presentation only.
- The `rating` field and its constant 4.5 are floating point and only shown; the form's `rating` text is kept as a string.
- `toLocaleString` and `encodeURIComponent` depend on the locale and on Unicode tables. They are the parameters `fmt` and `encode` of the order-message members.
- Checkout.FormatOrderForWhatsApp: the message is specified as a list of lines. A field value holding a newline is one entry there, but several lines in the text.
- Admin.SubmittedData: the price is read by the parameter `parse` (`parseFloat` in the source). The exact round trip is proved only for the decimal text of whole numbers (`Admin.EditThenSubmit`).
- Prices and quantities are JavaScript numbers (doubles) in the source and unbounded integers here. `price * quantity` and the sums in `Cart.Total` and `Cart.UnitCount` agree with the source only while every value stays below 2^53.
- Catalog.IntToString: matches JavaScript's rendering of a whole number only below 1e21 in magnitude. From there JavaScript writes exponent form.
- ProductForm.SubmittedData: the form holds the price as an integer, so `Number(...)` is the identity here. A NaN from a non-numeric entry is not modelled.
- ProductForm.FormState.HandleSubmit: a rejection of the submit callback only shows a message, so it is not a separate case. The data handed to the callback is the result.
- The backend (Supabase) is represented only by the reply each operation receives. Server-side ordering by `created_at` and the merging of partial updates are not modelled.
- An error reply and a thrown exception are the same case in `ProductStore`, because the hook treats them alike.
- The Cloudinary upload client, the payment function, authentication, route guards and the navigation bar are network or SDK glue. They are not part of this model.
- `localStorage` (the cart sheet's checkout handler and the checkout route) is browser persistence and is not modelled.
- `window.open` is not modelled. `Checkout.HandleWhatsAppSend` returns the link it would open.
- `handlePayment` is not modelled. Its delayed cart clear runs on a timer.
- The browser's preview URLs are parameters: `URL.createObjectURL` on the administration page and `FileReader` in the product form.
- `Date.now()` is not modelled. `Storefront.ShopPage.AddProduct` takes the new id as a parameter.
- The prop-type mismatches between the shop page and the components it renders are not modelled. Behaviour follows the handler bodies.
