# Storefront cart, product API and admin pages — a Dafny model

This project models the client and server logic of a small Next.js shop. The model covers the following parts:

- **The cart** (`CartContext`). The cart is a list of lines, one per product, each with a quantity. A reducer applies the commands ADD_TO_CART, UPDATE_CART, REMOVE_FROM_CART, SET_CART and CLEAR_CART. A provider holds the cart, restores it once from the browser's key/value storage, and writes it back under the key `cart` after every change.
- **The cart page** (`CartPage`). It keeps a buffer of the text typed into each quantity box. A commit issues UPDATE_CART only for a parsed quantity above zero. The remove button issues REMOVE_FROM_CART.
- **The storefront page** (`ProductsPage`):
  - adding to the cart needs a session;
  - signing out empties the cart;
  - the header badge counts cart lines.
- **The product API** (`ProductsRoute`). It covers the paginated `GET`, with the `page` and `limit` defaults, `skip`, and the page count. It also covers `POST`, `PUT` and `DELETE` with their status codes and messages.
- **The admin product table** (`AdminProducts`):
  - the form's validation rules;
  - the five-button page window;
  - the Previous and Next buttons;
  - the table updates after a delete, a create or an edit;
  - the one-product-per-page listing.
- **The admin user table** (`AdminUsers`). The form's field handler, the append after a create, and the filter after a delete.
- **The sign-up and sign-in forms** (`SignUp`, `SignIn`). The field checks, and the message each server answer leads to.

Some shared parts have modules of their own:

- `Listing` is the "drop every entry with this id" filter, which the cart, the API and the admin table all use.
- `JsNumbers` is JavaScript's `parseInt` without a radix, together with decimal rendering. `None` stands for NaN.
- `Wrappers` holds `Option`.

The modelling follows the source's own form. The reducer, the validators and the API handlers are functions. The provider and the pages are classes, and their handlers are methods that reassign fields.

The cart is shared between pages as one `CartProvider` object. Every page handler that dispatches keeps the cart *well formed*: no product on two lines, and every quantity at least 1.

Requests, sessions and the database are inputs:
- A handler receives what a request returned, or `None` when it threw.
- A session is a flag.
- The database is a list of rows plus a flag saying whether it answers.

`JSON.stringify` and `JSON.parse` are two function constants. The provider asks of them that parsing gives back what was serialised, and that a serialised cart is never the empty string. Prices are whole cents, so a cart is finite data and such a pair exists.

Behaviour of the source that the model keeps as written:
- The admin user table appends whatever body the create request answers with, so a failed create adds an error row. Its role column then reads 'User'.
- Editing a product resets the form from the product, which has no `image` field. The form therefore reports 'Product image is required' until a new file is picked (`EditFormNeedsImage`, `HandleEditClick`). The product's values also become the form's defaults, so every later reset returns to them: the Add form opened after an edit is pre-filled with the edited product and reports only the missing image (`EditDefaultsLackOnlyImage`, `OpenAddForm`).

## Model

| member | source | states |
|---|---|---|
| CartContext.FindIndex | app/context/CartContext.js:10-12 | the index of the first line with the id, or -1 exactly when no line has it |
| CartContext.Add | app/context/CartContext.js:9-19 | after ADD_TO_CART some line has the product's id; the cart grows by at most one line, and not at all when the product was already there |
| CartContext.AddExisting | app/context/CartContext.js:13-16 | adding a product already in the cart raises its first line's quantity by the amount; the length and every other line are unchanged |
| CartContext.AddAbsent | app/context/CartContext.js:17-18 | adding a product not in the cart appends one line with the product's fields and the amount; the earlier lines are unchanged |
| CartContext.AddTotal | app/context/CartContext.js:9-19 | either way, ADD_TO_CART raises the total number of units by exactly the amount |
| CartContext.AddTwice | app/context/CartContext.js:9-19 | adding the same new product twice yields one line whose quantity is the sum |
| CartContext.AddIds | app/context/CartContext.js:9-19 | the ids after ADD_TO_CART are the ids before plus the product's id |
| CartContext.Update | app/context/CartContext.js:20-25 | UPDATE_CART keeps length and order; lines with the id get the new quantity and every other line is unchanged |
| CartContext.Remove | app/context/CartContext.js:26-27 | after REMOVE_FROM_CART no line has the id, and the cart is no longer |
| CartContext.Reduce | app/context/CartContext.js:7-35 | ADD_TO_CART leaves a line with the product, REMOVE_FROM_CART leaves none with the id, UPDATE_CART keeps the length, and an unknown command changes nothing |
| CartContext.ReduceAll | app/context/CartContext.js:38 | a stream ending in CLEAR_CART leaves an empty cart whatever came before; a stream of unknown commands changes nothing |
| CartContext.UpdateAbsent | app/context/CartContext.js:20-25 | UPDATE_CART for an id no line has leaves the cart unchanged |
| CartContext.RemoveExact | app/context/CartContext.js:26-27 | after REMOVE_FROM_CART no line has the id, every line without it remains, and nothing new appears |
| CartContext.RemoveKeepsOrder | app/context/CartContext.js:26-27 | removing from a concatenation removes from each part, so the remaining lines keep their order |
| CartContext.RemoveIdempotent | app/context/CartContext.js:26-27 | removing twice equals removing once; removing an absent id is a no-op |
| CartContext.OtherCommands | app/context/CartContext.js:28-33 | SET_CART yields the given list, CLEAR_CART yields [], and an unknown command leaves the cart unchanged |
| CartContext.ReduceKeepsDistinct | app/context/CartContext.js:7-35 | every command except SET_CART keeps the ids distinct, because add merges by id |
| CartContext.ReduceKeepsWellFormed | app/context/CartContext.js:7-35 | commands with positive quantities, and SET_CART of a well-formed cart, keep the cart well formed |
| CartContext.ReduceAllKeepsWellFormed | app/context/CartContext.js:7-35 | a whole stream of such commands keeps the cart well formed |
| CartContext.Hydrate | app/context/CartContext.js:40-45 | without a non-empty saved value the cart stays []; with one, the cart becomes the parsed value |
| CartContext.HydrateAfterPersist | app/context/CartContext.js:40-49 | restoring from the storage as the provider wrote it gives back the cart that was written |
| CartContext.CartProvider.Mount | app/context/CartContext.js:37-49 | the cart starts as [], becomes the parsed saved value when a non-empty one exists, and the storage then holds the serialised cart under 'cart' |
| CartContext.CartProvider.Dispatch | app/context/CartContext.js:38-49 | the cart becomes the reducer's result, and the storage slot holds its serialisation |
| Listing.Without | app/context/CartContext.js:27 | the filtered list is no longer than the input and has no entry with the id; an entry is kept exactly when it was present and has another id; a list without the id is returned as it is |
| Listing.WithoutAppend | app/context/CartContext.js:27 | filtering a concatenation is the concatenation of the filtered parts, so the order is kept |
| Listing.WithoutKeepsDistinct | app/context/CartContext.js:27 | filtering keeps the ids distinct |
| JsNumbers.TrimStart | app/cart/page.js:21 | parseInt skips exactly the leading ECMAScript white space |
| JsNumbers.ParseInt | app/cart/page.js:21 | an empty or blank string is NaN; a negative result needs a leading '-' after the white space |
| JsNumbers.NatToString | app/admin/products/page.js:62 | the decimal rendering is non-empty, all digits, and has no leading zero |
| JsNumbers.IntToString | app/admin/products/page.js:62 | the rendering of an integer is never empty |
| JsNumbers.ParseIntOfIntToString | app/admin/products/page.js:62 | parseInt reads back every integer written in decimal (the page number in the query string) |
| CartPage.ShownQuantity | app/cart/page.js:88 | a box shows the buffered text when it is present and non-empty, and the committed quantity otherwise |
| CartPage.Render | app/cart/page.js:47 | the empty-cart view appears exactly when the cart has no lines; otherwise there is one box per line |
| CartPage.CommittedQuantity | app/cart/page.js:20-25 | a commit yields a quantity exactly when the buffered text parses to a number above 0, and then yields that number |
| CartPage.CommitTypedNumber | app/cart/page.js:21-23 | typing a positive number n and committing commits exactly n |
| CartPage.CommitRejectsNonPositive | app/cart/page.js:21-22 | typing zero or a negative number commits nothing |
| CartPage.CommitKeepsWellFormed | app/cart/page.js:20-25 | whatever the buffer holds, a commit keeps the cart well formed |
| CartPage.CartPage.constructor | app/cart/page.js:9-10 | the page shares the given cart provider and starts with an empty buffer |
| CartPage.CartPage.HandleQuantityChange | app/cart/page.js:13-18 | only the product's buffer entry changes |
| CartPage.CartPage.UpdateQuantity | app/cart/page.js:20-25 | UPDATE_CART is dispatched with the parsed quantity exactly when it is above 0; otherwise the cart and storage are unchanged; the cart stays well formed |
| CartPage.CartPage.RemoveFromCart | app/cart/page.js:27-29 | one REMOVE_FROM_CART for the id; afterwards no line has it, and the cart stays well formed |
| ProductsPage.CartBadge | app/products/page.jsx:56-59 | the badge appears exactly when the cart is non-empty, and then shows the number of lines |
| ProductsPage.BadgeCountsLines | app/products/page.jsx:56-59 | adding a product already in the cart leaves the badge as it was, while the number of units grows by one |
| ProductsPage.ProductsPage.constructor | app/products/page.jsx:10-15 | the page shares the given cart provider and session, with both prompts closed and nothing just added |
| ProductsPage.ProductsPage.AddToCart | app/products/page.jsx:27-35 | without a session: the sign-in prompt opens and nothing is dispatched; with one: ADD_TO_CART of one unit, the product id recorded as just added, and the cart stays well formed |
| ProductsPage.ProductsPage.HandleSignOut | app/products/page.jsx:37-39 | the sign-out prompt opens and nothing else changes |
| ProductsPage.ProductsPage.ConfirmSignOut | app/products/page.jsx:41-45 | CLEAR_CART, then the session ends and the prompt closes; the cart is empty and persisted as empty |
| ProductsRoute.ParamOr | app/api/products/route.js:5-6 | a missing or empty query parameter takes the fallback |
| ProductsRoute.PageParam | app/api/products/route.js:5 | a present, non-empty `page` is read by parseInt |
| ProductsRoute.LimitParam | app/api/products/route.js:6 | a present, non-empty `limit` is read by parseInt |
| ProductsRoute.Defaults | app/api/products/route.js:5-6 | without parameters, page is 1 and limit is 10 |
| ProductsRoute.CeilDiv | app/api/products/route.js:21 | the page count times the limit covers every product |
| ProductsRoute.CeilDivBounds | app/api/products/route.js:21 | the page count is 0 for no products; otherwise (pages-1)*limit < total <= pages*limit |
| ProductsRoute.TotalPages | app/api/products/route.js:21 | `null` exactly for a zero limit; for a positive limit the smallest count of pages that covers the products; for a negative limit the non-positive n with n*limit <= total < (n-1)*limit |
| ProductsRoute.Remaining | app/api/products/route.js:10-13 | a page holds its whole width when the table reaches that far, exactly what is left after the skip when the table ends inside the page, and nothing when the skip passes the end |
| ProductsRoute.FindMany | app/api/products/route.js:10-13 | a negative skip fails; a non-negative take gives the rows from index `skip` on, exactly `take` of them when enough follow and otherwise every remaining one; a negative take gives the rows ending `skip` rows before the end, in table order, exactly `-take` of them when enough precede and otherwise all of them |
| ProductsRoute.Get | app/api/products/route.js:3-31 | either 200 with a page that echoes the parsed page and counts the table, or 500 'Failed to fetch products' |
| ProductsRoute.ListPage | app/api/products/route.js:7-25 | a 200 echoes the page, counts the table, reports `Math.ceil(total / limit)`, and returns only rows of the table |
| ProductsRoute.ListPageStatus | app/api/products/route.js:7-30 | the listing is 200 exactly when the database answers and the skip (page-1)*limit is not negative; otherwise it is 500 'Failed to fetch products' |
| ProductsRoute.ListPageContents | app/api/products/route.js:7-24 | a successful listing echoes the page, counts every product, returns the products from index (page-1)*limit on, `limit` of them or every remaining one when fewer are left, and reports the ceiling of total over limit as the page count |
| ProductsRoute.ListPageBackwards | app/api/products/route.js:7-24 | a negative limit on page 1 returns the last `-limit` products, or all of them when fewer, in table order, and reports minus the floor of total over `-limit` as the page count |
| ProductsRoute.GetFailure | app/api/products/route.js:3-30 | a page or limit that is not a number, or an unreachable database, gives 500 'Failed to fetch products' |
| ProductsRoute.Post | app/api/products/route.js:33-53 | 201 with the created product, or 500 'Failed to create product' |
| ProductsRoute.Put | app/api/products/route.js:55-76 | 200 with the updated product, or 500 'Failed to update product' |
| ProductsRoute.Delete | app/api/products/route.js:78-100 | the status is 200, 400 or 500; the table stays reachable as it was and never grows |
| ProductsRoute.DeleteOutcome | app/api/products/route.js:78-100 | 400 'Product ID is required' exactly when the id is missing or empty; 200 'Product deleted successfully' exactly when the database answers and the id is a number some row has; 500 'Failed to delete product' otherwise; the table changes only on 200, which removes exactly that id's rows |
| AdminProducts.RequiredText | app/admin/products/page.js:9-15 | a text field has no message exactly when it holds a non-empty string, and otherwise its own message |
| AdminProducts.PriceError | app/admin/products/page.js:11-14 | price has no message exactly when it is a number above 0 |
| AdminProducts.StockError | app/admin/products/page.js:16-20 | stock has no message exactly when it is an integer of at least 1 |
| AdminProducts.ImageError | app/admin/products/page.js:21-35 | the image has no message exactly when a file of at most 2000000 bytes in jpeg, png or gif is present; a missing file reports 'Product image is required' |
| AdminProducts.Validate | app/admin/products/page.js:8-36 | the form shows no message exactly when name, description and category are non-empty, price is above 0, stock is an integer of at least 1, and an image of at most 2000000 bytes in jpeg, png or gif is present |
| AdminProducts.ValidIsNoMessages | app/admin/products/page.js:8-36 | the schema accepts the form exactly when every field's message is absent |
| AdminProducts.ValidateFieldMessages | app/admin/products/page.js:11-35 | each message appears exactly under the condition of its own rule, in the schema's order |
| AdminProducts.AdminQueryParams | app/admin/products/page.js:59-70 | the table's query parses back to the current page and a limit of 1 |
| AdminProducts.AdminListing | app/admin/products/page.js:48-70 | with one product per page, page p shows the p-th product (nothing past the last), and the page count equals the number of products |
| AdminProducts.WindowStart | app/admin/products/page.js:79 | the window starts at page 1 or later, at most two pages before the current one, and not after it |
| AdminProducts.WindowEnd | app/admin/products/page.js:80 | the window ends at the last page or four pages after its start, whichever comes first |
| AdminProducts.RenderPaginationButtons | app/admin/products/page.js:76-97 | at most 5 consecutive ascending buttons from max(1, current-2) to min(total, start+4), all within 1..total; only the current page is highlighted, and it is in the window whenever 1 <= current <= total |
| AdminProducts.PreviousDisabled | app/admin/products/page.js:216 | Previous is disabled on page 1 (a predicate; ClickPrevious states its effect) |
| AdminProducts.NextDisabled | app/admin/products/page.js:225 | Next as written is disabled only on the page equal to the page count (a predicate; NextNeverDisabledWhenEmpty states its effect) |
| AdminProducts.NextNeverDisabledWhenEmpty | app/admin/products/page.js:225 | for an empty catalogue the table's own listing reports zero pages and no products, and the Next guard as written then leaves the button enabled, also on the page it leads to |
| AdminProducts.NextDisabledCorrected | app/admin/products/page.js:225 | Next disabled whenever there is no later page (a predicate; NextCorrectedStaysInRange states its effect) |
| AdminProducts.NextCorrectedStaysInRange | app/admin/products/page.js:223-228 | with the corrected guard, an enabled Next always leads to an existing page; within range the guard agrees with the code |
| AdminProducts.ReplaceById | app/admin/products/page.js:131 | the product with the returned id is replaced and every other product is unchanged, in place |
| AdminProducts.Saved | app/admin/products/page.js:129-133 | an edit keeps the length and every position's id; a create appends the saved product after the unchanged table |
| AdminProducts.EditForm | app/admin/products/page.js:145 | `reset(product)` fills name, category and the other fields from the product and leaves the image missing |
| AdminProducts.EditFormNeedsImage | app/admin/products/page.js:21-35 | the form loaded for an edit reports 'Product image is required' and cannot pass the schema |
| AdminProducts.EditDefaultsLackOnlyImage | app/admin/products/page.js:145 | a form reset to an edited product's values (a complete product) shows only 'Product image is required' |
| AdminProducts.Revalidated | app/admin/products/page.js:53-57 | after a submit attempt, a changed field's message is absent exactly when the new value meets that field's rule; an unchanged field keeps its message |
| AdminProducts.TypingAfterSubmitClearsField | app/admin/products/page.js:241-247 | after submitting an empty form, typing a name clears the name's message while the other fields still report that they are required |
| AdminProducts.ReplaceKeepsIds | app/admin/products/page.js:129-133 | replacing by id keeps every position's id, so the ids stay distinct |
| AdminProducts.AdminProductsPage.constructor | app/admin/products/page.js:39-57 | the initial state: no products, page 1 of 1, every prompt closed, an empty form whose defaults are empty, no messages, not submitted |
| AdminProducts.AdminProductsPage.ProductsLoaded | app/admin/products/page.js:59-70 | the fetched page and page count replace the table's |
| AdminProducts.AdminProductsPage.HandlePageChange | app/admin/products/page.js:72-74 | the current page becomes the requested one |
| AdminProducts.AdminProductsPage.ClickPageButton | app/admin/products/page.js:82-93 | clicking a rendered button moves to that page, which lies within 1..total |
| AdminProducts.AdminProductsPage.ClickPrevious | app/admin/products/page.js:214-219 | on page 1 nothing happens; otherwise the page goes back by one and stays at least 1 |
| AdminProducts.AdminProductsPage.ClickNext | app/admin/products/page.js:223-228 | the page either stays or advances by one to a page that exists |
| AdminProducts.AdminProductsPage.ConfirmDeleteProduct | app/admin/products/page.js:99-102 | the id is recorded as pending and the prompt opens |
| AdminProducts.AdminProductsPage.DeleteProduct | app/admin/products/page.js:104-109 | after the request, exactly the products with the pending id are removed, in order; the prompt closes and the pending id clears; a thrown request changes nothing |
| AdminProducts.AdminProductsPage.Reset | app/admin/products/page.js:115 | `reset()`: the values return to the form's defaults, the messages clear and the form is no longer submitted; nothing else changes |
| AdminProducts.AdminProductsPage.ToggleModal | app/admin/products/page.js:111-116 | the form flips open/closed, the selection and the image are cleared, the values return to the defaults, the messages and the submitted flag clear, and nothing else changes |
| AdminProducts.AdminProductsPage.OpenAddForm | app/admin/products/page.js:164-171 | edit mode is left and the form is toggled as above, so its values are the defaults (after an edit, that product's values); nothing else changes |
| AdminProducts.AdminProductsPage.HandleEditClick | app/admin/products/page.js:141-147 | edit mode on, the product is selected, its image is shown, the product's values without an image file become both the values and the defaults, the messages and submitted flag clear, and the form is open; nothing else changes; the image message then reads 'Product image is required' |
| AdminProducts.AdminProductsPage.EnterValues | app/admin/products/page.js:241-281 | typing into the registered inputs sets every value but the image; before a submit attempt nothing else changes; after one, the changed fields' messages are re-validated |
| AdminProducts.AdminProductsPage.HandleImageChange | app/admin/products/page.js:149-159 | a picked file becomes the form's image and its data URL the preview; no file changes nothing |
| AdminProducts.AdminProductsPage.OnSubmit | app/admin/products/page.js:118-139 | edit mode replaces by the returned id and create mode appends at the end, then the form toggles: selection and image clear, the values return to the defaults, the messages and submitted flag clear; a thrown request changes nothing |
| AdminProducts.AdminProductsPage.HandleSubmit | app/admin/products/page.js:237 | the form becomes submitted and the messages are the schema's for its current values; an invalid form changes nothing else; only a valid form reaches the submit, with the effects above |
| AdminUsers.RoleLabel | app/admin/users/page.js:84 | 'Admin' exactly when the row is a user with isAdmin set, and 'User' otherwise |
| AdminUsers.KeepOthers | app/admin/users/page.js:56 | exactly the rows that are users with the pending id are dropped |
| AdminUsers.KeepOthersAppend | app/admin/users/page.js:56 | the filter works row by row, so the rest keep their order |
| AdminUsers.KeepOthersNoTarget | app/admin/users/page.js:56 | with no pending id every row stays |
| AdminUsers.UsersPage.constructor | app/admin/users/page.js:7-15 | an empty table, closed prompts, and the empty form |
| AdminUsers.UsersPage.UsersLoaded | app/admin/users/page.js:17-26 | the fetched list replaces the table |
| AdminUsers.UsersPage.HandleInputChange | app/admin/users/page.js:28-34 | the named field takes `checked` for a checkbox and the text otherwise; every other field is unchanged |
| AdminUsers.UsersPage.OpenAddForm | app/admin/users/page.js:65-69 | the add form opens |
| AdminUsers.UsersPage.AddUser | app/admin/users/page.js:36-47 | the answered body goes at the end of the table, the form closes and resets to email '', password '', isAdmin false; a thrown request changes nothing |
| AdminUsers.UsersPage.ConfirmDeleteUser | app/admin/users/page.js:49-52 | the id is recorded as pending and the prompt opens |
| AdminUsers.UsersPage.CancelDelete | app/admin/users/page.js:165-168 | the prompt closes and nothing else changes |
| AdminUsers.UsersPage.DeleteUser | app/admin/users/page.js:54-59 | exactly the users with the pending id are removed, in order; the prompt closes and the pending id clears |
| SignUp.EmailError | app/auth/signup/page.js:28-31 | no email message exactly when an email is entered |
| SignUp.PasswordError | app/auth/signup/page.js:32-35 | no password message exactly when a password is entered |
| SignUp.ConfirmError | app/auth/signup/page.js:36-42 | no confirmation message exactly when a confirmation is entered and equals the password |
| SignUp.SignUpValidIffNoErrors | app/auth/signup/page.js:27-42 | the form is valid exactly when email, password and confirmation are non-empty and the passwords are equal, which is exactly when no field shows a message |
| SignUp.MismatchNeedsConfirmation | app/auth/signup/page.js:36-42 | 'Passwords do not match.' appears exactly when the confirmation is non-empty and differs; an empty confirmation gives 'Please confirm your password.' |
| SignUp.ReplyMessage | app/auth/signup/page.js:49-81 | no message exactly when the sign-up and the automatic sign-in succeed; a rejection shows the server's error or 'An error occurred during sign up.'; a failed sign-in shows 'Failed to sign in automatically. Please sign in manually.'; anything thrown shows 'Failed to sign up. Please try again later.' |
| SignUp.SignUpPage.constructor | app/auth/signup/page.js:8-16 | every input and message starts empty, with loading and success off |
| SignUp.SignUpPage.Type | app/auth/signup/page.js:97-121 | the three inputs take the typed text, and the messages are unchanged |
| SignUp.SignUpPage.HandleSignUp | app/auth/signup/page.js:19-82 | every message is recomputed from the fields; a request is sent exactly for a valid form; an invalid form leaves no error and loading off; a success sets success and keeps loading; every failure turns loading off and shows its message |
| SignIn.SignInValidIffNoErrors | app/auth/signin/page.js:24-37 | the form is valid exactly when both fields are non-empty; each empty field gets its own message |
| SignIn.SignInPage.constructor | app/auth/signin/page.js:8-14 | every input and message starts empty, with loading and success off |
| SignIn.SignInPage.Type | app/auth/signin/page.js:69-81 | the two inputs take the typed text, and the messages are unchanged |
| SignIn.SignInPage.HandleSignIn | app/auth/signin/page.js:17-54 | messages are recomputed from the fields; sign-in is called exactly for a valid form; a missing result or one with an error shows 'Invalid email or password.' with loading off; a success sets success and keeps loading on |

## Left out

- CartContext.AddExisting: the merged line is a new value. In the source, ADD_TO_CART mutates the matched item object in place, so the previous state's item also shows the new quantity. The model treats the cart as values and does not reproduce this aliasing.
- CartContext.Codec: the concrete JSON text and `localStorage` are abstract. A saved value that does not parse throws in the source, and is not modelled.
- JsNumbers.IntToString: JavaScript renders integers of magnitude 1e21 and more in exponent notation, which parseInt reads back as its leading digits; the model renders every integer in plain decimal, so ParseIntOfIntToString does not hold of the source for such integers.
- JsNumbers.ParseInt: the model works on unbounded integers. JavaScript numbers lose precision above 2^53, and very long digit runs become Infinity; neither is modelled.
- AdminProducts.Validate: a number field whose text is not a number, including an empty input, gets yup's generic type message in the source. The model folds that case into 'Price is required' or 'Stock is required'.
- AdminProducts.ImageError: when a file is both too large and of the wrong type, the model reports the size message, the first test in the schema. Which message yup reports first in that case is taken from the schema's order.
- AdminProducts.AdminProductsPage.OnSubmit: the response status is not checked in the source. Whatever body comes back is stored as the product. The model takes the reply as a product or as a thrown request.
- AdminProducts.AdminProductsPage.ClickNext: follows the corrected guard, as described under Findings.
- ProductsRoute.FindMany: follows Prisma's query semantics as documented: a negative `skip` is rejected (status 500), and a negative `take` reads backwards from the end of the table. Rows come back in table order; no `orderBy` is given.
- ProductsRoute.TotalPages: the float quotient `Math.ceil(total / limit)` is integer ceiling division (minus the floor of total over `-limit` for a negative limit, where `-0` serialises as 0). A zero limit gives `null`, as the JSON of Infinity or NaN does.
- Timers are left out: the one-second "Added!" flash reset, and the redirects after sign-in and sign-up.
- Navigation is left out: checkout, the `router.push` calls, and the redirects in the layout.
- The session is a flag. `signOut` has no effect beyond ending it.
- The asynchronous `FileReader` read and the image upload are not modelled: the picked file and its data URL reach `HandleImageChange` as values.
- The storefront's product fetch effect is not modelled. Neither are the users API, the sign-up API, the payment page, or the admin dashboard.
- Prices are whole cents (`int`). Fractional-cent prices from the API's `parseFloat` are not modelled.

## Findings

| source | as written | input that shows it | evidently intended | confidence | as-written member | corrected member |
|---|---|---|---|---|---|---|
| app/admin/products/page.js:225 | Next is disabled only when `currentPage === totalPages` | an empty catalogue: the listing reports `totalPages` = 0, and on page 1 Next is enabled; each click moves to a further empty page | Next disabled whenever there is no later page (`currentPage >= totalPages`) | not executed; follows from the model | AdminProducts.NextNeverDisabledWhenEmpty | AdminProducts.NextCorrectedStaysInRange |
