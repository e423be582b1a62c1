# Storefront admin console: screen state machines

This project models the logic under the markup of a small React admin console
for a storefront API. Each screen is a `class` whose fields are the screen's
`useState` variables. Each event handler or mount effect is a `method`.
A method receives what the outside world answered as plain parameters:
the session token, the remote call's outcome, the prompt answers and the clock.
Every screen records its observable effects in a ghost `trace` of `Event`s:
toasts, `router.push`, prompts, remote calls, the file-input reset and the
scheduled reload. Contracts can therefore say "no fetch happened" and
"nothing else changed".

Modules:

- `Types`: the records exchanged with the remote authority, the `id` search
  parameter, and the remote `Call`s.
- `Effects`: the `Event` trace.
- `Session`: the two spellings of the session guard.
- `Collections`: the id filter used by every delete, the index filter used by
  the cart form, and the three-way list display.
- `Text` and `Dates`: `String(n)`, `padStart` and the `YYYY-MM-DD` date that a
  cart is submitted with. `Dates.ParseDate` is this model's own reader of that
  format. It exists to state the round trip; the source has no such reader.
- `ProductList`, `UserList`, `CartList`, `Home`: the guarded list
  synchronisers and the dashboard.
- `ProductEditor`, `CartEditor`: the entity edit controllers.
- `Login`: the login form.
- `Scenarios`: client runs that use only the handlers' contracts.

Four behaviours of the code that a reader might not expect:

- The login form has no validation. Its error lists are only ever cleared, so
  `LoginSection.Valid()` states that they stay empty.
- The cart form checks line items only when they are added. A cart fetched from
  the server is taken as it is.
- The cart form picks create or update from the path, not from the `editing`
  prop. On `/editar-carrinho` it issues the update even without an `id`
  parameter. In that case it uses `Number(null)`, which is 0.
- The product form resets its draft after a successful update too, then
  navigates.

## Model

| member | source | states |
|---|---|---|
| Types.IdNumber | src/components/EditCart.tsx:99 | `Number(id)` of a missing or empty `id` parameter is 0. A present, non-empty id reads as its number. |
| Types.IdPresent | src/components/EditProduct.tsx:64 | The `if (id)` test: the parameter is present and its text is non-empty. |
| Session.Admits | src/app/produtos/AllProducts.tsx:29 | The guard `token && token.length > 0` admits exactly the truthy tokens: the length test adds nothing. |
| Session.RejectsAsWritten | src/app/usuarios/UsersSection.tsx:32 | The guard `!token \|\| token.length < 0` rejects exactly the falsy tokens: null or empty. |
| Session.GuardsAgree | src/app/usuarios/UsersSection.tsx:32-37 | The users and carts guard (`!token` or `token.length < 0`) rejects exactly the tokens that `token && token.length > 0` refuses: null or empty. The length disjunct never holds. |
| Collections.WithoutKey | src/app/produtos/AllProducts.tsx:41 | The id filter keeps no element carrying the removed id, keeps only elements of the original list, and never grows it. |
| Collections.WithoutKeyAppend | src/app/carrinhos/CartsSection.tsx:41-42 | Filtering distributes over concatenation, so the kept elements stay in their relative order. |
| Collections.WithoutKeyAbsent | src/app/produtos/AllProducts.tsx:40-43 | Removing an id that no element carries leaves the list unchanged. |
| Collections.WithoutKeyCounts | src/app/usuarios/UsersSection.tsx:43-46 | Exactly the elements with the removed id disappear. Every other element keeps its multiplicity. |
| Collections.WithoutKeyUnique | src/app/produtos/AllProducts.tsx:40-43 | With unique ids, removing a present id removes exactly its one position, and the length drops by one. |
| Collections.WithoutKeyIdempotent | src/app/carrinhos/CartsSection.tsx:40-44 | A second removal of the same id changes nothing. |
| Collections.WithoutIndex | src/components/EditCart.tsx:123 | The index filter drops one element when `index` is a position of the list and none otherwise, and keeps only elements of the list. `WithoutIndexSlices` states which element goes. |
| Collections.WithoutIndexSlices | src/components/EditCart.tsx:122-129 | The index filter removes exactly position `index` and keeps the rest in order. An out-of-range index leaves the list unchanged. |
| Collections.ViewOf | src/app/produtos/AllProducts.tsx:64-152 | The spinner, the table and the empty message are selected by `loading`, `!loading && n > 0` and `!loading && n === 0`, in both directions. Exactly one of them shows. |
| Text.DecimalString | src/components/EditCart.tsx:85-87 | `String(n)` is a non-empty digit string without a leading zero. It has one digit below 10, two below 100 and four for four-digit numbers. |
| Text.DecimalRoundTrip | src/components/EditCart.tsx:85-87 | Reading back the digits that `String(n)` writes gives `n`. |
| Text.PadStart | src/components/EditCart.tsx:85-87 | `padStart` gives a string of the requested width that ends with the original and is filled on the left with the fill character. |
| Text.ZeroPadValue | src/components/EditCart.tsx:85-87 | Zero-padding a digit string keeps its numeric value. |
| Text.TwoDigits | src/components/EditCart.tsx:85-87 | `String(n).padStart(2, '0')` for n below 100 is two digits denoting `n`. |
| Dates.FormatDate | src/components/EditCart.tsx:85-87 | The template literal `${year}-${month}-${day}` with both month and day zero-padded to two digits. Its meaning is stated by `FormatDateRoundTrip` and `FormatDateShape`. |
| Dates.FormatDateRoundTrip | src/components/EditCart.tsx:83-87 | The submitted date reads back as the clock's year, the 0-based month plus one, and the day. |
| Dates.FormatDateShape | src/components/EditCart.tsx:85-87 | For a four-digit year the date is exactly ten characters, with dashes at positions 4 and 7. |
| ProductList.AllProducts.constructor | src/app/produtos/AllProducts.tsx:13-14 | The screen starts with an empty list, loading, and no effects. |
| ProductList.AllProducts.LoadEffect | src/app/produtos/AllProducts.tsx:19-35 | With a valid token: one `getAllProducts` call. Success replaces the list. Failure keeps it and shows an error toast. Loading ends either way. Without a token: a warning then a redirect to `/login`, no fetch, and loading is left on. |
| ProductList.AllProducts.HandleRemoveProduct | src/app/produtos/AllProducts.tsx:37-47 | One `removeProduct(id)` call. Only a confirmed removal filters the id out of the list, followed by a success toast. A failure leaves the list unchanged and shows an error toast. |
| UserList.UsersSection.constructor | src/app/usuarios/UsersSection.tsx:13-14 | The screen starts with an empty list, loading, and no effects. |
| UserList.UsersSection.LoadEffect | src/app/usuarios/UsersSection.tsx:19-38 | Rejected token: a redirect to `/login` first, then the warning, no fetch, and loading is left on. Otherwise one `getAllUsers` call. Success replaces the list. Failure keeps it and shows an error toast. Loading ends either way. |
| UserList.UsersSection.HandleRemoveUser | src/app/usuarios/UsersSection.tsx:40-50 | One `removeUser(id)` call. A confirmed removal filters out exactly that id's users, in order. A failure leaves the list unchanged and shows an error toast. |
| CartList.CartsSection.constructor | src/app/carrinhos/CartsSection.tsx:13-14 | The screen starts with an empty list, loading, and no effects. |
| CartList.CartsSection.LoadEffect | src/app/carrinhos/CartsSection.tsx:19-35 | Same as the user list: redirect before warning and no fetch on a rejected token. Otherwise one `getAllCarts` call, the list replaced only on success, an error toast on failure, and loading ended either way. |
| CartList.CartsSection.HandleRemoveCart | src/app/carrinhos/CartsSection.tsx:37-48 | One `removeCart(id)` call. On success the carts equal the original list filtered by `c.id !== id`; the `previousCarts` copy taken first is the same value, so copying changes nothing. A failure leaves the carts unchanged and shows an error toast. |
| Home.HomeSection.constructor | src/app/HomeSection.tsx:11-12 | The dashboard starts with no data, loading, and no effects. |
| Home.HomeSection.LoadEffect | src/app/HomeSection.tsx:17-33 | With a valid token: one `getGeralData` call. Success sets the data. Failure leaves it undefined and shows a warning toast, not an error toast. Loading ends either way. Without a token: a warning then a redirect, no fetch, and loading stays on. |
| Login.WithField | src/app/login/LoginSection.tsx:30-33 | An input change sets the edited field to the new value and leaves the other field as it was. |
| Login.WithFieldRevert | src/app/login/LoginSection.tsx:30-33 | Typing a field's old value back restores the draft. |
| Login.LoginSection.constructor | src/app/login/LoginSection.tsx:8-20 | Both fields start empty and both error lists start empty. |
| Login.LoginSection.HandleInputChange | src/app/login/LoginSection.tsx:22-34 | Clears only the edited field's errors and sets only that field. The error lists stay empty, and no effect is issued. |
| Login.LoginSection.HandleFormSubmit | src/app/login/LoginSection.tsx:36-51 | One `userLogin` call with the draft. On success the session is created with exactly the returned token, then a success toast and the reload are scheduled. On failure a warning is shown and no session is created. The draft is unchanged either way. |
| ProductEditor.ApplyInput | src/components/EditProduct.tsx:92-102 | The price input stores the parsed number, and every other input stores its raw text. No other field changes. |
| ProductEditor.ApplyInputRevert | src/components/EditProduct.tsx:84-103 | Editing a field and typing its old value back restores the draft, so the next submission sends the same product. |
| ProductEditor.MergeErrors | src/components/EditProduct.tsx:77-80 | After a failed validation every field has an entry. A reported field carries the reported messages, and every other field has an empty list. |
| ProductEditor.EditProduct.constructor | src/components/EditProduct.tsx:13-34 | The draft has empty strings and price 0, all five error lists are empty, and the form is loading. |
| ProductEditor.EditProduct.LoadEffect | src/components/EditProduct.tsx:43-66 | A fetch happens only in editing mode with an id. Success copies the five fields. Failure keeps the draft and shows an error toast. Otherwise nothing is fetched and the draft stays as it is. Loading ends in every case. |
| ProductEditor.EditProduct.HandleInputChange | src/components/EditProduct.tsx:84-103 | Empties the edited field's error list and leaves every other error list unchanged. Stores the input in the draft, with no effect issued. |
| ProductEditor.EditProduct.HandleImageChange | src/components/EditProduct.tsx:105-120 | Always clears the image errors. Changes `image` only when a file was chosen. |
| ProductEditor.EditProduct.SendDataToCreateProduct | src/components/EditProduct.tsx:122-135 | One `createProduct` call with the draft. Success resets the draft, shows a success toast and clears the file input, with no navigation. Failure keeps the draft and shows an error toast. |
| ProductEditor.EditProduct.SendDataToUpdateProduct | src/components/EditProduct.tsx:137-154 | Without an id it does nothing. Otherwise one `updateProduct(Number(id))` call. Success resets the draft and navigates to `/produtos`. Failure keeps the draft, shows an error toast and does not navigate. |
| ProductEditor.EditProduct.HandleFormSubmit | src/components/EditProduct.tsx:68-82 | A failed validation fills the merged error map and issues no remote call. A passed validation creates or updates according to `editing`, and leaves the errors as they were. |
| CartEditor.WithItem | src/components/EditCart.tsx:58-67 | A valid add appends exactly one `{productId, quantity}` at the end. Existing items, `userId` and `date` are unchanged. |
| CartEditor.SubmitGate | src/components/EditCart.tsx:73-81 | Submission passes exactly when `userId > 0` and the item list is non-empty. The user id is checked first, and each failure names its warning. |
| CartEditor.ModeOf | src/components/EditCart.tsx:89-110 | `/novo-carrinho` means create, `/editar-carrinho` means update, and any other path means no call, in both directions. |
| CartEditor.RefusedSubmitIssuesNoCall | src/components/EditCart.tsx:73-81 | A refused submission's only effect is its warning. No remote call is issued and the draft is kept. |
| CartEditor.SubmitIssuesOneCall | src/components/EditCart.tsx:89-103 | A gated submission on a known path issues exactly one remote call, first, with the draft stamped with the formatted date. |
| CartEditor.RejectedSubmitKeepsDraft | src/components/EditCart.tsx:92-109 | A failed call keeps the draft and never navigates. Only a confirmed creation changes the draft. |
| CartEditor.EditCart.constructor | src/components/EditCart.tsx:8-16 | The cart starts with `userId` 0, an empty date and no items, and the form is loading. |
| CartEditor.EditCart.LoadEffect | src/components/EditCart.tsx:24-41 | A fetch happens only in editing mode with an id. Success replaces the whole cart. Failure keeps it and shows an error toast. Loading ends in every case. |
| CartEditor.EditCart.HandleAddItem | src/components/EditCart.tsx:43-68 | Asks for the id first. An invalid id gives a warning and no quantity prompt. An invalid quantity gives a warning. Both valid appends one item. Positivity of every item is preserved. |
| CartEditor.EditCart.HandleDeleteItem | src/components/EditCart.tsx:122-129 | Removes exactly position `index` and keeps the rest in order. An out-of-range index changes nothing, and the other cart fields are untouched. |
| CartEditor.EditCart.HandleUserIdChange | src/components/EditCart.tsx:113-120 | Sets only `userId`. |
| CartEditor.EditCart.HandleFormSubmit | src/components/EditCart.tsx:70-111 | A refused draft gets only its warning. Otherwise the date is formatted and the cart is sent. The new cart and the effects are those of the gate, the path-chosen mode, `Number(id)`, the formatted date and the server's answer. |
| CartEditor.EditCart.SendCart | src/components/EditCart.tsx:89-110 | After the gate: a create on `/novo-carrinho`, resetting the draft only on success; an update with `Number(id)` on `/editar-carrinho`, navigating to `/carrinhos` only on success; nothing on any other path. Each failure shows an error toast. |

## Left out

- Remote data modules (`@/data/products`, `@/data/carts`, `@/data/users`, `@/data/login`, `@/data/geral`) are not part of this model. Each call is a `Call` event, and its outcome is a parameter: an `Option` payload where None is `success: false`, or a `bool`.
- `editProductSchema` (`@/schemas/product`) is not part of this model. Its verdict is the `Validation` parameter of `HandleFormSubmit`, and its rules are not stated.
- `Number(...)` is not modelled. Handlers receive the converted value as an `int`, or as an `Option<int>` for prompt answers, where None is NaN. Fractional numbers and NaN stored in `price` or `userId` are not represented.
- `new Date()` is not modelled. The clock's year, 0-based month and day are parameters, the year as a `nat`, so dates before year 0 are out of scope.
- `prompt()` and `URL.createObjectURL` are not modelled. Their results are parameters, and the prompts appear as `Prompt` events.
- `Types.IdNumber` takes the number a non-empty `id` text reads as from the caller, in the `number` field of `QueryId`; the model does not check that it is what `Number(text)` gives for that text (whitespace-only or non-numeric text is not represented).
- `useCookies` is not modelled. The token is a parameter of each mount effect.
- `formatDate`, used for display in the cart table, is not part of this model.
- `toast.*`, `router.push`, `setTimeout(() => window.location.reload())` and the file-input reset are trace events only. `ClearFileInput` is recorded whenever the draft is reset, because the ref is attached whenever the form is rendered.
- React scheduling and async interleaving are not modelled: each mount effect and handler runs to completion as one step. The missing protection against double submission is a concurrency matter and is not modelled either.
- Entity records keep only the fields the logic reads: the id, and the editable data. Display-only fields such as ratings, names and addresses are dropped.
- `ProductEditor.EditProduct.HandleInputChange` and `Login.LoginSection.HandleInputChange` take the input name as a field of an enumeration. An input name outside the known fields, which the source would write into the object anyway, is not represented.
- `Header.tsx`, `layout.tsx`, `Footer.tsx`, `novo-produto/page.tsx` and `NewUserSection.tsx` are navigation chrome, markup or a guard around a form that is not part of this model. The JSX rendering is reduced to `Collections.ViewOf`.
