# ShopSwift storefront logic in Dafny

ShopSwift is a demo shop with two front ends: a React Native app and a
Next.js web store. Little of it is logic rather than rendering. What there
is, this project models and proves properties about:

- **the authentication store**: two built-in accounts, signup with a password rule, logout, the admin check, and the persisted session that is read back on start (`Auth`);
- **the root layout's redirect rule**, which runs whenever the user, the route or the loading flag changes (`Navigation`);
- **the mobile checkout form**: eleven required fields, an error map, and an order that empties the cart (`Checkout`);
- **the mobile "Add Product" admin screen**: required fields, a numeric price, a canned AI rewrite of the description and the save guard (`AddProduct`);
- **the mobile "Manage Products" screen**: delete by id, flip the stock flag, and the stock counts (`AdminProducts`);
- **the web home page**: the case-insensitive name search, the category filter and the de-duplicated category list (`Storefront`);
- **the mobile AI-enhancement hook**: a twenty-line template rewrite, category-dependent suggestions, and the hook's loading and error state (`AIEnhancement`);
- **the web server actions**: the zod product schema, adding a product to the front of the shared catalog, and wrapping the description enhancer (`ProductActions`);
- **the web product form**: its client-side schema and the enhance / use-suggestion / dismiss cycle (`ProductForm`);
- **the mobile static catalog**: eight products and the category list (`Catalog`).

Shared definitions live in `Wrappers` (Option, Result), `Seqs` (filter,
subsequences, in-order de-duplication), `Text` (JavaScript's `trim`,
`toLowerCase`, `includes`, `join`, `split`, `Number` and a URL check, over
characters) and `Forms` (the product form fields and the error-blanking step
of `handleInputChange`).

Modelling choices:

- State that React keeps with `useState` or a context is a class whose methods update its fields. Pure computations are functions, with lemmas about them.
- Prices are exact decimals (`real`).
- Everything the code cannot decide by itself is a parameter:
  - whether an awaited call threw (`failed`, or a `Result` outcome);
  - the fresh id from `Date.now()` or `uuidv4()` (`freshId`);
  - the value of `Math.random()` (`draw`);
  - the answer to the delete confirmation dialog (`confirmed`).
- Waits on `setTimeout` are taken as immediate. The mobile save is the exception: its timer is a separate method (`SaveTimerFired`), so the state between the click and the timer is visible.

A few behaviours of the source that the proofs make explicit:

- **Anonymous users are never redirected.** The login redirect in the layout is commented out.
- **An empty server price is rejected as "not positive", not as missing.** `Number('')` is 0.
- **The client and server price schemas differ.** The web form's zod schema accepts any positive price, but the server's requires at least 0.01. A price of 0.005 passes the client schema and fails the server's. In the browser, the price input's `step="0.01"` check stops such a submission before the form's own handler runs. The gap therefore shows only between the two schemas, or when the server action is called directly.
- **Lengths are UTF-16 code units, as JavaScript's `length` counts them.** A password of three emoji is six units long, so signup accepts it.
- **An inherited category name makes the mobile enhancer fail.** For a category named after an `Object.prototype` member, such as `toString`, `categorySpecific[category]` finds an inherited function. That value is truthy and not iterable, so the spread throws and the hook ends in its error branch.

## Model

| member | source | states |
|---|---|---|
| Auth.Account | contexts/AuthContext.tsx:68-91 | the admin pair signs in as an admin with id "1", the user pair as a non-admin with id "2", each keeping the email given; any other pair signs in to nothing |
| Auth.SignupAccount | contexts/AuthContext.tsx:99-104 | a user is created exactly when the email is non-empty and the password is at least six UTF-16 code units long; it is a non-admin with the fresh id and the given email |
| Auth.AstralPasswordAccepted | contexts/AuthContext.tsx:99 | a password of three characters beyond the Basic Multilingual Plane is six code units long and is accepted |
| Auth.IsAdminUser | contexts/AuthContext.tsx:120-122 | true exactly when a user is signed in and that user is an admin; false when nobody is signed in |
| Auth.AdminGate | android/app/admin/add-product.tsx:29 | the admin screens (this guard and the identical one at android/app/admin/products.tsx:18) show "Access Denied" exactly when there is no user or the user is not an admin |
| Auth.AuthStore.constructor | contexts/AuthContext.tsx:30-31 | the store starts with no user, loading, and with whatever an earlier session saved |
| Auth.AuthStore.LoadUser | contexts/AuthContext.tsx:38-49 | a saved user becomes the current user, a missing entry leaves the user as it was, storage is untouched and loading ends |
| Auth.AuthStore.SaveUser | contexts/AuthContext.tsx:51-61 | the entry is written, or removed for no user |
| Auth.AuthStore.Login | contexts/AuthContext.tsx:63-92 | succeeds exactly for the two built-in pairs; on success the account becomes the user and is persisted; on failure user and storage are unchanged; loading is over either way |
| Auth.AuthStore.Signup | contexts/AuthContext.tsx:94-113 | succeeds exactly for a non-empty email and a password of six or more UTF-16 code units; then the new non-admin user is current and persisted; otherwise nothing changes; loading is over |
| Auth.AuthStore.IsAdmin | contexts/AuthContext.tsx:120-122 | true exactly while the signed-in user is an admin |
| Auth.AuthStore.Logout | contexts/AuthContext.tsx:115-118 | no user and no stored entry afterwards; the loading flag is not touched |
| Auth.RestartAfterLogin | contexts/AuthContext.tsx:38-92 | after a successful login and a restart, the loaded user is exactly the one the login produced, an admin exactly for the admin email; after a failed login the restart restores the earlier saved session |
| Auth.RestartAfterSignup | contexts/AuthContext.tsx:94-113 | after a successful signup and a restart, the new user is restored; after a refused signup the earlier session is |
| Auth.RestartAfterLogout | contexts/AuthContext.tsx:115-118 | after logout and a restart nobody is signed in and loading has finished |
| Auth.AdminAccessAfterLogin | contexts/AuthContext.tsx:63-122 | from a fresh start, a login opens the admin screens exactly when it used the admin credential pair |
| Navigation.Redirect | android/app/_layout.tsx:17-33 | no redirect while loading or for an anonymous user; "/(tabs)" is the only target; a signed-in user in "(auth)" and a non-admin in "admin" are sent there; an admin in "admin" and any user elsewhere stay |
| Forms.ClearedError | android/app/checkout.tsx:31-36 | editing a field blanks that field's message, keeps the set of keys, and leaves every other message as it was (the same handler is at android/app/admin/add-product.tsx:49-54) |
| Checkout.ValidIffEveryFieldHasText | android/app/checkout.tsx:38-54 | the error map is empty exactly when every one of the eleven fields holds a non-whitespace character; no format is checked |
| Checkout.NoErrorsIffNoBlankField | android/app/checkout.tsx:38-54 | the error map is empty exactly when no field is blank after trimming |
| Checkout.ErrorsNameBlankFields | android/app/checkout.tsx:39-51 | a field has an error exactly when it is blank, and the error is that field's "required" message |
| Checkout.CheckoutScreen.constructor | android/app/checkout.tsx:15-29 | all eleven fields empty, no errors, the cart as given |
| Checkout.CheckoutScreen.HandleInputChange | android/app/checkout.tsx:31-36 | only the named field changes; its error is blanked and the others kept; the cart is untouched |
| Checkout.CheckoutScreen.ValidateForm | android/app/checkout.tsx:38-55 | the error map is replaced by the blank-field errors and the result is true exactly when no field is blank |
| Checkout.CheckoutScreen.HandlePlaceOrder | android/app/checkout.tsx:57-64 | an order is placed exactly when no field is blank; then the cart is empty, otherwise it is untouched |
| AddProduct.FieldErrorsAt | android/app/admin/add-product.tsx:56-68 | a blank field gets its "required" message; a non-blank price that is not a number gets "Price must be a valid number" instead; no other field or case is reported |
| AddProduct.NoErrorsIffFilledAndNumeric | android/app/admin/add-product.tsx:56-72 | the form passes exactly when no field is blank and the price reads as a number |
| AddProduct.EnhancedTextParts | android/app/admin/add-product.tsx:87 | the rewrite is the fixed prefix, the original description intact, then the fixed benefits text |
| AddProduct.EnhancedTextInjective | android/app/admin/add-product.tsx:87-89 | different descriptions are rewritten to different texts |
| AddProduct.AddProductScreen.constructor | android/app/admin/add-product.tsx:15-26 | empty fields, no errors, neither enhancing nor saving |
| AddProduct.AddProductScreen.HandleInputChange | android/app/admin/add-product.tsx:49-54 | only the named field changes; its error is blanked, the others kept |
| AddProduct.AddProductScreen.ValidateForm | android/app/admin/add-product.tsx:56-72 | the error map is replaced and the result is true exactly when the form is filled with a numeric price |
| AddProduct.AddProductScreen.EnhanceDescriptionWithAI | android/app/admin/add-product.tsx:74-101 | a blank description changes nothing; otherwise the description is rewritten unless the call failed, other fields stay, and the enhancing flag is off at the end |
| AddProduct.AddProductScreen.HandleSaveProduct | android/app/admin/add-product.tsx:103-106 | the loading flag is set exactly when the form is acceptable; an invalid form never sets it; the fields are unchanged |
| AddProduct.AddProductScreen.SaveTimerFired | android/app/admin/add-product.tsx:109-110 | the timer callback ends the save |
| AdminProducts.WithoutProduct | android/app/admin/products.tsx:56 | the result holds exactly the listed products whose id differs from the deleted one, each as many times as the list holds it, and nothing the list does not hold |
| AdminProducts.DeleteKeepsOrder | android/app/admin/products.tsx:56 | the remaining products keep their original order |
| AdminProducts.DeleteAbsentId | android/app/admin/products.tsx:56 | deleting an id no product has leaves the list unchanged |
| AdminProducts.WithStockToggled | android/app/admin/products.tsx:64-70 | same length and order; exactly the products with the id have their stock flag flipped, all else unchanged |
| AdminProducts.ToggleTwiceRestores | android/app/admin/products.tsx:64-70 | toggling the same id twice restores the list |
| AdminProducts.CountsAddUp | android/app/admin/products.tsx:102-113 | in-stock count plus out-of-stock count is the total |
| AdminProducts.InitialCounts | android/app/admin/products.tsx:102-113 | on the shipped catalog the screen shows 8 products, 7 in stock, 1 out of stock |
| AdminProducts.ToggleMovesOneProduct | android/app/admin/products.tsx:64-113 | toggling a product whose id is unique moves it from one stock count to the other |
| AdminProducts.AdminProductsScreen.constructor | android/app/admin/products.tsx:15 | the screen starts on the catalog |
| AdminProducts.AdminProductsScreen.HandleDeleteProduct | android/app/admin/products.tsx:46-62 | a confirmed delete filters the list by id; a cancelled one leaves it |
| AdminProducts.AdminProductsScreen.HandleToggleStock | android/app/admin/products.tsx:64-70 | the list becomes the toggled list |
| Storefront.FilteredProductsCorrect | web/src/app/page.tsx:15-21 | the result is an in-order subsequence of the catalog; every result's lower-cased name contains the lower-cased search term and matches the category ('all' matches every product); no matching product is missed, and each matching product appears as many times as in the catalog |
| Storefront.NoFilterShowsAll | web/src/app/page.tsx:15-21 | an empty search with 'all' shows the whole catalog |
| Storefront.CategoryOptionsCorrect | web/src/app/page.tsx:13 | 'all' first, then each catalog category exactly once, and only those, in order of first appearance |
| Catalog.CatalogIdsDistinct | android/lib/products.ts:11-84 | the ids are "1" to "8", pairwise distinct |
| Catalog.CatalogCategoryNames | android/lib/products.ts:11-84 | the products' categories, in catalog order |
| Catalog.CatalogCategoriesListed | android/lib/products.ts:11-86 | `categories` starts with "All", repeats nothing, and lists every product's category |
| Catalog.OnlyProductFiveOutOfStock | android/lib/products.ts:48-56 | product "5" is the one and only product out of stock |
| Catalog.CatalogPricesPositive | android/lib/products.ts:11-84 | every price is positive |
| AIEnhancement.FixedLinesHaveNoBreak | android/hooks/useAIEnhancement.ts:63-79 | the seventeen fixed template lines contain no line break |
| AIEnhancement.EnhancedDescriptionStartsWithOriginal | android/hooks/useAIEnhancement.ts:59-82 | the rewrite begins with "Enhanced with AI: " followed by the original text |
| AIEnhancement.EnhancedDescriptionLines | android/hooks/useAIEnhancement.ts:59-82 | for inputs without line breaks, splitting the rewrite on line breaks gives back the twenty template lines; the third names the product and its category |
| AIEnhancement.CategorySuggestions | android/hooks/useAIEnhancement.ts:94-117 | three suggestions for each of the four known categories; none for any other name, except that an inherited `Object.prototype` name makes the lookup unusable |
| AIEnhancement.Suggestions | android/hooks/useAIEnhancement.ts:85-119 | the five general suggestions come first, in order, followed by the category's own; eight in all for a known category, five otherwise |
| AIEnhancement.AccessoriesGetsBaseOnly | android/hooks/useAIEnhancement.ts:94-118 | "Accessories" gets only the five general suggestions |
| AIEnhancement.Confidence | android/hooks/useAIEnhancement.ts:39 | the confidence lies in [0.7, 1.0) |
| AIEnhancement.AIEnhancementHook.constructor | android/hooks/useAIEnhancement.ts:10-11 | not loading, no error |
| AIEnhancement.AIEnhancementHook.EnhanceDescription | android/hooks/useAIEnhancement.ts:13-52 | a blank description yields nothing, sets the "provide a description" error and leaves the loading flag; otherwise loading is off at the end and the result is either the rewrite, suggestions and confidence with no error, or nothing with the failure message when the call or the suggestion spread threw |
| AIEnhancement.AIEnhancementHook.ClearError | android/hooks/useAIEnhancement.ts:125 | no error afterwards |
| ProductActions.SchemaErrorsAt | web/src/lib/actions.ts:19-25 | a field appears in the error map exactly when its schema check fails, with that check's message |
| ProductActions.SchemaErrorsEmptyIffAccepted | web/src/lib/actions.ts:19-36 | no field errors exactly when the name, description and category are non-empty, the image URL is a URL and the price reads as a number of at least 0.01 |
| ProductActions.SchemaTextErrors | web/src/lib/actions.ts:20-24 | name, description and category are reported exactly when empty, the image URL exactly when it is not a URL |
| ProductActions.SchemaPriceErrors | web/src/lib/actions.ts:22 | the price is reported exactly when it is not a number ("Expected number, received nan") or is below 0.01 ("Price must be positive") |
| ProductActions.EmptyPriceIsNotPositive | web/src/lib/actions.ts:22 | an empty price is refused as "Price must be positive" |
| ProductActions.SafeParse | web/src/lib/actions.ts:28-36 | succeeds exactly when the schema accepts; the data keeps the text fields and carries the coerced price, which is at least 0.01; on failure the error map is non-empty |
| ProductActions.NewProduct | web/src/lib/actions.ts:38-41 | the new product carries the fresh id and exactly the validated fields |
| ProductActions.ProductStore.constructor | web/src/lib/actions.ts:5 | the store holds the given catalog |
| ProductActions.ProductStore.AddProductAction | web/src/lib/actions.ts:28-48 | an invalid submission returns its field errors and leaves the catalog unchanged; a valid one puts exactly one new product first and keeps every earlier product after it, in order |
| ProductActions.EnhanceDescriptionAction | web/src/lib/actions.ts:9-17 | success exactly when the enhancer returned; then its output is passed on unchanged; otherwise no data and "Failed to enhance description." |
| ProductForm.FormErrorsAt | web/src/components/product-form.tsx:19-25 | a field appears in the form's error map exactly when its check fails, with its message |
| ProductForm.FormErrorsEmptyIffAccepted | web/src/components/product-form.tsx:19-25 | no errors exactly when name and category are at least 2 UTF-16 code units long, the description at least 10, the price reads as a number above zero and the image URL is a URL |
| ProductForm.DefaultValuesFailEveryField | web/src/components/product-form.tsx:35-44 | the untouched form fails on all five fields; its price 0 is "not positive" |
| ProductForm.FormAcceptsImpliesServerAccepts | web/src/components/product-form.tsx:19-25 | a form the client accepts, with a price of at least 0.01, passes the server schema too |
| ProductForm.TinyPricePassesFormOnly | web/src/components/product-form.tsx:22 | at the level of the two schemas, a price of 0.005 passes the client's positive check, yet the server schema refuses it, with the price as its only error |
| ProductForm.ProductFormState.constructor | web/src/components/product-form.tsx:32-44 | default values, not enhancing, no suggestion |
| ProductForm.ProductFormState.EditField | web/src/components/product-form.tsx:106 | typing into an input changes that field only |
| ProductForm.ProductFormState.HandleEnhanceDescription | web/src/components/product-form.tsx:46-69 | the action is called exactly when the description is at least 10 UTF-16 code units long; otherwise nothing changes; after a call enhancing is off and the suggestion is the action's output, or none when it failed |
| ProductForm.ProductFormState.UseSuggestion | web/src/components/product-form.tsx:136-144 | the description becomes the suggested text, the other fields stay, the suggestion is cleared |
| ProductForm.ProductFormState.Dismiss | web/src/components/product-form.tsx:145 | the suggestion is cleared and the fields are untouched |
| Text.TrimStart | android/app/checkout.tsx:41 | `trim` removes exactly the leading whitespace: what it drops is whitespace and what remains does not start with whitespace |
| Text.TrimEnd | android/app/checkout.tsx:41 | `trim` removes exactly the trailing whitespace: what it drops is whitespace and what remains does not end with whitespace |
| Text.BlankIffAllWhitespace | android/app/checkout.tsx:41 | a string trims to empty exactly when all its characters are whitespace |
| Text.DigitStringIsNumber | android/app/admin/add-product.tsx:66 | a string of decimal digits reads as the number it spells, so it is not NaN |
| Text.ToLowerIdempotent | web/src/app/page.tsx:17 | lower-casing an already lower-cased string changes nothing |
| Storefront.SearchIgnoresCase | web/src/app/page.tsx:16-18 | the name search gives the same answer for a lower-cased search term, and for a product whose name is lower-cased |
| Text.ParseNumber | web/src/lib/actions.ts:22 | a blank string reads as 0, as `Number` coerces it |
| Text.Utf16Length | contexts/AuthContext.tsx:99 | `length` counts one unit per character inside the Basic Multilingual Plane and two beyond it; it lies between the number of characters and twice that, and is zero only for the empty string |
| Text.UrlIgnoresLeadingC0 | web/src/lib/actions.ts:24 | a leading control character or space does not change whether a string is accepted as a URL |

## Left out

- Rendering, styles, navigation calls, alerts and toasts: they are presentation. This covers the JSX of every screen, the header, the layouts and the product cards.
- The cart store is not part of this model. Checkout models the cart only by its item count, which a placed order sets to zero.
- android/app/admin/index.tsx: it destructures the user from `useState()`, so it always shows "Access Denied". Its stock counts are the ones modelled for the products screen.
- The web product form's `onSubmit`: it rebuilds the `FormData` from the coerced values and shows toasts. Submission is modelled on the server side (`AddProductAction`).
- The large language model behind the web enhancer is an oracle: `Result` outcome parameters stand for its answer or its failure.
- Timers, `Date.now()`, `uuidv4()` and `Math.random()` are parameters or immediate steps.
- AsyncStorage is one `Option<User>` field. JSON encoding, and the logged storage errors, are not modelled.
- The web catalog file (web/src/lib/products.ts) is not part of this model. The storefront lemmas hold for any catalog.
- Text.ToLower: lower-cases ASCII letters only, not the full Unicode case mapping.
- Text.ParseNumber: reads decimal literals with an optional sign, fraction and exponent. It does not read hexadecimal, octal or binary literals or "Infinity", and it computes exact decimals rather than rounded doubles.
- Text.IsUrl: strips leading and trailing C0 controls and spaces, then checks the scheme and, for web schemes, that a host follows. It does not drop the tabs and newlines that `new URL` removes from inside a string, and it does not check the full WHATWG host and path syntax.
- ProductActions.SchemaErrors: keeps one message per field, where zod can list several. Only the price can fail two ways, and NaN stops its other check.
- ProductActions.NewProduct: the source gives a new product no `inStock` entry at all; the model reads that as not in stock.
- ProductActions.RawProduct: always has all five entries; a submission with an entry missing is not modelled.
- Checkout.CheckoutScreen.HandleInputChange: takes one of the eleven fields, where the source accepts any string as a key. The same holds for AddProduct.AddProductScreen.HandleInputChange.
- AddProduct.AddProductScreen.EnhanceDescriptionWithAI: the `failed` parameter covers the `catch` branch, which the simulated wait never reaches.
- AIEnhancement.AIEnhancementHook.EnhanceDescription: the `failed` parameter covers the `catch` branch. The awaited `setTimeout` promise never rejects, so only a throwing suggestion spread reaches it in the source.
