# Cooking Formulation Designer — verified model of the recipe core and registration

This project models two parts of the Cooking Formulation Designer, a Next.js
application for costing recipes from retailer prices:

- **The recipe builder and its totals** (`src/app/page.tsx`, and the older
  `src/app/pagebackup.tsx`).
  - A recipe is an ordered list of (ingredient, grams) items, unique by ingredient id.
  - `addToRecipe` appends an ingredient at 100 g unless it is already there.
  - `updateQuantity` parses the quantity field with `parseInt(_, 10)`. It ignores NaN and negative values, and otherwise rewrites the quantity of the matching items.
  - `removeFromRecipe` filters the ingredient out.
  - The `totals` memo walks the recipe. For each item it sorts the ingredient's `sources` array *in place* by price and prices the item at the first source. It sums cost (`price / 1000 * grams`) and calories (`calories / 100 * grams`), and keeps the vegan and vegetarian flags as conjunctions.
  - Around these sit the case-insensitive ingredient search, the LOW/HIGH retailer columns, the login/register toggle and the view dispatch.
  - The older page adds local sign-out and login-success handlers and a string-keyed `renderPage`.
- **Registration** (`src/app/api/auth/route.ts` and `src/app/api/auth/register.ts`).
  - Both handlers validate the email and trimmed password length, then the user type, then refuse an email already in the user table, hash the password, and insert the user.
  - The App Router `POST` wraps every step in one try block, so any exception gives 500.
  - The Pages Router `handler` first refuses any method other than POST with 405. Only its insert is guarded, so a throwing lookup or hash rejects its promise instead.

Modules, one per file:

- `Wrappers`: `Option`, `Result`.
- `Seqs`: the order-preserving filter behind `Array.prototype.filter`.
- `JsText`: the JavaScript string built-ins the code relies on: `trim`, UTF-16 `length`, `toLowerCase`, `includes`, `parseInt(_, 10)`.
- `Catalog`: ingredients, sources, retailers, the in-place price sort, the cheapest price, the name search, the volume columns.
- `Recipe`: the recipe edits and the totals.
- `App`: the main page component as a class.
- `BackupApp`: the older page as a class.
- `Users`: the request body, validation, messages, and the user table.
- `AuthRoute`: the App Router handler.
- `AuthRegister`: the Pages Router handler.

Prices, calories and totals are exact reals, and quantities are integers.

**Shared arrays.** An ingredient holds its `sources` as a Dafny `array?`. The catalogue and every recipe item share that array, and `null` stands for an absent property. So the totals pass really reorders the arrays it is given.
- `Recipe.ComputeTotals` is proved to return `Expected` of the state it started from.
- It leaves each array sorted and a permutation of its old contents.
- `Recipe.FoldOfPermutations` shows that the reordering never changes a later result.

**Injected effects.** Effects the code only calls are parameters:
- The session status and the fetched lists are passed to the page's methods.
- Which awaited store or hashing step throws is a `Faults` value.
- The bcrypt hash is a function parameter.
- The Prisma user table is a map from email to user, with ids from a counter.

**Behaviour worth knowing before reading the contracts:**
- The totals pass sorts each ingredient's shared `sources` array in place (`src/app/page.tsx:255`). It is not free of side effects, and `Recipe.TotalsAreRepeatable` proves a second pass still gives the same totals.
- The main page has a loading view while the session status is `loading` (`src/app/page.tsx:444-445`), besides the auth form and the three pages.
- The recipe builder is a component declared inside the page component, and the search term is its local state (`src/app/page.tsx:221-222`). Each re-render of the page with changed state mounts the builder afresh, so the search box empties. The page's methods state when this happens: a changed session status or page, the toggle, a stored fetch, and every recipe change.
- The backend test imports its handler from a module, `src/app/api/auth/register/route`, that is not part of this model. Its cases are modelled against `src/app/api/auth/route.ts`, whose `POST(req)` has the same shape.
- `src/app/api/auth/register.ts:12` destructures `req.body` before any try block. A body that cannot be destructured (`null`) rejects the handler's promise, and `AuthRegister.Handle` takes that case as a `None` body.
- In `pagebackup.tsx` the Sign Out button calls the mocked `signOut`, not `handleSignOut`. `BackupApp.Backup.HandleSignOut` models the handler as written, independent of that wiring.

## Model

| member | source | states |
|---|---|---|
| JsText.TrimIsTight | src/app/api/auth/route.ts:11 | `trim` removes only white space: its result is a slice of the input with nothing but white space before and after it, and no white space at either end; it is empty exactly when the input is all white space |
| JsText.Trim | src/app/api/auth/route.ts:11 | `trim` never lengthens the text and leaves no white space at either end |
| JsText.Utf16Length | src/app/api/auth/route.ts:11 | `length` counts UTF-16 code units: between one and two per character, exactly one each when all characters are in the Basic Multilingual Plane |
| JsText.Includes | src/app/page.tsx:245 | `includes` is true exactly when the needle occurs at some position |
| JsText.IncludesChar | src/app/api/auth/route.ts:11 | `email.includes('@')` holds exactly when the character `@` occurs in the email |
| JsText.ToLowerIdempotent | src/app/page.tsx:245 | lower-casing twice equals lower-casing once |
| JsText.ToLower | src/app/page.tsx:245 | `toLowerCase` keeps the length, leaves no capital A–Z, and keeps every other character |
| JsText.ParseInt | src/app/page.tsx:231 | `parseInt` gives a number only when the text holds a digit, and a negative number only when it holds a minus sign |
| JsText.ParseIntOfDecimal | src/app/page.tsx:231 | `parseInt` reads back the decimal text of any natural number, whatever non-digit text follows |
| JsText.ParseIntOfNegative | src/app/page.tsx:231-232 | a leading minus negates the number read, so a written negative quantity parses as negative |
| JsText.MinusBeforeDigits | src/app/page.tsx:231 | a minus sign before a run of digits yields minus the value of the run |
| JsText.ParseIntWithoutDigits | src/app/page.tsx:231-232 | text without digits parses as NaN |
| JsText.ParseIntSkipsWhiteSpace | src/app/page.tsx:231 | leading white space does not change what `parseInt` reads |
| Catalog.InsertAt | src/app/page.tsx:255 | one insertion step of the sort: with `a[..i]` in price order, leaves `a[..i + 1]` in price order and the array a permutation of itself |
| Catalog.InsertingStep | src/app/page.tsx:255 | swapping the moving source with a dearer left neighbour keeps every other pair in order and moves it one place down |
| Catalog.InsertingDone | src/app/page.tsx:255 | once the moving source is at the front or after a source no dearer, the prefix is in price order |
| Catalog.SortByPrice | src/app/page.tsx:255 | `sources.sort(by pricePerKg)` leaves the array in ascending price order and a permutation of its old contents |
| Catalog.OrderedPairsAreSorted | src/app/page.tsx:255 | an array whose every earlier entry is no dearer than every later one is sorted by price |
| Catalog.SortedHeadIsLeast | src/app/page.tsx:255 | the first entry of a price-sorted list is no dearer than any other |
| Catalog.CheapestPrice | src/app/page.tsx:255-258 | the cheapest price is absent exactly for no sources, is some source's price, and is no higher than any |
| Catalog.SortedHeadIsCheapest | src/app/page.tsx:255 | element 0 of the sorted array has the cheapest price of the unsorted sources |
| Catalog.CheapestIsAtMost | src/app/page.tsx:255 | the cheapest price exists and is at most the price of any source present |
| Catalog.CheapestIsAttained | src/app/page.tsx:255 | the cheapest price is the price of a source at a returned index |
| Catalog.CheapestPriceOfPermutation | src/app/page.tsx:255 | reordering the sources does not change the cheapest price |
| Catalog.PlainFlourCheapest | prisma/seed.ts:108-111 | the seeded Plain Flour offers (0.80, 0.75, 0.50, 0.45) have cheapest price 0.45, in any order |
| Catalog.FilterByName | src/app/page.tsx:244-246 | the search keeps exactly the catalogue entries whose lower-cased name includes the lower-cased term |
| Catalog.EmptySearchKeepsAll | src/app/page.tsx:244-246 | the empty search term keeps the whole catalogue, in order |
| Catalog.SearchIgnoresCase | src/app/page.tsx:245 | searching for a term and for its lower-case form give the same list |
| Catalog.SearchKeepsOrder | src/app/page.tsx:244-246 | searching a concatenated catalogue concatenates the two results, so catalogue order is kept |
| Catalog.LowVolume | src/app/page.tsx:357 | the LOW column holds exactly the LOW retailers of the directory |
| Catalog.HighVolume | src/app/page.tsx:358 | the HIGH column holds exactly the HIGH retailers of the directory |
| Catalog.VolumeColumnsPartition | src/app/page.tsx:357-358 | the two columns together list every retailer exactly once |
| Catalog.VolumeColumnsKeepOrder | src/app/page.tsx:357-358 | both columns keep directory order: the columns of two directory parts are the columns of each part, one after the other |
| Recipe.Find | src/app/page.tsx:225 | `recipe.find` is absent exactly when no item has the id, and otherwise is the first item with it |
| Recipe.Add | src/app/page.tsx:224-228 | a present id leaves the recipe unchanged; otherwise exactly one item at 100 g is appended; ids stay unique and quantities non-negative |
| Recipe.AcceptedQuantity | src/app/page.tsx:231-232 | a quantity is accepted exactly when `parseInt` gives a number that is not negative, and the quantity accepted is that number |
| Recipe.SetQuantity | src/app/page.tsx:233-237 | the `map` keeps length, order and ingredients, sets the quantity of exactly the items for the id, keeps the same ingredient ids, and keeps a recipe valid for a quantity that is not negative |
| Recipe.UpdateQuantity | src/app/page.tsx:230-238 | rejected text leaves the recipe unchanged; otherwise length, order and ingredients are kept, and only the matching items take the new quantity |
| Recipe.QuantityTextRoundTrip | src/app/page.tsx:230-232 | the decimal text of n is accepted as n; a written negative number and an empty field are rejected |
| Recipe.Remove | src/app/page.tsx:240-242 | no item with the id remains, every other item is kept, and an absent id is a no-op |
| Recipe.RemoveDeletesOne | src/app/page.tsx:240-242 | with unique ids, removing deletes exactly the one item and keeps the rest in order |
| Recipe.RemoveKeepsValid | src/app/page.tsx:240-242 | removing keeps ids unique and quantities non-negative |
| Recipe.DeleteKeepsValid | src/app/page.tsx:241 | deleting one item from a valid recipe leaves it valid |
| Recipe.AddThenRemove | src/app/page.tsx:224-242 | removing an ingredient just added restores the recipe |
| Recipe.SortItemSources | src/app/page.tsx:255 | the sort inside the loop leaves the items so far sorted and every array a permutation of its contents before the pass |
| Recipe.PriceItem | src/app/page.tsx:255-261 | with the item's sources sorted, one loop step adds the item's cheapest cost, its calories and its flags |
| Recipe.ComputeTotals | src/app/page.tsx:248-264 | the loop returns the fold of the recipe over the sources as they were, and leaves every sources array sorted by price and a permutation of itself |
| Recipe.Fold | src/app/page.tsx:248-264 | the totals over given source lists: `isAllVegan` (`isAllVegetarian`) holds exactly when every item's ingredient is vegan (vegetarian) |
| Recipe.FoldOfPermutations | src/app/page.tsx:255 | the totals depend on each item's sources only up to order |
| Recipe.TotalsAreRepeatable | src/app/page.tsx:248-264 | a second totals pass returns the same totals as the first, despite the in-place sort |
| Recipe.FoldAppend | src/app/page.tsx:254-259 | the totals of two recipe parts combine: costs and calories add, flags conjoin |
| Recipe.AddAccumulates | src/app/page.tsx:224-264 | adding a new ingredient adds exactly its 100 g cost and calories, and a non-vegan (non-vegetarian) ingredient clears the flag |
| Recipe.FoldWithoutOne | src/app/page.tsx:254-259 | taking one item out takes exactly its cost and calories out of the totals |
| Recipe.RemoveSubtracts | src/app/page.tsx:240-259 | removing an ingredient subtracts exactly its item's cost and calories |
| Recipe.OneItemClearsFlags | src/app/page.tsx:260-261 | one non-vegan (non-vegetarian) item makes the whole recipe non-vegan (non-vegetarian) |
| Recipe.SingleItemTotals | src/app/page.tsx:248-264 | the totals of a one-item recipe are that item's contribution added to zero totals with both flags set |
| Recipe.NothingCostsNothing | src/app/page.tsx:257-259 | zero grams add no cost and no calories |
| Recipe.QuantitySetToZero | src/app/page.tsx:230-237 | typing "0" sets the item's quantity to 0 |
| Recipe.FlourAt100Grams | __tests__/frontend/page.test.tsx:121-124 | 100 g of flour at 1.50 per kg costs 0.15 and has 364 kcal |
| Recipe.FlourAtZeroGrams | __tests__/frontend/page.test.tsx:141-143 | the same flour set to "0" costs 0 and has 0 kcal |
| Recipe.FlourScenario | __tests__/frontend/page.test.tsx:108-143 | running the totals loop over 100 g, then 0 g, of flour returns 0.15 / 364 and then 0 / 0 |
| App.Toggled | src/app/page.tsx:208 | the toggle always switches between login and register |
| App.ViewFor | src/app/page.tsx:444-454 | loading shows the loading text, signed out shows the auth form, signed in shows exactly the selected page |
| App.FormulationApp.constructor | src/app/page.tsx:66-70 | initial state: builder page, login mode, empty lists and recipe |
| App.FormulationApp.SessionChanged | src/app/page.tsx:62-64 | a new session status changes only the status, and a changed status remounts the builder with an empty search |
| App.FormulationApp.SetPage | src/app/page.tsx:101 | a navigation button sets the page; choosing another page empties the search, the current one keeps it |
| App.FormulationApp.ToggleAuthMode | src/app/page.tsx:207-210 | the link switches the auth mode, a re-render that empties the search |
| App.FormulationApp.IngredientsFetched | src/app/page.tsx:74-79 | a fetched array replaces the ingredients and empties the search; anything else changes nothing |
| App.FormulationApp.RetailersFetched | src/app/page.tsx:81-86 | a fetched array replaces the retailers and empties the search; anything else changes nothing |
| App.FormulationApp.SetSearchTerm | src/app/page.tsx:221-222 | typing in the builder sets only the search term |
| App.FormulationApp.AddToRecipe | src/app/page.tsx:224-228 | the recipe becomes `Recipe.Add` of the old one and stays valid; adding a new ingredient empties the search, a duplicate keeps it |
| App.FormulationApp.UpdateQuantity | src/app/page.tsx:230-238 | the recipe becomes `Recipe.UpdateQuantity` of the old one and stays valid; accepted text empties the search, rejected text keeps it |
| App.FormulationApp.RemoveFromRecipe | src/app/page.tsx:240-242 | the recipe becomes `Recipe.Remove` of the old one and stays valid, and the search empties |
| App.FormulationApp.Totals | src/app/page.tsx:248-264 | the memo returns the totals of the recipe as it was and leaves every sources array sorted and permuted |
| BackupApp.RenderPage | src/app/pagebackup.tsx:282-294 | auth page exactly when signed out or when the page is 'auth'; sourcing and settings exactly when signed in on them; otherwise the builder |
| BackupApp.RenderAgreesWithMainPage | src/app/pagebackup.tsx:282-294 | for each navigation choice both pages show the same view, signed in or out |
| BackupApp.Backup.constructor | src/app/pagebackup.tsx:19-28 | initial state: signed out, no user, builder page, login mode, empty lists and recipe |
| BackupApp.Backup.HandleSignOut | src/app/pagebackup.tsx:49-55 | signs out, clears the user, empties ingredients, retailers, recipe and search, so the auth page shows |
| BackupApp.Backup.HandleLoginSuccess | src/app/pagebackup.tsx:84-88 | keeps the user data, signs in and shows the builder with an empty search |
| BackupApp.Backup.SetPage | src/app/pagebackup.tsx:65-70 | a navigation button sets the page string; another page empties the search, the same one keeps it |
| BackupApp.Backup.ToggleAuthMode | src/app/pagebackup.tsx:128 | the link switches the auth mode and empties the search |
| BackupApp.Backup.IngredientsFetched | src/app/pagebackup.tsx:33-38 | a fetched array replaces the ingredients and empties the search; anything else changes nothing |
| BackupApp.Backup.RetailersFetched | src/app/pagebackup.tsx:40-45 | a fetched array replaces the retailers and empties the search; anything else changes nothing |
| BackupApp.Backup.SetSearchTerm | src/app/pagebackup.tsx:136-137 | typing in the builder sets only the search term |
| BackupApp.Backup.AddToRecipe | src/app/pagebackup.tsx:139-143 | the recipe becomes `Recipe.Add` of the old one and stays valid; a new ingredient empties the search |
| BackupApp.Backup.UpdateQuantity | src/app/pagebackup.tsx:145-149 | the recipe becomes `Recipe.UpdateQuantity` of the old one and stays valid; accepted text empties the search |
| BackupApp.Backup.RemoveFromRecipe | src/app/pagebackup.tsx:151-153 | the recipe becomes `Recipe.Remove` of the old one and stays valid, and the search empties |
| BackupApp.Backup.Totals | src/app/pagebackup.tsx:159-175 | with every `sources` present, the same totals and in-place sort as the main page |
| Users.UserTypeOf | src/app/api/auth/route.ts:14-16 | a user type is recognised exactly for "INDIVIDUAL" and "CATERER" |
| Users.CredentialsValid | src/app/api/auth/route.ts:11 | the first check passes exactly when there is an email containing `@` and a password of at least 8 UTF-16 units once trimmed; such a password has at least 4 characters once trimmed |
| Users.Validate | src/app/api/auth/route.ts:11-16 | bad credentials give 400 with the password message before the user type is looked at; a bad user type gives 400 "Invalid user type."; success returns the body's fields |
| Users.AlphanumericLength | src/app/api/auth/route.ts:11 | a letters-and-digits password is unchanged by `trim` and its length is its character count |
| Users.AcceptsWellFormed | src/app/api/auth/route.ts:11-16 | an email with `@`, a letters-and-digits password of at least 8 and a known user type pass validation |
| Users.RejectsShortPassword | src/app/api/auth/route.ts:11-13 | a letters-and-digits password under 8 characters gives the 400 credentials reply |
| Users.RejectsEmailWithoutAt | src/app/api/auth/route.ts:11-13 | an email without `@` gives the 400 credentials reply |
| Users.Inserted | src/app/api/auth/route.ts:25-31 | `create` files the new user under its email with the next id and changes no other entry |
| Users.InsertKeepsValid | src/app/api/auth/route.ts:18-31 | inserting an unregistered email keeps emails and ids unique and grows the table by one |
| Users.UserStore.FindUnique | src/app/api/auth/route.ts:18 | the lookup finds a user exactly when the email is registered |
| Users.UserStore.Create | src/app/api/auth/route.ts:25-31 | the table becomes `Inserted` of the old one and stays valid |
| AuthRoute.Post | src/app/api/auth/route.ts:6-38 | 400 exactly on failed validation, with the validation's message; 409 exactly for a registered email, with "User with this email already exists."; 201 exactly when valid, new and nothing throws, and only then is one user (email, hash(password), type) inserted with the next id; a body that is not JSON or any thrown step gives 500 |
| AuthRoute.HandlePost | src/app/api/auth/route.ts:6-38 | the step-by-step handler replies and updates the store as `Post` says |
| AuthRoute.RegisterTwice | src/app/api/auth/route.ts:18-33 | the same valid registration twice: 201, then 409 with the table unchanged |
| AuthRoute.StoresOnlyTheHash | src/app/api/auth/route.ts:23-31 | a valid registration of a new email files exactly one new user under that email, holding the hash of the password sent and the next id |
| AuthRoute.NewUserIsCreated | __tests__/backend/register.api.test.ts:45-46 | the test's registration gives 201 "User created successfully" |
| AuthRoute.ShortPasswordIsRejected | __tests__/backend/register.api.test.ts:59-60 | the test's password "123" gives 400 with a message containing the length rule |
| AuthRoute.MessageStatesRule | src/app/api/auth/route.ts:12 | the credentials message contains "Password must be at least 8 characters" |
| AuthRoute.EmailWithoutAtIsRejected | __tests__/backend/register.api.test.ts:71 | the test's "invalid-email" gives 400 |
| AuthRoute.MissingEmailIsRejected | __tests__/backend/register.api.test.ts:82 | the test's body without email gives 400 |
| AuthRoute.ExistingUserIsRefused | __tests__/backend/register.api.test.ts:97-98 | the test's registered email gives 409 "User with this email already exists." and no insert |
| AuthRegister.Handle | src/app/api/auth/register.ts:7-41 | 405 exactly for non-POST methods, before anything else; 400 exactly on failed validation, with its message; 409 exactly for a registered email when the lookup works; 201 exactly when valid, new and nothing throws, inserting one user; only a failing create gives 500; a body that cannot be destructured, a failing lookup, or a failing hash for a new email rejects |
| AuthRegister.Handler | src/app/api/auth/register.ts:7-41 | the step-by-step handler replies and updates the store as `Handle` says |
| AuthRegister.AgreesWithRoute | src/app/api/auth/register.ts:15-40 | for POST with a working lookup and hash, both handlers reply alike and leave the same table |
| AuthRegister.LookupFailureDiffers | src/app/api/auth/register.ts:22 | a throwing lookup is 500 from the route but a rejected promise from this handler |

## Left out

- Rendering: JSX, icons, styling, the navigation markup, and the auth form's network calls. These are next-auth `signIn`, the register `fetch` and `handleSubmit`. Sign-in and sign-out reach the main page only as a new session status.
- The `useEffect` fetches of ingredients and retailers. Their results arrive as parameters of the `...Fetched` methods; `None` stands for a response that is not an array.
- `toFixed(2)` and `Math.round` in the totals display are floating-point formatting. The model keeps exact real totals.
- The auth form's own fields (email, password, error) and the settings page's selector are local state that a remount also resets. They hold no modelled logic and are not part of the classes.
- `handleSaveChanges` only logs and alerts. The settings page's local user-type selector holds no logic.
- The ingredients API routes, `lib/prisma.ts`, `next-auth.d.ts`, `jest.config.mjs` and the seeding script are not part of this model. Only the seeded Plain Flour prices are used, as test data.
- Floating point: prices, calories and totals are exact reals, so IEEE rounding in the sums is not modelled.
- JsText.ToLower: only `A`–`Z` are mapped. Case mappings outside ASCII are not modelled.
- JsText.ParseInt: digits are read to an unbounded integer. Loss of precision above 2^53 is not modelled. "-0" (negative zero, which the page accepts because it is not `< 0`) is read as 0.
- Users.Body: properties are strings or absent. A non-string JSON value (a number, an object), on which `includes` or `trim` would throw, is not modelled.
- AuthRoute.Post: a body that `req.json()` cannot parse is `None`. A JSON body that cannot be destructured (such as `null`) is not told apart from it.
- Bcrypt internals: the hash is an arbitrary function parameter, and its cost factor 12 is not modelled.
- Prisma: ids are natural numbers handed out by a counter, not database-generated strings. The email uniqueness constraint is the table's keying by email. Concurrent registrations racing between lookup and create are not modelled.
- Catalog.SortByPrice: an insertion sort stands in for the engine's sort. The contract states sorted-and-permuted but not stability. The totals use only the first price, so no result depends on the order among equal prices.
- BackupApp.Backup.Totals: requires every recipe ingredient to have a `sources` array. The source's unguarded `sources.sort` throws a TypeError otherwise, after sorting the earlier items' arrays, and that crash is not modelled.
- The frontend test's text queries for the recipe heading and the add buttons do not match the page's strings. Only its numeric expectations are modelled.
