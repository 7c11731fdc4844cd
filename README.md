# Ordering app core: menu composer, cart, filters and sign-in checks

This project models, in Dafny, the logic of a small mobile ordering app whose screens otherwise only render hard-coded menus. Four screens hold that logic:

- **Manage Menu** (`ManageMenu.tsx`). An operator picks a course, then a dish of that course, and presses "Add Item". The dish is appended to a managed list and the pending dish is cleared. Entries are removed by id, and the list's total is recomputed as a sum. The model is the class `ManageMenu.MenuComposer`, with one method per handler. Its fields are the component's state: `menuItems`, `selectedCourse` and `selectedDish`.
- **Menu** (`Menu.tsx`). A customer browses one course at a time and adds dishes to a cart. A separately stored `totalPrice` is incremented on each add. The class `Menu.MenuScreen` carries the invariant `totalPrice == SumPrices(cart)`. Every method preserves it. The listed dishes (`filteredMenu`, Menu.tsx:59) are `MenuScreen.FilteredMenu`, the same first-match course lookup `Dishes.DishesOfCourse` that the Manage Menu dish picker uses.
- **Filter Menu** (`FilterMenu.tsx`). A fixed catalog is narrowed by an optional course filter and then an optional inclusive price ceiling (R200, R500 or R1000). The class `FilterMenu.FilterScreen` recomputes the listed dishes whenever a picker changes. The specification function `FilteredView` states what is listed, and lemmas prove its properties.
- **Sign In** (`signInscreen.tsx`). `validateEmail` tests the pattern `^[^\s@]+@[^\s@]+\.[^\s@]+$`, and `handleSignIn` runs a prioritised chain of checks. `SignIn.ValidateEmail` decides the pattern by scanning. `SignIn.EmailShape` states it the way the pattern reads: `a + "@" + b + "." + c` with three labels free of whitespace and '@'. A lemma proves the two agree.

Shared pieces:
- `Seqs` has the generic `find` (`FindIndex`) and `filter` (`Filter`) of JavaScript arrays, with lemmas about filtering.
- `Dishes` has the dish and course-group records, the price sum (`SumPrices`, the `reduce` of the screens), the course lookup (`DishesOfCourse`) and the `{ cartItems, totalPrice }` navigation payload (`Checkout`).

Prices are the integer literals of the catalogs, so they are modelled as `nat`. Each event handler is one atomic state transition.

The Menu screen's cart only grows: it has no removal, and its total is a stored running value that is incremented on each add. Removal by id exists only for the managed list of the Manage Menu screen, where the total is always recomputed from the list. The Manage Menu pickers are three separate state fields. The class invariant `MenuComposer.Valid()` states that a pending dish is always one the dish picker offers for the selected course. The picker lists only those dishes, and a course change clears the pending dish.

## Model

| member | source | states |
|---|---|---|
| `Seqs.FindIndex` | ManageMenu.tsx:86 | `find`: the result is the index of an element satisfying the predicate with none before it, or the length when no element satisfies it |
| `Seqs.Filter` | FilterMenu.tsx:37-42 | `filter`: the result is no longer than the input and every element of it satisfies the predicate |
| `Seqs.FilterCount` | ManageMenu.tsx:58 | filtering keeps every occurrence of a selected element and drops every occurrence of a rejected one (multiset counts) |
| `Seqs.FilterMembership` | FilterMenu.tsx:36-43 | an element is in the filtered list exactly when it is in the input and satisfies the predicate |
| `Seqs.FilterIsSubseq` | FilterMenu.tsx:36-43 | the filtered list is a subsequence of the input: relative order is kept |
| `Seqs.FilterAllPass` | ManageMenu.tsx:58 | when every element passes, filtering returns the input unchanged |
| `Seqs.FilterIdempotent` | ManageMenu.tsx:58 | filtering twice by the same predicate equals filtering once |
| `Seqs.FilterAgree` | FilterMenu.tsx:33-45 | predicates agreeing on the input's elements give the same filtered list |
| `Seqs.FilterFuse` | FilterMenu.tsx:33-45 | filtering by p and then by q equals one filter by "p and q" |
| `Seqs.FilterCommutes` | FilterMenu.tsx:36-43 | the order of two filters does not change the result |
| `Dishes.SumPricesConcat` | ManageMenu.tsx:80-82 | the `reduce` total is additive over concatenation |
| `Dishes.SumPricesAppend` | Menu.tsx:53-55 | appending one dish raises the total by exactly its price |
| `Dishes.SumPricesFilterBound` | FilterMenu.tsx:52-54 | the total of a filtered list never exceeds the total of the list it came from |
| `Dishes.DishesOfCourse` | ManageMenu.tsx:85-88 | returns the data of the first group whose course equals the name, and the empty list when no group matches; it is also the `filteredMenu` lookup of Menu.tsx:59 |
| `ManageMenu.RemoveById` | ManageMenu.tsx:57-59 | no entry of the result carries the removed id, and the list never grows |
| `ManageMenu.RemoveByIdSpec` | ManageMenu.tsx:57-59 | removal deletes every copy of the id, keeps every other entry with its multiplicity, and keeps the survivors' relative order |
| `ManageMenu.RemoveByIdAbsent` | ManageMenu.tsx:57-59 | removing an id no entry carries changes nothing, so a repeated removal is a no-op |
| `ManageMenu.RemoveByIdTotal` | ManageMenu.tsx:57-59 | removal never raises the recomputed total |
| `ManageMenu.AvailableDishesMatchCourse` | ManageMenu.tsx:17-39 | every dish the picker offers for a course name belongs to that course |
| `ManageMenu.MenuComposer.constructor` | ManageMenu.tsx:42-44 | initial state is an empty list, course "Starters" and no pending dish; "Add Item" starts disabled, the total is 0 and the picker invariant holds |
| `ManageMenu.MenuComposer.AddItem` | ManageMenu.tsx:49-54 | with a pending dish, the list becomes the old list plus that dish, which is of the selected course, and the total grows by its price; without one, the list is unchanged; the pending dish ends cleared; the course is never touched; the picker invariant is kept |
| `ManageMenu.MenuComposer.RemoveItem` | ManageMenu.tsx:57-59 | the list becomes the id-filtered old list and the total does not rise; course and pending dish are unchanged |
| `ManageMenu.MenuComposer.SelectCourse` | ManageMenu.tsx:62-66 | the course is set and the pending dish always cleared, so no dish of the previous course stays pending; the list is unchanged |
| `ManageMenu.MenuComposer.SelectDish` | ManageMenu.tsx:69-72 | only a dish the picker offers for the selected course can be chosen (the modal lists `getAvailableDishes()`, lines 122-126); it becomes the pending dish, which enables "Add Item" and belongs to the selected course; course and list are unchanged |
| `ManageMenu.MenuComposer.GoToPaymentPage` | ManageMenu.tsx:75-77 | the payment payload carries the list and the sum of its prices |
| `ManageMenu.ComposeScenario` | ManageMenu.tsx:49-72 | select "Mains", pick Spaghetti, add: the list is [Spaghetti], nothing is pending, the course is still "Mains", total 750 |
| `Menu.MenuScreen.constructor` | Menu.tsx:49-51 | empty cart, total 0, course of the first group ("Starters"), whose two dishes are listed; the invariant holds |
| `Menu.MenuScreen.HandleAddToCart` | Menu.tsx:53-55 | appends the item at the end of the cart, raises the stored total by exactly its price, and keeps the total equal to the cart's sum |
| `Menu.MenuScreen.SetSelectedCourse` | Menu.tsx:70 | changing the course leaves cart and total unchanged |
| `Menu.MenuScreen.ProceedToPayment` | Menu.tsx:98 | the payment payload is the cart with a total equal to the sum of its prices |
| `Menu.AddTwiceScenario` | Menu.tsx:53-55 | adding one item twice gives two entries and twice its price: duplicates are not merged |
| `Menu.AddAllScenario` | Menu.tsx:49-55 | from the initial screen, any sequence of adds leaves the cart equal to the added items and the running total equal to their sum |
| `FilterMenu.FilteredViewIsOneFilter` | FilterMenu.tsx:33-45 | the course-then-price filtering equals one filter by "course matches and price within ceiling" |
| `FilterMenu.FilteredViewAll` | FilterMenu.tsx:33-45 | with both pickers on "All", the whole catalog is listed in its order |
| `FilterMenu.FilteredViewSound` | FilterMenu.tsx:36-43 | with a course chosen, every listed dish has that course; with a ceiling chosen, every listed dish costs at most the ceiling |
| `FilterMenu.FilteredViewCount` | FilterMenu.tsx:33-45 | a dish is listed exactly as often as in the catalog when it passes both active filters, and not at all otherwise |
| `FilterMenu.PriceCeilingInclusive` | FilterMenu.tsx:40-43 | a catalog dish priced exactly at the ceiling, of the chosen course, is listed |
| `FilterMenu.FilteredViewIsSubseq` | FilterMenu.tsx:33-45 | the listed dishes are a subsequence of the catalog |
| `FilterMenu.FilteredViewCommutes` | FilterMenu.tsx:36-43 | applying the price ceiling before the course filter lists the same dishes |
| `FilterMenu.FilteredViewTotal` | FilterMenu.tsx:52-54 | the total of the listed dishes is at most the catalog total |
| `FilterMenu.MainsScenario` | FilterMenu.tsx:14-45 | course "Mains" lists Spaghetti then the chicken dish; adding the R500 ceiling lists nothing |
| `FilterMenu.FilterScreen.constructor` | FilterMenu.tsx:14-25 | initial state: both pickers on "All" and the whole catalog listed |
| `FilterMenu.FilterScreen.FilterMenu` | FilterMenu.tsx:33-46 | the listed dishes become the filtered view of the current state; only that field changes, so the catalog is never modified |
| `FilterMenu.FilterScreen.SetSelectedCourse` | FilterMenu.tsx:29-31 | after a course change the list is recomputed; catalog and price range are unchanged |
| `FilterMenu.FilterScreen.SetPriceRange` | FilterMenu.tsx:80-87 | the price range takes one of the picker's values and the list is recomputed; catalog and course are unchanged |
| `FilterMenu.FilterScreen.GoToPaymentPage` | FilterMenu.tsx:48-54 | the payment payload is the filtered view with its sum, which is at most the catalog total |
| `SignIn.ValidateEmailSound` | signInscreen.tsx:16-19 | every string `ValidateEmail` accepts is label + "@" + label + "." + label |
| `SignIn.ValidateEmailComplete` | signInscreen.tsx:16-19 | `ValidateEmail` accepts label + "@" + label + "." + label for any three labels free of whitespace and '@' (the dot-separated part after '@' may itself contain dots) |
| `SignIn.ValidateEmailIff` | signInscreen.tsx:16-19 | `ValidateEmail(s)` holds exactly when `s` is label + "@" + label + "." + label, each label non-empty with no whitespace and no '@' |
| `SignIn.ValidEmailShape` | signInscreen.tsx:17 | a valid email has exactly one '@' and no whitespace |
| `SignIn.HandleSignIn` | signInscreen.tsx:21-35 | an empty email or password yields "missing fields" whatever the other input is; otherwise an invalid email yields "invalid email" before length is looked at; then a password shorter than 6 yields "invalid password"; success happens exactly when all checks pass, with an empty cart and total 0 |
| `SignIn.SignInSucceedsIff` | signInscreen.tsx:21-33 | sign-in succeeds exactly for a pattern-shaped email and a password of at least 6 characters, and such an email has one '@' and no whitespace |
| `SignIn.PasswordBoundary` | signInscreen.tsx:26-27 | for a valid email, a 6-character password is accepted and a 5-character one is rejected |

## Left out

- Rendering and styling are not modelled: the style sheets, lists, modals, buttons, dropdown pickers and their open/closed flags are display-only.
- Navigation is not modelled. The router and the screen stack of `App.tsx` are an external library, so only the `{ cartItems, totalPrice }` payload is modelled, as the `Checkout` value.
- Alert dialogs are not modelled. `Payment.tsx` is only a confirmation dialog whose payment always succeeds and computes nothing, so it is not part of this model.
- `Description.tsx` and `GuestMenu.tsx` are not part of this model. They only render static dish lists.
- React scheduling is not modelled. Functional state updaters and the effect that re-runs `filterMenu` after a picker change are folded into atomic methods: `SetSelectedCourse` and `SetPriceRange` run `FilterMenu` right after the change.
- The price picker's string value and its `Number(...)` conversion are not modelled. The ceiling is a natural number drawn from {200, 500, 1000}.
- The "Select Dish" button's `disabled={!selectedCourse}` is left out, because the course is never empty.
- The regular-expression engine is not reproduced. `ValidateEmail` decides the pattern directly, and `\s` is the fixed ECMAScript set of white-space and line-terminator characters.
- SignIn.HandleSignIn: password length is counted in characters, whereas JavaScript's `length` counts UTF-16 code units. The two differ for characters outside the Basic Multilingual Plane.
- Menu.MenuScreen.constructor: the Menu screen's items have no `course` field. The model fills it with the name of the group the item is listed under, and nothing on that screen reads it.
- Floating-point arithmetic is not modelled, because every price is an integer literal.
