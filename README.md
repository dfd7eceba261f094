# LUCT reporting system: front-end rules in Dafny

This project models the parts of the LUCT reporting web application's front end that carry
rules rather than rendering or network calls, and proves what those rules promise.

- **Checkout** (`checkout.dfy`, module `Checkout`): a cart of product lines bounded by stock.
  "Add to Cart" adds one unit, or does nothing when that would exceed the product's stock.
  "Remove" drops a line by id. "Complete Sale" takes the cart's quantities off the product
  list and empties the cart. The total is the sum of price × quantity. The new lists are pure
  functions (`Added`, `Removed`, `Sold`, `Total`). The class `Register` holds the cart and the
  product list and replaces them through `AddToCart`, `RemoveFromCart` and `CompleteSale`.
- **Program leader portal** (`program_leader.dfy`, module `ProgramLeader`):
  - the six case-insensitive search filters;
  - the checks the stream, module and assignment forms make before a request is sent;
  - the grouping of modules by stream, and the modules the assign dialog offers;
  - the banding of average ratings and the "N/A" display.
- **App shell** (`app.dfy`, module `App`):
  - the route table and `ProtectedRoute`;
  - navigation-bar visibility;
  - restoring the session from stored values;
  - logout.
- Shared helpers:
  - `Seqs.Filter` (`Array.prototype.filter`);
  - `Text` (ASCII lower-casing, `String.prototype.includes`, `String.prototype.trim`);
  - `Optional.Option` (absent values).

Prices are integers in minor units. Average ratings are `real`. Search and trimming work on
`seq<char>`.

The portal prints "N/A" for a missing average and for a zero average alike, and bands both
as "poor" (`AverageShown`, `NotAvailableIsPoor`).

## Model

| member | source | states |
|---|---|---|
| `Checkout.FirstIndex` | src/components/Checkout.js:12 | the position found is the first line carrying the id, or the end when no line does |
| `Checkout.Find` | src/components/Checkout.js:36 | absent exactly when no line carries the id; otherwise the first line of the cart carrying that id |
| `Checkout.AddRespectsStock` | src/components/Checkout.js:12-25 | an add is refused, cart unchanged, exactly when cart quantity + 1 exceeds the stock; otherwise the product's cart quantity rises by exactly one and stays within the stock |
| `Checkout.AddShape` | src/components/Checkout.js:17-25 | an accepted add of a product already in the cart raises that line by one and leaves every other line and the order as they were; for a new product it appends one line with quantity 1 and the product's other fields |
| `Checkout.AddKeepsIdsUnique` | src/components/Checkout.js:12-25 | adding never creates two lines with the same id |
| `Checkout.AddKeepsWithinStock` | src/components/Checkout.js:10-26 | assuming product ids are unique in the product list (and cart ids unique): when every line is within its product's stock and the added product is in the list, every line is still within stock afterwards |
| `Checkout.RemoveDropsOnlyThatId` | src/components/Checkout.js:29-31 | after removal, the lines left are exactly the lines with another id, each as many times as before, in their original order |
| `Checkout.RemoveAbsent` | src/components/Checkout.js:30 | removing an id that is not in the cart changes nothing |
| `Checkout.RemoveIdempotent` | src/components/Checkout.js:30 | removing twice equals removing once |
| `Checkout.RemoveKeepsIdsUnique` | src/components/Checkout.js:30 | removal keeps cart ids unique |
| `Checkout.Sold` | src/components/Checkout.js:35-41 | the sale keeps the product list's length and order; each product keeps its other fields and loses the cart quantity for its id (none when absent) |
| `Checkout.SaleSparesOtherProducts` | src/components/Checkout.js:36-40 | a product whose id is not in the cart comes through the sale unchanged |
| `Checkout.SaleLeavesNoNegativeStock` | src/components/Checkout.js:15-38 | if stock was non-negative and every cart line was within stock, no stock is negative after the sale |
| `Checkout.TotalAppend` | src/components/Checkout.js:49 | the total of two carts in sequence is the sum of their totals (so the empty cart totals 0) |
| `Checkout.TotalIncrement` | src/components/Checkout.js:19-21 | one more unit on the line carrying an id raises the total by that line's price |
| `Checkout.AddRaisesTotal` | src/components/Checkout.js:17-49 | an accepted add raises the total by one unit: at the price on the existing line, or at the product's price for a new line |
| `Checkout.RemoveLowersTotal` | src/components/Checkout.js:29-49 | removing a line lowers the total by that line's price × quantity |
| `Checkout.Register.constructor` | src/components/Checkout.js:6-7 | the screen starts with the shop's products and an empty cart |
| `Checkout.Register.AddToCart` | src/components/Checkout.js:10-26 | the cart becomes `Added` of the old cart; products are untouched; unique ids and at least one unit per line are kept; the stock bound is kept for a listed product |
| `Checkout.Register.RemoveFromCart` | src/components/Checkout.js:29-31 | the cart becomes `Removed` of the old cart; products are untouched; the invariants and the stock bound are kept |
| `Checkout.Register.CompleteSale` | src/components/Checkout.js:34-46 | products become `Sold` of the old products and cart; the cart is empty; a stock bound that held before leaves no negative stock |
| `Seqs.Filter` | frontend/src/components/ProgramLeader.jsx:407-463 | the result is an order-preserving subsequence holding exactly the elements that pass the test, each as many times as in the input |
| `Text.LowerStrIdempotent` | frontend/src/components/ProgramLeader.jsx:409 | lower-casing twice equals lower-casing once |
| `Text.Includes` | frontend/src/components/ProgramLeader.jsx:411 | true exactly when the second string occurs at some position of the first |
| `Text.Trim` | frontend/src/components/ProgramLeader.jsx:137 | the string with its leading and trailing whitespace removed and nothing else: empty exactly when the string is all whitespace, otherwise starting and ending with non-whitespace |
| `ProgramLeader.FilteredReports` | frontend/src/components/ProgramLeader.jsx:407-417 | a report is kept exactly when the term is empty or occurs, ignoring case, in its faculty, lecturer, course, topic or feedback (a missing field never matches); each kept report appears as often as in the input, in order; an empty term keeps all |
| `ProgramLeader.FilteredPrlRatings` | frontend/src/components/ProgramLeader.jsx:419-427 | the same rule (membership, multiplicity, order, empty term) for PRL name, surname and stream |
| `ProgramLeader.FilteredLecturerRatings` | frontend/src/components/ProgramLeader.jsx:429-437 | the same rule (membership, multiplicity, order, empty term) for lecturer name, surname and stream |
| `ProgramLeader.FilteredLecturers` | frontend/src/components/ProgramLeader.jsx:439-448 | the same rule (membership, multiplicity, order, empty term) for name, surname, username and stream |
| `ProgramLeader.FilteredStreams` | frontend/src/components/ProgramLeader.jsx:450-453 | the same rule (membership, multiplicity, order, empty term) for the stream name |
| `ProgramLeader.FilteredModules` | frontend/src/components/ProgramLeader.jsx:455-463 | the same rule (membership, multiplicity, order, empty term) for module name, code and stream |
| `ProgramLeader.SearchIgnoresCase` | frontend/src/components/ProgramLeader.jsx:407-463 | two terms that lower-case alike give all six listings the same rows |
| `ProgramLeader.SearchByLowerCase` | frontend/src/components/ProgramLeader.jsx:409 | a term and its lower-case form select the same rows in all six listings |
| `ProgramLeader.StreamModules` | frontend/src/components/ProgramLeader.jsx:743 | the overview lists under a stream exactly the modules whose stream_id is that stream's id, each as often as in the module list, in order |
| `ProgramLeader.AssignableModules` | frontend/src/components/ProgramLeader.jsx:1334-1335 | the assign dialog offers exactly the modules whose stream_id equals the lecturer's, each as often as in the module list, in order |
| `ProgramLeader.ModuleUnderItsStreamOnly` | frontend/src/components/ProgramLeader.jsx:742-743 | with distinct stream ids, a module appears under the stream its stream_id names and under no other |
| `ProgramLeader.AssignableAreStreamModules` | frontend/src/components/ProgramLeader.jsx:1334-1335 | the dialog's modules for a lecturer are exactly the overview's modules for the lecturer's stream |
| `ProgramLeader.RatingBand` | frontend/src/components/ProgramLeader.jsx:985-989 | excellent from 4, good from 3, fair from 2, poor below 2 or when the average is missing |
| `ProgramLeader.BandMonotone` | frontend/src/components/ProgramLeader.jsx:986-988 | a higher average never gets a lower band |
| `ProgramLeader.AverageShown` | frontend/src/components/ProgramLeader.jsx:990 | "N/A" exactly when the average is missing or zero; otherwise that average |
| `ProgramLeader.NotAvailableIsPoor` | frontend/src/components/ProgramLeader.jsx:985-990 | a card printing "N/A" is always in the poor band; a missing average is banded like 0 |
| `ProgramLeader.CreateStream` | frontend/src/components/ProgramLeader.jsx:136-148 | refused with "Stream name is required" exactly when the name is empty or all whitespace; otherwise the form is POSTed unchanged |
| `ProgramLeader.UpdateStream` | frontend/src/components/ProgramLeader.jsx:169-181 | the same check; otherwise the form is PUT to the edited stream's id |
| `ProgramLeader.CreateModule` | frontend/src/components/ProgramLeader.jsx:230-242 | refused with "All fields are required" exactly when name or code is blank or stream_id is falsy; otherwise the form is POSTed |
| `ProgramLeader.UpdateModule` | frontend/src/components/ProgramLeader.jsx:263-275 | the same check; otherwise the form is PUT to the edited module's id |
| `ProgramLeader.AssignModule` | frontend/src/components/ProgramLeader.jsx:323-337 | refused with "Please select a module" exactly when no lecturer or no module is selected; otherwise the lecturer's id and the module id are POSTed |
| `App.ProtectedRoute` | frontend/src/App.jsx:66-70 | the child is rendered exactly when a user is present whose role is among the allowed roles; every other case redirects to `/login` |
| `App.MatchPathOf` | frontend/src/App.jsx:77-149 | every page is matched by the path it is declared under |
| `App.PathOfMatch` | frontend/src/App.jsx:77-149 | a path that matches a page is exactly that page's declared path |
| `App.RouteTable` | frontend/src/App.jsx:83-149 | `/student`, `/lecturer`, `/prl`, `/pl` and `/admin` admit only their own role; `/classes` and `/classes/:moduleId` admit lecturer, prl and pl; everyone else goes to `/login` |
| `App.RenderDecision` | frontend/src/App.jsx:66-152 | an unmatched path redirects to `/`; a shown page is public or admits the user's role; the only redirects are to `/` and `/login` |
| `App.StudentReach` | frontend/src/App.jsx:83-149 | by any path a student reaches only the landing, login and student pages (never `/pl`) |
| `App.UnknownRoleReach` | frontend/src/App.jsx:66-149 | a user with no role, or one outside the five, reaches public pages only |
| `App.ShowNavbar` | frontend/src/App.jsx:21-25 | the navbar is shown exactly when a user is present and the path is neither `/` nor `/login` |
| `App.RestoreSession` | frontend/src/App.jsx:33-48 | a user is restored exactly when the stored user and token are both present and the user parses; the restored user keeps the stored profile and carries the stored token |
| `App.Logout` | frontend/src/App.jsx:58-63 | after logout there is no user |
| `App.LoggedOut` | frontend/src/App.jsx:58-70 | after logout the navbar is hidden and only the public pages are shown |

## Left out

- Network calls (`fetch`), JSON response handling and the refetch after each change are I/O against a server that is not part of this model.
- `handleDeleteStream` and `handleDeleteModule` hold no rule beyond a `window.confirm` prompt and a `fetch` call, so they are not modelled.
- Message timers (`setTimeout`), `alert`, `window.confirm` and `console.error` are UI side effects, so they are not modelled.
- The spreadsheet exports use an export module that is not part of this model.
- JSX rendering, tabs, dialog opening and the form-editing state setters are presentation, not rules.
- `localStorage` and `sessionStorage` reads and writes are not modelled. This covers the clearing on a failed restore, the `useEffect` clearing and `localStorage.clear()` on logout. The restore is modelled over the two stored values. `JSON.parse` is a parameter returning `None` where parsing throws.
- `Text.Lower` lower-cases ASCII only. Unicode case mapping is not modelled.
- JavaScript floating point is not modelled:
  - prices and totals are integers in minor units;
  - `Checkout.Total` sums over integers, so the left-to-right order of `reduce` does not matter;
  - `toFixed(2)` formatting and `total_ratings || 0` are display only.
- `ProgramLeader.AverageShown` assumes the server sends averages as numbers. If the server sent a numeric string such as `"0.00"`, JavaScript would treat it as truthy and print it. The server is not part of this model.
- AddKeepsWithinStock: assumes product ids are unique in the product list. That list comes from a shared product context that is not part of this model; with two products sharing an id, the add-time check reads one copy's stock and the cart can exceed the other's.
- The products list belongs to a shared product context that is not part of this model, and other screens could change it. So the stock bound is not a `Register` invariant. It is kept by each operation when it held before.
- React state batching and stale closures are not modelled. Each action applies to the latest state.
- Path matching is exact. React Router's case-insensitive matching and trailing-slash tolerance are not modelled.
- `ProgramLeader.AssignableModules` treats a missing `stream_id` on the module and on the lecturer as the same absent value. JavaScript distinguishes `null` from `undefined` under `===`.
- Only the fields the rules read are kept in each row. Fields that are `null` where the code calls `.trim()` on them would throw; this is not modelled.
- frontend/src/pages/LandingDasboard.jsx holds a static page with no rules. backend/src/config/config.js holds configuration defaults. Neither is part of this model.
