# Billed: review dashboard and bill list, modelled in Dafny

Billed is an expense-report ("bill") application. Employees submit bills; an
administrator reviews them on a dashboard. The bills are grouped into three lists
(pending, accepted and refused), and the administrator accepts or refuses each
one with a comment. This project models the logic of the two controller
containers:

- `src/containers/Dashboard.js` is the administrator's dashboard: the status filter
  `filteredBills`, the list index → status switch `getStatus`, the author-name split
  done by `card`, and `cards`. It also covers two click handlers. `handleShowTickets`
  opens and closes a status list. `handleEditTicket` switches the right-hand side
  between the decision form and the "big billed" icon. Both handlers advance the
  same instance counter. Last come the accept/refuse handlers and `updateBill`.
- `src/containers/Bills.js` is the employee's list: `getBills`, which formats every
  stored record on its own, and the "new bill" button.

Files:

- `common.dfy`: `Option` (JavaScript's `undefined`), `Result` (a settled promise),
  `Route`, and `IsSubsequence`.
- `text.dfy`: JavaScript `split`/`join` on one character, with the lemmas that
  `join` undoes `split`, that no part holds the separator, and how many parts there are.
- `records.dfy`: the stored `Bill` record.
- `dashboard.dfy`: module `Dashboard`. It holds pure functions for the filter, the
  cards and the two toggles over a `Panel` value, the lemmas about them, and
  the `DashboardContainer` class. The class's fields `counter`, `id` and
  `containers` are updated in place. Each handler is proved to leave them exactly
  as the pure transition says. The field `rightPanel` holds what the right-hand side
  shows after a card click. A ghost `log` records what is sent to the store and where
  the dashboard navigates.
- `bills.dfy`: module `Bills`. It holds `GetBills` and the `BillsContainer` class.

Modelling choices:

- Ambient inputs become parameters:
  - The test-runner/production switch and the reviewer's e-mail from local
    storage are `Dashboard.Mode`. A stored user without an `email` gives `None`,
    which then excludes no bill.
  - The list of designated test accounts is `Production.usersTest`. The file
    that defines it, `src/constants/usersTest.js`, is not part of this model.
  - Whether a store was given is `DashboardContainer.hasStore`.
  - The outcome of the store's `list()` is `GetBills`'s `store` argument.
- `formatDate` and `formatStatus` (`src/app/format.js`) are not part of this model.
  They are function parameters: `formatDate` returns `None` where it throws, and
  `formatStatus` is total.
- The counter has three states: unset, `NaN` and a number. `handleShowTickets`
  runs `this.counter++` even when no ticket was clicked yet, and `undefined++`
  yields `NaN`. The invariant `Consistent` states that the counter is `NaN` only
  while no bill is tracked. That is why `handleEditTicket` always resets it.
- The filter follows the code, not the tests. In the test-runner branch
  (`src/containers/Dashboard.js:14-15`) only the status is compared. The tests at
  `src/__tests__/Dashboard.js:265-302` expect test accounts and the reviewer to be
  excluded there too. In the model that exclusion holds in `Production` mode only.
- The edit toggle has no counter of its own for each bill. The code keeps one
  counter, shared with the list toggles. The model follows the code, and
  `ShowTicketsRepeatsView` proves the consequence: an arrow click between two
  clicks on the same card makes the second click show the same view again.
- A fresh dashboard is assumed to show three empty status lists, keyed 1 to 3.
  The page template that draws them is not part of this model.

## Model

| member | source | states |
|---|---|---|
| `Dashboard.FilteredBills` | src/containers/Dashboard.js:8-28 | Undefined or empty data gives `[]`. Otherwise the result is a subsequence of the data (original order), every element passes the filter's test, and each selected bill occurs exactly as often as in the data. |
| `Dashboard.FilteredBillsMembership` | src/containers/Dashboard.js:19-23 | A bill is listed iff it is in the data and has the requested status. In production it must also have an author that is neither a test account nor the reviewer. |
| `Dashboard.ProductionWithinJest` | src/containers/Dashboard.js:13-24 | The production list is a subsequence of the test-runner list for the same data and status. |
| `Dashboard.GetStatus` | src/containers/Dashboard.js:59-68 | Defined exactly for indexes 1, 2 and 3, which give "pending", "accepted" and "refused". Any other index gives undefined. |
| `Dashboard.GetStatusInjective` | src/containers/Dashboard.js:59-68 | Different list indexes give different statuses. |
| `Dashboard.LocalPart` | src/containers/Dashboard.js:31-31 | The result has no '@' and is the whole address or the text before its first '@'. |
| `Dashboard.DisplayNames` | src/containers/Dashboard.js:31-35 | If the local part contains '.', the names are the dot-free segments before the first dot and between the first and second dots. Otherwise the first name is empty and the last name is the whole local part. |
| `Dashboard.Cards` | src/containers/Dashboard.js:30-57 | Undefined or empty input renders nothing. Otherwise there is one card per bill in input order, carrying that bill's id and names. |
| `Dashboard.CardsAppend` | src/containers/Dashboard.js:55-57 | Rendering `a + b` gives the cards of `a` followed by the cards of `b`. |
| `Dashboard.Incremented` | src/containers/Dashboard.js:159-159 | `++` adds one to a number and turns unset or `NaN` into `NaN`. |
| `Dashboard.EditTicket` | src/containers/Dashboard.js:103-122 | The clicked bill becomes tracked and the lists are unchanged. A different or first bill always gets the form, with the counter at 1. The same bill gets the form iff the counter is even, and the counter grows by one. The invariant is preserved. |
| `Dashboard.ClickTwiceAlternates` | src/containers/Dashboard.js:104-122 | Two clicks on the same card show the form once and the big icon once. On an untracked bill the form comes first and the second click ends on the big icon. |
| `Dashboard.ShowTickets` | src/containers/Dashboard.js:148-175 | An open list is emptied and `[]` is returned. A closed list shows the cards of the filtered bills for its status, which are returned. In both cases the list shows exactly the cards of what is returned, other lists and the tracked id are unchanged, and the counter advances. |
| `Dashboard.ToggleTwiceRestores` | src/containers/Dashboard.js:153-165 | Two arrow clicks on a closed list leave all lists as they were. |
| `Dashboard.EmptyListNeverOpens` | src/containers/Dashboard.js:150-165 | When no bill matches a list's status, clicking its arrow returns nothing and the list stays closed. |
| `Dashboard.ShowTicketsRepeatsView` | src/containers/Dashboard.js:103-175 | Because both handlers advance the shared counter, an arrow click between two clicks on one card makes the second click repeat the first click's view. |
| `Dashboard.Decided` | src/containers/Dashboard.js:128-146 | The sent record is the bill with `status` set to the verdict and `commentAdmin` set to the comment. The id and every other field are unchanged. |
| `Dashboard.LastDecisionWins` | src/containers/Dashboard.js:129-133 | Deciding again on a decided record gives the same record as deciding once on the original bill. |
| `Dashboard.DashboardContainer.constructor` | src/containers/Dashboard.js:71-88 | A fresh dashboard has an unset counter, no tracked bill, three closed lists, nothing rendered on the right and an empty effect log. |
| `Dashboard.DashboardContainer.HandleEditTicket` | src/containers/Dashboard.js:103-126 | The counter, tracked id and right-hand view become those of `EditTicket`. The lists and the log are unchanged, and the invariant is kept. |
| `Dashboard.DashboardContainer.HandleShowTickets` | src/containers/Dashboard.js:148-175 | The returned bills and the new counter, id and lists are those of `ShowTickets`. The right-hand view and the log are unchanged, and the invariant is kept. |
| `Dashboard.DashboardContainer.UpdateBill` | src/containers/Dashboard.js:199-206 | With a store, one update keyed by the record's id is logged. Without a store nothing happens. |
| `Dashboard.DashboardContainer.HandleAcceptSubmit` | src/containers/Dashboard.js:128-136 | The accepted record is sent to the store if there is one, then exactly one navigation to the dashboard follows. Panel state is untouched. |
| `Dashboard.DashboardContainer.HandleRefuseSubmit` | src/containers/Dashboard.js:138-146 | The refused record is sent to the store if there is one, then exactly one navigation to the dashboard follows. Panel state is untouched. |
| `Dashboard.OpenListAndClickTwice` | src/__tests__/Dashboard.js:123-151 | On a fresh dashboard, open the pending list and click any listed card twice through the container's handlers: the first click renders the decision form for that bill and the second renders the big icon. |
| `Bills.FormatRecord` | src/containers/Bills.js:43-59 | The status is always `formatStatus` of the raw status. The date is the formatted date, or the raw date when formatting throws. Every other field is copied. |
| `Bills.FormatAll` | src/containers/Bills.js:42-60 | The output has one record per stored record, and each is formatted from the record at the same position. |
| `Bills.FormatAllAppend` | src/containers/Bills.js:42-60 | Formatting a concatenation gives the concatenation of the formatted parts, so one record's failure affects no other. |
| `Bills.GetBills` | src/containers/Bills.js:34-70 | No store gives undefined synchronously. A rejected `list()` resolves to undefined. A resolved list gives the same number of records in the same order, each with formatted status, formatted-or-raw date and other fields copied. |
| `Bills.BillsContainer.constructor` | src/containers/Bills.js:6-17 | A fresh list container has navigated nowhere. |
| `Bills.BillsContainer.HandleClickNewBill` | src/containers/Bills.js:19-22 | Exactly one navigation, to the new-bill page, is added. |

## Left out

- `Dashboard.Cards`: a card keeps only the bill id and the author's names. The bill
  name, amount, type, colours and the date are not modelled. The date is formatted with
  `formatDate`, which can throw and then aborts the whole `cards` call; that abort is not modelled either.
- `Dashboard.FilteredBills`: in production the reviewer is read with
  `JSON.parse(localStorage.getItem("user")).email`. When no user is stored this
  throws a TypeError for any non-empty data, and the throw also aborts
  `handleShowTickets`. That throw is not modelled. The `Mode` value always provides a
  (possibly absent) e-mail. Bills without an `email` cannot be represented, so the
  model also leaves out how a stored user without an e-mail (`undefined` in the
  exclusion list) drops such bills.
- `Dashboard.Counter`, `Records.Bill`: JavaScript numbers are doubles, but the model
  uses unbounded integers. Past 2^53, `counter++` would no longer change the counter and
  its parity would stop alternating. `amount` and `pct` may be fractional in the source.
- `Dashboard.DisplayNames`: an author e-mail is always a string. A bill without an
  `email` makes `card` throw, which is not modelled.
- `Bills.GetBills`: console logging is not modelled. That covers the record logged with a date error and the
  logged rejection of `list()`. An exception thrown inside the `then` callback for
  any reason other than `formatDate` is not modelled either.
- `Dashboard.DashboardContainer.UpdateBill`: the promise of the store's `update` is
  not awaited, and its failure is only logged to the console; the model records the request only.
- `Dashboard.DashboardContainer.HandleEditTicket`: the card recolouring loop over
  `bills`, the navbar height and the re-binding of the eye, accept and refuse
  buttons are DOM plumbing and are left out.
- `Dashboard.DashboardContainer.HandleAcceptSubmit` and `HandleRefuseSubmit`: the
  comment is passed in as a parameter. The source reads it from the page's comment field.
- `Dashboard.DashboardContainer.HandleShowTickets`: the arrow rotation and the click
  listeners bound to the new cards are DOM plumbing and are left out.
- Listener setup (`initializeShowTicketsListener`, the constructors' `addEventListener`
  calls) and `Logout` are event wiring, and the `Logout` container is not part of this model.
- Both `handleClickIconEye` modals are DOM work and floating-point width computations.
- `getBillsAllUsers` returns each listed record unchanged. It only passes the network call through.
- The paths behind `ROUTES_PATH` are not part of this model. Navigation is recorded
  by route name.
- The new-bill upload pipeline and the login page: their containers are not part
  of this model, only their tests.
