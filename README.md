# Delivery-App client core, modelled in Dafny

This project models the client-side state of a small delivery-ordering web app.
Customers place and edit orders, delivery administrators see every order and set its
status, and a login/signup screen sends each user to the dashboard for their role.

The model covers:

- **the order-collection store.** This is a list of order records keyed by `id`. The
  application root changes it by appending a pending order, merging a patch by id,
  deleting by id, and filtering by customer (`Orders`, `App.AppStore`). The two dashboards
  keep their own copies (`DeliveryDashboard.Dashboard`, `CustomerDashboard.Dashboard`).
  Each copy mirrors the server's reply into local state after a request.
- **the status policy.** This is the admin's next-status menu, the two dashboards'
  labels and badge classes, and the rule that only pending orders can be edited.
- **the form validators.** These are the order form schema and the login/signup schema.
- **the session and role routing.** This covers logout, the route guards, the redirects
  for a logged-in user, and where a login sends the browser.

Every backend call is a parameter of the operation that makes it: `Reply<T>` is
`Ok(body)`, `NotOk` (a non-success status) or `Thrown(message)`. Login and signup read
the body before they check the status, so they take an `AuthReply` instead. An `alert`
is returned as an out-parameter, and `window.confirm` is a boolean input. The clock
reading (`Date.now()`), the random price suggestion and the e-mail pattern's verdict
are inputs too.

Files: `common.dfy` (Option, Reply), `seqs.dfy` (filter and map on sequences),
`orders.dfy` (the order record, the merge patch, the list transforms), `app.dfy`,
`delivery_dashboard.dfy`, `customer_dashboard.dfy`, `login_screen.dfy`.

The model follows what the code does in four places where it departs from the app's
intended behaviour:

- Status transitions are meant to go forward only (pending, then start delivery, then
  delivered). The admin menu only leaves out the current status, so from `delivered` it
  still offers `pending` (`DeliveryDashboard.StatusOptionsAllowBackwardAndSkip`).
- A failed operation is meant to leave local state unchanged. The customer delete
  does not filter locally: it re-fetches. If the re-fetch fails, the deleted order stays
  in the list and the error is set (`CustomerDashboard.Dashboard.HandleDelete`).
- A failed login is meant to show the server's message. The code alerts `data.error`
  as it is, which reads "undefined" when the body has no `error` key
  (`LoginScreen.LoginFailureMessage`).
- The customer update replaces the orders whose id equals the id the server *returns*.
  The admin update replaces the orders whose id equals the *requested* id. Both are
  kept as written.

## Model

| member | source | states |
|---|---|---|
| Orders.Merge | frontend/client/src/App.jsx:21 | `{...order, ...patch}`: field by field, a key present in the patch wins and every other field keeps the order's value |
| Orders.StatusPatch | frontend/client/src/components/DeliveryDashboard/DeliveryDashboard.jsx:35 | the admin's PUT body `{status: s}` has the status key and no other key |
| Orders.WithAdded | frontend/client/src/App.jsx:11-16 | appending keeps every earlier order in place and adds exactly one order at the end: the draft with the supplied id (overriding the draft's) and status pending |
| Orders.Updated | frontend/client/src/App.jsx:18-24 | an update keeps the length and every position; orders with another id are untouched, orders with the id become the merge in which patch keys win |
| Orders.Replaced | frontend/client/src/components/DeliveryDashboard/DeliveryDashboard.jsx:41-43 | replacing by id keeps the length and every position; matching orders become the server record, all others are untouched |
| Orders.Removed | frontend/client/src/App.jsx:26-28 | an order is in the result iff it is in the list and has another id; the result is no longer than the list |
| Orders.OfCustomer | frontend/client/src/App.jsx:30-32 | an order is in the result iff it is in the list and belongs to that customer |
| Orders.RemovedAfterAddedRestores | frontend/client/src/App.jsx:11-28 | deleting the fresh id just appended gives back the list as it was before the append |
| Orders.OfCustomerAfterAdded | frontend/client/src/App.jsx:11-32 | a customer's orders after an append are their old orders, plus the new one exactly when it is theirs |
| Orders.MergeNoChangeAndIdempotent | frontend/client/src/App.jsx:21 | the spread `{...order, ...patch}` with an empty patch is the order, and merging a patch twice is merging it once |
| Orders.StatusPatchChangesOnlyStatus | frontend/client/src/App.jsx:18-24 | merging `{status: s}` changes the status and no other field |
| Orders.UpdatedAbsentIsIdentity | frontend/client/src/App.jsx:20-23 | updating an id that no order has returns the list unchanged |
| Orders.UpdatedIdempotent | frontend/client/src/App.jsx:18-24 | applying the same update twice equals applying it once |
| Orders.UpdatedKeepsIds | frontend/client/src/App.jsx:21 | a patch without an `id` key keeps every order's id |
| Orders.ReplacedAbsentIsIdentity | frontend/client/src/components/CustomerDashboard/CustomerDashboard.jsx:74-78 | replacing with an id that no order has leaves the list unchanged |
| Orders.RemovedExactly | frontend/client/src/App.jsx:26-28 | after a delete no order has the id; every order with another id remains as often as before, in its original relative order |
| Orders.RemovedIdempotent | frontend/client/src/App.jsx:26-28 | deleting twice equals deleting once |
| Orders.RemovedAbsentIsIdentity | frontend/client/src/App.jsx:27 | deleting an id that no order has leaves the list unchanged |
| Orders.OfCustomerExactly | frontend/client/src/App.jsx:30-32 | a customer's orders are an order-preserving subsequence holding exactly the orders with that customerId, each as often as it occurs |
| App.HomeFor | frontend/client/src/App.jsx:44-48 | the target is the customer dashboard iff the type is customer, and the delivery dashboard for every other type |
| App.Route | frontend/client/src/App.jsx:35-108 | only the five routed paths render anything; every redirect goes to /login or a dashboard; the login screen renders only without a session, and each dashboard only for a user of its type |
| App.Settle | frontend/client/src/App.jsx:36-107 | following the `<Navigate>` redirects: a page that does not redirect is what is reached; nothing renders exactly for an unrouted path; any redirect still pending goes to /login or a dashboard |
| App.CustomerDashboardGuard | frontend/client/src/App.jsx:73-89 | the customer dashboard renders iff a user is logged in with type customer; otherwise the route redirects to /login |
| App.DeliveryDashboardGuard | frontend/client/src/App.jsx:92-107 | the delivery dashboard renders iff a user is logged in with type delivery; otherwise the route redirects to /login |
| App.LoginPagesRedirectLoggedIn | frontend/client/src/App.jsx:39-70 | /login and /signup show the login screen only without a session; a logged-in customer is redirected to /customer-dashboard, anyone else to /delivery-dashboard |
| App.RoutesSettle | frontend/client/src/App.jsx:36-107 | with no session, or a customer or delivery user, every routed path reaches a page within two redirects: the login screen, or the user's own dashboard |
| App.RoutesLoopForOtherTypes | frontend/client/src/App.jsx:39-107 | a logged-in user of any other type is redirected back and forth between /login and /delivery-dashboard without end |
| App.AppStore.constructor | frontend/client/src/App.jsx:113-114 | the session starts with no user and no orders |
| App.AppStore.SetUser | frontend/client/src/App.jsx:113 | the session user becomes the given user |
| App.AppStore.HandleLogout | frontend/client/src/App.jsx:8 | the user becomes null and the orders are untouched, so repeating it changes nothing |
| App.AppStore.AddOrder | frontend/client/src/App.jsx:11-16 | the new list is the old one with the pending order appended at the end under the clock-reading id |
| App.AppStore.UpdateOrder | frontend/client/src/App.jsx:18-24 | same length; each order with the id is merged with the patch; every other order is unchanged |
| App.AppStore.DeleteOrder | frontend/client/src/App.jsx:26-28 | no order keeps the id, and the new list is a subsequence of the old one |
| App.AppStore.CustomerOrders | frontend/client/src/App.jsx:30-32 | the result holds only that customer's orders, includes every one of them with its multiplicity, and keeps store order |
| DeliveryDashboard.StatusOptions | frontend/client/src/components/DeliveryDashboard/DeliveryDashboard.jsx:85-92 | an option is offered iff it is one of the three menu entries and its value is not the current status |
| DeliveryDashboard.StatusDisplay | frontend/client/src/components/DeliveryDashboard/DeliveryDashboard.jsx:67-74 | the label differs from the status iff the status is one of the three known literals; pending reads Pending, start delivery reads In Transit, delivered reads Delivered |
| DeliveryDashboard.StatusClass | frontend/client/src/components/DeliveryDashboard/DeliveryDashboard.jsx:76-83 | the badge class is non-empty iff the status is one of the three known literals |
| DeliveryDashboard.StatusOptionsExcludeCurrent | frontend/client/src/components/DeliveryDashboard/DeliveryDashboard.jsx:85-92 | the next-status menu never contains the current status and keeps the order pending, start delivery, delivered |
| DeliveryDashboard.StatusOptionsUnfold | frontend/client/src/components/DeliveryDashboard/DeliveryDashboard.jsx:86-91 | the menu lists each of the three options, in the fixed order, unless it is the current status |
| DeliveryDashboard.StatusOptionsCount | frontend/client/src/components/DeliveryDashboard/DeliveryDashboard.jsx:85-92 | for each known status the menu has exactly two options; for any other string it is the full menu of three |
| DeliveryDashboard.StatusOptionsAllowBackwardAndSkip | frontend/client/src/components/DeliveryDashboard/DeliveryDashboard.jsx:86-91 | transitions are not forward-only: from delivered, pending is offered; from pending, delivered is offered |
| DeliveryDashboard.Toggled | frontend/client/src/components/DeliveryDashboard/DeliveryDashboard.jsx:133-135 | clicking an order's button opens its dropdown iff it was not open; at most that order's dropdown is open afterwards |
| DeliveryDashboard.Dashboard.constructor | frontend/client/src/components/DeliveryDashboard/DeliveryDashboard.jsx:5-8 | no orders, not loading, no error, no dropdown open |
| DeliveryDashboard.Dashboard.ListShown | frontend/client/src/components/DeliveryDashboard/DeliveryDashboard.jsx:107-110 | `!loading && !error`: hidden while loading or while a non-empty error is set; shown when not loading and the error is null or the empty string |
| DeliveryDashboard.Dashboard.DropdownShown | frontend/client/src/components/DeliveryDashboard/DeliveryDashboard.jsx:141 | `showStatusDropdown === order.id`: an order's dropdown is shown exactly when the open dropdown is that order's, and none is shown when no dropdown is open |
| DeliveryDashboard.Dashboard.FetchOrders | frontend/client/src/components/DeliveryDashboard/DeliveryDashboard.jsx:11-27 | on success the orders are replaced wholesale and the error cleared; on failure the error is set and the orders kept; loading ends false; the list is shown iff the request succeeded, except that a thrown error with an empty message leaves the list shown |
| DeliveryDashboard.Dashboard.HandleStatusUpdate | frontend/client/src/components/DeliveryDashboard/DeliveryDashboard.jsx:30-48 | sends `{status}` to the requested order's URL; on success the orders with the requested id become the server record and the dropdown closes; on failure orders and dropdown are unchanged and the error is alerted |
| DeliveryDashboard.Dashboard.HandleDeleteOrder | frontend/client/src/components/DeliveryDashboard/DeliveryDashboard.jsx:51-65 | a cancelled prompt changes nothing; on success exactly the orders with the id are removed, keeping the rest in order; on failure nothing changes and the error is alerted |
| DeliveryDashboard.Dashboard.ToggleStatusDropdown | frontend/client/src/components/DeliveryDashboard/DeliveryDashboard.jsx:131-141 | the clicked order's dropdown flips between shown and hidden, and no other order's dropdown is shown |
| CustomerDashboard.OrderFormValid | frontend/client/src/components/CustomerDashboard/CustomerDashboard.jsx:51-58 | a valid form has a product name, an address and a price in [10,100] |
| CustomerDashboard.InitialValues | frontend/client/src/components/CustomerDashboard/CustomerDashboard.jsx:45-49 | a new order starts empty; an edit starts from the order's product and address, with its price unless that price is 0 (falsy) |
| CustomerDashboard.PriceTruthy | frontend/client/src/components/CustomerDashboard/CustomerDashboard.jsx:138 | JavaScript truthiness of the price: a missing price and 0 are falsy, every other number is truthy |
| CustomerDashboard.PriceAfterEffect | frontend/client/src/components/CustomerDashboard/CustomerDashboard.jsx:137-143 | the price is cleared iff the address is empty; with an address, a falsy price (missing or 0) becomes the suggestion and a truthy price is kept |
| CustomerDashboard.StatusDisplay | frontend/client/src/components/CustomerDashboard/CustomerDashboard.jsx:13-20 | the label differs from the status iff the status is known; pending reads Pending, start delivery reads In Transit, delivered reads Completed |
| CustomerDashboard.CardStatusLabel | frontend/client/src/components/CustomerDashboard/CustomerDashboard.jsx:203-206 | the card's label differs from the status iff the status is known |
| CustomerDashboard.CardStatusClass | frontend/client/src/components/CustomerDashboard/CustomerDashboard.jsx:199-202 | the card's class starts with "status " and is just "status " iff the status is unknown |
| CustomerDashboard.ActionsFor | frontend/client/src/components/CustomerDashboard/CustomerDashboard.jsx:212-225 | Edit is offered iff the order is pending; Delete is offered for every order |
| CustomerDashboard.PriceBoundsInclusive | frontend/client/src/components/CustomerDashboard/CustomerDashboard.jsx:51-58 | with a product and an address, the form is valid iff 10 ≤ price ≤ 100, both bounds included; a missing price is invalid |
| CustomerDashboard.NewOrderFormStartsInvalid | frontend/client/src/components/CustomerDashboard/CustomerDashboard.jsx:45-58 | the empty new-order form fails the schema |
| CustomerDashboard.EditFormStartsValidIff | frontend/client/src/components/CustomerDashboard/CustomerDashboard.jsx:45-58 | the edit form, filled from the order with falsy fields replaced by '', is valid iff the stored order has a product, an address and a price in [10,100] |
| CustomerDashboard.PriceEffectSuggestsValidPrice | frontend/client/src/components/CustomerDashboard/CustomerDashboard.jsx:137-143 | an empty address clears the price; with a product, an address and a falsy price (missing or 0) the suggested price in [10,100] makes the form valid; a truthy price is kept |
| CustomerDashboard.CardMatchesStatusHelpers | frontend/client/src/components/CustomerDashboard/CustomerDashboard.jsx:199-207 | the card's inline label equals getStatusDisplay, and its badge class is "status " followed by the admin getStatusClass |
| CustomerDashboard.DisplaysDifferOnlyOnDelivered | frontend/client/src/components/CustomerDashboard/CustomerDashboard.jsx:13-20 | the customer labels equal the admin labels on every status except delivered, which the customer sees as Completed |
| CustomerDashboard.Dashboard.constructor | frontend/client/src/components/CustomerDashboard/CustomerDashboard.jsx:7-10 | no orders, not editing, not loading, no error |
| CustomerDashboard.Dashboard.ListShown | frontend/client/src/components/CustomerDashboard/CustomerDashboard.jsx:183-186 | `!loading && !error`: hidden while loading or while a non-empty error is set; shown when not loading and the error is null or the empty string |
| CustomerDashboard.Dashboard.FetchOrders | frontend/client/src/components/CustomerDashboard/CustomerDashboard.jsx:23-37 | without a user nothing happens; otherwise it requests that user's orders, replaces them wholesale and clears the error on success, sets the error and keeps them on failure, and ends with loading false; after a request the list is shown iff it succeeded, except that a thrown error with an empty message leaves the list shown |
| CustomerDashboard.Dashboard.StartEdit | frontend/client/src/components/CustomerDashboard/CustomerDashboard.jsx:212-218 | only a pending order of the rendered list can be edited, and it becomes the order being edited |
| CustomerDashboard.Dashboard.CancelEdit | frontend/client/src/components/CustomerDashboard/CustomerDashboard.jsx:43 | edit mode ends |
| CustomerDashboard.Dashboard.HandleSubmit | frontend/client/src/components/CustomerDashboard/CustomerDashboard.jsx:61-102 | edit: PUT to the edited id; on success the orders with the returned id are replaced and editing ends. Create: POST with customer_id = user id and status pending; on success the record is appended. Any failure changes nothing and is alerted |
| CustomerDashboard.Dashboard.SubmitForm | frontend/client/src/components/CustomerDashboard/CustomerDashboard.jsx:130-135 | invalid values send nothing and change nothing; valid values have every effect of HandleSubmit; every create request that is sent carries status pending and a price in [10,100] |
| CustomerDashboard.Dashboard.HandleDelete | frontend/client/src/components/CustomerDashboard/CustomerDashboard.jsx:105-116 | a cancelled prompt or failed delete changes nothing; a successful delete re-fetches, so the list becomes the server's list, or stays unchanged with the error set; the list is then hidden, except that a thrown error with an empty message leaves the list shown |
| CustomerDashboard.UpdateMatchesReturnedId | frontend/client/src/components/CustomerDashboard/CustomerDashboard.jsx:74-78 | when the server returns a record with a different id, the edited order is left as it was and the orders with the returned id are overwritten |
| LoginScreen.SignupStricterThanLogin | frontend/client/src/components/LoginScreen/LoginScreen.jsx:20-30 | every value set that passes the signup schema also passes the login schema |
| LoginScreen.LoginIgnoresNameAndConfirmation | frontend/client/src/components/LoginScreen/LoginScreen.jsx:21-28 | in login mode changing the name or the confirmation never changes validity |
| LoginScreen.CredentialsValid | frontend/client/src/components/LoginScreen/LoginScreen.jsx:20-30 | both modes need a non-empty well-formed email, a password of at least 6 characters and type customer or delivery; signup also needs a 2 to 50 character name and a non-empty confirmation equal to the password; each mode's schema holds iff its conditions do |
| LoginScreen.InitialValues | frontend/client/src/components/LoginScreen/LoginScreen.jsx:12-18 | the form starts with every text field empty and type customer |
| LoginScreen.InitialValuesRejected | frontend/client/src/components/LoginScreen/LoginScreen.jsx:12-30 | the untouched form fails the schema in both modes, and its default type customer is acceptable |
| LoginScreen.SignupFailureMessage | frontend/client/src/components/LoginScreen/LoginScreen.jsx:50 | the server's error text when it is non-empty, "Signup failed" otherwise |
| LoginScreen.LoginFailureMessage | frontend/client/src/components/LoginScreen/LoginScreen.jsx:71 | the server's error text as it is, even when empty; "undefined" when the body has no error key |
| LoginScreen.FailureMessagesAgreeOnlyOnNonEmptyError | frontend/client/src/components/LoginScreen/LoginScreen.jsx:50-71 | the login and signup failure alerts agree iff the server sent a non-empty error; otherwise login shows "undefined" or an empty alert where signup shows "Signup failed" |
| LoginScreen.Screen.constructor | frontend/client/src/components/LoginScreen/LoginScreen.jsx:8-9 | signup mode holds iff the path is exactly /signup |
| LoginScreen.Screen.HandleSubmit | frontend/client/src/components/LoginScreen/LoginScreen.jsx:32-84 | a successful login sets the session user to the returned object and navigates to that type's dashboard; a signup never sets the user and on success navigates to /login; every failure leaves the session unchanged; submitting ends false on every path |
| LoginScreen.Screen.SubmitCredentials | frontend/client/src/components/LoginScreen/LoginScreen.jsx:91 | the schema gates the submit: invalid values navigate nowhere, alert nothing and leave the session unchanged; valid values have every effect of HandleSubmit; submitting ends false |
| LoginScreen.LoginLandsOnOwnDashboard | frontend/client/src/components/LoginScreen/LoginScreen.jsx:75-76 | after a login the router renders the customer dashboard for a customer and the delivery dashboard for a delivery user |

## Left out

- Network transport is not modelled: `fetch`, JSON parsing and the hard-coded URLs. Each call is an input reply.
- `alert` and `window.confirm` are not modelled as browser calls. The alert text is an output, and the confirmation is an input.
- JSX rendering and styling are left out, and so are React Router and Formik plumbing: `resetForm`, `enableReinitialize` and field bindings. Only the routing decisions, the schema gate of each form and the state updates are kept.
- The e-mail pattern of the schema library is not part of this model. Its verdict is the boolean `emailMatchesFormat`.
- The random price suggestion (`Math.random`, `toFixed`) is an input in [10,100]. Only the effect's set/clear/keep rule is modelled.
- Route matching is exact string equality on the path. React Router also matches a path with a trailing slash and ignores letter case (`/Login/` renders the login route); the model treats such paths as unmatched.
- `console.error` in the login screen's catch block is not modelled; it has no effect on state.
- `CustomerDashboard.NullUserMessage` is the TypeError text V8 gives for reading `id` of null; other engines word it differently. The create branch without a user is kept as written but is unreachable through the route guard, which mounts the dashboard only for a logged-in customer.
- `Date.now()` ids are a parameter of `AddOrder`. Their freshness is not guaranteed: two appends in the same millisecond share an id, and a later delete of that id drops both. `Orders.RemovedAfterAddedRestores` therefore assumes a fresh id.
- Async interleaving is left out: overlapping loads, double submission, and the `loading == true` state observed while a request is in flight. Each handler runs to completion.
- The customer dashboard re-fetches when `user` changes (`useEffect` on `[user]`). This is not modelled; its user is fixed. The delivery dashboard's effect depends on `[]`, so it fetches once on mount, as its `FetchOrders` does.
- A spread key explicitly set to `undefined`, a spread key the order does not already have, and NaN prices are not modelled. `{...order, ...updatedData}` adds such keys to the order in JavaScript, but an order here is a closed seven-field record. A patch key is either present with a value or absent, and a number is falsy only when it is 0.
- Name and password lengths are counted in characters, not UTF-16 code units.
- The unused `addOrder`/`updateOrder`/`deleteOrder`/`getCustomerOrders` props are modelled on `App.AppStore`, but their wiring into the dashboards is not: the dashboards never call them.
- backend/models.py and backend/app.py are not part of this model. They are server schema and configuration with no client behaviour.
