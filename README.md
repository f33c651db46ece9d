# Cupcake Delivery storefront: a Dafny model of its client logic

This project models the client-side logic of the Cupcake Delivery storefront, a React
single-page application where customers order cupcakes and see their orders' progress,
delivery drivers take ready orders out, and administrators move orders through their statuses.
Rendering, HTTP transport, storage and timers are abstracted. What remains is stated and proved
in Dafny:

- the cart hook's list algebra over the persisted `cart` record;
- the toast stack and each toast's timer lifecycle;
- the notification hook, and the notification service it calls;
- error normalisation, in both API clients and in the error hook;
- the health panel's probe sequence;
- the order-status filters, counts, timeline and next-status action of the three dashboards;
- the notification dropdown's display helpers;
- the cart page, checkout page and cart dropdown;
- the authentication context, the router's guards, the login page and the title hooks.

Layout: one module per source file, plus shared modules.

| module | file |
|---|---|
| `Wrappers` | `Option`/`Result` |
| `Strings` | decimal rendering and parsing, substring search, ASCII case folding, trimming |
| `Seqs` | filter, count and take over sequences |
| `Http` | response, body and thrown-error shapes |
| `Browser` | the storage records and `document.title` |

Components and hooks that keep state in place are Dafny classes with `modifies` clauses. The
values they compute are pure functions, and the lemmas are about those functions.

Environment inputs are parameters:

- what `fetch` gives back (`Http.Outcome`);
- the clock reading (`now`);
- what JWT decoding of the stored token gives (`Auth.Claims`, as an `Option`);
- whether `createOrder` succeeded;
- timer expiries, which are explicit event methods.

## Model

| member | source | states |
|---|---|---|
| CartStore.LoadedItems | src/hooks/useCart.ts:12-19 | an absent or unparsable `cart` record loads as the empty cart; an encoded one loads as its lines |
| CartStore.TotalItemsConcat | src/hooks/useCart.ts:40-42 | the item count of two lists joined is the sum of their counts |
| CartStore.TotalItemsPositive | src/hooks/useCart.ts:40-42 | a cart of positive lines has a total of at least its number of lines |
| CartStore.TotalItemsAppend | src/hooks/useCart.ts:40-42 | the count is the sum of quantities: 0 for the empty cart, one more line adds its quantity |
| CartStore.CountOf | src/hooks/useCart.ts:45 | the number of lines naming a product is 0 exactly when `find` finds none |
| CartStore.CountOfUnique | src/hooks/useCart.ts:45-56 | with one line per product, a product has exactly one line or none |
| CartStore.Find | src/hooks/useCart.ts:45 | `find` is None exactly when no line names the product, otherwise a line of the cart naming it |
| CartStore.Retune | src/hooks/useCart.ts:49-53 | the `map` keeps length and order, rewrites the quantity of matching lines and leaves the others |
| CartStore.RetuneAbsent | src/hooks/useCart.ts:49-53 | the `map` is the identity when no line names the product |
| CartStore.TotalIncrease | src/hooks/useCart.ts:48-53 | raising every matching line by q raises the total by q per matching line |
| CartStore.AddedItems | src/hooks/useCart.ts:44-56 | `addToCart` grows the existing line in place (same length, others unchanged) or appends `{p, q}` at the end |
| CartStore.Without | src/hooks/useCart.ts:65-66 | `removeFromCart` keeps exactly the lines of other products and never grows the list |
| CartStore.WithoutLength | src/hooks/useCart.ts:66 | the length drops by exactly the number of lines that name the product |
| CartStore.WithoutConcat | src/hooks/useCart.ts:66 | the filter distributes over concatenation, so the survivors keep their order |
| CartStore.WithoutAbsent | src/hooks/useCart.ts:66 | removing an absent product leaves the cart unchanged |
| CartStore.TotalWithout | src/hooks/useCart.ts:40-66 | removing a product takes exactly its quantities out of the total |
| CartStore.UpdatedItems | src/hooks/useCart.ts:72-80 | a quantity of at most 0 is exactly `removeFromCart`; a positive one rewrites matching lines in place and never inserts a missing product |
| CartStore.UpdatedFind | src/hooks/useCart.ts:78-80 | after a positive update of a present product, its first line holds the new quantity |
| CartStore.AddTotal | src/hooks/useCart.ts:40-56 | with one line per product, adding q items raises the total by exactly q |
| CartStore.AddKeepsUnique | src/hooks/useCart.ts:44-56 | adding keeps at most one line per product |
| CartStore.AddKeepsPositive | src/hooks/useCart.ts:44-56 | adding q >= 1 keeps every quantity at least 1 |
| CartStore.AddNonPositiveBreaksPositive | src/hooks/useCart.ts:44-55 | nothing guards q: a new product added with q < 1 gets a line below 1 |
| CartStore.WithoutKeepsUnique | src/hooks/useCart.ts:66 | removing keeps at most one line per product |
| CartStore.UpdateKeepsInvariants | src/hooks/useCart.ts:72-80 | updating keeps one line per product and all quantities positive |
| CartStore.Cart.constructor | src/hooks/useCart.ts:9-22 | mount loads the list from the record, so the list equals what the record loads as |
| CartStore.Cart.Reload | src/hooks/useCart.ts:25-32 | the `storage` and `cartUpdated` listeners reload the list from the record |
| CartStore.Cart.AddToCart | src/hooks/useCart.ts:44-63 | the list becomes `AddedItems`, the `cart` record is rewritten to it, and the other records are untouched |
| CartStore.Cart.RemoveFromCart | src/hooks/useCart.ts:65-70 | the list becomes `Without`, the record is rewritten to it, and the other records are untouched |
| CartStore.Cart.UpdateQuantity | src/hooks/useCart.ts:72-84 | the list becomes `UpdatedItems`, the record is rewritten to it, and the other records are untouched |
| CartStore.Cart.ClearCart | src/hooks/useCart.ts:86-90 | the list is empty, the record is removed and the total is 0 |
| CartStore.SiblingSync | src/hooks/useCart.ts:25-62 | two hook instances over one storage agree once the second reloads after the first adds |
| ToastQueue.Pushed | src/contexts/ToastContext.tsx:30-46 | the new toast is at index 0, followed by the previous ones in order; the length is min(old + 1, 5) |
| ToastQueue.Removed | src/contexts/ToastContext.tsx:49-51 | `removeToast` keeps exactly the toasts with another id |
| ToastQueue.RemovedAbsent | src/contexts/ToastContext.tsx:50 | removing an unknown id changes nothing |
| ToastQueue.RemovedKeepsDescending | src/contexts/ToastContext.tsx:50 | removal keeps the newest-first order |
| ToastQueue.RemovedOne | src/contexts/ToastContext.tsx:50-74 | with distinct ids, closing the toast at k removes exactly that one |
| ToastQueue.PushedKeepsDescending | src/contexts/ToastContext.tsx:34-38 | pushing an id above all present ids keeps the stack newest first |
| ToastQueue.SixthToastDropsOldest | src/contexts/ToastContext.tsx:38-43 | six pushes onto an empty stack leave the five newest, newest first |
| ToastQueue.LayerAt | src/contexts/ToastContext.tsx:63-68 | the style depends only on the index: zIndex 50 - index, offset -4 * index, dimmed and darker behind the front |
| ToastQueue.LayersOrdered | src/contexts/ToastContext.tsx:63-68 | in a full stack a newer toast is drawn above, higher up and brighter than an older one |
| ToastQueue.SameMillisecondDistinct | src/contexts/ToastContext.tsx:31-34 | two calls in the same millisecond get distinct ids |
| ToastQueue.ClockStepBackRepeatsId | src/contexts/ToastContext.tsx:34 | a clock stepping back one millisecond reissues the previous id |
| ToastQueue.ToastProvider.constructor | src/contexts/ToastContext.tsx:29-31 | the stack starts empty with the counter at 0 |
| ToastQueue.ToastProvider.ShowToast | src/contexts/ToastContext.tsx:33-47 | the counter goes up by one, the id is clock plus counter, the stack becomes `Pushed`, and ids stay unique while the clock does not go back |
| ToastQueue.ToastProvider.RemoveToast | src/contexts/ToastContext.tsx:49-51 | the stack becomes `Removed` and stays newest first |
| ToastLifecycle.Render | src/components/Toast.tsx:57-100 | nothing renders when not visible; shown in place iff animating and not leaving; the progress bar is full iff neither flag is set; its transition follows the flags |
| ToastLifecycle.Toast.constructor | src/components/Toast.tsx:11-43 | both flags start false, `onClose` has not been called at mount, and a visible toast starts both timers |
| ToastLifecycle.Toast.RunEffect | src/components/Toast.tsx:17-43 | the effect restarts both timers only for a visible toast that is not leaving, and changes no flag |
| ToastLifecycle.Toast.Rerender | src/components/Toast.tsx:17-43 | a change of any dependency re-runs the effect; unchanged props leave the timers |
| ToastLifecycle.Toast.FireEntrance | src/components/Toast.tsx:24-26 | the entrance timer sets `isAnimating` and nothing else |
| ToastLifecycle.Toast.FireAutoClose | src/components/Toast.tsx:29-35 | the duration timer sets `isLeaving` and schedules the current `onClose` |
| ToastLifecycle.Toast.ManualClose | src/components/Toast.tsx:45-55 | when not leaving, it cancels the auto-close timer and schedules `onClose`; when already leaving, it does nothing |
| ToastLifecycle.Toast.FireExit | src/components/Toast.tsx:32-53 | an exit timer calls the callback it captured |
| ToastLifecycle.Toast.Unmount | src/components/Toast.tsx:39-42 | the cleanup clears the two kept timers and no exit timer |
| ToastLifecycle.AutoCloseRun | src/components/Toast.tsx:11-43 | mount, entrance, auto-close and exit call `onClose` exactly once and leave no timer pending |
| ToastLifecycle.CloseTwice | src/components/Toast.tsx:45-55 | pressing close twice schedules `onClose` only once |
| ToastLifecycle.ParentRenderRestartsTimer | src/components/Toast.tsx:43 | a fresh `onClose` from a parent render restarts the timers of a toast that is not leaving |
| NotificationService.AuthHeader | src/services/notificationService.ts:22-31 | null exactly when the token is falsy, otherwise exactly a Bearer and a JSON header |
| NotificationService.ListUrlDistinguishesLimits | src/services/notificationService.ts:40 | a zero or missing limit asks for the plain list; any other limit gives a different URL, and different non-zero limits give different URLs |
| NotificationService.MarkReadUrl | src/services/notificationService.ts:80 | the URL holds the decimal id between `/notifications/` and `/read` |
| NotificationService.MarkReadUrlInjective | src/services/notificationService.ts:80 | different ids are marked through different URLs |
| NotificationService.StatusMessageNamesStatus | src/services/notificationService.ts:43-45 | the `HTTP <status>: <statusText>` message starts with `HTTP ` and tells different statuses apart |
| NotificationService.Send | src/services/notificationService.ts:33-127 | no token: throw the missing-token error with no request; otherwise one request with the auth header, and a rejection, error message or reply as the response says |
| NotificationService.NoTokenNoRequest | src/services/notificationService.ts:35-114 | without a token no method sends anything, whatever the server would answer |
| NotificationService.Endpoints | src/services/notificationService.ts:41-120 | the verb, URL and headers of each of the five calls |
| NotificationService.MarkFailureMessages | src/services/notificationService.ts:85-124 | non-OK mark and create calls throw their fixed messages, never the status |
| Notifications.GuardedFetchSends | src/hooks/useNotifications.ts:14-43 | past the hook's guard the service always sends its request |
| Notifications.MissingTokenMessageSuppressed | src/hooks/useNotifications.ts:27-29 | every message with the missing-token text anywhere in it is never toasted, and neither is the service's own refusal without a token |
| Notifications.MarkedRead | src/hooks/useNotifications.ts:56-60 | `is_read` is set on the records with that id only; length and order are kept |
| Notifications.AllRead | src/hooks/useNotifications.ts:76 | every record is marked read and nothing else changes |
| Notifications.UnreadIn | src/hooks/useNotifications.ts:56-60 | the number of unread records is at most the list length, and 0 exactly when every record is read |
| Notifications.MarkedReadLowersUnread | src/hooks/useNotifications.ts:56-76 | marking one id never raises the unread number; marking all makes it 0 |
| Notifications.MarkedReadKeepsRecords | src/hooks/useNotifications.ts:56-60 | marking changes only `is_read`, and marking twice equals marking once |
| Notifications.DecrementFloor | src/hooks/useNotifications.ts:63 | `max(0, n - 1)`: never negative, one less for a positive counter |
| Notifications.DecrementsStopAtZero | src/hooks/useNotifications.ts:63 | k successful marks leave max(0, count - k), even for records that were already read |
| Notifications.NotificationsHook.constructor | src/hooks/useNotifications.ts:7-9 | empty list, count 0, not loading |
| Notifications.NotificationsHook.FetchNotifications | src/hooks/useNotifications.ts:13-33 | no call and no change unless authenticated, settled and holding a token; on success the list is replaced; a failure toasts unless it is the missing-token error; loading ends false |
| Notifications.NotificationsHook.FetchUnreadCount | src/hooks/useNotifications.ts:35-49 | the same guard; on success the count is replaced; a failure changes nothing and is not toasted |
| Notifications.NotificationsHook.MarkAsRead | src/hooks/useNotifications.ts:51-69 | the list and count change only after the server call succeeds; a failure toasts and changes neither |
| Notifications.NotificationsHook.MarkAllAsRead | src/hooks/useNotifications.ts:71-84 | success marks every record read, sets the count to 0 and toasts; a failure changes nothing and toasts |
| Notifications.NotificationsHook.CreateTestNotification | src/hooks/useNotifications.ts:86-99 | success toasts the creation notice, then, past the fetch guard, replaces the list and count with what the two fetches return (the list fetch's failure toast included); without the guard only the notice is added; a failure toasts and changes nothing else |
| Notifications.NotificationsHook.AuthEffect | src/hooks/useNotifications.ts:102-118 | nothing while auth loads; signed out clears the list and count; signed in without a token changes nothing; signed in with one, both requests are sent and the list, count and toasts become what the two fetches return, with loading false |
| Notifications.NotificationsHook.PollTick | src/hooks/useNotifications.ts:121-129 | a poll tick sends the count request and replaces the count with its result exactly when the fetch guard holds; otherwise nothing is sent or changed; the list, loading flag and toasts never change |
| ErrorHandler.Normalise | src/hooks/useErrorHandler.ts:39-54 | `response.data` is stored verbatim; otherwise a message gives a `network_error`; otherwise an `unknown_error` with the fixed text |
| ErrorHandler.TsErrorsStoredVerbatim | src/hooks/useErrorHandler.ts:39-41 | everything the TS client throws is stored as exactly the data it carries |
| ErrorHandler.JsStatusErrorsBecomeNetworkErrors | src/hooks/useErrorHandler.ts:42-47 | a JS client status error becomes a `network_error` with the client's message |
| ErrorHandler.ErrorMessage | src/hooks/useErrorHandler.ts:68-78 | null gives `''`; non-empty validations give the first one's message; otherwise the message or `'Erro desconhecido'` |
| ErrorHandler.ErrorMessageNonEmpty | src/hooks/useErrorHandler.ts:77 | an error record without validations always yields a non-empty message |
| ErrorHandler.NormalisedMessageShown | src/hooks/useErrorHandler.ts:42-77 | for a value without response data, the message shown is its own message or the unexpected-error text |
| ErrorHandler.ValidationMap | src/hooks/useErrorHandler.ts:83-86 | the dictionary's keys are exactly the validations' fields |
| ErrorHandler.ValidationMapLastWins | src/hooks/useErrorHandler.ts:84-86 | a field maps to the message of its last validation |
| ErrorHandler.ValidationErrors | src/hooks/useErrorHandler.ts:80-89 | `{}` without validations; otherwise the loop builds exactly `ValidationMap` |
| ErrorHandler.ErrorState.constructor | src/hooks/useErrorHandler.ts:21-22 | no error, not loading |
| ErrorHandler.ErrorState.ClearError | src/hooks/useErrorHandler.ts:25-27 | the error becomes null and loading is kept |
| ErrorHandler.ErrorState.SetLoading | src/hooks/useErrorHandler.ts:29-34 | `setLoading(true)` clears the error; `setLoading(false)` keeps it |
| ErrorHandler.ErrorState.HandleError | src/hooks/useErrorHandler.ts:36-55 | loading ends false and the error becomes `Normalise(err)` |
| ApiTs.HttpErrorData | src/services/api.ts:75-81 | an unparsable error body becomes `http_error` with `Erro HTTP <status>: <statusText>` |
| ApiTs.StatusError | src/services/api.ts:84-89 | the error carries the status and data; its message is `data.message` or `'Erro na requisição'` |
| ApiTs.MakeRequestResult | src/services/api.ts:64-114 | network failure gives the status-0 `network_error`; non-OK gives `StatusError`; 204 gives `{}` unparsed; OK parses the body, and a bad body becomes a `network_error` |
| ApiTs.ErrorsCarryData | src/services/api.ts:85-112 | every error the TS client throws has a `response` with data |
| ApiTs.SucceedsIff | src/services/api.ts:70-97 | the call succeeds exactly for an OK response that is a 204 or whose body parses |
| ApiTs.NonZeroStatusIsServerError | src/services/api.ts:85-113 | an error with a non-zero status came from a non-OK response with that status |
| ApiTs.HttpErrorMessageNamesStatus | src/services/api.ts:79 | unparsable responses with different statuses get different messages |
| ApiJs.StatusErrorMessage | src/services/api.js:40-42 | the body's `error`, else `HTTP <status>`; an unparsable body gives `'Erro desconhecido'`; never empty |
| ApiJs.MakeRequestResult | src/services/api.js:34-49 | a rejection is rethrown as it is; non-OK throws `StatusErrorMessage`; OK parses the body, 204 included |
| ApiJs.ErrorsCarryNoResponse | src/services/api.js:42-48 | no error of the JS client carries a `response` |
| ApiJs.SucceedsIff | src/services/api.js:40-45 | the call succeeds exactly for an OK response whose body parses |
| ApiClient.ResolveToken | src/services/api.ts:48-50 | the field when it is truthy, otherwise the stored record |
| ApiClient.StoredToken | src/services/api.ts:41-45 | the record is written for a truthy token and removed otherwise |
| ApiClient.SetThenGet | src/services/api.ts:39-50 | after `setToken(t)`, `getToken()` gives t when truthy and null otherwise |
| ApiClient.RequestHeaders | src/services/api.ts:54-62 | JSON content type unless the caller gives one; caller headers are kept; a token adds a Bearer `Authorization` that overrides the caller's |
| ApiClient.ApiService.constructor | src/services/api.ts:34-37 | the field starts as the `authToken` record |
| ApiClient.ApiService.GetToken | src/services/api.ts:48-50 | the token is `ResolveToken` of the field and the record |
| ApiClient.ApiService.SetToken | src/services/api.ts:39-46 | the field takes t, the record becomes `StoredToken(t)`, and the other records are untouched |
| ApiClient.ApiService.Logout | src/services/api.ts:138-140 | the field and the record both hold no token |
| ApiClient.ApiService.MakeRequest | src/services/api.ts:52-115 | it sends `RequestHeaders` with the current token and gives the client's result, with no state changed |
| ApiClient.ApiService.Login | src/services/api.ts:125-136 | a token in a successful response is stored; otherwise the token is kept |
| ApiClient.NoContentDiffers | src/services/api.ts:93-95 | a 204 with an empty body: the TS client gives `{}`, the JS client throws |
| ApiClient.ClientsAgreeOnParsedSuccess | src/services/api.ts:97 | where the TS client parses a successful body, the JS client gives the same body |
| ApiClient.ClientsAgreeOnFailure | src/services/api.ts:70-114 | both clients fail on every non-OK response and every network failure |
| HealthCheck.OverallStatus | src/components/HealthCheck.tsx:97-105 | operational iff both healthy; otherwise checking iff either is checking; otherwise issues detected |
| HealthCheck.RefreshDisabledIffChecking | src/components/HealthCheck.tsx:101-170 | refresh is disabled exactly when the banner says checking |
| HealthCheck.Verdicts | src/components/HealthCheck.tsx:34-59 | without a throw, each probe is healthy iff its response was ok; a throw marks both unhealthy; nothing is left checking |
| HealthCheck.CompletedCheckSettles | src/components/HealthCheck.tsx:48-105 | after a completed check the banner is never checking, and it is operational iff both responses were ok |
| HealthCheck.HealthPanel.constructor | src/components/HealthCheck.tsx:10-14 | both probes checking, no last check |
| HealthCheck.HealthPanel.BeginCheck | src/components/HealthCheck.tsx:17-21 | both probes checking, the last check kept, refresh disabled |
| HealthCheck.HealthPanel.CompleteCheck | src/components/HealthCheck.tsx:23-60 | the database is probed only when the API probe responded; the state becomes `Verdicts` with the time set; refresh enabled |
| HealthCheck.HealthPanel.CheckHealth | src/components/HealthCheck.tsx:16-61 | a whole check ends in `Verdicts` with the time set |
| OrderStatus.Parse | src/pages/customer/Dashboard.tsx:160-169 | a status string is one of the six known names or is kept as `Other` with that name |
| OrderStatus.ParseRoundTrip | src/pages/admin/Dashboard.tsx:374-379 | reading a string and writing it back gives the same string; canonical statuses read back as themselves |
| OrderStatus.ActiveSplits | src/pages/customer/Dashboard.tsx:113-140 | active count = pending count + in-progress count, and no active order is completed |
| OrderStatus.ReadyOrDeliveringSplits | src/pages/delivery/Dashboard.tsx:50-75 | the ready-or-delivering count is the ready count plus the delivering count |
| OrderStatus.TabsPartitionSelectable | src/pages/admin/Dashboard.tsx:176-187 | a status is selectable iff it is pending, in progress or completed, and the three do not overlap |
| OrderStatus.Rank | src/pages/customer/Dashboard.tsx:528-547 | the position along pending..delivered is -1 exactly for cancelled and unknown statuses |
| CustomerDashboard.FilteredOrders | src/pages/customer/Dashboard.tsx:110-123 | the `all` tab is the identity; every other tab keeps exactly the orders on it |
| CustomerDashboard.FilteredOrdersKeepOrder | src/pages/customer/Dashboard.tsx:110-123 | every tab shows a sublist of the orders in their order |
| CustomerDashboard.CountsMatchTabs | src/pages/customer/Dashboard.tsx:110-140 | each count is its tab's length; active = pending + in progress; active and completed are disjoint |
| CustomerDashboard.IsOrderActiveAgreesWithTab | src/pages/customer/Dashboard.tsx:113-145 | `isOrderActive(s)` holds iff an order with status s is on the active tab |
| CustomerDashboard.StatusText | src/pages/customer/Dashboard.tsx:160-169 | cancelled and unknown statuses are shown as their raw name |
| CustomerDashboard.StatusTextUntranslated | src/pages/customer/Dashboard.tsx:160-169 | the text is the raw name exactly for cancelled and unknown statuses |
| CustomerDashboard.TimelineFollowsRank | src/pages/customer/Dashboard.tsx:532-547 | steps 2-5 light iff the status has reached them; a lit step implies every earlier one; cancelled lights none |
| CustomerDashboard.Step1Light | src/pages/customer/Dashboard.tsx:528-531 | yellow iff pending, green iff step 2 is lit, gray iff cancelled or unknown |
| CustomerDashboard.Matches | src/pages/customer/Dashboard.tsx:91-95 | a product matches iff the lower-cased term occurs in its lower-cased name or description |
| CustomerDashboard.SearchResults | src/pages/customer/Dashboard.tsx:91-95 | the results are exactly the matching products |
| CustomerDashboard.EmptySearchKeepsAll | src/pages/customer/Dashboard.tsx:91-95 | an empty term keeps every product in order |
| CustomerDashboard.SearchIgnoresCase | src/pages/customer/Dashboard.tsx:93-94 | two terms that fold to the same string find the same products |
| AdminDashboard.FilteredOrders | src/pages/admin/Dashboard.tsx:176-187 | pending shows only `pending`, in progress exactly preparing/ready/delivering, completed exactly delivered/cancelled |
| AdminDashboard.TabsPartition | src/pages/admin/Dashboard.tsx:176-187 | every selectable status is on exactly one tab; an unknown status is on none |
| AdminDashboard.TabCountsAddUp | src/pages/admin/Dashboard.tsx:314-334 | each button count is its tab's length, and the three add up to the selectable orders |
| DeliveryDashboard.LoadedOrders | src/pages/delivery/Dashboard.tsx:50-52 | only ready and delivering orders are loaded |
| DeliveryDashboard.FilteredOrders | src/pages/delivery/Dashboard.tsx:66-75 | the `all` tab is the identity; the other tabs keep exactly their status |
| DeliveryDashboard.FilteredOrdersKeepOrder | src/pages/delivery/Dashboard.tsx:66-75 | every tab shows a sublist in order |
| DeliveryDashboard.AllCountAddsUp | src/pages/delivery/Dashboard.tsx:103-123 | the all count equals the ready count plus the delivering count |
| DeliveryDashboard.PageTitle | src/pages/delivery/Dashboard.tsx:28-37 | each tab maps to one of the three titles |
| DeliveryDashboard.PageTitleInjective | src/pages/delivery/Dashboard.tsx:28-37 | different tabs have different titles |
| DeliveryDashboard.NextStatus | src/pages/delivery/Dashboard.tsx:177-192 | a button exists exactly for ready and delivering orders, and it moves the status one step forward |
| DeliveryDashboard.DeliveredOrderLeaves | src/pages/delivery/Dashboard.tsx:50-82 | after the reload, an order moved to delivering stays and one moved to delivered leaves |
| NotificationDropdown.FormatDate | src/components/NotificationDropdown.tsx:38-54 | under an hour, whole minutes with `m atrás`; under a day, whole hours with `h atrás`; otherwise whole days with `d atrás` |
| NotificationDropdown.FloorsCompose | src/components/NotificationDropdown.tsx:41-52 | flooring minutes then hours then days equals flooring the milliseconds directly |
| NotificationDropdown.FormatDateRanges | src/components/NotificationDropdown.tsx:43-53 | the number shown stays in its unit's range |
| NotificationDropdown.Badge | src/components/NotificationDropdown.tsx:74-77 | no badge at 0 or below; `99+` above 99; otherwise the count in at most two digits |
| NotificationDropdown.BadgeReadsBack | src/components/NotificationDropdown.tsx:76 | a badge under 100 reads back as the unread count |
| NotificationDropdown.MarkAllOffered | src/components/NotificationDropdown.tsx:88-93 | "mark all" is offered exactly when the badge is shown |
| NotificationDropdown.Shown | src/components/NotificationDropdown.tsx:110 | at most the first ten, in list order |
| NotificationDropdown.ClickMarks | src/components/NotificationDropdown.tsx:32-36 | a click marks the clicked id exactly when the notification is unread |
| NotificationDropdown.ColorOf | src/components/NotificationDropdown.tsx:56-64 | blue iff the type contains `order`, green iff it contains `delivery` but not `order` |
| NotificationDropdown.OrderWinsOverDelivery | src/components/NotificationDropdown.tsx:57-62 | a type with both words is coloured as an order, whichever comes first and whatever surrounds them |
| NotificationDropdown.TypeLabel | src/components/NotificationDropdown.tsx:133 | same length; the first `_` becomes a space and everything is upper-cased |
| NotificationDropdown.SecondUnderscoreKept | src/components/NotificationDropdown.tsx:133 | only the first underscore becomes a space; every later underscore stays in the label |
| ProductJoin.Lookup | src/pages/Checkout.tsx:61 | `find` is None iff no product has the id, otherwise the first product with that id |
| ProductJoin.DetailedItems | src/pages/Checkout.tsx:59-67 | the join holds exactly the cart lines whose product is known, each with its product |
| ProductJoin.ItemsOf | src/pages/Checkout.tsx:59-67 | the cart lines of a joined list, one per entry |
| ProductJoin.DetailedItemsKeepOrder | src/pages/Checkout.tsx:59-67 | the join keeps the cart's order |
| ProductJoin.DetailedItemsAllKnown | src/pages/Checkout.tsx:66 | when every product is known, the join drops nothing |
| ProductJoin.DetailedItemsNoneKnown | src/pages/Checkout.tsx:66 | when no product is known, the join is empty |
| CartPage.Back | src/pages/Cart.tsx:315-320 | the cart step has no step before it; every other step has one |
| CartPage.Continue | src/pages/Cart.tsx:305-309 | continue places the order exactly on the confirmation step, and each forward step is undone by back |
| CartPage.BackUndoesContinue | src/pages/Cart.tsx:305-320 | going back from a step and then forward returns to it |
| CartPage.QuantityUpdate | src/pages/Cart.tsx:68-78 | an absent product leaves the cart unchanged; other products' lines are never touched |
| CartPage.QuantityUpdateEffect | src/pages/Cart.tsx:68-78 | q + d > 0 sets the line to q + d in place; q + d <= 0 removes the product |
| CartPage.SetKeepsOthers | src/pages/Cart.tsx:73 | a positive update keeps the lines of every other product |
| CartPage.QuantityUpdateKeepsInvariants | src/pages/Cart.tsx:68-78 | the buttons keep one line per product and all quantities positive |
| CartPage.Payload | src/pages/Cart.tsx:89-94 | one `{product_id, quantity}` entry per cart line, in cart order |
| CartPage.LinesToItems | src/pages/Cart.tsx:89-94 | the cart lines a payload stands for, one per entry |
| CartPage.PayloadRoundTrip | src/pages/Cart.tsx:89-94 | the payload gives the cart back |
| CartPage.FailureAlertNamesMessage | src/pages/Cart.tsx:104 | a non-empty rejection message is read back from the end of the alert, so different messages give different alerts; an empty one reads as `Tente novamente` |
| CartPage.CartPageState.constructor | src/pages/Cart.tsx:27-30 | the cart step, not ordering |
| CartPage.CartPageState.ChangeQuantity | src/pages/Cart.tsx:68-191 | the cart becomes `QuantityUpdate` and stays persisted; the `authToken` and `token` records are untouched |
| CartPage.CartPageState.HandleCheckout | src/pages/Cart.tsx:80-108 | an empty cart sends nothing; otherwise the payload is sent and the cart is cleared only if the order was created; `ordering` ends false; the `authToken` and `token` records are untouched |
| CartPage.CartPageState.PressContinue | src/pages/Cart.tsx:304-310 | the button does nothing while ordering; otherwise it steps forward, or on the confirmation step places the order, stays on that step with `ordering` false, and empties the cart and its record only when a non-empty order was created; the `authToken` and `token` records are untouched |
| CartPage.CartPageState.PressBack | src/pages/Cart.tsx:315-320 | the step becomes `Back(step)` |
| CheckoutPage.CanSubmitIffNotBlank | src/pages/Checkout.tsx:78-81 | submission goes ahead exactly when neither the address nor the phone is blank |
| CheckoutPage.RequestContents | src/pages/Checkout.tsx:86-94 | the order gives the cart back line for line, its text fields are trimmed, and the payment method is kept |
| CheckoutPage.RequestCoversSummary | src/pages/Checkout.tsx:59-90 | the order holds at least as many lines as the summary, and more when no product is known |
| CheckoutPage.CheckoutForm.constructor | src/pages/Checkout.tsx:21-25 | empty fields, payment method `cash`, not submitting |
| CheckoutPage.CheckoutForm.HandleSubmit | src/pages/Checkout.tsx:75-110 | a blank address or phone sends nothing; otherwise the trimmed order is sent, the cart is cleared and `/` opened only on success; `submitting` ends false; the `authToken` and `token` records are untouched |
| CheckoutPage.CheckoutForm.SendAndClear | src/pages/Checkout.tsx:97-100 | the cart is cleared on success only; the `authToken` and `token` records are untouched |
| CartDropdown.HeaderCount | src/components/CartDropdown.tsx:89 | the header count is `getTotalItems` over every cart line, 0 for an empty cart |
| CartDropdown.UnknownProductsCountedNotShown | src/components/CartDropdown.tsx:89-168 | for every cart whose products are all unknown, the header holds the whole total (positive for a non-empty cart of positive lines) and no footer is shown |
| CartDropdown.MinusAtOneRemoves | src/components/CartDropdown.tsx:138 | minus at quantity 1 removes the product |
| CartDropdown.PlusStepsUp | src/components/CartDropdown.tsx:147 | plus raises the line's quantity by one |
| CartDropdown.MinusStepsDown | src/components/CartDropdown.tsx:138 | minus above 1 lowers the line's quantity by one |
| CartDropdown.PlusRaisesHeaderCount | src/components/CartDropdown.tsx:89-147 | with one line per product, plus raises the header count by one |
| CartDropdown.SetTotal | src/components/CartDropdown.tsx:89-147 | setting a line to q moves the total by q minus the old quantity |
| CartDropdown.Dropdown.constructor | src/components/CartDropdown.tsx:22-23 | the dropdown is open on the given cart |
| CartDropdown.Dropdown.Clear | src/components/CartDropdown.tsx:179-182 | "Limpar" empties the cart, removes the record and closes; the `authToken` and `token` records are untouched |
| CartDropdown.Dropdown.GoToCheckout | src/components/CartDropdown.tsx:60-68 | closes the dropdown and opens `/checkout` |
| Auth.FlagsOf | src/contexts/AuthContext.tsx:93-96 | authenticated iff there is a user; at most one role flag; a role flag implies authenticated and matches `user.type` |
| Auth.UnknownTypeHasNoRole | src/contexts/AuthContext.tsx:94-96 | a user of another type is authenticated with no role flag |
| Auth.RestoredUserFlags | src/contexts/AuthContext.tsx:49-54 | a user restored from a token is signed in and holds exactly the role flag its token's type names |
| Auth.AuthProvider.constructor | src/contexts/AuthContext.tsx:39-40 | no user, loading |
| Auth.AuthProvider.Mount | src/contexts/AuthContext.tsx:42-61 | a decodable token sets the user; an undecodable one is cleared and leaves the user; loading ends false in every case |
| Auth.AuthProvider.Login | src/contexts/AuthContext.tsx:63-71 | success sets the response's user and stores its non-empty token in the client and the `authToken` record; otherwise the token and record are left, and a failure leaves the user and is rethrown |
| Auth.AuthProvider.Logout | src/contexts/AuthContext.tsx:82-85 | the user becomes null and the client holds no token |
| Routing.RouteOf | src/App.tsx:50-79 | the route a path selects: exact paths for `/`, `/checkout`, `/login` and the sign-ups; the role routes match their path and what lies below it |
| Routing.RouteOfPathOf | src/App.tsx:50-79 | every declared route is selected by its own path |
| Routing.Resolve | src/App.tsx:18-80 | the loading screen iff loading; nothing for an undeclared path; every redirect goes to `/` or `/login` |
| Routing.SignedOutRouting | src/App.tsx:50-79 | signed out, the login and sign-up pages render and every other route redirects to `/login` |
| Routing.SignedInLeavesPublicRoutes | src/App.tsx:71-79 | signed in, login and sign-up redirect to `/` |
| Routing.RolePagesMatchRole | src/App.tsx:27-68 | a dashboard renders only for its role; checkout renders exactly for customers on `/checkout`; `/` renders the user's own dashboard |
| Routing.NavbarMeansSignedIn | src/App.tsx:46-73 | the navigation bar is shown exactly for a signed-in user, who is sent away from `/login` |
| Routing.RedirectsSettle | src/App.tsx:27-79 | signed out, or signed in with a known role, two redirects at most reach a page |
| Routing.UnknownRoleLoops | src/App.tsx:37-73 | signed in with an unknown type, `/` and `/login` redirect to each other for ever |
| LoginPage.RedirectFor | src/pages/Login.tsx:43-54 | admin goes to `/admin`, delivery to `/delivery`, anything else to `/customer` |
| LoginPage.RedirectLandsOnDashboard | src/pages/Login.tsx:43-54 | a user of a known role lands on that role's dashboard |
| LoginPage.UnknownTypeBouncesBack | src/pages/Login.tsx:50-53 | a user of another type is sent to `/customer`, then to `/login`, then to `/` |
| LoginPage.LoginError | src/pages/Login.tsx:56 | the thrown message, or the default text when it has none; never empty |
| LoginPage.LoginForm.constructor | src/pages/Login.tsx:10-14 | empty fields and error, not loading |
| LoginPage.LoginForm.HandleSubmit | src/pages/Login.tsx:28-60 | an empty field sets the error and calls nothing; success goes to `RedirectFor` of the user's type; a failure shows `LoginError`; a successful sign-in with a non-empty token stores it in the client and the `authToken` record, otherwise both are left; loading ends false; the `cart` and `token` records and the provider's loading flag are untouched |
| DocumentTitle.Branded | src/hooks/useDocumentTitle.ts:6 | a non-empty title gets ` \| Cupcake Delivery`; an empty one gives `Cupcake Delivery` |
| DocumentTitle.BrandedEndsWithAppName | src/hooks/useDocumentTitle.ts:6 | every branded title ends with the application's name |
| DocumentTitle.BrandedInjective | src/hooks/useDocumentTitle.ts:6 | different page titles give different document titles |
| DocumentTitle.RoleName | src/hooks/useDocumentTitle.ts:20-25 | the three roles are translated; any other non-empty type is shown as it is (inherited object keys aside, see Left out) |
| DocumentTitle.Heading | src/hooks/useDocumentTitle.ts:17-30 | starts with the page; without role and extra it is the page; a non-empty role follows the page as ` - ` plus its `RoleName`; a non-empty extra follows as ` - ` plus it; the title is exactly page, then the role segment if any, then the extra segment if any |
| DocumentTitle.PageTitle | src/hooks/useDocumentTitle.ts:32 | the result always ends with ` \| Cupcake Delivery` |
| DocumentTitle.HooksAgree | src/hooks/useDocumentTitle.ts:6-32 | with no role or extra the two hooks agree on a non-empty page; on an empty one they differ |
| DocumentTitle.DeliveryTitle | src/hooks/useDocumentTitle.ts:19-32 | the delivery dashboard's title is its tab title, ` - Entregador`, then the brand |
| DocumentTitle.TitleEffect.constructor | src/hooks/useDocumentTitle.ts:3-4 | no effect has run yet |
| DocumentTitle.TitleEffect.Run | src/hooks/useDocumentTitle.ts:5-6 | the title it replaces is saved and the branded one is set |
| DocumentTitle.TitleEffect.Cleanup | src/hooks/useDocumentTitle.ts:8-10 | the saved title is put back |
| DocumentTitle.TitleEffect.Retitle | src/hooks/useDocumentTitle.ts:5-11 | a title change sets the new branded title and keeps the title from before the first run |
| DocumentTitle.PageLifetime | src/hooks/useDocumentTitle.ts:3-12 | mounting, retitling any number of times and unmounting leaves the title that was there before |
| DocumentTitle.SetPageTitle | src/hooks/useDocumentTitle.ts:15-34 | `usePageTitle` sets `PageTitle` and has no clean-up |

## Behaviour worth knowing

- Marking read waits for the server. `markAsRead` and `markAllAsRead` (src/hooks/useNotifications.ts:51-84) await the server call and change the list and count only when it succeeds; a failure leaves both unchanged and shows a toast. `Notifications.NotificationsHook.MarkAsRead` and `MarkAllAsRead` model this.
- Toast timers restart on every parent render. The toast stack passes a fresh `onClose` to each toast, and the toast's effect depends on it, so adding or removing any toast restarts the timers of every toast that is not leaving (`ToastLifecycle.ParentRenderRestartsTimer`).
- `addToCart` does not check its amount. A zero or negative amount for a new product stores a line below 1 (`CartStore.AddNonPositiveBreaksPositive`).

## Left out

- Rendering: JSX, class strings, icons and layout are not modelled. The purely presentational components are not part of this model.
- Real I/O is not modelled: `fetch`, `AbortController`, `localStorage` and window events. Storage is a set of fields, and a response is an abstract outcome.
- Real time is not modelled: timeouts, intervals and the 30 s polls are explicit event methods, and clock readings are parameters.
- Floating point is left out: prices, totals, `toFixed`, and the scale factor of the toast stack.
- Date parsing and the newest-first sorts of the dashboards are left out, since they are library calls. `FormatDate` takes the elapsed milliseconds directly.
- `localeCompare` is left out. Case folding and trimming are ASCII only.
- `Auth.AuthProvider.Mount`: JWT decoding (`atob`, `JSON.parse`) is a parameter, an `Option` of the claims.
- `Auth.AuthProvider.Mount`: the decoded user type is not checked. An unknown type is kept, as the source does. `Routing.UnknownRoleLoops` shows the redirect loop this causes; it is not fixed.
- React closures and batching are not modelled. The cart hook's operations run one after another on the current list. A stale snapshot of `cartItems` is not modelled.
- The rest of each toast's lifetime, once a parent re-renders, is not modelled. `ToastLifecycle.ParentRenderRestartsTimer` shows that a re-render restarts the timers; when toasts then close is left out.
- Which API client is live depends on module resolution, so both are modelled. The pages are modelled over `ApiClient.ApiService` with either flavour. `createOrder` is a success flag or outcome parameter.
- Request bodies (`JSON.stringify` of credentials and orders) are not modelled. A JSON body that does not have the expected shape is not modelled.
- `LoginPage.LoginForm.HandleSubmit`: a successful response without a `user` throws a TypeError when its type is read. Its message is a browser's wording, modelled as the constant `MissingUserError`.
- The login page's sign-up success message (`location.state`) is left out; it is display only.
- The page titles the customer and admin dashboards compute (`getPageTitle`) are left out. Only the delivery dashboard's is modelled.
- Checkout's empty-cart redirect effect is left out: it runs after a 100 ms timer and then loads products.
- `AdminDashboard.FilteredOrders`: the switch's default branch cannot be reached, since the tab state only holds the three tabs.
- The notification dropdown's guard, which renders nothing when signed out, is left out. The hook's own clearing is modelled in `Notifications.NotificationsHook.AuthEffect`.
- `Routing.RouteOf`: the router's case-insensitive matching and trailing slashes are not modelled.
- The notification hook's toasts are recorded as a list of messages. The toast stack they would enter is modelled separately in `ToastQueue`.
- The `'token'` record that the notification code reads is kept separate from the `'authToken'` record that the API clients write, as in the source.
- DocumentTitle.RoleName: `userTypeMap[userType] || userType` looks the role up in a plain object, so a role string naming an inherited member of `Object.prototype` (`toString`, `constructor`, `__proto__`, ...) would give that member, not the string. The model treats every such string as an unknown role shown verbatim; the callers pass only literal role names.
