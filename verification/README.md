# A verified model of the restaurant platform

This project models the parts of the platform in which several operations have to fit together, and
proves what they keep over all inputs, all runs or all interleavings. Each module names the file it models.

- **Session refresh** (`AuthSessions`, `AuthServer`, `HttpModel`, `HttpObjects`, `RefreshProtocol`,
  `RetryTokens`): the server's rotation of refresh tokens, the browser's single refresh promise, and the
  protocol of the two over a network that delays, reorders and loses messages, as a transition system. A
  run is any sequence of events; an event that is not possible in a state leaves it unchanged.
- **Money** (`Discounts`, `DashboardTotals`, `DiscountDesk`, `Payments`, `Settlement`, `Checkout`): the stacked
  discount fold and the dashboard's second computation of the same figure, the approval rules, the payment
  ledger, and the POS checkout loop against that ledger and the order status machine, on a network that loses
  messages and next to other tills.
- **Order views** (`OrderStores`, `OrderVersions`, `WaiterTables`, `KitchenGroups`): four client stores with four array
  algorithms against one map from ids to last snapshots, and the two groupings by table.
- **Drafts, cart, jobs, stock** (`Selections`, `WaiterDrafts`, `CustomerCart`, `JobQueue`, `Inventory`).

Where the source updates fields or loops, a class or method does the same steps and is proved equal to a
specification function; the lemmas are about that function. `Sequences`, `Grouping`, `Reals`, `Text` and
`Options` hold what these share. Money and quantities are `real` or `int`; tables are sequences or maps
indexed by their keys; times are integers given to each call; random ids and database answers are parameters.

## What the model shows about the code

Some of what one would expect of the code is false. For each the project names the exact condition.

- `refund` accepts a cancelled payment and brings it back to life, so paid plus refunded changes
  (`Payments.RefundConservesIff`).
- `update` may set an amount below what was refunded, or leave the old refund status behind
  (`Payments.StepWithinIff`, `Payments.StepStatusIff`).
- The dashboard adds up discounts flat and leaves out tax, the ledger stacks them and the order summary
  adds tax (`DashboardTotals.DashboardAgreesIff`, `DashboardTotals.DashboardAgainstGrandTotal`); its paid
  figure is not clamped (`Payments.DashboardPaidIff`).
- A discount approved on creation is within the automatic limit (`DiscountDesk.AutoApprovedWithinLimit`), but
  any actor of the restaurant who may call `update` can then give it any value, and so a discount that an admin
  approved (`DiscountDesk.UpdateEscapesLimit`); `DiscountDesk.StepLimitIff` says exactly which calls break the
  limit, `DiscountDesk.StepAsApprovedIff` which leave an approved discount at a value that nobody approved.
- `collectPayment` has already charged an order when moving it to PAID is refused, which happens for every
  order that is not yet delivered (`Settlement.SettleOneEffect`); a later press then closes it without another
  charge (`Checkout.NextSettles`). But an answer lost between the payment and the refreshed list makes the next
  press charge again (`Checkout.LostAnswerPaysTwice`), and a snapshot that shows nothing to pay closes an order
  whatever remains of it by now (`Checkout.NextSettles`); `Checkout.RunOverpaidIff` says exactly when an order
  is overpaid.
- A page that loads with a stale token drives the server to revoke its session
  (`RefreshProtocol.StaleSessionMismatches`).
- The client stores ignore `version`: an older snapshot that arrives last wins (`OrderVersions.OlderWins`,
  `OrderVersions.ListsNewestIff`). The order of two orders with the same time depends on the stream
  (`OrderStores.ConvergeIff`), and on one stream the guest store can differ from the others
  (`OrderStores.GuestKeepsPlace`).
- `setInitialData` stores supplied groups as they are (`WaiterTables.WaiterStore.SetInitialData`).
- Changing the notes of a draft line, or loading an order that lists a dish twice, can make two lines with one
  selection (`DraftModel.StepTidyIff`, `DraftModel.RepeatedDishLoads`), and empty ids and bars inside ids confuse
  selections (`Selections.ConfusableIff`).
- The cart, too, gets two lines of one key when an order that lists a dish twice is edited
  (`CartModel.StepTidyIff`, `CartModel.RepeatedDishEdited`).
- Storage keys of the cart join ids with colons, and the editing info of another context is not checked when it
  is loaded (`CartModel.KeysShareIff`, `CartModel.StoringAt`); adding at another table takes the order being
  edited along (`CartModel.StepEditingIff`).
- A queue job enqueued with no attempts is still run once (`JobModel.AttemptsWithinIff`), and the retry
  delay in the log is not the one waited before the third failure (`JobModel.LoggedDelayIff`).

## Model

| member | source | states |
|---|---|---|
| RefreshProtocol.ClientHoldsStoredToken | apps/admin-dashboard/src/lib/http.ts:36-61 | From a page that starts with no session or with a kept one that is not stale, in every interleaving of requests, 401s, refresh calls, logins, delays, losses and whatever other parties do to the tables: a client with a session and no refresh in flight holds exactly the refresh token the server stores, and the client never drives the server into its mismatch-and-revoke branch |
| RefreshProtocol.StaleSessionMismatches | apps/admin-dashboard/src/lib/http.ts:36-61 | From a page that kept a stale token of a session that the server still finds, it does: three events lead to the mismatch and revoke the session |
| RefreshProtocol.RunKeepsSafe | backend/src/modules/auth/auth.service.ts:149-198 | The invariant behind it is kept by every event: each refresh token on its way to the server is the stored one, no two are for one session, and each answer or login on its way back carries the token then stored |
| RefreshProtocol.RefreshGoesThrough | apps/admin-dashboard/src/lib/http.ts:42-60 | In every state reachable from such a page, a refresh call for which the server finds a live session succeeds when its answer arrives, and leaves the client with the stored token |
| RefreshProtocol.OtherCallsLeaveTokens | backend/src/modules/auth/auth.service.ts:200-257 | The interference allowed in these runs covers every service call of other parties except presenting a refresh token of one of this client's own sessions |
| RefreshProtocol.RequestsOfARun | apps/admin-dashboard/src/lib/http.ts:42-60 | In every run each request is sent at most twice and a request that never saw a 401 once; there is at most one open refresh promise; all requests let through by one refresh got the same access token |
| RefreshProtocol.AnswerEffect | apps/admin-dashboard/src/lib/http.ts:79-105 | An answer changes the session if and only if there is one and the answer is a 401 to an ordinary request that was retried already; any but a first 401 only finishes its request; a first one with a session keeps it and waits for the refresh in flight, or for one posted with its token |
| RefreshProtocol.SendEffect | apps/admin-dashboard/src/lib/http.ts:70-77 | Sending carries the session's access token if and only if there is a session, and leaves session, refresh and other requests alone |
| RefreshProtocol.ResumeEffect | apps/admin-dashboard/src/lib/http.ts:91-103 | A waiter whose refresh gave a token is sent once more with the token of the session at hand, or that one if there is none, and the session stays; one whose refresh gave nothing ends the session |
| RefreshProtocol.SettleEffect | apps/admin-dashboard/src/lib/http.ts:47-57 | When the refresh in flight settles, the page has the session that came or none, no refresh is in flight, and the waiters get its access token or nothing |
| RetryTokens.RetryCarriesNewToken | apps/admin-dashboard/src/lib/http.ts:70-77 | In every run a request that is sent again carries an access token, and never the one it was rejected with |
| RefreshProtocol.StepUsesWork | apps/admin-dashboard/src/lib/http.ts:79-105 | Every response, resumption, server step, delivery or loss that does anything lowers an explicit measure |
| RefreshProtocol.ExchangeTerminates | apps/admin-dashboard/src/lib/http.ts:79-105 | However these steps interleave, no more of them happen than the measure allows |
| RefreshProtocol.NotStuck | apps/admin-dashboard/src/lib/http.ts:79-105 | While a request is unanswered or a refresh is in flight, a network that loses nothing has a step to make: serve the posted call at any time, deliver its answer, answer a request with any status, or resume a waiter |
| HttpObjects.HttpClient.RefreshAccessToken | apps/admin-dashboard/src/lib/http.ts:36-61 | Joins the refresh in flight or posts one with the session's token, and answers nothing exactly when there is no session |
| HttpObjects.HttpClient.OnResponse | apps/admin-dashboard/src/lib/http.ts:79-105 | The interceptor does to the module state what the protocol's response event does |
| HttpObjects.HttpClient.OnRefreshSettled | apps/admin-dashboard/src/lib/http.ts:47-57 | Resolving stores or clears the session and frees the promise slot, as the protocol's delivery event does |
| HttpObjects.HttpClient.Resume | apps/admin-dashboard/src/lib/http.ts:91-103 | A waiter resends with the session's token or clears the session and gives up, as the protocol's event does |
| AuthSessions.RevokedForever | backend/src/modules/auth/auth.service.ts:364-376 | A revoked session is revoked in every later state, although issuing tokens writes revokedAt null |
| AuthSessions.DeadForever | backend/src/modules/auth/auth.service.ts:152-175 | With a clock that does not run backwards, a session that is revoked or expired is never live again |
| AuthSessions.PasswordChangeLocksOut | backend/src/modules/auth/auth.service.ts:259-301 | After a password change every other session of the user is revoked for good; the caller's and everybody else's sessions are untouched |
| AuthSessions.PasswordChanged | backend/src/modules/auth/auth.service.ts:259-301 | After a password change the user logs in with the new password and no other; all other logins succeed exactly when they did before |
| AuthSessions.LoginSucceedsIff | backend/src/modules/auth/auth.service.ts:50-102 | With unique staff codes a login succeeds exactly when some active user has that code and password |
| AuthSessions.LoginOpens | backend/src/modules/auth/auth.service.ts:50-147 | A login opens one more session, for a user with the code and password it was given, that stores the new refresh token until it expires; a refused one changes nothing |
| AuthSessions.RefreshRotates | backend/src/modules/auth/auth.service.ts:149-198 | A refresh replaces the stored token of its own session, revokes that session on a mismatch, or changes nothing; which of these, and the error, is told by the token and the session's row |
| AuthSessions.LogoutSucceedsIff | backend/src/modules/auth/auth.service.ts:200-257 | A logout by a token succeeds if and only if it is signed and not expired, one without a token if and only if there is a caller; a refused one changes nothing |
| AuthSessions.ChangePasswordSucceedsIff | backend/src/modules/auth/auth.service.ts:259-301 | A password change succeeds if and only if the passwords differ and the caller is an active user of the restaurant whose stored password is the current one; a refused one changes nothing, an accepted one stores the new password in that user's row only |
| AuthSessions.LoginIgnoresSpelling | backend/src/modules/auth/auth.service.ts:52-55 | Blanks around the staff code and the case of its ASCII letters do not matter: the code it stands for is the typed one without the blanks, letter by letter in upper case |
| AuthSessions.LoginTokenRefreshes | backend/src/modules/auth/auth.service.ts:104-147 | The refresh token of a login is accepted at a later time if and only if it has not expired then, whatever calls happen in between that do not concern its session |
| AuthSessions.RotatedTokenRefreshes | backend/src/modules/auth/auth.service.ts:177-197 | The token that a refresh returns is accepted later if and only if it has not expired then, under the same conditions |
| AuthSessions.LogoutEndsSession | backend/src/modules/auth/auth.service.ts:200-257 | After a successful logout no token of the session is accepted in any later run, and no other session has changed |
| AuthSessions.RunKeepsConsistent | backend/src/modules/auth/auth.service.ts:327-382 | In every run each stored hash is that of a signed token for that very session and its owner, and serial numbers stay fresh |
| AuthSessions.RefreshSucceedsIff | backend/src/modules/auth/auth.service.ts:149-175 | A refresh succeeds if and only if the token is the one stored in a live session of an active user and has not expired |
| AuthSessions.TokenUsedOnce | backend/src/modules/auth/auth.service.ts:149-198 | A token that was exchanged once is refused ever after, whatever happens in between |
| AuthSessions.ReplayRevokes | backend/src/modules/auth/auth.service.ts:164-175 | Presenting an exchanged token again while its session is live is answered with the mismatch error and revokes the session for good, as section 4.14.2 of RFC 9700 asks |
| AuthSessions.ReplayAcceptedIff | backend/src/modules/auth/auth.service.ts:168-175 | If another comparison stood for the one with the stored hash, an exchanged token presented again would be accepted if and only if that comparison does not tell it from the one in its place, and would revoke the session otherwise |
| AuthServer.AuthService.Login | backend/src/modules/auth/auth.service.ts:50-147 | The step-by-step updates open a session and store its token exactly when code, activity and password fit, and change nothing otherwise: the state and answer that the laws above are about |
| AuthServer.AuthService.Refresh | backend/src/modules/auth/auth.service.ts:149-198 | Rotates the stored token, or fails in one of three ways, of which only the mismatch changes a row: the state and answer that the laws above are about |
| AuthServer.AuthService.Logout | backend/src/modules/auth/auth.service.ts:200-257 | Revokes the one session named by the token or the caller, or fails without a change |
| AuthServer.AuthService.ChangePassword | backend/src/modules/auth/auth.service.ts:259-301 | Changes the password and revokes the user's other sessions in one step, or fails without a change |
| AuthServer.AuthService.IssueTokensFor | backend/src/modules/auth/auth.service.ts:327-382 | Signs a fresh pair, stores the refresh token and clears the revocation mark |
| Discounts.Summarize | backend/src/modules/discounts/discounts.service.ts:176-216 | The clamped loop computes the stacked figures; for a base that is not negative the subtotal stays between 0 and the base and the two figures add up to the base, whatever the discount values |
| Discounts.Conservation | backend/src/modules/discounts/discounts.service.ts:193-215 | The same range and sum for the specification of the fold |
| Discounts.InsertNeverRaises | backend/src/modules/discounts/discounts.service.ts:193-209 | One more discount of any value, at any position, never raises the discounted subtotal |
| Discounts.LargerNeverRaises | backend/src/modules/discounts/discounts.service.ts:193-209 | Raising the value of one discount, wherever it stands, never raises the discounted subtotal |
| Discounts.OrderBounds | backend/src/modules/discounts/discounts.service.ts:193-209 | Among all orders of the same rows, all percentages first gives the least discounted subtotal and all fixed amounts first the greatest |
| Discounts.LeastAttained | backend/src/modules/discounts/discounts.service.ts:193-209 | The least is in closed form the base times the shares left by the percentages, less the fixed amounts, and not below zero |
| Discounts.GreatestAttained | backend/src/modules/discounts/discounts.service.ts:193-209 | The greatest is in closed form the base less the fixed amounts, not below zero, times the shares |
| Discounts.BetweenExtremes | backend/src/modules/discounts/discounts.service.ts:193-209 | Every order of the rows gives a figure between the two closed forms |
| Discounts.SwapLowers | backend/src/modules/discounts/discounts.service.ts:193-209 | Moving a percentage in front of the fixed amount before it never raises the result, whatever comes before and after |
| DashboardTotals.DashboardAtMostLedger | backend/src/modules/analytics/reporting.service.ts:203-215 | For values that are not negative the dashboard's flat-sum total never exceeds the ledger's stacked subtotal |
| DashboardTotals.DashboardAgreesIff | backend/src/modules/analytics/reporting.service.ts:203-215 | The two agree if and only if the rows leave nothing or no counting percentage follows another counting discount |
| DashboardTotals.LedgerExhaustedIff | backend/src/modules/discounts/discounts.service.ts:193-209 | The ledger leaves nothing if and only if the base is 0 or there is an approved percentage of 100 or more or an approved fixed amount not below what is left at its place |
| DashboardTotals.DashboardAgreesInSimpleCases | backend/src/modules/analytics/reporting.service.ts:203-215 | They agree when all approved discounts are fixed amounts or at most one is approved |
| DashboardTotals.DashboardAgainstGrandTotal | backend/src/modules/orders/orders.service.ts:1724-1745 | Against the order's own grand total: the dashboard never shows more, and shows the same if and only if the rows leave nothing, or there is no tax and no counting percentage follows another counting discount |
| DashboardTotals.TaxOnTop | backend/src/modules/orders/orders.service.ts:1737-1739 | The order's grand total is what the discounts leave with the tax rate's percentage of it on top |
| DiscountDesk.AutoApprovedWithinLimit | backend/src/modules/discounts/discounts.service.ts:28-109 | A discount that was approved on creation takes no more than the limit's share of the order's subtotal |
| DiscountDesk.CreateEffect | backend/src/modules/discounts/discounts.service.ts:28-109 | A discount is created if and only if there is a reason, the order is of the actor's restaurant and it takes no more than the subtotal; then one row with these values is added, approved by its creator if and only if its percentage of the subtotal is within the limit, pending otherwise |
| DiscountDesk.UpdateEffect | backend/src/modules/discounts/discounts.service.ts:218-259 | An update needs a row of the restaurant and sets its reason and, if given, its value; all else stays |
| DiscountDesk.DecideEffect | backend/src/modules/discounts/discounts.service.ts:296-378 | A decision needs an admin and a row of the restaurant and sets the row's approval to the verdict and its decider to the admin; kind, value, reason, creator and all other rows stay |
| DiscountDesk.DecidedFigure | backend/src/modules/discounts/discounts.service.ts:296-378 | Approved, the discount is counted in its order's figure at its place among the others; rejected, the figure is that of the others |
| DiscountDesk.RemoveEffect | backend/src/modules/discounts/discounts.service.ts:261-294 | A removal needs a reason and a row of the restaurant and takes exactly that row out |
| DiscountDesk.OfOrderIs | backend/src/modules/discounts/discounts.service.ts:176-193 | An order's discounts are those of its rows and no others, oldest first |
| DiscountDesk.SubtotalIs | backend/src/modules/discounts/discounts.service.ts:397-412 | Each item counts in the subtotal with its price times its quantity |
| DiscountDesk.CreateFigure | backend/src/modules/discounts/discounts.service.ts:28-109 | Creating a discount never raises its order's figure; a pending or refused one changes nothing, and other orders keep theirs |
| DiscountDesk.DecideFigure | backend/src/modules/discounts/discounts.service.ts:296-378 | Approving never raises a figure, rejecting never lowers one, and other orders keep theirs |
| DiscountDesk.UpdateFigure | backend/src/modules/discounts/discounts.service.ts:218-230 | A larger value never raises a figure, a smaller one never lowers it, other orders keep theirs, and the approval stays whatever the new value |
| DiscountDesk.RemoveFigure | backend/src/modules/discounts/discounts.service.ts:261-294 | Removing never lowers a figure, and other orders keep theirs |
| DiscountDesk.RunKeepsProvenance | backend/src/modules/discounts/discounts.service.ts:296-378 | In every run an approval names the discount's creator or an admin, a rejection an admin, and a discount that nobody decided is pending |
| DiscountDesk.StepLimitIff | backend/src/modules/discounts/discounts.service.ts:48-59 | With every discount that no admin approved within its restaurant's limit, a call keeps it so if and only if it is not an update of such a discount to a value that create would have left pending |
| DiscountDesk.RunKeepsLimited | backend/src/modules/discounts/discounts.service.ts:218-230 | Over every run without such an update, what no admin approved stays within the limit |
| DiscountDesk.UpdateEscapesLimit | backend/src/modules/discounts/discounts.service.ts:218-230 | A run of two calls of one actor who is no admin: 5 percent under a limit of 10 is approved at once, then raised to 90 and stands approved |
| DiscountDesk.WithinLimitIff | backend/src/modules/discounts/discounts.service.ts:52-61 | For a positive subtotal the guard holds if and only if the discount takes no more than the limit's share of it; a fixed amount on any other subtotal passes if and only if the limit is not negative |
| DiscountDesk.StepAsApprovedIff | backend/src/modules/discounts/discounts.service.ts:218-230 | With every approved discount at the value that was approved, a call keeps it so if and only if it is not an update of an approved discount to another value, whoever approved it and whoever updates it |
| DiscountDesk.RunAsApproved | backend/src/modules/discounts/discounts.service.ts:218-230 | Over every run without such an update every approved discount has the value that was last approved |
| DiscountObjects.DiscountsService.ResolveOrderSubtotal | backend/src/modules/discounts/discounts.service.ts:397-412 | The loop over the items computes the subtotal that the desk's rules use |
| DiscountObjects.DiscountsService.Create | backend/src/modules/discounts/discounts.service.ts:28-109 | Adds one row, approved at once exactly within the restaurant's limit, or refuses without a change |
| DiscountObjects.DiscountsService.Update | backend/src/modules/discounts/discounts.service.ts:218-259 | Changes value and reason of one owned row, or refuses without a change |
| DiscountObjects.DiscountsService.Approve | backend/src/modules/discounts/discounts.service.ts:296-338 | Marks one owned row approved by the caller, or refuses without a change |
| DiscountObjects.DiscountsService.Reject | backend/src/modules/discounts/discounts.service.ts:340-378 | Marks one owned row rejected by the caller, or refuses without a change |
| DiscountObjects.DiscountsService.Remove | backend/src/modules/discounts/discounts.service.ts:261-294 | Takes one owned row out of the table, or refuses without a change |
| Payments.RunKeepsBalanced | backend/src/modules/payments/payments.service.ts:20-316 | In every run each payment's remaining amount is its amount less what was refunded, no refunded amount goes down, and no payment changes its order |
| Payments.StepWithinIff | backend/src/modules/payments/payments.service.ts:203-208 | A call keeps every refunded amount between 0 and its payment's amount if and only if it is not an update that sets the amount below what was refunded |
| Payments.RunWithin | backend/src/modules/payments/payments.service.ts:20-316 | Over runs without such updates the refunded amounts stay within their payments |
| Payments.StepStatusIff | backend/src/modules/payments/payments.service.ts:203-276 | A call keeps the statuses telling how much was refunded if and only if it is not an update that moves the amount across the refunded part |
| Payments.StepWrites | backend/src/modules/payments/payments.service.ts:20-316 | A call that is not accepted changes nothing; an accepted one writes one row, told field by field, and no other |
| Payments.AnswersIff | backend/src/modules/payments/payments.service.ts:20-316 | A call answers with the row it wrote if and only if it is accepted |
| Payments.RunStatusesTell | backend/src/modules/payments/payments.service.ts:20-316 | Over runs without such updates: PAID means nothing refunded, PARTIALLY_REFUNDED something refunded and something left, REFUNDED nothing left |
| Payments.StepFrame | backend/src/modules/payments/payments.service.ts:163-185 | A call leaves both figures of every other order as they are, and changing the method those of all orders |
| Payments.PaidChanges | backend/src/modules/payments/payments.service.ts:20-316 | Every call changes the paid amount of every order by an amount told beforehand from the row it is about, revived and overdrawn payments included |
| Payments.RefundMoves | backend/src/modules/payments/payments.service.ts:243-280 | An accepted refund of x on a live payment moves exactly x from its order's paid amount to its refunded amount, and nothing for other orders |
| Payments.RefundConservesIff | backend/src/modules/payments/payments.service.ts:256-276 | Paid plus refunded survives a refund if and only if the payment was not cancelled |
| Payments.CancelLowers | backend/src/modules/payments/payments.service.ts:220-241 | Cancelling a live payment lowers its order's paid amount by exactly its remaining amount and leaves all else |
| Payments.CreateRaises | backend/src/modules/payments/payments.service.ts:20-92 | A new payment raises its order's paid amount by exactly its amount and leaves all else |
| Payments.BooksBalance | backend/src/modules/payments/payments.service.ts:163-185 | Paid plus refunded is the sum of the live amounts and of the refunds on cancelled payments |
| Payments.RunBalances | backend/src/modules/payments/payments.service.ts:163-185 | That balance holds after every run without updates below what was refunded |
| Payments.DashboardPaidIff | backend/src/modules/analytics/reporting.service.ts:216-218 | The dashboard's unclamped paid figure never exceeds the ledger's and equals it if and only if no live payment of the order has more refunded than its amount |
| PaymentObjects.PaymentsService.Create | backend/src/modules/payments/payments.service.ts:20-92 | Adds one paid row for an owned order, or refuses without a change |
| PaymentObjects.PaymentsService.Update | backend/src/modules/payments/payments.service.ts:187-218 | Sets amount and remaining amount of one owned live row, or refuses without a change |
| PaymentObjects.PaymentsService.Cancel | backend/src/modules/payments/payments.service.ts:220-241 | Cancels one owned row, or refuses without a change |
| PaymentObjects.PaymentsService.Refund | backend/src/modules/payments/payments.service.ts:243-280 | Refunds up to what remains of one owned row, a cancelled one included, or refuses without a change |
| PaymentObjects.PaymentsService.ChangeMethod | backend/src/modules/payments/payments.service.ts:282-316 | Changes the method of one owned row that is not fully refunded, or refuses without a change |
| PaymentObjects.PaymentsService.SummarizeByOrder | backend/src/modules/payments/payments.service.ts:163-185 | The reduce computes the two figures that the laws above are about |
| Settlement.PosOrderActions.SettleOrder | apps/pos-app/src/hooks/use-pos-order-actions.ts:97-121 | One iteration on a network that may lose either request or either answer: what reached the server is done, what did not come back is not in the list |
| Settlement.PosOrderActions.CollectPayment | apps/pos-app/src/hooks/use-pos-order-actions.ts:78-122 | The loop settles the listed targets in order and stops at the first error or loss with what was done in place; without losses it is the loop of the laws below |
| Settlement.PayEffect | apps/pos-app/src/hooks/use-pos-order-actions.ts:99-109 | Paying an order books one payment of exactly what remained, keeps every earlier payment and every other order, leaves nothing to pay, and puts the new snapshot into the list |
| Settlement.SettleOneEffect | apps/pos-app/src/hooks/use-pos-order-actions.ts:97-121 | On a fresh snapshot one iteration charges exactly what remains unless cancelled, leaves nothing to pay, touches no other order, and succeeds if and only if the order is cancelled, paid or delivered |
| Settlement.LossEffect | apps/pos-app/src/hooks/use-pos-order-actions.ts:97-121 | Whatever request or answer of an iteration is lost: the server has done all up to a lost answer and nothing from a lost request on, and a loss of what is not sent changes nothing |
| Settlement.ForeignOrder | backend/src/modules/payments/payments.service.ts:20-70 | Nothing happens to an order of another restaurant, whatever the network does; an iteration that has anything to ask for ends with an error |
| Settlement.SettleTotal | apps/pos-app/src/hooks/use-pos-order-actions.ts:96-122 | The loop ends without error if and only if every target is cancelled, paid or delivered, and has then charged the sum of what remained |
| Settlement.SettleCharges | apps/pos-app/src/hooks/use-pos-order-actions.ts:96-122 | Error or not, every target is charged all that remained of it or nothing |
| Settlement.SettleFrame | apps/pos-app/src/hooks/use-pos-order-actions.ts:96-122 | Orders that are no targets keep their row and figures |
| Settlement.CollectSettlesExactly | apps/pos-app/src/hooks/use-pos-order-actions.ts:78-122 | With a fresh list, checkout of a table or an order charges the sum of the remaining amounts of its orders that are not cancelled, leaves each of these paid with nothing remaining, and takes off the list those that were not paid before |
| Settlement.CollectTable | apps/pos-app/src/hooks/use-pos-order-actions.ts:84-122 | Collecting a table from a fresh list goes through if and only if every listed order with its table id is delivered, paid or cancelled; then those that were neither paid nor cancelled are paid with nothing remaining, and in any case every other listed order keeps its row and paid amount |
| Settlement.CollectOrder | apps/pos-app/src/hooks/use-pos-order-actions.ts:84-122 | Collecting one order goes through if and only if the listed order with the id is delivered, paid or cancelled; then it is paid with nothing remaining unless cancelled, and every other listed order keeps its row and paid amount |
| Settlement.RemainingIs | backend/src/modules/orders/orders.service.ts:1740-1745 | What is paid of an order and what remains add up to its grand total, unless more was paid and nothing remains |
| Orders.TransitionIff | backend/src/modules/orders/orders.service.ts:127-134 | An order moves one stage at a time from pending to paid, or is cancelled before it is delivered, and not otherwise |
| Orders.ServiceIff | apps/kitchen-app/src/store/kitchen.store.ts:14-14 | The POS, waiter and guest lists show the orders that are neither paid nor cancelled, the kitchen those that are not delivered either |
| Settlement.NeverPaysTwice | apps/pos-app/src/hooks/use-pos-order-actions.ts:96-122 | As long as every answer arrives and nobody else acts: however often checkout is tried, for whatever targets, stopped between orders or refused a status change, no order is charged more than what remained at the start |
| Settlement.OverpaysIff | apps/pos-app/src/hooks/use-pos-order-actions.ts:99-107 | Charging a snapshot's figure overpays the order if and only if the snapshot shows more than remains on the server |
| Checkout.ElsewhereEffect | backend/src/modules/orders/orders.service.ts:440-735 | A total and a status that change elsewhere change in their one row only and count it up, a status only along a transition; the list of the till does not see it |
| Checkout.RunOverpaidIff | apps/pos-app/src/hooks/use-pos-order-actions.ts:96-119 | Over every run of presses, iterations with lost requests and answers, payments, updates, refunds and cancellations anywhere, changed totals and statuses, and snapshots that arrive late or twice: an order ends up overpaid if and only if the last event that touched its balance overcharged it, or none evened it out and it was overpaid at the start; an iteration overcharges if and only if it records a payment for a snapshot whose order's balance has fallen since it was taken |
| Checkout.PaymentsOverpaidIff | apps/pos-app/src/hooks/use-pos-order-actions.ts:96-119 | Where only payments are made: an order ends up overpaid if and only if it was so at the start, or the loop recorded a payment for a snapshot not taken since the order's last payment, or somebody paid more than what remained |
| Checkout.FreshOverpaidIff | apps/pos-app/src/hooks/use-pos-order-actions.ts:78-122 | From a fresh list with the order not overpaid: it ends up overpaid if and only if the last event that touched it and did not even it out overcharged it |
| Checkout.StepOverpaidIff | apps/pos-app/src/hooks/use-pos-order-actions.ts:99-110 | The same of a single event |
| Checkout.RunKeepsTracked | apps/pos-app/src/hooks/use-pos-order-actions.ts:99-110 | The invariant behind it: every snapshot in the list, in the running loop or on the wire shows the balance of when it was taken, not below zero, which differs from that of now by what has happened since |
| Checkout.LostAnswerPaysTwice | apps/pos-app/src/hooks/use-pos-order-actions.ts:102-109 | The failing run: the answer to a payment is lost, the cashier presses again, and the order has been charged its figure twice; it is overpaid if and only if its balance had not risen by as much since the snapshot |
| Checkout.NextSettles | apps/pos-app/src/hooks/use-pos-order-actions.ts:112-119 | The next iteration for a delivered order closes it if and only if its snapshot shows nothing to pay or the balance has not risen since; one that shows nothing to pay closes it whatever remains, otherwise what remains is the rise |
| Checkout.PressCollects | apps/pos-app/src/hooks/use-pos-order-actions.ts:78-122 | A press and its iterations with nothing in between are the loop as a whole |
| Settlement.CloseEffect | backend/src/modules/orders/orders.service.ts:678-735 | Moving an order to PAID succeeds if and only if it is delivered, counts its version up by one, and changes no figure and no other order |
| OrderStores.ListsLatest | apps/pos-app/src/store/pos-data.store.ts:57-84 | Whatever events arrive, each of the four stores lists exactly the last snapshot of every order that is active for it, once, oldest first |
| OrderStores.FilterOut | apps/kitchen-app/src/store/kitchen.store.ts:35-38 | Removing an id from such a list leaves exactly the last snapshots of the other orders, once, oldest first |
| OrderStores.FromEmpty | apps/customer-app/src/store/guest-orders.store.ts:18-46 | Started empty: of every order with an id the last snapshot is listed if and only if it is neither paid nor cancelled, nor delivered in the kitchen, and nothing else is; ids are distinct and times in order |
| OrderStores.WaiterAgreesWithPos | apps/waiter-app/src/store/waiter.store.ts:249-271 | On the same events the waiter's list equals the POS's, ties included |
| OrderStores.KitchenIsPosWithoutDelivered | apps/kitchen-app/src/store/kitchen.store.ts:19-38 | The kitchen's list equals the POS's without the delivered orders, ties included |
| OrderStores.ListsUnique | apps/pos-app/src/store/pos-data.store.ts:57-78 | The last snapshots determine the list when no two active orders have the same time |
| OrderStores.Converge | apps/customer-app/src/store/guest-orders.store.ts:18-46 | Streams that agree on the last snapshot of every order, however interleaved, leave any two stores with the same active statuses with the same list when no two active orders tie |
| OrderStores.ConvergeIff | apps/pos-app/src/store/pos-data.store.ts:57-84 | For the last snapshots that any stream leaves: all streams that leave the same ones end in one list, in all stores with the same active statuses, if and only if no two of the active ones have the same time |
| OrderStores.TiesDiverge | apps/pos-app/src/store/pos-data.store.ts:73-75 | After any stream any two active orders that tie can be listed either way round, with the same last snapshots |
| OrderStores.GuestKeepsPlace | apps/customer-app/src/store/guest-orders.store.ts:34-44 | On one and the same stream, two orders that tie and an update of the first, the guest store keeps the updated order in its place while POS and waiter put it behind the other |
| OrderVersions.ListsNewestIff | apps/pos-app/src/store/pos-data.store.ts:57-84 | Over every stream of snapshots and removals, a store lists the newest version received of every order that is active in it if and only if of each order the last snapshot carries the greatest version since its last removal, or neither that one nor the newest is active |
| OrderVersions.NewestIsLatestIff | apps/customer-app/src/store/guest-orders.store.ts:18-46 | The last snapshot of an order is the newest one if and only if it carries the greatest version received |
| OrderVersions.OlderWins | apps/waiter-app/src/store/waiter.store.ts:249-265 | Two snapshots of one active order that arrive the wrong way round leave every store with the older one |
| OrderStoreObjects.GuestOrdersStore.UpsertOrder | apps/customer-app/src/store/guest-orders.store.ts:18-46 | Splice, push or overwrite, then sort: the guest algorithm on the list field |
| OrderStoreObjects.PosDataStore.UpsertOrder | apps/pos-app/src/store/pos-data.store.ts:57-78 | The POS algorithm on the list field, and what becomes of the selected snapshot |
| OrderStoreObjects.PosDataStore.RemoveOrder | apps/pos-app/src/store/pos-data.store.ts:79-84 | Removal, and what becomes of the selected snapshot |
| OrderStoreObjects.KitchenStore.UpsertOrder | apps/kitchen-app/src/store/kitchen.store.ts:19-34 | The kitchen algorithm on the list field |
| WaiterTables.BuildTableOrderGroups | apps/waiter-app/src/store/waiter.store.ts:106-138 | The loop over a Map with running counters builds the index that belongs to the orders |
| WaiterTables.PushOrder | apps/waiter-app/src/store/waiter.store.ts:129-134 | Bumping the counters gives the summary of the longer group |
| WaiterTables.GroupsPartition | apps/waiter-app/src/store/waiter.store.ts:106-138 | For every list of orders: the groups together are a permutation of its active orders, keys are distinct, each group holds all orders of its key and no other, and each summary's counters are the sums over its orders |
| WaiterTables.SameGroupIff | apps/waiter-app/src/store/waiter.store.ts:106-138 | Two active orders are in one group if and only if they are at the same table, or at none with one id, or one is at a table whose id is walk-in: followed by the id of the other, which is at none |
| WaiterTables.GroupsInTimeOrder | apps/waiter-app/src/store/waiter.store.ts:100-138 | Groups come in the order of their oldest orders and list their orders oldest first |
| WaiterTables.GroupsConserveTotals | apps/waiter-app/src/store/waiter.store.ts:106-138 | The groups' counts and amounts add up to the number of active orders and the sum of their grand totals |
| WaiterTables.NormalizeKept | apps/waiter-app/src/store/waiter.store.ts:100-104 | On a list that the store keeps, normalizing changes nothing and the index partitions the list itself |
| WaiterTables.WaiterStore.SetInitialData | apps/waiter-app/src/store/waiter.store.ts:214-234 | Orders are normalized; the index is right if and only if no groups were supplied or the supplied ones are right; the order being edited is kept only if it is listed |
| WaiterTables.WaiterStore.UpsertOrder | apps/waiter-app/src/store/waiter.store.ts:249-265 | The index equals a rebuild from the new list, and the order being edited stays one of the listed |
| WaiterTables.WaiterStore.RemoveOrder | apps/waiter-app/src/store/waiter.store.ts:266-271 | The same after a removal |
| KitchenGroups.GroupOrdersByTable | apps/kitchen-app/src/lib/group-orders-by-table.ts:14-60 | The Map loop followed by the two sorts gives the groups that the laws below are about |
| KitchenGroups.ScreenShowsEveryOrder | apps/kitchen-app/src/lib/group-orders-by-table.ts:14-60 | For every list: the groups together are a permutation of it; each group is not empty, sorted by time, holds all orders of its id and no other, and is headed by the first of them in the list; the groups are ordered by first time, external first, then table number |
| KitchenGroups.SameGroupIff | apps/kitchen-app/src/lib/group-orders-by-table.ts:17-26 | Two orders are in one group if and only if both are takeaway, or neither is and they are at one table or both at none, or a table has the id external-orders or unknown |
| KitchenGroups.GroupHeading | apps/kitchen-app/src/lib/group-orders-by-table.ts:28-34 | A group is external, named and numbered after the first of its orders to come in: by kind for delivery and takeaway, by table number otherwise, 0 if there is none |
| KitchenGroups.ScreenInOrder | apps/kitchen-app/src/lib/group-orders-by-table.ts:44-59 | Of two groups the one that starts earlier comes first, of those that start together the external one, then the smaller table number |
| KitchenGroups.TiesKeepInputOrder | apps/kitchen-app/src/lib/group-orders-by-table.ts:38-43 | Orders of one group with the same time are shown in the order in which they came in |
| KitchenGroups.IdsDistinct | apps/kitchen-app/src/lib/group-orders-by-table.ts:14-35 | No two groups have the same id, so at most one is external |
| Selections.SortedIdsEqualIff | apps/waiter-app/src/store/waiter.store.ts:183-184 | Sorted modifier lists are equal if and only if they hold the same ids equally often |
| Selections.JoinInjective | apps/waiter-app/src/store/waiter.store.ts:183-184 | For ids that are not empty and contain no bar, joining with bars loses nothing |
| Selections.SameSelectionIff | apps/waiter-app/src/store/waiter.store.ts:182-191 | For such ids two lines compare equal if and only if they have the same item, trimmed notes and modifier multiset |
| Selections.StringLeIff | apps/waiter-app/src/store/waiter.store.ts:183-184 | Ids are ordered by the first character in which they differ, a prefix first |
| Text.TrimTakesBlanks | apps/waiter-app/src/store/waiter.store.ts:189-189 | Trimming takes exactly the white space off both ends |
| Text.IsBlankIff | backend/src/modules/payments/payments.service.ts:20-43 | A reason is blank if and only if it holds nothing but white space |
| Selections.ConfusableIff | apps/waiter-app/src/store/waiter.store.ts:183-184 | One modifier id can be taken for other modifiers if and only if it is empty or is two strings joined by a bar of which the first is not after the second |
| Selections.BarsConfuse | apps/waiter-app/src/store/waiter.store.ts:182-191 | For any such two strings: two lines that compare equal although their modifiers differ |
| Selections.UniqueSortedMembers | apps/customer-app/src/store/lib/cart-utils.ts:12-14 | Normalized ids are the non-empty ids, each once, in order |
| Selections.NormalizeIdsTwice | apps/customer-app/src/store/lib/cart-utils.ts:12-14 | Normalizing twice is normalizing once |
| Selections.NormalizedEqualIff | apps/customer-app/src/store/lib/cart-utils.ts:12-14 | Two lists normalize alike if and only if they have the same non-empty ids |
| DraftModel.AddCounts | apps/waiter-app/src/store/waiter.store.ts:272-299 | Adding a line adds exactly its quantity to its selection and nothing to any other, even where selections are confused |
| DraftModel.AddCallCounts | apps/waiter-app/src/store/waiter.store.ts:272-350 | At a table, adding a line gives its quantity to its selection and nothing to any other; clearing leaves nothing |
| DraftModel.AddCallMerges | apps/waiter-app/src/store/waiter.store.ts:272-299 | A line is added to the first line of its selection, which keeps all but its quantity, or else at the end as it is |
| DraftModel.ButtonCallsCount | apps/waiter-app/src/store/waiter.store.ts:300-343 | At a table, plus, minus and remove change the units of the named line's selection by 1, by -1 and by its quantity, and new notes move its quantity to the selection with those notes, trimmed |
| DraftModel.CallKeepsOthers | apps/waiter-app/src/store/waiter.store.ts:272-357 | Every call leaves the drafts of the other tables as they are |
| DraftModel.LoadedLines | apps/waiter-app/src/store/waiter.store.ts:163-180 | An order is loaded item by item with its id, dish, quantity, notes and the option ids of its modifiers |
| DraftModel.ChosenIs | apps/waiter-app/src/store/waiter.store.ts:169-171 | Of the modifiers the option ids that are not empty are kept, in their order |
| DraftModel.ButtonsCount | apps/waiter-app/src/store/waiter.store.ts:300-343 | With distinct line ids: plus adds one unit to the line's selection, minus takes one, remove takes the line's quantity, other selections keep theirs |
| DraftModel.NotesCount | apps/waiter-app/src/store/waiter.store.ts:326-334 | With distinct line ids, new notes move the line's quantity from its old selection to its new one and leave all others |
| DraftModel.DecrementUndoesIncrement | apps/waiter-app/src/store/waiter.store.ts:300-325 | On positive quantities minus undoes plus exactly |
| DraftModel.AddKeepsMerged | apps/waiter-app/src/store/waiter.store.ts:272-299 | Adding keeps one line per selection |
| DraftModel.UpdateNotesKeepsMergedIff | apps/waiter-app/src/store/waiter.store.ts:326-334 | Changing notes keeps one line per selection if and only if no other line already has the new selection |
| DraftModel.StepTidyIff | apps/waiter-app/src/store/waiter.store.ts:272-357 | With positive quantities, one line per selection and one per id in all drafts, a call keeps them so if and only if: a line that merges leaves a positive quantity, one that is appended has one and a new id; new notes clash with no other line; the items of a loaded order have positive quantities and distinct ids and no two have one selection. Other tables' drafts never change |
| DraftModel.RunKeepsTidy | apps/waiter-app/src/store/waiter.store.ts:272-357 | Over every run in which each call meets that condition the drafts of all tables stay so |
| DraftModel.RepeatedDishLoads | apps/waiter-app/src/store/waiter.store.ts:351-357 | An order that lists one dish twice, with the same notes and options, is loaded as two lines of one selection |
| DraftObjects.WaiterDrafts.AddDraftLine | apps/waiter-app/src/store/waiter.store.ts:272-299 | Merges into the line of the same selection or appends, at one table only, and keeps the drafts tidy under the exact condition of StepTidyIff |
| CartModel.AddConfiguredCounts | apps/customer-app/src/store/cart.store.ts:86-112 | Adding a configured dish adds exactly the quantity asked for to the line with that dish, trimmed notes and normalized options, and nothing to any other line key |
| CartModel.AddItemCounts | apps/customer-app/src/store/cart.store.ts:54-85 | Adding a plain dish adds one unit to the line without notes and options and nothing to any other |
| CartModel.AddEffect | apps/customer-app/src/store/cart.store.ts:54-112 | Adding is for the context it is given: on top of the draft of that context, from nothing if the draft is for another or there is none; it adds the units asked for to their key and none to any other, and leaves the draft with no guest session |
| CartModel.AddMerges | apps/customer-app/src/store/cart.store.ts:54-112 | What is asked for goes to the first line of its key, which keeps all but its quantity, or else to the end with its id, trimmed notes and normalized options |
| CartModel.ButtonEffect | apps/customer-app/src/store/cart.store.ts:113-163 | The buttons change the units of the named line's key by 1, by -1 and by its quantity and of no other, and keep context, guest session and the order being edited |
| CartModel.EditedLines | apps/customer-app/src/store/cart.store.ts:206-237 | An order is edited item by item with its id or a drawn one, its dish, quantity, notes and option ids, for the given context and the order's guest session |
| CartModel.OptionIdsIs | apps/customer-app/src/store/cart.store.ts:206-214 | Of the modifiers the option ids that are not empty are kept, in their order |
| CartModel.ReplacedDraft | apps/customer-app/src/store/cart.store.ts:164-205 | Hydrating replaces draft and edited order by the given ones, line by line with an id and normalized options; clearing leaves neither |
| CartModel.ButtonsCount | apps/customer-app/src/store/cart.store.ts:113-163 | With positive quantities and distinct line ids, and however many lines have the same key, plus, minus and remove change the units of the line's own key by 1, by -1 and by its whole quantity, and of no other key |
| CartModel.DecrementUndoesIncrement | apps/customer-app/src/store/cart.store.ts:113-148 | On positive quantities minus undoes plus exactly |
| CartModel.StepTidyIff | apps/customer-app/src/store/cart.store.ts:54-237 | With positive quantities, one line per key and one per id, an operation keeps them so if and only if: an addition that merges leaves a positive quantity, one that appends has one and a new id; hydrated lines have positive quantities, different keys and, once ids are drawn, different ids; and so have the items of an order to edit |
| CartModel.RunKeepsTidy | apps/customer-app/src/store/cart.store.ts:54-237 | Over every run of operations that meet that condition the cart stays so |
| CartModel.RepeatedDishEdited | apps/customer-app/src/store/cart.store.ts:206-237 | Editing an order that lists one dish twice, with the same notes and options, gives two lines of one key |
| CartModel.StepMirrors | apps/customer-app/src/store/cart.store.ts:20-29 | After every operation the stored cart of the draft's context is the draft, or nothing if it is empty; all other contexts' carts are untouched; clearing leaves neither cart nor editing info |
| CartModel.RunMirrors | apps/customer-app/src/store/cart.store.ts:20-237 | The same invariant over every run |
| CartModel.StepEditingIff | apps/customer-app/src/store/cart.store.ts:54-237 | An operation keeps the order being edited stored for the draft's context if and only if it does not add at a table whose stored editing info is another, which can only be another table than the draft's |
| CartModel.RunKeepsEditing | apps/customer-app/src/store/cart.store.ts:54-237 | Over every run without such an addition an order being edited is stored as such |
| CartModel.ReloadRestores | apps/customer-app/src/components/table-session-sync.tsx:19-32 | After every run a reload at the draft's table brings back the lines up to normalization, exactly the same draft if and only if its lines were normal, nothing for an empty draft unless an order is stored as being edited; the editing info is the stored one, the same as before if and only if that was stored; reloading again changes nothing |
| CartModel.PersistCartEffect | apps/customer-app/src/lib/persist-cart.ts:31-44 | Writing a draft makes it what its context loads, and changes neither the carts of contexts with other keys nor any editing info |
| CartModel.PersistEditingEffect | apps/customer-app/src/lib/persist-cart.ts:82-94 | The same for the editing info |
| CartModel.KeysShareIff | apps/customer-app/src/lib/persist-cart.ts:5-7 | Any two contexts share both storage keys if and only if they have the same restaurant and table text, or one restaurant id is the other followed by a colon and a string that starts the other's table text, colon and the first's table text following |
| CartModel.StoringAt | apps/customer-app/src/lib/persist-cart.ts:9-44 | Storing at one context: another that shares its keys finds no cart any more and is handed the editing info; any other finds what it had |
| CartModel.KeysInjective | apps/customer-app/src/lib/persist-cart.ts:5-7 | Contexts whose restaurant ids contain no colon and whose tables are not called undefined share a key if and only if they are equal |
| CartModel.KeysCollide | apps/customer-app/src/lib/persist-cart.ts:5-7 | Two pairs of contexts that share keys, one with a colon in an id and one with no table beside a table called undefined |
| CartModel.NormalizeItemsIff | apps/customer-app/src/store/cart.store.ts:184-191 | Hydration leaves lines unchanged if and only if they have ids and normalized options |
| CartObjects.CartStore.PersistCartDraft | apps/customer-app/src/lib/persist-cart.ts:31-44 | Writes or removes the entry of the draft's context |
| CartObjects.CartStore.AddItem | apps/customer-app/src/store/cart.store.ts:54-85 | The method's search for a line without notes and options finds the one with the plain line's key; the draft is replaced and written through |
| CartObjects.CartStore.AddConfiguredItem | apps/customer-app/src/store/cart.store.ts:86-112 | Merges by line key with the normalized options, replaces the draft and writes it through |
| CartObjects.CartStore.IncrementItem | apps/customer-app/src/store/cart.store.ts:113-129 | One more unit on the lines with the id, written through; nothing without a draft |
| CartObjects.CartStore.DecrementItem | apps/customer-app/src/store/cart.store.ts:130-148 | One unit less and no empty line, written through; nothing without a draft |
| CartObjects.CartStore.RemoveItem | apps/customer-app/src/store/cart.store.ts:149-163 | No line with the id left, written through; nothing without a draft |
| CartObjects.CartStore.Clear | apps/customer-app/src/store/cart.store.ts:164-182 | Clears the draft, the editing info and both entries |
| CartObjects.CartStore.Hydrate | apps/customer-app/src/store/cart.store.ts:183-205 | Normalizes, writes through and keeps the editing info |
| CartObjects.CartStore.StartEditingOrder | apps/customer-app/src/store/cart.store.ts:206-237 | Replaces the draft by the lines made from the order's items, drawing ids and dropping empty options, and stores what is edited |
| JobModel.RunStaysInStep | backend/src/queue/queue.service.ts:114-176 | In every run the row says what the job does, never counts more than the allowed attempts, and a job that was given up has used all of them |
| JobModel.OutcomeRecorded | backend/src/queue/queue.service.ts:114-176 | A success clears the error, a failure keeps its message and leaves the job waiting while attempts are left and failed otherwise; between attempts it waits 5, 15 and then 30 seconds |
| JobModel.FailureFinalIff | backend/src/queue/queue.service.ts:139-176 | Whatever counters the worker reports, a failure is recorded as final if and only if as many attempts as allowed, one when nothing is said, were made or started |
| JobModel.AttemptsWithinIff | backend/src/queue/queue.service.ts:139-176 | The bound on the recorded attempts holds over all runs if and only if at least one attempt is allowed |
| JobModel.JobEnds | backend/src/queue/queue.service.ts:114-176 | Every event that does anything brings the job nearer to COMPLETED or FAILED, one is possible until then, and none after |
| JobModel.AlwaysFailing | backend/src/queue/queue.constants.ts:130-132 | A job with n attempts that always fails is given up after exactly n runs, having waited 0 ms for one attempt, 5000 for two and 20000 + 30000(n-3) for three or more |
| JobModel.LoggedDelayIff | backend/src/queue/queue.service.ts:158-161 | The delay that is logged is the one that is waited if and only if at least three attempts were made |
| JobObjects.QueueService.Enqueue | backend/src/queue/queue.service.ts:28-70 | Creates a waiting row, failed with the error if the queue does not take the job; all other rows stay |
| JobObjects.QueueService.RecordJobStarted | backend/src/queue/queue.service.ts:114-123 | Updates the job's row only |
| JobObjects.QueueService.RecordJobCompleted | backend/src/queue/queue.service.ts:125-137 | Updates the job's row only |
| JobObjects.QueueService.RecordJobFailed | backend/src/queue/queue.service.ts:139-176 | Updates the job's row only: waiting while attempts remain, failed otherwise; nothing without a job |
| InventoryModel.LogsCoverStock | backend/src/modules/inventory/inventory.service.ts:38-134 | In every run what was logged as supplied to an item is its stock plus all that was taken out by edits and deductions, so the logs always cover the stock |
| InventoryModel.StepBalances | backend/src/modules/inventory/inventory.service.ts:70-116 | One operation moves the stock by what it logs less what it takes out |
| InventoryModel.StepChanges | backend/src/modules/inventory/inventory.service.ts:38-134 | An operation changes the named item only, if it exists and, but for a deduction, belongs to the restaurant: the levels that are given, or the stock by the quantity; a removal takes it out with its logs |
| InventoryModel.NewItemBalances | backend/src/modules/inventory/inventory.service.ts:38-68 | An item's logs start with its initial stock |
| InventoryModel.StatusCurrent | backend/src/modules/orders/orders.service.ts:1851-1871 | In every run, deductions by orders included, an item is stored as critical if and only if twice its stock is not above its alert level, and as healthy if and only if its stock is above it and it is not critical |
| InventoryModel.StatusFollowsStock | backend/src/modules/inventory/inventory.service.ts:10-18 | After any run, an operation that keeps an item's alert level makes its status worse only by lowering its stock and better only by raising it, and a deduction never makes it better |
| InventoryObjects.InventoryService.Create | backend/src/modules/inventory/inventory.service.ts:38-68 | Adds an item with its status and logs its initial stock |
| InventoryObjects.InventoryService.Update | backend/src/modules/inventory/inventory.service.ts:70-116 | Sets the levels and status of one owned item and logs a rise only, or refuses without a change |
| InventoryObjects.InventoryService.Remove | backend/src/modules/inventory/inventory.service.ts:118-134 | Takes one owned item out together with its logs, or refuses without a change |
| InventoryObjects.InventoryService.Deduct | backend/src/modules/orders/orders.service.ts:1830-1871 | Lowers one stock by a positive quantity and sets its status again, logging no supply |

## Left out

- AuthSessions.RefreshSucceedsIff: compares whole tokens; the bcrypt library reads the first 72 bytes of its input only, within which the signed tokens of one user agree. `AuthSessions.ReplayAcceptedIff` says what depends on the comparison.
- AuthSessions.TokenUsedOnce: the same.
- AuthSessions.ReplayRevokes: the same.
- Cryptography and JSON web tokens: a signed token is a value with a serial number of its own and a bcrypt hash is compared as the token itself; two tokens signed for one session within a second, which can be the same text, are not modelled.
- Upper-casing of letters outside ASCII in the staff code at login, password hashing, the fields of a token's payload that no operation compares, and the audit log.
- Two browser tabs with one session, and a page reload while a refresh is in flight: the client of the protocol is one page.
- Partly executed server operations and database races: each service method is one step.
- The copies of `http.ts` in the POS, kitchen and waiter applications and their auth stores, which repeat the one modelled.
- Floating-point and decimal rounding of money: figures are exact reals.
- The client's choice of payment method between iterations of `collectPayment`: every payment is cash, since no figure depends on it.
- The receipt bundle, printing and the table billing that follow the settlement loop.
- The conflict check on `version`, role checks and cancellation reasons of order status updates: only the transition table matters for checkout.
- Invalid or missing dates in the sorts: every order has a time.
- `selectedTableId`, menus, notifications and the other view fields of the stores; `reset` and `setOrders`, which assign their fields.
- Names, prices and modifier details of draft lines, of which no operation compares or counts any.
- `orderType` and other fields that a cart draft carries along; server-side rendering and a local storage that throws.
- `failed-print-jobs.service.ts`: retrying and deleting failed print jobs is enqueueing and deleting a row.
- The worker and queue registries of `queue.service.ts`, stalled jobs, and worker events out of order.
- `getOrdersSummary`, `getBusyHours` and the customer metrics of `reporting.service.ts`: independent counters over rows.
- The dashboard's and the order summary's `financialStatus` labels.
- Names, units, prices and suppliers of inventory items, and the consumption log of deductions.
