# botovh in Dafny

botovh is a small bot that watches a list of domain names and buys each one
through the OVH API as soon as it becomes available for registration. The
repository holds the purchase loop in three revisions:

- `bot.py`, driven by a configuration file, with email and SMS notices and a
  watch file it rewrites after each purchase;
- `botovh.py`, a single-file command-line tool;
- the packaged command line `botovh/cli.py` with its `botovh/account.py`,
  and the mail helper `botovh/email_client.py`.

All three walk the domains in order. For each domain they:

1. create and assign a cart;
2. add the domain to it;
3. test the reply for an offer.

When there is an offer they go on to:

4. check out;
5. fetch the registered payment means;
6. pick one;
7. look up its id;
8. pay.

The model follows the code as written.

- **The remote service.** It is a parameter: a function from the whole
  history of requests to the reply to the last one (`Remote.Server`).
- **The account.** Each revision's `Account` is a class over a `Client` that
  records every request it sends. Each method is proved against a pure
  function describing its effect.
- **The loop.** Each `run` loop is a method whose invariant ties the client
  state after `i` domains to a pure fold (`Sweep`) of a per-domain function
  (`Visit`). The properties are proved about those functions.
- **Python.** JSON values, exceptions, truth testing, `len`, subscripts,
  `get`, `in` and `==` are written out in module `Py`. The model therefore
  reproduces exactly which exception each step raises. How the process ends
  is an `Outcome`: completed, `sys.exit(code)`, or an uncaught exception.

Behaviour of the code as written that the model reproduces and proves:

- **The packaged bot never honours the payment preference.** Line 72 of
  `botovh/cli.py` (line 53 of `botovh.py`) tests a string against a list of
  records, so the first registered mean is always chosen
  (`PackageCli.RecordsAlwaysGiveFirstMean`).
- **An empty means list raises TypeError.** In `botovh/cli.py` the message
  is a tuple formatted into one `%s`, so it raises TypeError instead of
  exiting with status 1 (`PackageCli.NoMeansEndsRun`).
- **Every error path of the packaged account raises NameError.** Each one in
  `botovh/account.py`, and a successful payment too, names a `dispatch`
  that is not bound. The packaged bot therefore places at most one order
  per run (`PackageCli.SweepOrdersAtMostOnce`), and its notification list
  stays empty, so it never sends mail (`PackageCli.Start`).
- **`bot.py` can read an unassigned local.** On the first offer of a run,
  `payment_mean` has not been assigned before it is read
  (`BotScript.SingleMeanUnbound`, `BotScript.PickMeanOfRecords`).
- **`bot.py` rewrites the watch file from the original list.** So a domain
  bought earlier in the same run is listed again
  (`BotScript.EarlierPurchaseReturns`).
- **`botovh.py` can reach `run` without domains.** With neither DOMAINS nor
  `--file`, it calls `run` with `domains` unbound, which raises
  UnboundLocalError (`BotovhScript.Start`).

## Model

| member | source | states |
|---|---|---|
| Strings.Split | botovh/email_client.py:27 | `s.split(c)` never yields an empty list, and no piece contains the separator |
| Strings.SplitCount | botovh/email_client.py:27 | splitting yields exactly one more piece than there are separators |
| Strings.SplitJoin | botovh/email_client.py:27 | joining the pieces with the separator gives back the original string |
| Strings.Sort | botovh/cli.py:88 | `sorted()` of the messages is ascending in Python's string order and a permutation of them |
| Strings.SplitLines | bot.py:232 | `splitlines()` yields lines that contain no newline |
| Py.Uncaught | botovh/cli.py:71 | an uncaught exception ends the process with the exit status of `sys.exit`, or crashes with that very exception |
| Py.Len | botovh/cli.py:56 | `len` is defined exactly on strings, lists and dicts, is positive exactly when the value is truthy, and otherwise raises TypeError |
| Py.Item | botovh/cli.py:56 | `x['k']` succeeds exactly on a dict holding the key, returns its value, and raises KeyError for a missing key |
| Py.DictGet | botovh/cli.py:56 | `x.get('k')` succeeds exactly on dicts and gives None for a missing key |
| Py.Index0 | botovh/cli.py:76 | `x[0]` on a list is its first element, and IndexError on an empty list |
| Py.In | botovh/cli.py:72 | `in` on a list is membership under Python `==`; on two strings it is the substring test; on None, a bool or an int it raises TypeError |
| Py.StrNotInRecords | botovh/cli.py:72 | a string is never an element of a list of dicts |
| Py.EqStrIsStrEq | bot.py:43 | comparing a value with a string holds only for that very string |
| Py.Lookup | botovh/cli.py:82-84 | `conf[name]` and `section[key]` return the entry when it exists and raise KeyError naming the key otherwise |
| Remote.Client.constructor | botovh/account.py:18-22 | a new client has sent no request |
| Remote.Client.Post | botovh/account.py:27 | a POST appends exactly one request to the log and returns the service's reply to it |
| Remote.Client.Get | botovh/account.py:52 | a GET appends exactly one authenticated request without parameters and returns the reply |
| Remote.CreateCartEffect | botovh/account.py:25-30 | `create_cart` POSTs an unauthenticated `/order/cart` with `ovhSubsidiary='FR'`, then assigns the `cartId` of that reply, and returns it; an APIError of either call, or a reply that is not a dict, stops it: once a `cartId` came back, the result is that id when the assignment succeeds and the assignment's APIError otherwise; it always sends at least one request, in purchase order |
| Remote.Guarded | botovh/account.py:38-47 | one call whose reply is returned unchanged on success, and whose APIError becomes the exception of the `except` clause |
| Remote.AddToCartEffect | botovh/account.py:33-35 | `add_to_cart` sends one POST to `/order/cart/{cartId}/domain` carrying the domain, returns the reply unchanged, and lets APIError through |
| Remote.CheckoutsOfPurchase | botovh/cli.py:58-77 | requests in purchase order check out at most once, and not at all if they stop at `add_to_cart` |
| Remote.AddedDomainsOfPurchase | botovh/cli.py:50-53 | requests in purchase order submit the domain of their `add_to_cart` step if they reach it, and no other domain |
| PackageAccount.Dispatch.constructor | botovh/cli.py:111 | a new message list is empty |
| PackageAccount.ReadCredentials | botovh/account.py:12-15 | the account reads ENDPOINT, APPLICATION_KEY, APPLICATION_SECRET and CONSUMER_KEY, and succeeds exactly when all four are present; otherwise it raises the KeyError of the first missing key, in that order |
| PackageAccount.PayEffect | botovh/account.py:70-89 | `pay` sends exactly one POST to `/me/order/{order_id}/payWithRegisteredPaymentMean` carrying the mean and its id, and then always raises NameError for `dispatch` |
| PackageAccount.Account.constructor | botovh/account.py:10-22 | the account keeps its dispatch and credentials, and its client has sent nothing |
| PackageAccount.Account.CreateCart | botovh/account.py:25-30 | the requests sent and the result are those of `CreateCartEffect` |
| PackageAccount.Account.AddToCart | botovh/account.py:33-35 | the requests sent and the result are those of `AddToCartEffect` |
| PackageAccount.Account.GenerateSalesorder | botovh/account.py:38-47 | one POST to the cart's checkout; the reply is returned unchanged, an APIError becomes NameError, and no message is added |
| PackageAccount.Account.GetPaymentMeans | botovh/account.py:49-57 | one GET of the order's registered payment means; the reply is returned unchanged, an APIError becomes NameError, and no message is added |
| PackageAccount.Account.GetPaymentMeanId | botovh/account.py:60-67 | one GET of `/me/paymentMean/{mean}`; the reply is returned unchanged, an APIError becomes NameError, and no message is added |
| PackageAccount.Account.Pay | botovh/account.py:70-89 | the requests sent and the result are those of `PayEffect`: NameError whatever the reply, and no message is added |
| PackageCli.OfferTest | botovh/cli.py:56 | an empty reply is no offer; for a non-empty dict, a missing `settings` raises KeyError, a missing `planCode` raises TypeError, and a string `planCode` is an offer exactly when it contains `create` |
| PackageCli.ChooseMean | botovh/cli.py:72-73 | the current mean is kept only when it is not None and `in` the means; otherwise it is the first record's `paymentMean`, and the exception of `in` propagates |
| PackageCli.RecordsAlwaysGiveFirstMean | botovh/cli.py:72-73 | with record elements and a string or None preference, the choice is always the first record's mean |
| PackageCli.PreferenceIgnoredExample | botovh/cli.py:72-73 | preference `paypal` with means creditCard and paypal pays with creditCard |
| PackageCli.PayWith | botovh/cli.py:76-77 | the mean-id lookup comes first; payment, if sent, uses element 0 of that reply for the chosen mean; the run then always ends, with NameError after a payment |
| PackageCli.Settle | botovh/cli.py:65-77 | the means lookup comes first; an empty means list ends the run with TypeError before any further request; otherwise the payment uses the mean `ChooseMean` picks |
| PackageCli.Purchase | botovh/cli.py:58-77 | the checkout comes first; later steps happen only after it returned an `orderId`, and always for that order; the run ends in every case |
| PackageCli.TryDomain | botovh/cli.py:52-77 | after `add_to_cart` the loop goes on exactly when the reply is an APIError or offers nothing, keeping `payment_mean`; an offer always leads to the purchase |
| PackageCli.Visit | botovh/cli.py:47-77 | one iteration extends the log with requests in purchase order, starting with a new cart |
| PackageCli.Sweep | botovh/cli.py:46-77 | the domains submitted are the leading domains of the list, in list order, and all of them when no exception escapes |
| PackageCli.CheckDomain | botovh/cli.py:47-77 | the loop body sends the requests and leaves `payment_mean` and the exception described by `Visit` |
| PackageCli.Run | botovh/cli.py:42-94 | `run` sends the requests of `Sweep` and ends as `RunEffect` says, mail included |
| PackageCli.HaltIsFinal | botovh/cli.py:46-71 | once an iteration has raised, the remaining domains change nothing |
| PackageCli.VisitUsesFreshCart | botovh/cli.py:50-58 | the id the cart creation returned is the one assigned, the one the domain is added to and the one checked out |
| PackageCli.VisitContinuesOnlyWithoutOffer | botovh/cli.py:52-56 | an iteration goes on to the next domain exactly when the domain was added and not offered, and then `payment_mean` is unchanged |
| PackageCli.PayOnlyAfterOrderAndMeans | botovh/cli.py:58-77 | a payment is sent only after the checkout returned an order id and the means list was non-empty; it pays that order with the chosen mean and element 0 of its ids, and the run then ends with NameError |
| PackageCli.VisitPaysLast | botovh/cli.py:50-77 | an iteration of seven requests is cart, assign, add, then the purchase of that domain in that cart |
| PackageCli.PurchaseWithoutMeans | botovh/cli.py:66-71 | an empty means reply ends the purchase right after the means request, with TypeError |
| PackageCli.NoMeansEndsRun | botovh/cli.py:66-71 | an empty means reply ends the run after the iteration's fifth request, with no mean-id lookup and no payment |
| PackageCli.VisitAddsItsDomain | botovh/cli.py:50-53 | an iteration that reaches `add_to_cart` submits its own domain, once |
| PackageCli.VisitOrdersAtMostOnce | botovh/cli.py:56-58 | no iteration checks out twice, and an iteration that goes on checks out nothing |
| PackageCli.SweepOrdersAtMostOnce | botovh/cli.py:46-77 | a whole run checks out at most once, and not at all if it completes |
| PackageCli.MailOnlyAfterCleanRun | botovh/cli.py:79-92 | mail goes out exactly when the loop completed, email is enabled, there are messages and the SMTP options exist; it carries the sorted messages joined by newlines, from SEND_FROM to the addresses `SEND_TO.split(',')` yields, on port 465 |
| PackageCli.Start | botovh/cli.py:97-140 | missing SMTP without `--noemail` exits 1; `--key` exits 0 with no request; DOMAINS take precedence over `--file`; no source or a missing file exits 1; otherwise `run` with the chosen list, a file's contents split into lines; no mail is ever sent |
| EmailClient.NewEmail | botovh/email_client.py:11-15 | the instance keeps host, port, user and password as given |
| EmailClient.Defaults | botovh/email_client.py:11 | the default port is 465 and the login is empty |
| EmailClient.WrapKeepsKeyword | botovh/email_client.py:34-45 | the wrapped body contains `Congratulations` exactly when the original body does |
| EmailClient.CreateMessage | botovh/email_client.py:31-50 | the body is a newline, the text, a blank line and the em-dash signature; From is `BotOVH <sender>`; To is `send_to` unchanged; the subject is the congratulation text exactly when the body mentions `Congratulations`, else `Notification` |
| EmailClient.Recipients | botovh/email_client.py:27 | there is one recipient more than there are commas, none contains a comma, and joined with commas they give `send_to` back |
| EmailClient.Send | botovh/email_client.py:18-28 | `send` uses the instance's server, the given sender, the recipients `send_to.split(',')` yields (which join back to `send_to`) and the message `create_message` builds |
| BotovhScript.PayEffect | botovh.py:106-123 | `pay` sends one POST carrying the mean and its id, returns None when the payment goes through, and exits with status 1 otherwise |
| BotovhScript.Account.constructor | botovh.py:61-62 | a new account's client has sent nothing |
| BotovhScript.Account.CreateCart | botovh.py:64-71 | the requests sent and the result are those of `CreateCartEffect` |
| BotovhScript.Account.AddToCart | botovh.py:73-77 | the requests sent and the result are those of `AddToCartEffect` |
| BotovhScript.Account.GenerateSalesorder | botovh.py:79-87 | one POST to the checkout; the reply unchanged, or exit status 1 on APIError |
| BotovhScript.Account.GetPaymentMeans | botovh.py:89-97 | one GET of the means; the reply unchanged, or exit status 1 on APIError |
| BotovhScript.Account.GetPaymentMeanId | botovh.py:99-104 | one GET of the mean's ids; the reply unchanged, or exit status 1 on APIError |
| BotovhScript.Account.Pay | botovh.py:106-123 | the requests sent and the result are those of `PayEffect` |
| BotovhScript.HasOffer | botovh.py:39 | the offer test holds exactly when the reply is a dict with a truthy `offerId`, and raises AttributeError on anything but a dict |
| BotovhScript.PayWith | botovh.py:57-58 | the mean-id lookup comes first; the loop goes on exactly when both lookup and payment succeed, and an APIError exits with status 1 |
| BotovhScript.Settle | botovh.py:48-58 | an empty means list exits with status 1 after the means request; otherwise the mean `ChooseMean` picks is paid |
| BotovhScript.Purchase | botovh.py:41-58 | the checkout comes first; an APIError exits with status 1; the loop goes on only after all four purchase requests succeeded |
| BotovhScript.TryDomain | botovh.py:36-58 | after `add_to_cart` the loop goes on without a purchase exactly when the reply is an APIError or has no truthy `offerId`, keeping `payment_mean`; a reply that is not a dict raises AttributeError; a truthy `offerId` leads to the purchase |
| BotovhScript.VisitSkipsOnlyWithoutOffer | botovh.py:32-39 | an iteration passes over its domain after three requests exactly when the cart was opened and the reply to `add_to_cart` is an APIError or has no truthy `offerId`; `payment_mean` is then unchanged |
| BotovhScript.Visit | botovh.py:32-58 | one iteration sends requests in purchase order, adds the domain to the cart just created, and goes on only after three or seven requests |
| BotovhScript.VisitAddsItsDomain | botovh.py:33-36 | an iteration that reaches `add_to_cart` submits its own domain, once |
| BotovhScript.Sweep | botovh.py:31-58 | the domains submitted are the leading domains of the list, in order, and all of them when no exception escapes |
| BotovhScript.PurchaseExitsOnApiError | botovh.py:79-123 | every APIError after the offer exits with status 1, and the loop goes on only after a payment that went through |
| BotovhScript.CheckDomain | botovh.py:32-58 | the loop body sends the requests and leaves `payment_mean` and the exception described by `Visit` |
| BotovhScript.HaltIsFinal | botovh.py:31-58 | once an iteration has raised, the remaining domains change nothing |
| BotovhScript.Run | botovh.py:30-58 | `run` sends the requests of `Sweep` and completes exactly when no exception escaped |
| BotovhScript.Start | botovh.py:156-181 | `--key` exits 0 with no request; DOMAINS take precedence over `--file`; a missing file exits 1; no source raises UnboundLocalError; otherwise `run` with the chosen list, a file's contents split into lines |
| BotScript.ReadSettings | bot.py:216-222 | the start-up lookups succeed exactly when all the options are present, and return those sections and options; otherwise they raise the KeyError of the first missing name, in the order `default`, `ovh`, `domains`, `notification`, `smtp`, `twilio`, `environment` |
| BotScript.MailEffect | bot.py:153-174 | the mail is sent exactly when the SMTP options exist: from `username` to the notification address, with subject `[BotOvh][domain] subject`; a missing option raises KeyError and sends nothing |
| BotScript.ErrorEffect | bot.py:59-73 | `error` never returns normally, and sends no SMS and writes no watch file |
| BotScript.ErrorNotifies | bot.py:59-73 | `error` logs `[now] domain=d, message=m` to the configured log file; it mails that line when an address is configured; it exits with status 1 exactly when every option it reads exists, and otherwise raises KeyError |
| BotScript.SmsEffect | bot.py:176-209 | the SMS is sent exactly when the Twilio section of the environment and the phone exist; it goes from the configured sender to the phone with body `BotOvh: ` + text; otherwise KeyError and nothing is sent |
| BotScript.Filter | bot.py:53-57 | the rewritten list never holds the bought domain and is no longer than the original |
| BotScript.FilterKeepsOthers | bot.py:53-57 | every other domain keeps its number of occurrences |
| BotScript.FilterIdempotent | bot.py:53-57 | removing the bought domain twice removes nothing more |
| BotScript.LinesRoundTrip | bot.py:53-57 | entries written one per line read back as the same entries |
| BotScript.WatchFileReadBack | bot.py:229-232 | read back at the next start, the rewritten file lists exactly the domains other than the one bought, in their original order |
| BotScript.EarlierPurchaseReturns | bot.py:53-56 | a domain bought earlier in a run is listed again after a later purchase, because each rewrite starts from the original list |
| BotScript.TwoPurchasesExample | bot.py:53-56 | buying `a.com` then `b.com` from that list leaves a file listing `a.com` |
| BotScript.Notifier.constructor | bot.py:220-222 | nothing has been logged, mailed, texted or written yet |
| BotScript.Notifier.Error | bot.py:59-73 | the exception and the new outbox are those of `ErrorEffect` |
| BotScript.Notifier.Text | bot.py:195-209 | the outcome and the new outbox are those of `SmsEffect` |
| BotScript.Notifier.RewriteWatchFile | bot.py:53-57 | the loop writes the filtered list one entry per line, and nothing else changes |
| BotScript.Call | bot.py:94-116 | one request; the reply is returned unchanged with nothing notified, or an APIError calls `error` with the prefix and the message, and the call raises what `error` raises, with the notifier state `error` leaves; the watch file is untouched |
| BotScript.PayStep | bot.py:118-133 | one payment POST; on success with a phone configured the payment SMS is sent and its failure raises, otherwise None is returned; on success without a phone None with nothing notified; an APIError calls `error` with the payment message and raises; the watch file is untouched |
| BotScript.ScanMeans | bot.py:41-44 | `payment_mean` changes only to the configured `payment`; a record without `paymentMean` raises; a missing `payment` option raises for any non-empty list of means, with its own KeyError when every record names a mean |
| BotScript.ScanFindsConfiguredMean | bot.py:41-44 | the configured mean is selected exactly when some record names it; otherwise `payment_mean` keeps its value |
| BotScript.PickMean | bot.py:41-46 | the mean used is the configured `payment`, a mean carried over from an earlier purchase, or the first record's mean when `payment_mean` is None; with at most one mean before any assignment it raises UnboundLocalError; a means value without a length raises that TypeError |
| BotScript.PickMeanOfRecords | bot.py:41-46 | with several records: the configured mean if registered, else the mean of an earlier purchase in this run, else UnboundLocalError |
| BotScript.SingleMeanUnbound | bot.py:41-46 | with a single mean, the first offer of a run raises UnboundLocalError for `payment_mean` |
| BotScript.PayWith | bot.py:49-57 | the mean-id lookup comes first; the loop goes on only after a successful payment, and then the watch file holds the list without the bought domain; a halt leaves the watch file alone |
| BotScript.PayWithSteps | bot.py:49-50 | an APIError of the mean-id lookup goes to `error` with its message and ends the run; a reply without element 0 raises; otherwise `pay` is called for the order with element 0, and its outcome decides the halt, the notifier state and the rewritten watch file |
| BotScript.PayWithStages | bot.py:49-50 | the mean-id lookup and the payment are sent in that order, each once |
| BotScript.Settle | bot.py:37-57 | the means lookup comes first; the loop goes on only after three requests and a successful payment, with the watch file rewritten; a halt leaves the watch file alone |
| BotScript.SettleSteps | bot.py:37-50 | an APIError of the means lookup goes to `error` with its prefix; an empty means list goes to `error` with the fixed message; an exception of `PickMean` ends the run; otherwise the payment uses the mean `PickMean` chooses |
| BotScript.SettleStages | bot.py:37-50 | the means lookup, then the requests of the payment, in order |
| BotScript.Announce | bot.py:31-34 | with a phone configured, an SMS announces the domain, order id and price; otherwise nothing is sent |
| BotScript.Purchase | bot.py:27-57 | the checkout comes first; the loop goes on only after four requests whose last reply, the payment's, was a success, with the watch file rewritten; a halt leaves the watch file alone |
| BotScript.PurchaseSteps | bot.py:27-37 | an APIError of the checkout goes to `error` with its prefix; a purchase that stops after the checkout has halted; otherwise the checkout returned an `orderId`, the SMS went out, and the means of that order are looked up from the notifier state the SMS left |
| BotScript.PurchaseStages | bot.py:27-50 | the checkout, then the requests of `Settle`, in order |
| BotScript.TryDomain | bot.py:21-57 | after `add_to_cart` the loop goes on without a purchase, nothing notified, exactly when the reply is an APIError or has no truthy `offerId`; a reply that is not a dict raises AttributeError; otherwise the purchase goes through and the watch file is rewritten, or the run ends with the watch file untouched |
| BotScript.TryDomainPurchases | bot.py:24-57 | a request after `add_to_cart` means the reply was a dict with a truthy `offerId`, and the rest is the purchase of that domain in that cart |
| BotScript.TryDomainStages | bot.py:21-57 | the addition, then the requests of the purchase, in order |
| BotScript.VisitSkipsOnlyWithoutOffer | bot.py:17-25 | an iteration passes over its domain after three requests exactly when the cart was opened and the reply to `add_to_cart` is an APIError or has no truthy `offerId`; nothing is notified and `payment_mean` is unchanged |
| BotScript.Visit | bot.py:17-57 | one iteration starts with a new cart; past the cart it is `TryDomain` on the cart id returned; it goes on after three requests with nothing notified, or after seven with the domain bought and the watch file rewritten; an iteration that halts leaves the watch file alone |
| BotScript.VisitInPurchaseOrder | bot.py:17-57 | an iteration sends its requests in purchase order: cart, assignment, addition, checkout, means, mean ids, payment, each at most once and none skipped |
| BotScript.Sweep | bot.py:16-57 | after a run the watch file is untouched, or it is the original list without one of the domains walked |
| BotScript.HaltIsFinal | bot.py:16-57 | once an iteration has raised, the remaining domains change nothing |
| BotScript.Account.constructor | bot.py:76-77 | a new account's client has sent nothing, and the account shares the notifier |
| BotScript.Account.CreateCart | bot.py:79-86 | the requests sent and the result are those of `CreateCartEffect` |
| BotScript.Account.AddToCart | bot.py:88-92 | the requests sent and the result are those of `AddToCartEffect` |
| BotScript.Account.Guard | bot.py:98-101 | a reply passes unchanged; an APIError goes to `error` with the method's prefix and raises what `error` raises |
| BotScript.Account.GenerateSalesorder | bot.py:94-101 | the requests, result and notifier state are those of `Call` with the order prefix |
| BotScript.Account.GetPaymentMeans | bot.py:103-110 | the requests, result and notifier state are those of `Call` with the means prefix |
| BotScript.Account.GetPaymentMeanId | bot.py:112-116 | the requests, result and notifier state are those of `Call` with no prefix |
| BotScript.Account.Pay | bot.py:118-133 | the requests, result and notifier state are those of `PayStep` |
| BotScript.CheckDomain | bot.py:17-57 | the loop body leaves the requests, notifier state, `payment_mean` and exception that `Visit` describes |
| BotScript.Order | bot.py:27-57 | the purchase part of the body leaves what `Purchase` describes |
| BotScript.SettleOrder | bot.py:37-57 | the payment part of the body leaves what `Settle` describes |
| BotScript.Run | bot.py:16-57 | `run` starts with `payment_mean` unassigned, and sends and notifies what `Sweep` describes |
| BotScript.Start | bot.py:211-232 | a missing option crashes with its KeyError before any request; `-a` sends nothing; a missing watch file raises FileNotFoundError; otherwise `run` over the file's lines |

## Left out

- The OVH client's transport, request signing, authentication and its own configuration loading are left out. The service is a function of the request history, and a failed call is an APIError carrying a message.
- `request_consumer_key` is left out in all three revisions, because it is interactive console I/O against the live API. `--key` and `-a` end where that call would start.
- The SMTP and SSL connections, the Twilio client and MIME encoding are I/O. The model records what would be handed to `sendmail` or to Twilio, with headers as plain strings. A network failure of those services is not modelled.
- Logging is not modelled: `logging.info`/`error`, the log handlers of `botovh.py` and `botovh/utils.py`, and `logging.basicConfig` taking effect only once. `bot.py`'s error log is a list of entries, and the current time is a parameter of the settings.
- `botovh/utils.py` is left out: OS detection, directory creation, `getpass` and the reading of the configuration file. Its only string step is a path join.
- Argument parsing (`docopt`, `argparse`, including `--help` and `--version`) and configuration parsing are not modelled. The parsed arguments are a record, and the configuration is a map of sections.
- Option-name case folding and `[DEFAULT]` inheritance of `configparser` are not modelled. Option names are taken as the code spells them.
- Files are maps from path to contents; every `Start` splits a file's contents with `Strings.SplitLines`, a `splitlines` that only knows `\n`; Python also breaks lines at `\r`, `\r\n` and a few other characters.
- `botovh/dispatch.py` is not part of this model. `Dispatch` is a message list that starts empty.
- JSON numbers that are not integers are not modelled. `str()` of a list or a dict, which appears in a request path only if the service returns one as an id, is a fixed marker rather than its repr.
- Process termination is an `Outcome` value. What the interpreter prints on a crash is not modelled.
- `bot.py`'s tests `conf_ovh is not None` and `domains_file is not None` always hold for values read from a configuration file. They are modelled as always taken.
- `setup.py` is packaging metadata only.
- BotScript.ErrorEffect: its own contract states only that `error` never returns normally and leaves SMS and watch file alone. The log line, mail and exit status are stated by `BotScript.ErrorNotifies`.
- BotScript.Filter: its own contract states that the bought domain is gone and the list did not grow. Preservation of every other entry is stated by `BotScript.FilterKeepsOthers`.
