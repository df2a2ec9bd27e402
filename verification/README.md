# Verified model of the bolt402 payment engine

bolt402 is an L402 client: an HTTP request that is answered 402 carries a Lightning invoice and a
macaroon; the client checks a budget, pays, keeps the token and sends the request again. One client is
shared by many concurrent requests. This project models that engine and the parts it is made of, and
proves what they guarantee together.

| modules | what they model |
|---|---|
| `Engine`, `EngineLaws`, `EngineTheorems`, `EngineHistory`, `EngineBudget`, `Client` | `L402Client::request` as a step machine: a request is a program counter that moves at each `.await`, on a reply of an arbitrary environment. A run is any sequence of events of any number of requests. `Client.L402Client` is the object itself, whose methods change its store, tracker and receipts in place; `Resume` is proved equal to the step machine. |
| `Budget`, `BudgetLaws`, `BudgetOverrides`, `BudgetConfig`, `BudgetWindows`, `BudgetAtOnce` | the budget tracker with its aligned hour and day buckets, domain overrides, pruning and 64-bit additions; and which configurations keep its limits |
| `TokenStore`, `StoreLaws`, `EvictionLaws` | the bounded in-memory token store |
| `SqliteStore`, `SqliteLaws`, `StoreRefinement` | the persistent store with its expiry, and the bounded store against it |
| `Bolt11`, `MockChallenge`, `L402Challenge`, `ChallengeLaws`, `L402Token`, `Text` | the codecs: invoice amounts (BOLT #11, section "Human-Readable Part"), the challenge header (section 11.6.1 of RFC 9110), the authorization header |
| `Lnd`, `Cln`, `Payment`, `Backends` | what the LND and CLN REST backends report, and the accounts of an engine over them |
| `MockServer`, `ServerLaws`, `ClosedSystem`, `ClosedLaws`, `ClosedTheorems` | engine, mock server and mock wallet wired together, with nothing left to an environment but the clock, the random draws and the primitives; requests one after the other |
| `ConcurrentSystem`, `ConcurrentLaws`, `ConcurrentTheorems`, `ConcurrentOnce` | the same under any number of concurrent requests |

How the parts are joined. Every method that changes state is proved equal to a function of the old state,
and the laws are proved of those functions. The budget is modelled in modes: `CODE` wraps at 64 bits
and prunes, `EXACT` only prunes, and either may be without pruning. Its laws are stated of every mode, with
sums as the counters keep them; `RecordsFitExactly` says when `CODE` is `EXACT`; `BudgetConfig` and `BudgetWindows` say
which configurations keep the total and the limits in every run. Counters wrap because a record counts whether or not it is paid: a
run of refused or unpayable invoices is no exception to these theorems.
The tracker of any concurrent run is that of one sequential run (`TrackerIsSequential`), and so is its store
(`StoreIsSequential`), so the budget and eviction laws hold of the engine. Closed sessions are proved equal to
a one-step-per-request form (`SessionRefines`), about which the accounts are then proved; the concurrent
system is proved sound move by move.

A ghost history of facts (sent, answered, challenged, asked, issued, paid, refused, stored, removed, returned)
records a run. H below is the hour
of the latest accepted payment, D its day.

Constructors, getters, setters and plain removals (`TotalSpent`, `Receipts`, `Count`, `Clear`, `Remove`,
`Get`, `SetBalance`) have contracts that state their whole effect and are not listed.

## Model

| member | source | states |
|---|---|---|
| EngineLaws.RunInv | crates/bolt402-core/src/client.rs:232-342 | In every interleaving each fact of the history is justified by earlier ones, the store holds only known tokens, the tracker and the receipts are functions of the history, and every program counter agrees with it |
| EngineLaws.ApplyKeeps | crates/bolt402-core/src/client.rs:232-342 | Every event (a new request, any step on any reply, a removal from outside) keeps that invariant |
| EngineTheorems.PaymentsAreAccounted | crates/bolt402-core/src/client.rs:283-341 | In every interleaving each payment follows an accepted record of the same request for exactly its invoice's charge, each receipt follows a payment and repeats it, no two share one, and the receipt list is the paid returns in order |
| EngineTheorems.OncePerTask | crates/bolt402-core/src/client.rs:232-342 | A request is challenged, asks the budget, issues a payment, pays and returns at most once each |
| EngineTheorems.RecordOfPayment | crates/bolt402-core/src/client.rs:283-296 | Finds, before any issued or made payment, the challenge of the same url and the accepted record of its charge |
| EngineTheorems.PaymentOfReceipt | crates/bolt402-core/src/client.rs:311-341 | Finds, before any paid return, the payment its receipt repeats; the status is never 402 |
| EngineTheorems.TokensAreBought | crates/bolt402-core/src/client.rs:241-307 | Every authorization pair ever sent, and every pair ever stored, was there at the start or belongs to a challenge received for that same url whose invoice was then paid with that preimage, whatever was evicted, removed or overwritten |
| EngineTheorems.TrackerIsSequential | crates/bolt402-core/src/client.rs:287-290 | Under concurrency the shared tracker is that of one sequential run of the budget calls, `total_spent` is the sum of the accepted records modulo 2^64, and it is the sum itself, and the run the ideal one, if and only if that sum is below 2^64, whatever was refused |
| EngineTheorems.WalletCovered | crates/bolt402-core/src/client.rs:283-296 | With a backend that takes at most the amount read off the invoice and the fee limit, where an amount can be read, the millisatoshis leaving the wallet are at most 1000 * (the records + readable payments * fee limit) plus what was paid for amountless and unreadable invoices, in every run; and the records are total spent while they fit in 64 bits |
| EngineTheorems.ReceiptsWithinSpent | crates/bolt402-core/src/client.rs:283-331 | With a backend that reports satoshis rounded down, receipts sum to at most the records (total spent, while these fit), and fall short of the records behind them by at most one satoshi each |
| Backends.LndReportsFloor | crates/bolt402-lnd/src/rest.rs:191-401 | A payment settled from the update that the LND scan selects, whose fields give the invoice's amount in msat or in whole sats, is reported rounded down |
| Backends.ClnReportsFloor | crates/bolt402-cln/src/rest.rs:158-264 | Likewise for CLN, in any spelling of the amount |
| Backends.LndReceipts | crates/bolt402-lnd/src/rest.rs:191-401 | Hence with LND, over every interleaving, receipts sum to at most the records and the gap is at most one satoshi per receipt; and when the node honours the fee limit asked for, every receipt's fee is within it, and amounts and fees sum to at most the records plus one limit per receipt |
| Backends.ClnReceipts | crates/bolt402-cln/src/rest.rs:208-264 | Likewise with CLN when it honours the limit asked for; moreover every receipt's fee is within the configured limit, and amounts and fees sum to at most the records plus one fee limit per receipt |
| Backends.LndProofs | crates/bolt402-lnd/src/rest.rs:278-401 | With LND, over every interleaving, every receipt carries a preimage of its payment hash, and every pair sent or stored that was not there at the start was bought with a payment that it proves, even if the node lies |
| Backends.ClnProofs | crates/bolt402-cln/src/rest.rs:208-264 | The same with CLN, when the node replies with matching pairs |
| EngineBudget.ConfiguredLifetime | crates/bolt402-core/src/client.rs:283-290 | Over every interleaving, with any invoices, paid or not: if every effective budget that can spend has a lifetime limit that leaves room for one more charge below 2^64, total spent is the sum of the records and every domain's own records stay within its lifetime limit |
| EngineBudget.ConfiguredOverride | crates/bolt402-core/src/client.rs:283-290 | Said of one override: what is recorded for its domain stays within its own lifetime limit, and what is recorded for all domains without one within the base limit |
| EngineBudget.ConfiguredWindow | crates/bolt402-core/src/client.rs:283-290 | Then, with fresh clock readings, also within its hourly and daily limits; for these it is enough that every budget limits that unit, or that every budget has some limit |
| EngineBudget.EngineTotalsExactly | crates/bolt402-core/src/client.rs:283-290 | The condition is needed: with no limit near 2^64 and clock readings of 64 bits, total spent is the sum of the records in every interleaving if and only if every effective budget that can spend has a lifetime limit |
| EngineBudget.EngineLifetimeExactly | crates/bolt402-core/src/client.rs:283-290 | Likewise a domain's own lifetime limit is kept in every interleaving if and only if every effective budget that can spend has one |
| EngineBudget.EngineWindowExactly | crates/bolt402-core/src/client.rs:283-290 | And its hourly or daily limit is kept in every interleaving with fresh readings if and only if no effective budget is without all three limits, whatever their mixture |
| EngineBudget.PricedByMock | crates/bolt402-mock/src/challenge.rs:31-78 | The mock server meets the hypothesis of these three: it can ask for one satoshi |
| EngineTheorems.RequestsEnd | crates/bolt402-core/src/client.rs:232-342 | A request moves at most nine times and sends at most three HTTP requests, however the run goes |
| EngineTheorems.ConcurrentRequestsBothPay | crates/bolt402-core/src/client.rs:241-296 | Two concurrent requests for one url may both pay, from any store without that url: the run is given |
| EngineHistory.RequestHistory | crates/bolt402-core/src/client.rs:232-342 | The facts of one request, answers included, taken out of any interleaving, are those of one undisturbed run of `request` as far as it has come, and its outcome tells exactly where it stopped |
| EngineHistory.AnswersDecide | crates/bolt402-core/src/client.rs:241-341 | In every interleaving, each fact of a request is the one that the facts before it call for: a cached token is removed and a plain send made exactly when the cached try was answered 402, a challenge is read exactly when the plain send was answered 402 with a header that parses to it, any other status is returned as it came, and a bought token is revoked exactly when the retry was answered 402 |
| EngineHistory.OutcomeDecided | crates/bolt402-core/src/client.rs:241-341 | From the history of a returned request alone: it is `Bought` if and only if the retry of its purchase was answered anything but 402, and unpaid if and only if a send before any purchase was, with exactly the status answered |
| EngineLaws.AdvanceLogged | crates/bolt402-core/src/client.rs:241-341 | No awaited reply is lost or altered: each step records the reply it was given and what followed from it at once |
| EngineHistory.PaidForRead | crates/bolt402-core/src/client.rs:273-296 | In every interleaving, whatever is challenged, issued or paid was read from an answer 402 to that request, with a base64 macaroon and an invoice that starts with lnbc or lntb |
| EngineHistory.StoreIsSequential | crates/bolt402-core/src/client.rs:257-327 | Under concurrency the shared store is the result of one sequential trace, of the puts and removals that the history tells and of removals from outside, and holds at most max(capacity, 1) tokens |
| Client.L402Client.Start | crates/bolt402-core/src/client.rs:232-238 | A new call of `request` adds one suspended task and changes nothing else |
| Client.L402Client.AfterLookup | crates/bolt402-core/src/client.rs:241-261 | Sends with the cached token if there is one, plainly otherwise; a failing store ends the request |
| Client.L402Client.AfterCachedTry | crates/bolt402-core/src/client.rs:243-255 | Any status but 402 is returned as a cached-token response |
| Client.L402Client.AfterDrop | crates/bolt402-core/src/client.rs:255-262 | A rejected token is removed before the plain try |
| Client.L402Client.AfterPlainTry | crates/bolt402-core/src/client.rs:263-274 | No payment unless 402; a missing or malformed challenge ends the request |
| Client.L402Client.AfterParse | crates/bolt402-core/src/client.rs:276-290 | The budget is asked for the invoice's charge (0 when none can be read) under the url's host |
| Client.L402Client.AfterPay | crates/bolt402-core/src/client.rs:292-296 | A failed payment ends the request and keeps its record |
| Client.L402Client.AfterStore | crates/bolt402-core/src/client.rs:298-307 | The bought pair is stored under the url, then sent |
| Client.L402Client.AfterRetry | crates/bolt402-core/src/client.rs:309-341 | A receipt is pushed unless the retry is answered 402 |
| Client.L402Client.AfterRevoke | crates/bolt402-core/src/client.rs:323-329 | After a second 402 the token is removed and the request fails |
| Client.L402Client.Resume | crates/bolt402-core/src/client.rs:232-342 | Resuming the object with any reply is one event of the step machine |
| Budget.BudgetTracker.CheckAndRecord | crates/bolt402-core/src/budget.rs:92-167 | The verdict, in the code's order of checks and with wrapping additions; all three counters change on acceptance and none on refusal; an overridden domain's call is accepted if and only if the override's own four limits leave room, any other if and only if the base limits do |
| Budget.RefusedInOrder | crates/bolt402-core/src/budget.rs:109-148 | A refusal names the first limit, in the order per request, hour, day, lifetime, that the governing budget (the override, or else the base) has no room for |
| BudgetLaws.RunFaithful | crates/bolt402-core/src/budget.rs:110-164 | For any clock and any mode: `total` is the sum of all accepted payments, hour buckets from H - 48 on and day buckets from D - 2 on equal their sums, modulo 2^64 when additions wrap, and no bucket exceeds its sum |
| BudgetLaws.PruningInvisible | crates/bolt402-core/src/budget.rs:112-164 | After any run, wrapping or not, a reading at hour H - 48 or later is judged as by a tracker that never prunes |
| BudgetLaws.PruningInvisibleExactly | crates/bolt402-core/src/budget.rs:112-164 | That bound is sharp: a reading's hour is judged alike after all runs if and only if it is at most 48 hours behind H |
| BudgetLaws.ForgottenHour | crates/bolt402-core/src/budget.rs:160-164 | The failing run: once pruned, an hour can be spent again |
| BudgetLaws.MonotoneIsFresh | crates/bolt402-core/src/budget.rs:112-117 | A clock that never goes back meets the hypothesis at every call |
| BudgetLaws.FreshRunsAgree | crates/bolt402-core/src/budget.rs:112-164 | With such readings a whole run accepts the same payments as without pruning |
| BudgetLaws.AcceptedWithin | crates/bolt402-core/src/budget.rs:119-148 | At each acceptance the shared hour or day sum and lifetime sum, as the counters keep them, are within the governing limits |
| BudgetLaws.AcceptedExactly | crates/bolt402-core/src/budget.rs:97-148 | After any run a call with a fresh reading is accepted if and only if the sums of the payments accepted so far, as the counters keep them, stay within all four governing limits; a refusal names a limit it would break |
| BudgetOverrides.OverrideGoverns | crates/bolt402-core/src/budget.rs:97-148 | After any run a fresh call of an overridden domain is accepted if and only if the spending of all domains with it meets the four limits of the override itself, and any other call if and only if it meets the base limits |
| BudgetOverrides.OverrideAlone | crates/bolt402-core/src/budget.rs:97-108 | Two budgets with the same override for a domain judge every call of that domain alike, whatever their base limits and other overrides; and likewise calls that no override governs |
| BudgetOverrides.OverrideSpend | crates/bolt402-core/src/budget.rs:97-158 | What a domain with an override spends in an hour or day stays within the override's own limit, and what all domains without one spend within the base limit, over every run with fresh readings in which the bucket fits in 64 bits |
| BudgetOverrides.OverrideLifetime | crates/bolt402-core/src/budget.rs:97-158 | Likewise over a lifetime, for any clock |
| BudgetLaws.OwnSpendWithin | crates/bolt402-core/src/budget.rs:97-158 | Each override domain's own spend in an hour or day, and that of the traffic without override, stays within its own limit over every run with fresh readings in which that bucket fits in 64 bits, although all share the same counters |
| BudgetLaws.OwnLifetimeWithin | crates/bolt402-core/src/budget.rs:97-158 | Likewise its lifetime limit, for any clock, while the accepted sum fits |
| BudgetLaws.EachWithinPerRequest | crates/bolt402-core/src/budget.rs:49-60 | Every accepted payment is within the per-request limit that governs it |
| BudgetLaws.BucketCapped | crates/bolt402-core/src/budget.rs:119-158 | When every effective limit is at most a cap (with room for one more call below 2^64, if additions wrap), so is the accepted sum of every bucket |
| BudgetLaws.SlidingWindow | crates/bolt402-core/src/budget.rs:112-158 | Then any W consecutive seconds hold accepted payments of at most (ceil(W / 3600) + 1) caps; likewise for days |
| BudgetLaws.WindowAttained | crates/bolt402-core/src/budget.rs:112-158 | Twice the hourly cap is spent within two seconds, so the hour is not a rolling one |
| BudgetLaws.Reconciled | crates/bolt402-core/src/budget.rs:116-164 | For any clock, while the accepted sum fits, day buckets D and D - 1 equal the sums of their 24 hour buckets, D - 2 is at least its surviving hours, and `total` is at least the sum of any retained days |
| BudgetLaws.DaysReconciled | crates/bolt402-core/src/budget.rs:116-164 | Modulo 2^64 the days agree with their hours in every run, whatever wrapped |
| BudgetLaws.MapsStaySmall | crates/bolt402-core/src/budget.rs:160-164 | With no reading below hour H - 48, at most 49 hour and 3 day entries are kept, all of them recent |
| BudgetLaws.OneGuard | crates/bolt402-core/src/budget.rs:121-158 | total + amount fitting in 64 bits makes the verdict exact, and is necessary and sufficient for all three stored sums to be |
| BudgetLaws.GuardedExact | crates/bolt402-core/src/budget.rs:110-164 | Under that guard the 64-bit tracker is the ideal one at every step of every run |
| BudgetLaws.SmallRunGuarded | crates/bolt402-core/src/budget.rs:110-164 | The guard holds throughout when everything ever asked for fits in 64 bits |
| BudgetLaws.RecordsFitExactly | crates/bolt402-core/src/budget.rs:110-164 | The 64-bit tracker accepts and counts as the ideal one if and only if what it accepted sums to less than 2^64 |
| BudgetConfig.TotalsTrue | crates/bolt402-core/src/budget.rs:97-164 | For calls of at most a given amount: if every effective budget that can spend stops one largest call short of 2^64, every run is ideal and `total` the accepted sum; and if not even for the calls a fresh hour and day admit, some run with 64-bit clock readings breaks it |
| BudgetConfig.TotalsTrueExactly | crates/bolt402-core/src/budget.rs:97-164 | `total` is the accepted sum in every run if and only if the budget is so covered (where limits are not within one call of 2^64, or hourly and daily limits do not undercut the per-request one); for such limits, if and only if every effective budget that can spend has a lifetime limit |
| BudgetConfig.LifetimeHolds | crates/bolt402-core/src/budget.rs:97-158 | Under that cover every domain's own lifetime limit holds over every run of the 64-bit tracker |
| BudgetConfig.LifetimeOverspent | crates/bolt402-core/src/budget.rs:97-158 | Without it, the run (with 64-bit clock readings) in which a domain spends 1, another wraps the shared total to 0, and the domain spends its whole limit |
| BudgetConfig.LifetimeExactly | crates/bolt402-core/src/budget.rs:97-158 | Likewise a domain's own lifetime limit holds over every run if and only if the budget is so covered |
| BudgetConfig.Climb | crates/bolt402-core/src/budget.rs:112-164 | However small the hourly and daily limits, a budget that can spend brings the total to any value below its lifetime limit within 192 days of readings that go back and forth, because pruning forgets the days behind |
| BudgetWindows.WindowHolds | crates/bolt402-core/src/budget.rs:112-158 | The hour and day limits of every domain hold over every run of the 64-bit tracker with fresh readings, when the lifetime total or that unit's counters are so covered, or when every effective budget that lets anything through has any one of the three limits, within a cap of which some two hundred fit in 64 bits |
| BudgetWindows.HoursHold | crates/bolt402-core/src/budget.rs:112-158 | Under such mixed limits no hour ever holds more than twice the cap and one call: while an hour is live the shared lifetime total cannot wrap twice |
| BudgetAtOnce.WindowOverspent | crates/bolt402-core/src/budget.rs:112-158 | Beside a budget with none of the three limits, every other domain that can spend overspends its hour and its day, one satoshi at a time, all at one clock reading |
| BudgetWindows.WindowExactly | crates/bolt402-core/src/budget.rs:112-158 | Whatever mixture of hourly, daily and lifetime limits the budgets have: the hour or day limit of a domain that can spend holds over every run with fresh readings if and only if no effective budget that lets anything through is without all three |
| BudgetAtOnce.OverspentAtOnce | crates/bolt402-core/src/budget.rs:119-158 | Beside a budget without limits, a domain spends its lifetime limit twice within 2^64 / m + 3 calls of at most m, all at one clock reading (1002 calls of what invoices can carry) |
| BudgetAtOnce.HugeCall | crates/bolt402-core/src/budget.rs:119-130 | Why calls must be bounded: with an hourly limit alone, a call of 1 and then one of 2^64 - 1 are both accepted |
| TokenStore.InMemoryTokenStore.Put | crates/bolt402-core/src/cache.rs:47-70 | Evicts the key at the front when full and the key is new; moves an updated key to the back |
| StoreLaws.RunValid | crates/bolt402-core/src/cache.rs:47-89 | After every trace the order is duplicate-free, names exactly the stored keys, and has at most max(capacity, 1) of them |
| StoreLaws.PutOther | crates/bolt402-core/src/cache.rs:47-70 | A put of another key evicts a key if and only if it completes max(capacity, 1) distinct keys behind it in the order |
| EvictionLaws.PresenceExactly | crates/bolt402-core/src/cache.rs:47-89 | For every trace with puts, gets, removes and clears: a key is stored if and only if it was not removed or cleared since its last put and at no moment since did max(capacity, 1) other keys stand put and not removed; its value is the last one put |
| EvictionLaws.PutGetPresence | crates/bolt402-core/src/cache.rs:47-75 | Without removes and clears: if and only if fewer than max(capacity, 1) distinct other keys were put since |
| EvictionLaws.FewPutsSuffice | crates/bolt402-core/src/cache.rs:47-89 | That count still guarantees presence, with the last value, when there are removes and clears |
| SqliteStore.SqliteTokenStore.Put | crates/bolt402-sqlite/src/store.rs:158-195 | Upserts the row; the ttl is clamped to i64 and its sum with the clock is not |
| SqliteStore.SqliteTokenStore.Get | crates/bolt402-sqlite/src/store.rs:197-227 | The row of the endpoint unless its expiry is at or before now |
| SqliteStore.SqliteTokenStore.CleanupExpired | crates/bolt402-sqlite/src/store.rs:118-134 | Deletes exactly the expired rows and returns exactly the number by which `count` drops |
| SqliteLaws.CleanupUnobservable | crates/bolt402-sqlite/src/store.rs:118-222 | With monotone readings, inserting or deleting any cleanup calls in a run changes no `get` answer, for any ttl, even one whose sum wraps |
| SqliteLaws.CleanupInvisibleExactly | crates/bolt402-sqlite/src/store.rs:118-222 | One cleanup is invisible to a later reading on every table if and only if the clock did not go back |
| SqliteLaws.TokenLifetime | crates/bolt402-sqlite/src/store.rs:158-222 | A token answers for exactly its clamped ttl, if and only if the expiry fits in an i64; otherwise never |
| StoreRefinement.HitsAgree | crates/bolt402-sqlite/src/store.rs:168-259 | After every trace, any hit of the bounded store is the answer of the persistent store without a ttl |
| StoreRefinement.AnswersAgreeExactly | crates/bolt402-core/src/cache.rs:47-89 | All answers agree throughout a trace if and only if the live keys never exceed max(capacity, 1) |
| Bolt11.DecodeMeaning | crates/bolt402-proto/src/bolt11.rs:104-176 | On a network, a digit string, a unit and any data without `1`, in any letter case: the product with the unit's size modulo 2^64, refused when the number exceeds u64, is a fraction of a millisatoshi, or gives 0 |
| Bolt11.DecodeSound | crates/bolt402-proto/src/bolt11.rs:104-254 | Conversely every amount read without a decimal point is that of such a human-readable part, up to a leading plus sign |
| Bolt11.DecodeText | crates/bolt402-proto/src/bolt11.rs:104-176 | The same reading for a printed invoice with data in any letter case |
| Bolt11.DecodeAmountless | crates/bolt402-proto/src/bolt11.rs:133-136 | A network followed directly by the separator is an invoice without an amount |
| Bolt11.AmountlessSound | crates/bolt402-proto/src/bolt11.rs:107-136 | Conversely every invoice read as amountless has that shape |
| Bolt11.UnitCoherence | crates/bolt402-proto/src/bolt11.rs:81-89 | N of a unit reads as N followed by 000 in the next smaller unit, across any two networks and data parts |
| Bolt11.ParseAmountOf | crates/bolt402-proto/src/bolt11.rs:182-254 | Every digit string with a unit means its value in that unit |
| Bolt11.ChargeBounded | crates/bolt402-proto/src/bolt11.rs:65-67 | No invoice whatever is charged more than 2^64 - 1 millisatoshis, rounded up to satoshis |
| Bolt11.ChargeExactly | crates/bolt402-core/src/client.rs:283-285 | The charge is the amount read, rounded up to the next satoshi, and 0 when none is read |
| MockChallenge.PrintedInvoiceCharge | crates/bolt402-mock/src/challenge.rs:50-61 | The engine's charge for a printed invoice is the price, for every hash, if and only if 1000 * price fits in 64 bits; including price 0, through the error path |
| L402Token.LibraryRoundTrip | crates/bolt402-proto/src/token.rs:36-81 | The library reads back a printed token if and only if both halves are non-empty, the macaroon has no colon and the preimage does not end in white space |
| L402Token.ReadExactly | crates/bolt402-proto/src/token.rs:45-81 | Of any header whatever: the library reads a token if and only if the trimmed header is one of the two schemes and that pair, split at the first colon, both halves non-empty |
| L402Token.ServerRoundTrip | crates/bolt402-mock/src/server.rs:187-192 | The mock server recovers a printed token if and only if its macaroon has no colon |
| L402Challenge.ParseParams | crates/bolt402-proto/src/challenge.rs:130-158 | The loop splits at the commas outside quotes, as the recursive scan does |
| L402Challenge.FromHeader | crates/bolt402-proto/src/challenge.rs:61-124 | The header parser, with its errors in the code's order; what it accepts has a base64 macaroon and an invoice of a known prefix, and a missing scheme is reported if and only if the trimmed header starts with neither scheme |
| ChallengeLaws.ParsePrinted | crates/bolt402-proto/src/challenge.rs:61-170 | For any list of quoted parameters, in any order, with unknown keys and values holding commas, `=` and spaces, the parser sees the last binding of each known key and nothing else, unless some parameter binds nothing |
| ChallengeLaws.ParseExactly | crates/bolt402-proto/src/challenge.rs:61-170 | Of any such list: it is read as a challenge if and only if the last macaroon and invoice exist, the macaroon is base64 and the invoice starts with lnbc or lntb, and then as exactly these and the last address; and each error occurs if and only if its condition is the first to fail, including a parameter without `=` |
| ChallengeLaws.ParseSound | crates/bolt402-proto/src/challenge.rs:99-124 | Of any header whatever: what is read has a base64 macaroon and an invoice of a known prefix |
| ChallengeLaws.SchemeMissing | crates/bolt402-proto/src/challenge.rs:61-72 | Of any header whatever: a missing scheme is reported if and only if the trimmed header starts with neither scheme |
| ChallengeLaws.ParseMockHeader | crates/bolt402-mock/src/challenge.rs:73-78 | In particular it inverts the mock server's printer |
| Lnd.ScanBackward | crates/bolt402-lnd/src/rest.rs:334-401 | Selects the last SUCCEEDED update if and only if every later line parses, whatever comes before; fails on an unreadable line otherwise; reports the final line's reason when all parse and none succeeded |
| Lnd.SettledPayment | crates/bolt402-lnd/src/rest.rs:191-293 | A reported payment carries the update's own preimage and hash, which match, and its amount and fee rounded down, in whichever spelling and unit the update gives them |
| Lnd.SettledExactly | crates/bolt402-lnd/src/rest.rs:259-293 | A payment is reported if and only if preimage and hash can be read, in either spelling, as hex or base64, and match; and it carries exactly these |
| Lnd.HexExactly | crates/bolt402-lnd/src/rest.rs:259-275 | A 32-byte value in hex, in either letter case, is read as itself in lower case, an empty one is refused, and any other text is left to the base64 decoder |
| Cln.SpellingsAgree | crates/bolt402-cln/src/rest.rs:158-179 | A number, an object, a decimal string and one ending in `msat` are read as the same value |
| Cln.SettledFee | crates/bolt402-cln/src/rest.rs:208-264 | When the node sent at least the amount and honoured the saturated limit, the reported fee is within the configured one and amount plus fee is at most one satoshi below the sum sent, rounded down |
| Cln.SettledPair | crates/bolt402-cln/src/rest.rs:234-264 | A payment is reported if and only if the reply is complete and has both a preimage and a hash; it carries the reply's own pair, which matches if the reply's does; and each error has its own condition |
| MockServer.MockL402Server.ValidateL402Auth | crates/bolt402-mock/src/server.rs:187-202 | Accepts if and only if the header is `L402 ` or `LSAT ` and a pair whose macaroon has no colon, and some registered challenge has that macaroon and the hash of that preimage; refuses every other pair; `None` for every other header |
| MockServer.MockL402Server.HandleRequest | crates/bolt402-mock/src/server.rs:127-181 | 404 off the protected paths; on them 200 if and only if such a backed pair is presented, 401 if and only if another pair is, and otherwise 402 with a new challenge at the price of the path, printed in the header and then registered |
| ServerLaws.AccessIsProved | crates/bolt402-mock/src/server.rs:127-202 | Over any sequence of requests of any client: an answer 200 is given only to the macaroon of a challenge issued in an earlier answer, with a preimage of its payment hash |
| ServerLaws.ProofIsAnswered | crates/bolt402-mock/src/server.rs:127-202 | Conversely, with distinct invoices, such a pair is answered 200 on every protected path, however late and however often |
| MockServer.MockLnBackend.PayInvoice | crates/bolt402-mock/src/backend.rs:41-73 | Pays a known and covered invoice out of the balance and reveals its preimage; otherwise changes nothing |
| ClosedLaws.ChallengeArrives | crates/bolt402-mock/src/challenge.rs:31-94 | What the server prints, the engine parses, charges at its price, and can redeem |
| ClosedLaws.AuthArrives | crates/bolt402-core/src/client.rs:365-389 | The server reads the engine's authorization as the stored pair |
| ClosedLaws.RequestRefines | crates/bolt402-core/src/client.rs:232-342 | The nine-step run of a request through engine, server and wallet is one step of the summary form |
| ClosedTheorems.SessionRefines | crates/bolt402-core/src/client.rs:232-342 | So is every session of sequential requests with distinct invoices: same outcomes, store, counters, receipts, registry and balance |
| ClosedTheorems.ClosedSession | crates/bolt402-mock/src/server.rs:127-202 | Such a session never ends in RetryFailed (only the budget or the balance can refuse), the balance lost is the sum of the receipts, and total spent is that plus the records whose payment failed, modulo 2^64 |
| ClosedTheorems.SessionHonours | crates/bolt402-mock/src/server.rs:187-202 | After any such session every cached token is answered 200, whatever the prices sum to |
| ClosedTheorems.PaidAtMostOnce | crates/bolt402-core/src/client.rs:241-300 | With store capacity for the distinct protected urls, each url is paid for at most once |
| ClosedTheorems.PaidAgainWithoutRoom | crates/bolt402-core/src/cache.rs:51-57 | With more distinct urls than room, a tour of them pays again on coming back to its first |
| ConcurrentTheorems.PlayIsRun | crates/bolt402-core/src/client.rs:232-342 | The closed system under concurrency, where answers are computed at one moment and delivered at another, drives the engine through one of its interleavings, so every engine theorem holds of it |
| ConcurrentLaws.MoveKeeps | crates/bolt402-mock/src/server.rs:127-202 | Every arrival, computed answer and delivered answer keeps it sound: what is in flight suits the request that awaits it, and every cached or carried token is redeemable |
| ConcurrentTheorems.ConcurrentPlay | crates/bolt402-core/src/client.rs:232-342 | Over every play of any number of concurrent requests with fresh invoices: none returns RetryFailed (or StoreFailed, HttpFailed, or a challenge error), the server answers 200 to every token cached or on its way, the starting balance is the balance plus the payments logged plus those in flight, and also the balance plus the receipts plus what is paid without a receipt yet, and the budget's records are the receipts, the payments without one yet, and the charges in payment or failed |
| ConcurrentTheorems.CarriedProves | crates/bolt402-mock/src/server.rs:187-202 | Over every play, every token cached or on its way to the server is the macaroon, and a preimage of the payment hash, of a challenge that the server drew in that play |
| ConcurrentTheorems.AllReturned | crates/bolt402-mock/src/backend.rs:41-73 | Once every request has returned, the balance lost, the payments and the receipts are the same sum, and total spent is that plus the charges whose payment failed, modulo 2^64 |
| ConcurrentOnce.ConcurrentlyPaidOnce | crates/bolt402-core/src/client.rs:241-300 | With store capacity for the distinct protected urls, and no two requests for one url under way together, no url is paid for twice, however the requests interleave |
| ConcurrentOnce.OverlapPaysTwice | crates/bolt402-core/src/client.rs:241-300 | That condition is needed: two requests for one url under way together both pay in some play, whatever the capacity |

## Where the code differs from its documentation

The model follows the code.

- The limits are documented as rolling; they are aligned buckets (`WindowAttained`).
- The in-memory store is documented as LRU in one place and FIFO in another; it evicts the key put least
  recently, and reading does not count (`PresenceExactly`).
- A ttl documented as `now + ttl` overflows i64 when it is huge, and the token is never visible (`TokenLifetime`).
- Limits hold of 64-bit counters that wrap and that all domains share, so a domain's limit can fail because of another
  domain without limits (`LifetimeExactly`, `WindowExactly`, `OverspentAtOnce`).
- Overrides nested inside an override are never consulted, and overrides have limits but no counters of
  their own (`OwnSpendWithin`).
- Routing fees are not charged to the budget; amountless and unreadable invoices are charged 0; a record
  stays when its payment fails (`WalletCovered`, `ClosedSession`).
- `max_retries` is never read.

## Left out

- HTTP, TLS, gRPC, NWC relays and SwissKnife: their answers are replies of the environment, of which any can come.
- A send is logged when it is issued; a header value that cannot be built, or a response header that is not text, is the environment's `HttpError` or a reply without a header.
- The SQL engine, its journal, migrations and the blocking thread pool: each statement is one atomic step on a map. `created_at` is written and never read.
- SHA-256, hex, base64 and randomness: uninterpreted functions and predicates. That the random draws give distinct invoices is a hypothesis of the closed system.
- Amounts with a decimal point go through floating point in the source; how such a number is scaled and rounded is a parameter of the decoder, of which only the saturating cast is modelled.
- Lowercasing folds A to Z only; the source folds all of Unicode.
- URL parsing: the host and the path of a url are inputs.
- Error message text, tracing, latency, and receipt timestamps.
- Panics of a debug build on overflow, and poisoned locks; 64-bit additions and multiplications wrap as in a release build.
- Client.L402Client.Resume: works over the in-memory store; other stores enter through failing store replies and removals from outside, which the engine theorems allow at any moment.
- MockServer.MockL402Server.HandleRequest: one call of the mock server is atomic; in the concurrent system other requests move before and after it, not inside.
- BudgetConfig.TotalsTrueExactly: leaves out budgets with a lifetime limit within one call of 2^64 whose hourly or daily limit also undercuts the per-request limit; for these TotalsTrue gives a sufficient and a necessary condition.
- BudgetConfig.LifetimeExactly: leaves out the same budgets; LifetimeHolds and LifetimeOverspent give one direction each.
- EngineBudget.EngineTotalsExactly: assumes that no lifetime limit is within one charge (18446744073709552 satoshis) of 2^64, and that some server can ask for one satoshi.
- EngineBudget.EngineLifetimeExactly: makes the same two assumptions.
- BudgetWindows.WindowExactly: covers limits of up to about 2^64 / 196 less half a call (for the engine some 8 * 10^16 satoshis), and larger ones where every budget limits the unit in question or nothing; for a mixture of larger limits WindowHolds gives sufficient conditions, and WindowOverspent needs a budget without limits.
- EngineBudget.EngineWindowExactly: covers the same limits, and assumes that some server can ask for one satoshi.
- Balance and node information calls, builders, defaults, the CLN gRPC backend (the same arithmetic as REST), and the bindings, wrappers and demos for other languages: they add no property beyond those above.
