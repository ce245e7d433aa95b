# Ozon Rust Suite: a verified model of licensing, pairing, matching and settings

This project models the stateful core of the suite in Dafny and proves what its parts promise
together. `dafny verify dfyconfig.toml` checks all of it.

**Licensing (cloud API).** Orders, payment events, card keys, entitlements and devices are tables
(`Tables`: one function per SQL statement, with the primary keys, unique indexes, checks and
foreign keys of the migrations). `Handlers` gives every transaction its whole outcome: the new
tables and a reply, or the old tables and an error. `CloudStore.Store` is the imperative side: the
tables are fields, each handler executes its statements one by one, leaves early on an error and
rolls back, and is proved to have exactly that outcome. On top of it:

- `Integrity` and `Steps`: one invariant ties all tables together and survives every transaction
  and every run. Confirmed orders and keys carrying an order id correspond one to one, and so do
  redeemed keys and entitlements; a paid order's key and entitlement belong to the order's user.
- `Payments`, `Replay`, `Endurance`: exactly-once fulfilment, money conservation, invisible
  replays, progress (the conflict branches of fulfilment are unreachable), rows that endure.
- `Interleaving`: any number of paid deliveries executing statement by statement under READ
  COMMITTED with row and index locks, with crashes anywhere. Every interleaving amounts to the
  committed transactions one after another, so the atomic-handler theorems carry over.
- `Leases`: the two best-entitlement queries agree; a lease the node accepts was granted by the
  cloud to that user and machine, and a granted lease is accepted until it expires; the device
  bound over whole runs; a revoked entitlement grants nothing ever again. Signatures are ideal.
- `OrderEntry`: exactly which orders can be placed.
- `Outcomes`: a second, independent account of every transaction, the whole outcome written out row
  by row and value by value, and the proof that the handlers have exactly these outcomes on every
  sound database.

**Local node and OpenClaw bridge.** `Matcher` (module-3 attribute matching with prefetch),
`Pairing` (nonces of the bridge and codes of the node as two communicating processes), `BindLink`
(the fragment printer and parser), `Settings` and `SettingsNode` (secret store, model registry,
caches, capability router), `VideoPoller` and `Schedule`.

## Where the code and what is said about it differ

The model follows the code. Each point names the lemma that states it, with its exact condition:

- *WeChat Pay orders cannot be placed.* The repository's README describes them, and the WeChat
  branch upper-cases the order's currency (`apps/cloud-api/src/main.rs:955-958`), but
  `orders_currency_check` admits lower-case currencies only
  (`apps/cloud-api/migrations/0005_payment_providers.sql:24-26`), so the insert fails with an
  internal error (`OrderEntry.PlacedExactly`, `OrderEntry.WechatOrdersNeverAppear`). The payment
  theorems nevertheless cover WeChat deliveries, over every sound database, including ones that
  already hold such orders.
- *A Stripe delivery naming an unknown order* fails on the foreign key of `payment_events`, with an
  internal error, exactly then (`Replay.UnknownOrderExactly`); the "order not found" answer never
  happens (`Replay.StripeNeverNotFound`).
- *A failed read of the registry sticks.* The cache is filled on every path, so one unreadable
  moment caches an empty registry and hides all providers until the next successful save or
  restart: the first load into an empty cache decides (`Settings.FirstLoadDecides`), and the bad
  case is reached (`Settings.OutOfSyncIsReached`).
- *The image status overlooks the bare environment key* that resolving falls back to
  (`Settings.ImageReadyExactly`). That takes a blank `OPENAI_API_KEY`, or a blank
  `OPENAI_BASE_URL` beside an unusable `OPENAI_API_BASE_URL`, since the fallback URL counts blank
  variables and the environment's own configuration does not (`Settings.BareKeyServesExactly`).
- *A saved OpenAI key beats the environment until the next restart and loses to it afterwards*,
  unless they agree (`Settings.RestartKeepsKey`).
- *A dictionary attribute whose values are all blank vanishes* without a write or a drop
  (`Matcher.SilentExactly`). Conservation holds for every other attribute and every non-blank value.
- *A video job that succeeded shows no error* exactly if it had none before and no earlier poll
  had trouble, since a success clears nothing (`VideoPoller.SuccessIsCleanExactly`).
- *The schedule's audit list stays within a hundred entries* over a step exactly if the step is a
  successful read or what it appends still fits (`Schedule.StepFitsExactly`); without a successful
  read nothing is ever trimmed (`Schedule.NothingElseTrims`).
- *The bridge accepts any local claim address.* Two saved configurations may share a pairing code
  exactly if not both claims were sent to the node (`Pairing.CodesSharedExactly`); they never share
  a page nonce.
- *Test access commits on its own* before device activation and lease issue, and stays when those
  are refused (`Leases.RefusalKeepsAccess`). *A lease request without a signing key* is answered
  "service unavailable" exactly when it would have been granted, and its one write, the device's
  last-seen time, stays (`Leases.KeylessRequestTouches`).
- *The lease's own entitlement may allow fewer devices than the limit checked*, if a larger one is
  granted between the handler's two queries, and only then (`Leases.LimitSurvivesExactly`,
  `Leases.GrantBetweenQueries`).

## Model

| member | source | states |
|---|---|---|
| `Steps.StepKeeps` | apps/cloud-api/src/main.rs:802-876 | every transaction of the cloud API, committed, rejected midway or dropped, keeps the invariant over all tables |
| `Steps.RunKeeps` | apps/cloud-api/src/main.rs:1246-1367 | every database a run reaches from a sound one is sound |
| `Steps.EmptyIsSound` | apps/cloud-api/migrations/0001_initial.sql:1-60 | the empty database satisfies the invariant, so all reachable databases do |
| `Steps.SettleKeeps` | apps/cloud-api/src/main.rs:1289-1295 | recording the event, confirming the order and provisioning it keep the tables matched, though no single statement does |
| `Integrity.FulfilKeeps` | apps/cloud-api/src/main.rs:1634-1671 | confirming a pending order and inserting its key together keep orders and keys one to one |
| `Integrity.RedeemKeeps` | apps/cloud-api/src/main.rs:2632-2688 | redeeming a key and inserting its entitlement together keep keys and entitlements one to one, user for user |
| `Integrity.AttachKeeps` | apps/cloud-api/src/main.rs:2450-2473 | attaching a checkout session, which rewrites the payment reference, keeps references and sessions unique |
| `Integrity.UpsertBounded` | apps/cloud-api/src/main.rs:2874-2904 | upserting an active device keeps the device bound when the device was active or some entitlement leaves room for one more |
| `Replay.TablesCorrespond` | apps/cloud-api/src/main.rs:1634-1729 | after any run there are as many Confirmed orders as keys with an order id, and as many entitlements as redeemed keys |
| `Replay.TablesMatch` | apps/cloud-api/src/main.rs:1634-1729 | after any run Confirmed orders and keys naming an order, and Redeemed keys and entitlements, correspond one to one; provider-paid keys belong to the order's user; events name Confirmed orders |
| `Replay.SameSize` | apps/cloud-api/src/main.rs:1652-1716 | a one-to-one correspondence that reaches every element makes the two tables equally large |
| `Payments.PaidDeliveryEffect` | apps/cloud-api/src/main.rs:1289-1295 | an answer `processed: true` means exactly: the named pending order of the delivery's provider and amount is Confirmed, one new key redeemed by its user and one 30-day entitlement are added, the event is recorded, and nothing else changes |
| `Payments.StepOrders` | apps/cloud-api/src/main.rs:2317-2549 | any transaction changes at most one order row, never its terms, never a Confirmed row, and makes a provider order Confirmed only as a delivery answered `true` with that order's amount |
| `Payments.ExactlyOnce` | apps/cloud-api/src/main.rs:1246-1367 | over any run an order is settled at the end exactly if it was before or exactly one delivery answered `true` for it; never two |
| `Payments.RevenueSplits` | apps/cloud-api/src/main.rs:2521-2549 | the sum over Confirmed provider orders does not depend on the order of summation |
| `Payments.RevenueUpdate` | apps/cloud-api/src/main.rs:2521-2549 | replacing one order changes the sum by the difference of the two rows' amounts |
| `Payments.StepCollects` | apps/cloud-api/src/main.rs:1461-1504 | one transaction adds to the books exactly what a delivery it answered `true` reported as paid |
| `Payments.MoneyConserved` | apps/cloud-api/src/main.rs:1571-1590 | at the end of any run the Confirmed provider orders sum to what they summed to before plus what the deliveries answered `true` reported |
| `Endurance.StripeShape` | apps/cloud-api/src/main.rs:1246-1296 | an error undoes everything, any other answer has the event recorded, a recorded event stops the delivery, and unless the answer is `true` nothing but the event is written |
| `Endurance.WechatShape` | apps/cloud-api/src/main.rs:1298-1367 | the same for WeChat Pay deliveries |
| `Endurance.StepEndures` | apps/cloud-api/src/main.rs:1608-1729 | no transaction loses a row, changes a Confirmed order, a key's limits or its redeemer, an entitlement's owner, source or expiry, revives a revoked entitlement or retires an active device |
| `Endurance.RunEndures` | apps/cloud-api/src/main.rs:3044-3063 | the same over whole runs |
| `Replay.RecordedIsIdle` | apps/cloud-api/src/main.rs:1259-1271 | a delivery whose event is recorded changes nothing, whatever else it says |
| `Replay.AnsweredIsRecorded` | apps/cloud-api/src/main.rs:2551-2578 | a delivery is recorded exactly when it is answered without an error; an error leaves the database as it was |
| `Replay.ReplaysAreInvisible` | apps/cloud-api/src/main.rs:1329-1341 | deleting every delivery already recorded on arrival leaves a possible run with the same final database and the same money collected |
| `Replay.RedeliveryIsIdle` | apps/cloud-api/src/main.rs:2559-2577 | an event answered once may be delivered again after any further run and then changes nothing |
| `Replay.RefusedThenPaid` | apps/cloud-api/src/main.rs:2450-2473 | a payment announced before its session is attached is refused without a trace, and the same delivery succeeds once it is attached |
| `Replay.StripeProgress` | apps/cloud-api/src/main.rs:1246-1296 | with fresh ids a Stripe delivery is answered `true` if and only if it is one of two kinds, says \"paid\", is unrecorded and names a pending Stripe order with its session, amount and currency; without \"paid\" only the event is recorded; never a conflict |
| `Replay.StripeNeverNotFound` | apps/cloud-api/src/main.rs:1273-1275 | the "order not found" answer to a Stripe delivery never happens |
| `Replay.UnknownOrderExactly` | apps/cloud-api/src/main.rs:1259-1275 | with fresh ids a Stripe delivery fails internally if and only if it is a paid, unrecorded announcement for an order that does not exist |
| `Replay.WechatProgress` | apps/cloud-api/src/main.rs:1298-1367 | the same for WeChat Pay, its event, trade state, merchant, trade type, amount and currency written out |
| `Replay.ManualProgress` | apps/cloud-api/src/main.rs:1608-1671 | manual confirmation succeeds exactly on orders awaiting manual payment, adds one available 30-day, one-device key and changes nothing else; "order already has a card key" is unreachable |
| `Replay.RedeemProgress` | apps/cloud-api/src/main.rs:1782-1835 | redeeming succeeds exactly on available codes, for any user, makes the key the user's and adds one entitlement of the key's duration, and changes nothing else |
| `Replay.CodesAreGood` | apps/cloud-api/src/main.rs:1738-1780 | a request adds one to fifty keys, as many as it returns codes, and every code can be redeemed for the days asked for |
| `Interleaving.EveryInterleavingIsARun` | apps/cloud-api/src/main.rs:1258-1295 | any interleaving of the statements of any deliveries, with crashes and other transactions in between, leaves the database its commits produce one after another: sound, with no order answered `true` twice and the books holding what was collected |
| `Interleaving.ActKeeps` | apps/cloud-api/src/main.rs:1320-1366 | one statement, commit, abort or whole transaction keeps the world equivalent to a serial run |
| `Interleaving.Stable` | apps/cloud-api/src/main.rs:2475-2519 | what a delivery has done so far it could have done against any database that differs only where it holds no lock |
| `Interleaving.CommitLeaves` | apps/cloud-api/src/main.rs:2559-2577 | a commit changes nothing behind a lock the transaction does not hold |
| `Interleaving.DeliveryIsWhole` | apps/cloud-api/src/main.rs:1273-1295 | a delivery's buffered statements commit to exactly what the whole transaction does to the present database, with the same answer |
| `Interleaving.PastTheLock` | apps/cloud-api/src/main.rs:1673-1729 | once the event is recorded and the order locked and pending, a delivery with fresh ids executes all its remaining statements |
| `Interleaving.SettlesAmongStrangers` | apps/cloud-api/src/main.rs:1258-1295 | six statements and a commit settle a matching delivery, whatever deliveries of other events, orders and ids are under way |
| `Interleaving.StrangersDoNotWait` | apps/cloud-api/src/main.rs:2475-2519 | deliveries of other events, orders and ids never wait for one another |
| `Interleaving.WholeAlone` | apps/cloud-api/src/main.rs:1608-1632 | with no delivery under way every possible transaction takes place |
| `Outcomes.StepExactly` | apps/cloud-api/src/main.rs:802-2063 | every transaction has exactly the outcome written out for it: tables and reply |
| `Outcomes.PlaceExactly` | apps/cloud-api/src/main.rs:802-850 | the row an order is placed with under each configuration, and each refusal |
| `Outcomes.CurrencyLetters` | apps/cloud-api/migrations/0005_payment_providers.sql:24-26 | a lower-cased currency passes the check exactly if it has three ASCII letters |
| `Outcomes.AttachExactly` | apps/cloud-api/src/main.rs:2450-2473 | session and reference of a pending order are set unless another order uses the session, and nothing else changes |
| `Outcomes.ConfirmExactly` | apps/cloud-api/src/main.rs:1608-1671 | the order, the key and each refusal of a manual confirmation |
| `Outcomes.ConfirmByReferenceExactly` | apps/cloud-api/src/main.rs:2408-2448 | a pending manual order is confirmed by its reference just as by its id |
| `Outcomes.SettleExactly` | apps/cloud-api/src/main.rs:1673-1729 | settling a pending order adds exactly its paid row, redeemed key and entitlement, or fails because an id or code is taken |
| `Outcomes.StripeExactly` | apps/cloud-api/src/main.rs:1194-1296 | every Stripe delivery, by kind, payment status, order id, session, amount and currency, has exactly the written outcome; nothing is granted without "paid" |
| `Outcomes.WechatExactly` | apps/cloud-api/src/main.rs:1298-1367 | the same for WeChat Pay, by event, trade state, merchant, trade type, amount and currency |
| `Outcomes.CreateKeysExactly` | apps/cloud-api/src/main.rs:1738-1780 | when a request for keys fails and how, and the keys and codes it yields otherwise |
| `Outcomes.InsertsExactly` | apps/cloud-api/src/main.rs:1756-1763 | keys are inserted if and only if all ids and codes drawn are new and distinct, each as asked for |
| `Outcomes.RedeemExactly` | apps/cloud-api/src/main.rs:1782-1835 | redeeming a code: the key, the entitlement and each refusal |
| `Outcomes.TestAccessExactly` | apps/cloud-api/src/main.rs:2690-2747 | when test access is granted, with which key and entitlement, and each refusal |
| `Outcomes.ActivateExactly` | apps/cloud-api/src/main.rs:1837-1900 | the device row an activation leaves and each refusal |
| `Outcomes.LeaseExactly` | apps/cloud-api/src/main.rs:1902-1949 | the lease a request yields, on the running entitlement with most devices and then the longest time, for 24 hours at most, and each refusal |
| `Outcomes.BestIsChosen` | apps/cloud-api/src/main.rs:2980-3001 | the best rows are those allowing most devices and, of these, running longest |
| `Outcomes.RevokeExactly` | apps/cloud-api/src/main.rs:1970-1990 | a revocation sets the row's time of revocation, or finds no row |
| `Outcomes.RevokedForGood` | apps/cloud-api/src/main.rs:3044-3063 | after a revocation in a run no later request is granted a lease on that entitlement |
| `OrderEntry.PlacedExactly` | apps/cloud-api/src/main.rs:944-985 | an order is placed if and only if manual or Stripe payment is configured with a non-negative amount and a three-letter currency, the plan is the standard one, the user exists and id and reference are new |
| `OrderEntry.WechatOrderRefused` | apps/cloud-api/migrations/0005_payment_providers.sql:24-26 | under a valid WeChat Pay configuration placing an order fails with an internal error and changes nothing |
| `OrderEntry.WechatOrdersNeverAppear` | apps/cloud-api/src/main.rs:955-958 | no run adds a WeChat Pay order, so paid WeChat deliveries are answered "not found" for good |
| `CloudStore.Store.CreateOrder` | apps/cloud-api/src/main.rs:802-876 | the handler's statements have the specified outcome, rollback included, and keep the tables sound |
| `CloudStore.Store.AttachCheckoutSession` | apps/cloud-api/src/main.rs:2450-2473 | session and reference are set on a pending provider order, or nothing changes |
| `CloudStore.Store.ConfirmOrder` | apps/cloud-api/src/main.rs:1608-1619 | confirm and issue a key, or restore all tables |
| `CloudStore.Store.ConfirmOrderByReference` | apps/cloud-api/src/main.rs:1621-1632 | the same, the order being found by its payment reference |
| `CloudStore.Store.StripeWebhook` | apps/cloud-api/src/main.rs:1246-1296 | five statements over four tables, with every early end and the rollback, have the specified outcome |
| `CloudStore.Store.WechatWebhook` | apps/cloud-api/src/main.rs:1298-1367 | the same for WeChat Pay |
| `CloudStore.Store.CreateCardKeys` | apps/cloud-api/src/main.rs:1738-1780 | the loop inserts one to fifty keys, or none if any fails |
| `CloudStore.Store.FailureStays` | apps/cloud-api/src/main.rs:1756-1763 | once one key fails to insert, so does the whole request, with the same error |
| `CloudStore.Store.RedeemCardKey` | apps/cloud-api/src/main.rs:1782-1835 | redeem the key of a code and grant its entitlement, or restore all tables |
| `CloudStore.Store.EnsureTestAccess` | apps/cloud-api/src/main.rs:2690-2790 | grant test access once, to allow-listed users lacking it |
| `CloudStore.Store.RevokeEntitlement` | apps/cloud-api/src/main.rs:3044-3063 | revocation has the specified outcome and keeps the tables sound |
| `CloudStore.Store.ActivateDevice` | apps/cloud-api/src/main.rs:1837-1900 | test access commits first, then activation succeeds or changes nothing further |
| `CloudStore.Store.IssueLease` | apps/cloud-api/src/main.rs:1902-1924 | test access commits first, then the lease request has the specified outcome, the rows its queries return being possible ones |
| `CloudStore.Store.BestEntitlement` | apps/cloud-api/src/main.rs:2980-3024 | the query returns a maximum of the usable rows, or none exactly if there is none |
| `Leases.TopExists` | apps/cloud-api/src/main.rs:2995-2996 | every non-empty set of rows has a maximum in the lexicographic order |
| `Leases.BestExists` | apps/cloud-api/src/main.rs:2980-3001 | whenever any row qualifies, the query has a best one to return |
| `Leases.BestAgree` | apps/cloud-api/src/main.rs:3003-3024 | however ties are broken, all answers of both queries agree on limit, feature count and expiry |
| `Leases.GrantedWell` | apps/cloud-api/src/main.rs:1902-1924 | a lease is granted only while its own entitlement is usable and allows all active devices of the user, for an active device of the user, and lasts 24 hours or as long as the entitlement, if shorter |
| `Leases.BestAllowsMost` | apps/cloud-api/src/main.rs:3536-3544 | all entitlements carrying the same features, the best row allows the most devices |
| `Leases.ActivatedExactly` | apps/cloud-api/src/main.rs:1837-1886 | a device is activated if and only if it is named, the user exists, and some usable entitlement has room for it (any, if it is active already); exactly it joins the active devices |
| `Leases.IssuedExactly` | apps/cloud-api/src/main.rs:1902-1924 | a lease is issued if and only if the device is an active one of the user, an entitlement is usable, some usable one allows all active devices, and the cloud can sign |
| `Leases.LimitSurvivesExactly` | apps/cloud-api/src/main.rs:1910-1916 | with other commits between the query that picks the lease's entitlement and the one that reads the limit, the limit read is within the picked one's if and only if no entitlement granted in between allows more |
| `Leases.GrantBetweenQueries` | apps/cloud-api/src/main.rs:3026-3042 | a larger key redeemed and a device activated in between let the check pass with more devices than the picked entitlement allows |
| `Leases.RefusalKeepsAccess` | apps/cloud-api/src/main.rs:1842-1849 | a refused activation or lease request leaves what the test-access transaction left, changed exactly if access was granted |
| `Leases.KeylessRequestTouches` | apps/cloud-api/src/main.rs:1915-1922 | without a signing key the answer is "service unavailable" exactly for requests that would be granted, and only the device's last-seen time is written |
| `Leases.TestAccessOnce` | apps/cloud-api/src/main.rs:2690-2747 | granting test access gives full access, and granting it again changes nothing |
| `Leases.ActivatedId` | apps/cloud-api/src/main.rs:2874-2904 | activation yields the id derived from user and fingerprint, unless an older row keeps its own |
| `Leases.StepDerives` | apps/cloud-api/migrations/0006_device_binding_reset.sql:1-10 | device rows carrying derived ids keep carrying them |
| `Leases.AcceptedWasGranted` | apps/local-node/src/main.rs:1962-1973 | with unsigned leases disallowed, any lease that passes the node's gate was granted by the cloud in the run, well, to that user, less than a day ago, for this machine |
| `Leases.SignedWasGranted` | apps/cloud-api/src/main.rs:1926-1968 | whatever the cloud signed in a run it granted at some state of that run |
| `Leases.GateExactly` | apps/local-node/src/main.rs:2534-2582 | whatever is presented, the gate opens if and only if the run granted that very lease, the cloud's unaltered signature is on it, both sides are configured alike, it has not expired and it is for this machine |
| `Leases.UnsignedGateExactly` | apps/local-node/src/main.rs:1962-1973 | where unsigned leases are allowed, what an unsigned or missing lease opens |
| `Leases.GrantedIsAccepted` | apps/local-node/src/main.rs:2534-2582 | from an empty device table every granted lease passes the gate on the activated fingerprint until 24 hours are over or its entitlement expires, and no longer |
| `Leases.LegacyDeviceLocksOut` | apps/local-node/src/main.rs:2561-2582 | a lease for a row that kept a random id is rejected on every machine |
| `Leases.DeviceBound` | apps/cloud-api/src/main.rs:1853-1886 | over whole runs a user's active devices never outnumber the limit of some entitlement ever granted to the user, none being forgotten or changed |
| `Leases.RevokedGrantsNothing` | apps/cloud-api/src/main.rs:3044-3063 | a revoked entitlement grants no lease at any later point of any run |
| `Matcher.WordsSplit` | apps/local-node/src/main.rs:4959-4961 | any white space separates words |
| `Matcher.WordsOfWord` | apps/local-node/src/main.rs:4959-4961 | a stretch without white space is one word |
| `Matcher.JoinedWords` | apps/local-node/src/main.rs:4959-4961 | joining words by blanks and splitting them again gives the same words |
| `Matcher.MatchIgnoresSpaceAndCase` | apps/local-node/src/main.rs:4959-4961 | texts match if and only if they have the same words up to letter case |
| `Text.TrimCuts` | apps/local-node/src/main.rs:4978-4979 | trimming cuts white space off both ends and nothing else |
| `Text.TrimIdempotent` | apps/local-node/src/main.rs:4978-4979 | trimming leaves no white space at either end |
| `Text.CaseMaps` | apps/cloud-api/src/main.rs:955-962 | the ASCII case mappings undo each other and touch letters only |
| `Matcher.EmptyNamesAgree` | apps/local-node/src/main.rs:4959-4961 | the matcher's and the prefetcher's tests for an empty name agree |
| `Matcher.FindDefinition` | apps/local-node/src/main.rs:4985-4992 | the definition found has the searched normalized name, and none is found exactly if no definition has it |
| `Matcher.MatchValues` | apps/local-node/src/main.rs:5000-5055 | the inner loop writes, shows and drops exactly what the fates of the values say |
| `Matcher.MatchAttributes` | apps/local-node/src/main.rs:4968-5066 | the nested loops compute the specified outcome |
| `Matcher.CollectReferencedIds` | apps/local-node/src/main.rs:5223-5243 | the loop collects the referenced ids, each once |
| `Matcher.ReferencedExactly` | apps/local-node/src/main.rs:5223-5243 | an id is prefetched if and only if some attribute consults its value list |
| `Matcher.OnlyReferencedMatter` | apps/local-node/src/main.rs:5145-5163 | value lists that agree on the referenced ids match alike |
| `Matcher.PrefetchRefines` | apps/local-node/src/main.rs:5145-5163 | matching with only the referenced lists fetched gives exactly the outcome of matching with all of them |
| `Matcher.MatchSplits` | apps/local-node/src/main.rs:4977-4984 | attributes do not influence one another |
| `Matcher.UnknownNameDropsOnce` | apps/local-node/src/main.rs:4985-4999 | an unknown non-empty name adds one name-level drop, no write, and changes nothing else |
| `Matcher.SilentExactly` | apps/local-node/src/main.rs:5056-5065 | an attribute leaves no trace at all if and only if its name matches a dictionary attribute and it holds no non-blank value |
| `Matcher.FindEntryIsFirst` | apps/local-node/src/main.rs:5010-5017 | the entry found is the first with the searched text |
| `Matcher.DropsAreRight` | apps/local-node/src/main.rs:4979-5059 | what each attribute is dropped for, by name, value and reason, and that no dropped value stands in its dictionary |
| `Matcher.NothingVanishes` | apps/local-node/src/main.rs:4977-5059 | non-blank values under known names equal written values plus value-level drops, and every name that cannot be written is dropped by name once |
| `Matcher.WritesAreFaithful` | apps/local-node/src/main.rs:5171-5204 | writes and preview correspond attribute by attribute and value by value to distinct proposal values in order, each being the free text or an entry with the same normalized text under the first matching definition |
| `Matcher.TruncateCutsBetweenWords` | apps/local-node/src/main.rs:5274-5290 | truncation yields a prefix of the trimmed text within the limit, cut between words unless there is no blank to cut at |
| `Matcher.TruncateCutsLate` | apps/local-node/src/main.rs:5274-5285 | the cut is at the last blank within the limit |
| `Matcher.SentExactly` | apps/local-node/src/main.rs:5109-5163 | an update leaves the node if and only if the push is confirmed, product, category, type and attributes can be read, and so can every value list some attribute consults |
| `Matcher.SentAndShown` | apps/local-node/src/main.rs:5165-5204 | the update carries the product's offer, title and description cut to 200 and 1800 characters or left out when empty, and the matched attributes; the preview shows the product's own texts before and what is sent after |
| `Matcher.FailsExactly` | apps/local-node/src/main.rs:5117-5159 | which failure is reported |
| `Matcher.FetchValues` | apps/local-node/src/main.rs:5145-5158 | the loop reads the lists in order up to the first that cannot be read |
| `Matcher.PushOne` | apps/local-node/src/main.rs:5109-5220 | one push, with every failing read and the failing update, comes to what matching against all value lists says, though it reads the referenced ones only |
| `Pairing.Bridge.IssueImportNonce` | openclaw/local-bridge/index.js:163-171 | the loop deletes the expired nonces and no other, then adds the new one for five minutes |
| `Pairing.Bridge.ConsumeImportNonce` | openclaw/local-bridge/index.js:173-178 | a presented nonce is gone, and good exactly if it was live |
| `Pairing.Node.StartOpenClawPairing` | apps/local-node/src/main.rs:875-911 | expired codes go, the new one stays for five minutes |
| `Pairing.Node.ClaimOpenClawPairing` | apps/local-node/src/main.rs:927-962 | a claim from an allowed origin takes a live code out of the table, or is refused |
| `Pairing.NextKeeps` | openclaw/local-bridge/index.js:244-270 | every step of either process, of other local servers and of strangers keeps the protocol invariant |
| `Pairing.SavedAtMostOnce` | openclaw/local-bridge/index.js:250-265 | in every interleaving saved configurations map injectively to page nonces and to the node's pairing codes, each consumed within five minutes of its issue |
| `Pairing.CodesSharedExactly` | openclaw/local-bridge/index.js:250-265 | some interleaving saves two configurations under one code if and only if not both claims were sent to the node |
| `Pairing.DeadForever` | apps/local-node/src/main.rs:934-942 | what is consumed or expired stays so |
| `Pairing.DeadCodeRefused` | apps/local-node/src/main.rs:937-942 | a code that expired, or that any claim took, is refused at every later point |
| `Pairing.DeadNonceRefused` | openclaw/local-bridge/index.js:173-178 | a nonce presented once, or expired, starts no claim again |
| `Pairing.FiveMinutes` | apps/local-node/src/main.rs:900-908 | a code and a nonce start out good for five minutes |
| `Pairing.CodeAcceptedExactly` | apps/local-node/src/main.rs:934-942 | through other starts, other claims and refused ones a live code is accepted from an allowed origin exactly until its time is over |
| `Pairing.NonceAcceptedExactly` | openclaw/local-bridge/index.js:163-178 | a nonce not yet presented is good exactly until its time is over |
| `Pairing.GoodClaimIsSaved` | openclaw/local-bridge/index.js:250-265 | a claim with a good nonce and a good code, answered and acceptable, is saved and uses up both |
| `BindLink.PercentEncode` | apps/local-node/src/main.rs:5835-5850 | the loop appends unreserved bytes as they are and all others as upper-case triplets |
| `BindLink.BuildFragment` | apps/local-node/src/main.rs:5817-5833 | the fragment is the form of the three named values |
| `BindLink.DecodeEncode` | apps/local-node/src/main.rs:5835-5858 | percent-decoding inverts percent-encoding on every byte string |
| `BindLink.FormRoundTrip` | openclaw/local-bridge/index.js:217-220 | form-parsing a printed form gives back exactly its pairs, for all names and values |
| `BindLink.FragmentReadsBack` | openclaw/local-bridge/index.js:217-220 | so it does after being stored as a URL's fragment and read as search parameters |
| `BindLink.LinkRoundTrip` | openclaw/local-bridge/index.js:217-220 | the page reads back the code, claim address and manifest address the node put in, whatever they are |
| `BindLink.PlainExactly` | apps/local-node/src/main.rs:5835-5850 | letters, digits and four marks stand for themselves |
| `BindLink.EscapedExactly` | apps/local-node/src/main.rs:5840-5858 | all other bytes become a percent sign and two upper-case digits |
| `BindLink.NamesSpelled` | apps/local-node/src/main.rs:5817-5833 | the names of the three values |
| `Settings.NextKeeps` | apps/local-node/src/main.rs:1066-1178 | every save, load and restart keeps caches, store and references consistent, whether or not the store is reachable |
| `Settings.RunKeeps` | apps/local-node/src/main.rs:2419-2455 | over every run every saved reference keeps resolving, and the cached registry is the stored one if loads could read the store |
| `Settings.CheckedResolve` | apps/local-node/src/main.rs:1080-1101 | the entries a save accepts are the given ones, checked one by one, and all of their references resolve |
| `Settings.FailedReadSticks` | apps/local-node/src/main.rs:2423-2436 | loading into an empty cache caches what is stored if and only if the store was readable or holds nothing, and the next load repeats it |
| `Settings.CacheSticks` | apps/local-node/src/main.rs:2423-2427 | over any run without a successful save or a restart a filled cache keeps its registry, right or wrong |
| `Settings.FirstLoadDecides` | apps/local-node/src/main.rs:2423-2436 | over such a run cache and store agree if and only if the first load could read the store, or it holds nothing |
| `Settings.OutOfSyncIsReached` | apps/local-node/src/main.rs:2429-2435 | saving, restarting and loading while the store is unreadable leaves them apart |
| `Settings.SavedIsLoaded` | apps/local-node/src/main.rs:1103-1122 | a saved registry is loaded back as it was validated, after anything but another save, restarts included |
| `Settings.FirstEnabledIs` | apps/local-node/src/model_router.rs:224-230 | the chosen entry is enabled and none before it is; none is chosen exactly if none is enabled |
| `Settings.ReadyExactly` | apps/local-node/src/model_router.rs:299-333 | at every point of every run a text or video status is ready if and only if resolving yields a provider, and with a readable store if and only if some loaded entry is enabled |
| `Settings.ImageReadyExactly` | apps/local-node/src/model_router.rs:338-372 | a ready image status means resolving succeeds; the converse fails exactly when only the bare environment key is left |
| `Settings.BareKeyServesExactly` | apps/local-node/src/main.rs:2464-2480 | the bare key serves if and only if the fallback URL is usable and either the key is blank or a blank `OPENAI_BASE_URL` hides an unusable `OPENAI_API_BASE_URL` |
| `Settings.BareKeysExist` | apps/local-node/src/main.rs:380-384 | environments of both kinds exist |
| `Settings.RestartKeepsKey` | apps/local-node/src/main.rs:2369-2397 | the configuration in use survives a restart if and only if nothing is cached, the environment has none, or the two agree |
| `Settings.NormalizedAgain` | apps/local-node/src/main.rs:2668-2701 | normalizing a normalized URL again changes nothing if and only if it does not end in white space |
| `Settings.UrlExactly` | apps/local-node/src/main.rs:2668-2701 | a normalized URL is the trimmed one less all slashes at its end, the default if nothing is left |
| `Settings.EnvConfigExactly` | apps/local-node/src/main.rs:2464-2480 | which variables form the environment's configuration and the fallback |
| `Settings.OpenAiExactly` | apps/local-node/src/main.rs:2369-2397 | the order in which sources are consulted, and the status of each |
| `Settings.RefExactly` | apps/local-node/src/main.rs:2442-2455 | what a reference resolves to |
| `Settings.SaveSecretExactly` | apps/local-node/src/main.rs:1134-1178 | when a named secret is saved, and that nothing else changes |
| `Settings.SaveOpenAiExactly` | apps/local-node/src/main.rs:1011-1064 | when the OpenAI configuration is saved and as what |
| `Settings.SaveRegistryExactly` | apps/local-node/src/main.rs:1066-1122 | a registry is saved if and only if every entry has a resolving reference and a usable URL; every entry comes back in its own list with its own kind, model, flag and extras |
| `Settings.RoutedExactly` | apps/local-node/src/model_router.rs:220-262 | text and video requests go to the first enabled entry of their own list under the key its reference resolves to, to nothing exactly if none is enabled |
| `Settings.ImageRoutedExactly` | apps/local-node/src/model_router.rs:232-247 | image requests go to the first enabled image entry with its URL and model, or to the OpenAI configuration |
| `Settings.InspectedExactly` | apps/local-node/src/model_router.rs:299-372 | the status of an enabled entry shows its kind, URL and model and whether its key is there |
| `Settings.OtherEventsExactly` | apps/local-node/src/main.rs:967-1010 | own blobs go under their own names; loads and restarts touch caches only |
| `SettingsNode.Node.LoadModelRegistry` | apps/local-node/src/main.rs:2423-2436 | the registry returned and cached is the specified one on every path |
| `SettingsNode.Node.Validate` | apps/local-node/src/main.rs:1080-1101 | the loop over a capability's entries accepts and refuses as specified, the first failure deciding |
| `SettingsNode.FirstFailureWins` | apps/local-node/src/main.rs:1088-1089 | the error of the shortest failing prefix is the error of the whole list |
| `SettingsNode.Node.SaveModelRegistry` | apps/local-node/src/main.rs:1066-1122 | store and cache change together, or neither does |
| `SettingsNode.Node.SaveOpenAiConfig` | apps/local-node/src/main.rs:1011-1064 | a blank key keeps the persisted one; store and cache change together, or neither does |
| `SettingsNode.Node.SaveNamedSecret` | apps/local-node/src/main.rs:1134-1178 | only unreserved names of lower-case letters, digits and underscores are written |
| `SettingsNode.Node.ResolveCapability` | apps/local-node/src/model_router.rs:220-273 | resolving loads the registry and picks the specified provider |
| `VideoPoller.Jobs.Poll` | apps/local-node/src/main.rs:4779-4838 | the bounded loop sends as many polls and leaves the job as the course of its attempts says, touching no other job |
| `VideoPoller.PollerIsBounded` | apps/local-node/src/main.rs:4787-4838 | for every sequence of answers: at most 120 polls, a terminal or vanished job at the end, no write after a terminal one, an error text in every failed version, and no learned video address lost |
| `VideoPoller.FirstReportDecides` | apps/local-node/src/main.rs:4795-4838 | the first terminal report fixes the status and ends the polling; without one, 120 polls are sent and the job has timed out |
| `VideoPoller.FinalReportStands` | apps/local-node/src/main.rs:4795-4815 | the first terminal report's status, the provider's own error text on a failure, and the last address reported |
| `VideoPoller.LastUrlIsLast` | apps/local-node/src/main.rs:4803-4805 | that address is the one of the last answer that reports any |
| `VideoPoller.VanishingStops` | apps/local-node/src/main.rs:4790-4800 | a vanished job ends the polling at once and nothing more is written |
| `VideoPoller.TimesOut` | apps/local-node/src/main.rs:4828-4837 | without a terminal report the job fails after 120 polls with the time-out message |
| `VideoPoller.SuccessIsCleanExactly` | apps/local-node/src/main.rs:4795-4825 | a job that succeeds shows no error if and only if it had none before and no poll up to the successful one had trouble |
| `VideoPoller.SuccessMayShowAnError` | apps/local-node/src/main.rs:4816-4825 | one transient failure before the success leaves its message on the job |
| `Schedule.EcommerceSchedule.ExecuteReadOnce` | apps/local-node/src/main.rs:1819-1883 | a successful read replaces error and last run and trims the audit list to its last hundred entries; a failed one changes nothing |
| `Schedule.EcommerceSchedule.Configure` | apps/local-node/src/main.rs:1655-1677 | enabling reads first and starts one worker in place of any other; disabling stops it |
| `Schedule.EcommerceSchedule.Tick` | apps/local-node/src/main.rs:1778-1797 | a worker's tick reads while enabled and records a failure |
| `Schedule.NextExactly` | apps/local-node/src/main.rs:1655-1883 | what each event leaves: enabling refused as a whole when its read fails, interval and limit within their bounds, error and last run |
| `Schedule.AppendsExactly` | apps/local-node/src/main.rs:1759-1881 | the audit entries each event adds, in order |
| `Schedule.AuditIsSuffix` | apps/local-node/src/main.rs:1759-1883 | over every run: enabled exactly while one worker lives, the audit list a suffix of the full history, and after a successful read exactly its last hundred entries; after an enabling read, which appends once more, its last hundred and one |
| `Schedule.StepFitsExactly` | apps/local-node/src/main.rs:1759-1883 | a step leaves at most a hundred entries if and only if it is a successful read or what it appends still fits |
| `Schedule.NothingElseTrims` | apps/local-node/src/main.rs:1876-1881 | over any run without a successful read the list keeps everything, so it stays within a hundred entries if and only if all of it fits |
| `Schedule.FailuresPileUp` | apps/local-node/src/main.rs:1786-1794 | a worker whose reads keep failing adds an entry at every tick, without bound |

## Left out

- Tenants, tenant ids, audit events, and user rows beyond their existence: no modelled branch depends on them.
- HTTP, authentication, request decoding, and the verification and decryption of webhooks: deliveries arrive authenticated.
- Payload hashes and the receipt, creation and update times of rows, except where a query reads them.
- Cryptography and hashing: signatures are ideal, hashes of codes and fingerprints and the derivation of device ids injective.
- Clocks and random ids are inputs; a generated id or code that is already taken is an internal error, as the database makes it.
- A commit whose acknowledgement is lost: the model knows committed and not committed.
- Interleaving.EveryInterleavingIsARun: deliveries interleave statement by statement, the other handlers between the statements as wholes that respect the locks; queries of one handler that see other handlers' commits in between are covered for the two entitlement queries of lease issue only (`Leases.LimitSurvivesExactly`).
- Foreign-key share locks and deadlock detection: share locks only make transactions wait longer, and a deadlock's victim is an abort, which may happen at any time.
- Expired webhooks, refunds and order cancellation: the code has none.
- Matcher.EmptyNamesAgree: Unicode lower-casing is an arbitrary function that loses no text; nothing else about it is used.
- URL parsing: whether an address is acceptable is an input, of the link's addresses and of provider URLs alike.
- The batch around a push and its size limit; each item stands for itself.
- JSON encoding of stored blobs: a stored blob is the value it was written from.
- Settings.RunKeeps: the environment stays the same over restarts, and the store is reachable or not during a whole call.
- Schedule.AuditIsSuffix: enabling and disabling are atomic; two overlapping starts could leave a detached worker.
- VideoPoller.Jobs.Poll: other pollers' jobs are left alone between its steps; each poller writes its own job only.
- Release manifests, downloads, login and identity synchronisation, the task engine, connectors, prompts, image hosting, video dialects, the web interface and the Python helpers.
