# Emby service portal: a verified model

The portal sells and manages time-limited accounts on one Emby server. It keeps a SQLite store and the
Emby server consistent although processes crash, replies are lost, requests are repeated, handlers act on
stale reads and a background worker runs beside them. This project models that consistency protocol and
the small algorithms around it in Dafny 4.11. `dafny verify dfyconfig.toml` checks all of it.

## How it is built

The protocol, in layers:

- `Domain.dfy`, `Transactions.dfy`: the rows, and what each statement or transaction of the SQLite adapter
  does to the tables. The store's single connection makes each of them one atomic step.
- `Listing.dfy`: the order and limit of the listings, on stored texts.
- `Store.dfy`: the adapter as an object whose tables are fields, every transaction an imperative method
  proved to do exactly what `Transactions.dfy` says, including every refusal and rollback.
- `TableInvariants.dfy`: the constraints and the relations between tables that every transaction keeps.
- `Portal.dfy`: the whole portal as one state machine. A step is one transaction or one remote call of some
  handler, of the single worker or of the holder of the provisioning mutex, or somebody else's use of Emby.
  Handlers keep what they read in pools and write from any earlier read; a remote call may or may not take
  effect and its reply may be lost; the worker and the driver may crash between any two steps.
- `Outbox.dfy`, `OutboxSteps.dfy`, `Ledgers.dfy`, `LedgerSteps.dfy`, `Transitions.dfy`: the inductive
  invariants and their preservation by every step.
- `Guarantees.dfy`: the theorems, at every point of every run's history. `Redemptions.dfy` ties the ledger of
  invite uses to the rows of the redemptions table. `QueueBound.dfy` bounds how long a
  queued job can be passed over, from the order of the queue in `AccessQueue.dfy`. `Limits.dfy` holds a run
  that shows why a condition is there, `TwoConsumers.dfy` the portal with a second worker and what it breaks.
- `Promises.dfy`: what the transactions promise in the fields of the rows (renewals, sold codes, orders, invites),
  stated without the functions that compute them, and two laws of all histories that follow.
- `Remote.dfy`, `StepEffects.dfy`, `Services.dfy`, `AccountEdits.dfy`, `PaymentFlows.dfy`: the services as
  imperative programs with their loops and early returns, over environments that answer as they please and
  log every call with its answer, so that a contract can say what each answer leads to.
  Each is proved to be a run of the state machine, and to do what its documentation promises.

The algorithms, each in a file of its own: stored times and their text order (`Timestamps.dfy`, with
`ByteOrder.dfy` and `Decimal.dfy`), the bounded feed (`RecentFeed.dfy`), search escaping (`Search.dfy`), the
limiter (`RateLimit.dfy`), fingerprint framing (`Fingerprint.dfy`), missing episodes (`Episodes.dfy`),
version order and release selection (`Versions.dfy`), prices (`Price.dfy`). `Totals.dfy` sums over tables.

## What turned out differently

- The limiter admits at most 2 * limit - 1 attempts in an interval of one window's length, one fewer than
  two full windows, and that number is reached.
- A retry that finds a user by name may adopt a foreign, disabled one (`Limits.AdoptionKeepsAForeignFlag`).
  With nothing queued, an account of the saga agrees with Emby's flag exactly when it has had a job or its
  user did not appear disabled (`Guarantees.OutboxSafety`); the look-up sees that flag before it adopts.
- A search card can count missing episodes that the request then refuses, when the catalogue cannot
  enumerate the season; `Episodes.CardIsHonored` gives the exact condition.
- A price whose value exceeds 64 bits in fen may be accepted as a small one, because the product wraps
  around; `Price.ReadsWrittenPrice` gives the exact range in which the result is the written value.
- The feed can lose an item when a date moves back, as when an undated item later comes with its true date
  (`RecentFeed.OlderDatesLoseItems`). `RecentFeed.FeedIsExact` says exactly when a scan ends with the right
  table, `RecentFeed.EnoughAboveTheLast` what a look at the table can guarantee.
- Stored times in one UTC second need not be ordered as the instants are; `Timestamps.OrderWithinSecond`
  says exactly when they are.

## Model

| member | source | states |
|---|---|---|
| Guarantees.OutboxSafety | internal/expiry/expiry.go:28-54 | In every reachable state a queued job wants exactly "disabled unless active". An account with nothing queued shows in Emby as its status says from its first job on; one that the saga made and whose user exists does so exactly when it has had a job queued or its user did not appear disabled; and before any job every flag is the one its user appeared with |
| Guarantees.BornFlagStays | internal/accounts/service.go:234-255 | Until an account that has had a job queued owns it, a user keeps the flag it appeared with, so the look-up by name that adopts a user sees the flag that decides agreement |
| TwoConsumers.TwoConsumersBreakIt | docs/DOMAIN.md:31 | Why the queue has one consumer: a run of the portal with a second worker that ends with an active account, nothing queued and its user disabled, since revisions restart at 1 |
| Limits.AdoptionKeepsAForeignFlag | internal/accounts/service.go:234-255 | A concrete run in which recovery by name takes over a foreign user that appeared disabled: the account is active, has had nothing queued and the user stays disabled, so the condition of OutboxSafety on how the user appeared is needed |
| Guarantees.Reachable | cmd/emby-service-portal/main.go:39-62 | Every state of every run satisfies the table invariants, the invariant of the access queue and the saga, and the ledgers |
| Guarantees.EventsAreOfPaidOrders | internal/persistence/sqlite/payments.go:323-330 | Every recorded event belongs to a paid order of its amount |
| OutboxSteps.OutboxNext | internal/expiry/expiry.go:41-52 | The invariant that relates the worker's stale snapshots to live revisions, the driver to its operation and the pools of earlier reads to live rows is kept by every step of every caller, crashes and lost replies included |
| OutboxSteps.SoundNext | internal/persistence/sqlite/migrations/0010_account_create_operations.sql:1-26 | Every step keeps the table constraints (UNIQUE, CHECK, FOREIGN KEY) and the facts between tables: a job agrees with its account, fulfilled orders and events correspond |
| LedgerSteps.LedgersNext | internal/persistence/sqlite/invites.go:101-130 | Every step keeps the ledgers of invite uses, subscription time, sold invites and provisioned accounts |
| Guarantees.ProvisionedOnce | internal/persistence/sqlite/saga.go:206-280 | Over a whole run an operation inserts at most one business account, exactly one once it is completed, and no two operations share an account |
| Guarantees.OneUserPerOperation | internal/accounts/service.go:228-256 | At any time at most one Emby user exists that the create calls of an operation made, whatever replies were lost |
| Guarantees.OperationNeverGoesBack | internal/persistence/sqlite/saga.go:152-177 | A step moves an operation by at most one checkpoint of pending, creating, remote_created, completed, never back, and keeps its request and its Emby user; only a completed operation disappears |
| Guarantees.CompletedStays | internal/persistence/sqlite/accounts.go:162-188 | A completed operation is unchanged by every step until its account is deleted |
| Guarantees.ReplayIsIdempotent | internal/persistence/sqlite/saga.go:29-39 | A request repeated with key and fingerprint finds its operation, in whatever status, and stores and reserves nothing more, even when the invite is by then unusable; another fingerprint is refused and changes nothing; completing a completed operation again answers the same account |
| Guarantees.VersionsNeverSkip | internal/persistence/sqlite/accounts.go:59-139 | Any step leaves an account row as it is or raises its version by exactly one, identity kept |
| Guarantees.AcceptedEditsAreFresh | internal/persistence/sqlite/accounts.go:59-71 | Whenever a compare-and-swap of a row read at any earlier time is accepted, the row is still the one that was read |
| Guarantees.TimeConservation | internal/persistence/sqlite/payments.go:347-379 | In every reachable state an expiry is the initial one plus the intended changes of accepted edits plus the minutes of all renewal redemptions and fulfilled renewal orders |
| Guarantees.TimeWithoutEdits | internal/persistence/sqlite/invites.go:184-194 | With no edit by an administrator in the run, an expiry is exactly the start plus every renewal, whatever the expiry worker interleaves |
| Guarantees.DueQueryBySecond | internal/persistence/sqlite/accounts.go:145-146 | The due query lists every active account whose expiry second is over and none whose expiry second is still to come |
| Guarantees.InviteConservation | internal/persistence/sqlite/invites.go:101-130 | used_count is redemptions ever recorded plus open registration operations plus direct registrations in between, and never passes a positive limit |
| Redemptions.UsesAreRows | internal/persistence/sqlite/invites.go:101-130 | used_count against the tables: the redemption rows of the invite, those that went with deleted accounts (none if no account was deleted), the open registrations and the direct ones in between |
| Guarantees.ReleaseNeverClamps | internal/persistence/sqlite/invites.go:123-126 | Whoever releases a use holds it, so the guard against zero in ReleaseInvite never decides |
| Guarantees.PaidExactlyOnce | internal/persistence/sqlite/payments.go:264-395 | Paid, fulfilled and having an event are the same; an order has at most one event and an activation at most one invite, which grants one use of what was sold |
| Guarantees.PaidIsAbsorbing | internal/persistence/sqlite/payments.go:257-260 | No step changes a paid order, except that a deleted account or invite is forgotten |
| Guarantees.RepeatedDeliveryChangesNothing | internal/persistence/sqlite/payments.go:287-297 | A further delivery for a paid order changes no table, whatever its event id, amount or code |
| Guarantees.ReplayBranchUnreachable | internal/persistence/sqlite/payments.go:301-316 | The branch that answers a replayed event of the same order is never reached |
| Guarantees.RevenueConservation | internal/persistence/sqlite/payments.go:206 | The unfiltered paid amount equals the sum of all recorded event amounts |
| QueueBound.BoundedBypass | internal/persistence/sqlite/sync.go:11-39 | In any history a job with p others ahead of it is attempted before p / 100 + 1 complete passes are over, even when every call fails, other passes crash and new jobs keep arriving in later seconds |
| QueueBound.BoundedBypassBySeconds | internal/persistence/sqlite/sync.go:11-39 | The same bound when every other row that is new or changed in between carries a time of a later UTC second |
| QueueBound.PassTakesABatch | internal/expiry/expiry.go:37-52 | A complete pass that does not attempt a job takes at least a hundred others from ahead of it for good, whatever happens between its steps |
| QueueBound.RunOnceIsAPass | internal/expiry/expiry.go:28-54 | Wherever the steps of RunOnce stand in a history they are a complete pass, if their results were stored |
| Transitions.NextAdvances | internal/persistence/sqlite/payments.go:257-260 | Every step lets each account, operation and order row only advance: versions by one, checkpoints by one, orders keep their terms and stay paid |
| TableInvariants.UndeliverableChangesNothing | internal/persistence/sqlite/payments.go:287-319 | A payment whose order is fulfilled, whose amount differs or whose event is known changes no table |
| Promises.RedemptionRenews | internal/persistence/sqlite/invites.go:136-208 | A renewal by code succeeds exactly for an account of that name and an invite of that code that can be used. In the fields of the rows: one more use, the expiry later by the invite's minutes, an expired account whose new expiry lies ahead active with an enabling job, any other status and then the queue as they were, and the redemption |
| Promises.PaymentDelivers | internal/persistence/sqlite/payments.go:264-395 | An accepted payment of an order that is not fulfilled: the order paid with its terms kept, one event, and either the sold code or the same renewal for the order's minutes, all in fields |
| Promises.SoldCodeWorks | internal/persistence/sqlite/payments.go:334-346 | After a delivered activation the look-up by hash finds the sold invite, it can be used at any time, a registration with it is accepted and ends the order's minutes later, and a renewal with it adds them |
| Promises.StatusLaw | internal/persistence/sqlite/accounts.go:108-139 | Over every run: only an administrator disables an account or takes it out of that; only a renewal or an administrator reactivates an expired one; only the end of its time lets an active one expire |
| Promises.InviteTermsStay | internal/persistence/sqlite/invites.go:77-126 | Over every run no step changes an invite but its count of uses and whether it is enabled, so a sold code keeps what it was sold with |
| StepEffects.RegistrationStores | internal/persistence/sqlite/saga.go:69-147 | What a registration under a new key stores: the exact refusals, one more use of the invite with that code, and a pending operation whose expiry is that invite's minutes after the request |
| Promises.UseAndRelease | internal/persistence/sqlite/invites.go:101-126 | A use is taken exactly from an invite of that code that is enabled, in its period and under its limit; giving one back takes it off again and never below zero |
| Promises.OrderAccepted | internal/persistence/sqlite/payments.go:128-138 | An order is accepted exactly under a new token and number, for some time, at a price in CNY and for an account that exists if it names one; it is then pending with every drafted term |
| Promises.OrderCloses | internal/persistence/sqlite/payments.go:257-260 | Closing reaches only an order that is not fulfilled, leaves a paid status and changes no term |
| Promises.InviteAccepted | internal/persistence/sqlite/invites.go:13-23 | An invite is accepted exactly under a new code, for at least a day, with a limit that is not negative and a period that is not empty; it is then unused and otherwise as given |
| Promises.TrimSpaceTrims | internal/accounts/service.go:131-136 | Trimming takes blanks from both ends of a key, name or note and nothing else |
| Persistence.Store.UpsertAccessSyncJob | internal/persistence/sqlite/sqlite.go:125-132 | One queued job per account: a later flag replaces the queued one under the next revision and a clean slate |
| Persistence.Store.ListAccessSyncJobs | internal/persistence/sqlite/sync.go:11-29 | The first jobs by stored time, then account, as many as asked for, each with its account's Emby user |
| Listing.FirstOf | internal/persistence/sqlite/sync.go:15 | ORDER BY stored time and id with a LIMIT: the listing that queue, recovery and reconciliation share |
| Persistence.Store.CompleteAccessSync | internal/persistence/sqlite/sync.go:31-34 | Removes the job only under the revision that was attempted, and only if the record is stored; Promises.RecordsUnderRevision says it for every job |
| Persistence.Store.FailAccessSync | internal/persistence/sqlite/sync.go:36-39 | Counts the failure only under the revision that was attempted, and only if the record is stored; the job goes to the back |
| Persistence.Store.CreateAccount | internal/persistence/sqlite/accounts.go:11-22 | Inserts version 1 under a fresh id, or refuses a taken user or name and changes nothing |
| Persistence.Store.UpdateAccount | internal/persistence/sqlite/accounts.go:59-71 | Compare-and-swap of expiry and note |
| Persistence.Store.UpdateAccountAndExpire | internal/persistence/sqlite/accounts.go:75-104 | Compare-and-swap of an active row to expired, with its disabling job, in one transaction |
| Persistence.Store.SetAccountStatus | internal/persistence/sqlite/accounts.go:108-139 | Compare-and-swap of the status, with the job that carries it to Emby |
| Persistence.Store.ListDueActiveAccounts | internal/persistence/sqlite/accounts.go:145-160 | Exactly the active accounts whose stored expiry is not after the stored text of now |
| Persistence.Store.DeleteAccount | internal/persistence/sqlite/accounts.go:162-188 | Removes the account with its operation, redemptions and job; orders lose the reference |
| Persistence.Store.BeginAccountCreateOperation | internal/persistence/sqlite/saga.go:13-64 | Answers a replay, refuses another fingerprint or a taken name, or stores a pending operation |
| Persistence.Store.BeginRegistrationOperation | internal/persistence/sqlite/saga.go:69-147 | The same, reserving one use of a redeemable invite in the same transaction; by StepEffects.RegistrationStores the account of a new key lives for the minutes of the invite with that code |
| Persistence.Store.MarkAccountCreateOperationCreating | internal/persistence/sqlite/saga.go:152-155 | The checkpoint before a first create call, which also moves on the last change (Promises.CheckpointsStamp) |
| Persistence.Store.SaveAccountCreateOperationRemote | internal/persistence/sqlite/saga.go:157-177 | The checkpoint of the Emby user; a second different user is refused |
| Persistence.Store.ListIncompleteAccountCreateOperations | internal/persistence/sqlite/saga.go:183-201 | The first incomplete operations by stored last change, then id, as many as asked for |
| Persistence.Store.InsertProvisioned | internal/persistence/sqlite/saga.go:242-265 | The account and a registration's redemption: both rows or neither |
| Persistence.Store.CompleteAccountCreateOperation | internal/persistence/sqlite/saga.go:206-280 | Answers a completed operation with its account, or inserts account, redemption and disabling job and completes it, or changes nothing |
| Persistence.Store.CreateInvite | internal/persistence/sqlite/invites.go:13-23 | Inserts an unused invite, or refuses what the constraints forbid |
| Persistence.Store.SetInviteEnabled | internal/persistence/sqlite/invites.go:77-88 | Switches an existing invite and nothing else; Promises.SwitchedOrGone says it in fields |
| Persistence.Store.DeleteInvite | internal/persistence/sqlite/invites.go:89-100 | Refuses an invite that a redemption or an operation names; otherwise orders lose the reference |
| Persistence.Store.ConsumeInvite | internal/persistence/sqlite/invites.go:101-122 | Takes one use of an enabled invite in its period and under its limit, or tells a missing from an unusable one |
| Persistence.Store.ReleaseInvite | internal/persistence/sqlite/invites.go:123-126 | Gives one use back, not below zero |
| Persistence.Store.RecordRedemption | internal/persistence/sqlite/invites.go:127-130 | Adds a redemption of an existing invite by an existing account |
| Persistence.Store.ExtendAccount | internal/persistence/sqlite/invites.go:184-194 | Adds minutes to the account's own expiry; an expired account whose new expiry lies ahead becomes active again and that is queued, any other status and then the queue stay, all said in the fields of the row |
| Persistence.Store.RedeemRenewal | internal/persistence/sqlite/invites.go:136-208 | One use, the extended account and its redemption in one transaction, or nothing; Promises.RedemptionRenews says it in fields |
| Persistence.Store.CreatePaymentOrder | internal/persistence/sqlite/payments.go:128-138 | Inserts a pending order, or refuses what the constraints forbid |
| Persistence.Store.ListPendingPaymentOrders | internal/persistence/sqlite/payments.go:152-174 | The first pending orders by stored last change, then id, as many as asked for |
| Persistence.Store.UpdatePaymentProvider | internal/persistence/sqlite/payments.go:244-255 | Writes provider data only while the order is not fulfilled, and touches nothing that was ordered (Promises.ProviderTells) |
| Persistence.Store.SetPaymentOrderState | internal/persistence/sqlite/payments.go:257-260 | Closes an order that is not fulfilled; a paid status stays |
| Persistence.Store.MintActivation | internal/persistence/sqlite/payments.go:334-346 | The single-use invite that an activation sells: the code that was sent, enabled, without a period, with the order's durations |
| Persistence.Store.FulfillPaymentOrder | internal/persistence/sqlite/payments.go:264-395 | Every refusal, the replay answers, and otherwise event, paid order and benefit in one transaction or none of them; Promises.PaymentDelivers says the delivery in fields |
| Services.Process.RunOnce | internal/expiry/expiry.go:28-54 | A pass expires exactly the due accounts, lists the first hundred jobs of the queue as it is then, calls Emby once for each with its flag and records each answer once. A listed job leaves exactly when its call was accepted and the record stored, and its flag then agrees; a stored refusal counts on the job with the pass's time; all others stay. The failures are the refused calls plus the unstored records; without one the queue has lost exactly the batch |
| Services.Process.ExpireDue | internal/expiry/expiry.go:56-69 | Expires exactly the listed due accounts; a version conflict is no failure |
| Services.Process.SyncBatch | internal/expiry/expiry.go:41-52 | The calls and records of the listed jobs in order, one each, and what became of each job by its call's and its record's answer; the failures are the refused calls plus the unstored records |
| Services.Process.ProvisionAccountCreate | internal/accounts/service.go:209-281 | Drives an operation as far as it gets. An incomplete one is completed exactly when Emby answers every call of the drive and nobody has its user or its name; the account then has the operation's name, expiry, note and user; an obtained user is stored either way; a completed one answers its account without a call |
| Services.Process.ObtainUser | internal/accounts/service.go:228-256 | Before a first create call the checkpoint, before any other a look-up by name, and for a user it finds the new password; the calls made are exactly those, and the answer is the user they end with |
| Services.Process.CreateIdempotent | internal/accounts/service.go:130-155 | A key that is new stores the request and, exactly when Emby made and restricted the user and nobody has its name, an account with the given name, expiry and note, expired with its disabling job when that is over; a taken name is refused without a call. A known key answers its own account under its fingerprint, changes nothing under another, and moves on the operation that is there and nothing else |
| Services.Process.RegisterIdempotent | internal/accounts/service.go:159-190 | The same for a registration: refused without a call unless an invite with that code can be used; otherwise exactly that invite has one more use, and the account of a new key expires that invite's minutes after now and is redeemed once. A repeated key reserves no second use, however far its operation has come |
| Services.Process.RecoverAccountCreates | internal/accounts/service.go:195-207 | Drives the hundred incomplete operations whose last change is longest ago, each once and in that order, failures in between included. One that Emby answered for is completed unless somebody has its user or its name; no error exactly when all of them are completed |
| Services.Process.Create | internal/accounts/service.go:79-125 | Exactly when Emby made and restricted the user and nobody has its name: one row with the given name, expiry and note for a new enabled Emby user, active, or expired and with its disabling job when its period is over; a user that was not restricted is deleted; on failure no table has changed |
| Services.Process.RegisterDirectly | internal/invites/service.go:78-93 | Without an open invite of that code refused at once; a refused creation gives its use back; an accepted one leaves an account that expires the invite's minutes after now, one more use of that invite and the redemption that accounts for it |
| Services.Launch | cmd/emby-service-portal/main.go:39-62 | A process over an empty store starts in the initial state of the state machine |
| AccountEdits.Update | internal/accounts/service.go:507-530 | The exact refusals (missing, other version, no expiry), each changing nothing; otherwise exactly the edited row in fields, expired at once and with its disabling job when its new expiry is over |
| AccountEdits.Switch | internal/accounts/service.go:534-562 | Disabling and enabling with the exact refusals, the switched row in fields and the queued job; a subscription that is over cannot be enabled |
| AccountEdits.Delete | internal/accounts/service.go:577-586 | The rows go together, told in fields, and only once the Emby user is gone; it succeeds exactly when the account exists and Emby answered its one deletion |
| AccountEdits.UniqueAccountIDs | internal/accounts/service.go:489-505 | The selected ids once each, in the order of their first mention; nothing for an empty or invalid selection |
| AccountEdits.Batch | internal/accounts/service.go:437-487 | Applied in full exactly when the selection, the versions and the action allow it: each account acted on once, with what the action means for its row, job or deletion told in fields; nothing changes unless the whole selection is acceptable, and a batch that stops has changed exactly the accounts it completed |
| PaymentFlows.FulfillWithHash | internal/payments/service.go:428-447 | Success means the order is fulfilled, now or before; a failure has changed nothing; it succeeds exactly when the snapshot was fulfilled or the notification is valid, at the price, under a new event, and the order can be delivered: an account to renew, or a code that is not taken; what it paid for is delivered as Promises.PaymentDelivers says, and a fulfilled order changes no table; no other order changes |
| PaymentFlows.HandleWebhook | internal/payments/service.go:407-422 | Succeeds exactly when the number is that of an order that is fulfilled already or that the notification pays for, activations included; it then delivers what it paid for, or changes nothing for a fulfilled one; otherwise nothing changes, and no fulfilled order or order of another number ever does |
| PaymentFlows.PublicOrder | internal/payments/service.go:395-405 | Closes the order of its token exactly when that is pending and over, and changes no other order; a pending answer lies before its end |
| PaymentFlows.Reconcile | internal/payments/service.go:449-524 | The fifty pending orders whose last change is longest ago are settled. The centre is asked for its newest orders once and then exactly the questions each order's state demands; each order ends as the centre's answer for it demands, or is left alone without one or when its payment cannot be delivered; no error exactly when all are settled; only overdue orders of the list are cancelled; fulfilled orders and orders outside the list are unchanged |
| PaymentFlows.SettleOne | internal/payments/service.go:470-516 | One order: the centre is queried exactly when its list did not report the order, and asked to cancel exactly when it matches, is pending there and is over here; it is settled exactly when the answer has the order's terms and a payment it reports can be delivered; a failure changes nothing |
| PaymentFlows.ListPendingOrders | internal/persistence/sqlite/payments.go:152-174 | The first pending orders by stored last change, then id, as many as asked for |
| PaymentFlows.CreateOrder | internal/payments/service.go:345-379 | The order is stored, pending and as drafted with its durations, account and expiry, before the centre is asked once; refused exactly for the constraints; after a lost or mismatching answer it is there exactly as stored; after any failure it is pending; a PAID answer delivers it at once, a closed one closes it; no other order changes |
| PaymentFlows.DeliveredOrder | internal/persistence/sqlite/payments.go:264-395 | Whatever the input, a delivery changes one order at most, a successful one leaves it fulfilled and a failed one changes no table |
| Timestamps.ParseOfTimestamp | internal/persistence/sqlite/sqlite.go:142-143 | Reading back a stored time of the years 0000 to 9999 gives that time |
| Timestamps.StoredOrder | internal/persistence/sqlite/sqlite.go:142-143 | Byte order of two stored texts, told from the instants alone; across seconds it is time order |
| Timestamps.OrderWithinSecond | internal/persistence/sqlite/sqlite.go:142-143 | Within one second the order of the texts is time order exactly when the earlier fraction, without trailing zeros, is no prefix of the later one |
| Timestamps.OrderWithinSecondCanFail | internal/persistence/sqlite/accounts.go:145-146 | A concrete pair in one second whose texts are ordered against time |
| RecentFeed.Feed.ScanOnce | internal/recent/service.go:49-77 | Any batch: the scan is complete exactly when every write was stored, and every item was recorded in turn with its title's pending request; after a complete scan the table holds exactly the newest fifty of all items ever seen, as last recorded, if and only if every item in neither the old table nor the batch has fifty newer ones there; it does whenever the table covered what was seen and no date moved back, and then a failed scan leaves a table from which the next one gets there; requests only go from pending to fulfilled |
| RecentFeed.FeedIsExact | internal/recent/service.go:49-77 | Over every run of scans, failed ones included and whatever was lost before: a complete scan ends with the right table exactly when every item the table does not know by then has fifty newer ones in it |
| RecentFeed.RightWithoutOlderDates | internal/recent/service.go:49-77 | Over every run in which no item is dated before its last recorded version, the table is right after every complete scan and covers everything seen after every failed one |
| RecentFeed.EnoughAboveTheLast | internal/recent/service.go:24-28 | What the table itself can tell: a right table stays right, whatever dates moved back, if fifty of its rows and the batch are not behind the place its last row had |
| RecentFeed.Feed.UpsertRecentlyAdded | internal/persistence/sqlite/recent.go:18-55 | The recorded row, first sighting and first request kept; at most one pending full request of that title is fulfilled |
| RecentFeed.Feed.ListRecentlyAdded | internal/persistence/sqlite/recent.go:60-86 | The newest rows by date, then id, newest first |
| RecentFeed.Feed.PruneRecentlyAdded | internal/persistence/sqlite/recent.go:90-97 | Exactly the newest rows stay, unchanged; all of them when fewer than one is to be kept |
| RecentFeed.PruneLeavesTop | internal/persistence/sqlite/recent.go:90-97 | Pruning leaves the newest of everything ever seen exactly when every item that was forgotten has as many newer ones in the table as are kept |
| RecentFeed.UpsertCovers | internal/persistence/sqlite/recent.go:39-51 | Recording a version that is not older keeps the cover |
| RecentFeed.TopIsUnique | internal/recent/service.go:24-28 | There is only one set of the newest items, so the two prunings agree |
| RecentFeed.OlderDatesLoseItems | internal/recent/service.go:59-64 | A run of three complete scans of at most thirty items with stored times, right after the first two and wrong after the third, which brings the true date of an item that was undated before |
| Search.PassesAreOnePass | internal/persistence/sqlite/payments.go:238-242 | The three replacement passes equal escaping character by character |
| Search.SearchFindsTheQuery | internal/persistence/sqlite/payments.go:185-190 | The pattern matches a text exactly when the text contains the query up to ASCII case |
| Search.EscapingMatters | internal/persistence/sqlite/payments.go:238-242 | Without escaping a query with a percent sign matches texts that do not contain it |
| RateLimit.Limiter.Allow | internal/ratelimit/ratelimit.go:30-45 | Admission and retry time are those of the key's own attempts alone |
| RateLimit.IntervalBound | internal/ratelimit/ratelimit.go:30-45 | At most 2 * limit - 1 admissions in any half-open interval of one window's length |
| RateLimit.IntervalBoundIsReached | internal/ratelimit/ratelimit.go:30-45 | Attempts that reach that bound, for every limit |
| RateLimit.WindowBound | internal/ratelimit/ratelimit.go:34-43 | The count of an opened window is what it has admitted, at most the limit |
| RateLimit.RetryIsExact | internal/ratelimit/ratelimit.go:38-40 | A refused caller is refused before the announced time and admitted from then on |
| RateLimit.KeysAreIndependent | internal/ratelimit/ratelimit.go:34 | A key's entry is what its own attempts alone would have left |
| Fingerprint.MacInput | internal/credentials/vault.go:56-68 | The loop writes each field behind its eight-byte length |
| Fingerprint.FramesReadBack | internal/credentials/vault.go:61-66 | The fields and their boundaries are read back from the bytes |
| Fingerprint.FramingIsInjective | internal/credentials/vault.go:61-66 | Two lists of fields share their bytes only if they are the same list |
| Fingerprint.RequestsShareInputOnlyWhenEqual | internal/accounts/service.go:143 | A create and a register request, or two of one kind, share a MAC input only if they are equal; the register fields are at line 172 |
| Fingerprint.ConcatenationIsNotInjective | internal/credentials/vault.go:61-66 | Without the lengths two different lists can share their bytes |
| Episodes.MissingEpisodeCount | internal/requests/service.go:188-207 | The count is the sum of the shortfalls of the aired seasons |
| Episodes.MissingEpisodeDetails | internal/requests/service.go:212-249 | The list is built season by season as stated by ListedExactly |
| Episodes.ListedExactly | internal/requests/service.go:228-248 | The list holds exactly the gaps of under-filled seasons that can be enumerated, each whole |
| Episodes.GapCoversShortfall | internal/requests/service.go:239-244 | A season's gap is at least its shortfall, with equality exactly when Emby has nothing the catalogue does not know |
| Episodes.ListCoversCount | internal/requests/service.go:188-249 | The list is at least as long as the count, with equality exactly when Emby has nothing unknown in those seasons |
| Episodes.CardIsHonored | internal/requests/service.go:150-164 | A positive count leads to a request exactly when one of its seasons can be enumerated |
| Episodes.CardCanMislead | internal/requests/service.go:235-238 | A season that cannot be enumerated makes the card promise what a request refuses |
| Versions.ParseVersion | internal/update/update.go:614-644 | The four numbers of a tag, filled into an array, or nothing |
| Versions.ParsedOfTag | internal/update/update.go:614-644 | A published tag is read as its four numbers |
| Versions.VersionOrder | internal/update/update.go:591-611 | Positive exactly when the first tag is newer: at the first place where the four numbers differ its number is greater, or it alone is readable, or neither is and its text is greater; zero exactly when the numbers agree or both are unreadable and the same text; antisymmetric and transitive |
| Versions.NewerPublishedTag | internal/update/update.go:602-609 | Of two published tags the newer has the larger number at the first of the four that differ, so build 10 is newer than build 9 |
| Versions.SortStable | internal/update/update.go:385-387 | The feed in stable order, the newest tag first |
| Versions.SelectRelease | internal/update/update.go:385-398 | No other non-draft is newer than the selected one, and it comes first in the feed among those of its version; none exactly when all are drafts |
| Price.ReadsWrittenPrice | internal/web/admin_plans.go:183-217 | A written price is read exactly if and only if its value in fen is positive and fits 64 bits |
| Price.AcceptedIsWritten | internal/web/admin_plans.go:183-217 | Nothing but a whole number with at most two decimals is accepted |
| Price.PriceRoundTrip | internal/web/admin_plans.go:56-64 | Every positive 64-bit amount survives printing and reading back |
| Price.OverflowIsAccepted | internal/web/admin_plans.go:212 | A text far above the largest price that is accepted as 84 fen |

## Left out

- Passwords: sealing, opening, verifying and the account_credentials rows; a sealed password and a fingerprint are values that a caller brings.
- Passing on what the calls carry beyond a user: the new password and the media features are not part of the logged calls; of the restriction and the password reset only that they are asked for, and what Emby answers, is modelled.
- The direct path's flag before its first queued job: direct creation and synchronisation from Emby insert the account and queue its flag in two transactions, so no agreement is promised in between.
- SyncFromEmby's loop: its transactions are steps of the state machine, the loop over Emby's users is not modelled.
- Progress: that an operation is ever completed, an order ever reconciled, or that two operations for one name both finish. Recovery and reconciliation list rows by their last change, which an unsuccessful attempt does not move.
- Emby is assumed to hand out fresh ids, never to reuse one, to decide a create call's effect before the call ends, and to change the disabled flag only on the portal's call.
- Nobody renames an Emby user: the look-up by name and OneUserPerOperation rely on the name a user appeared with.
- Failing database statements: a transaction happens or does not; in the worker and the feed a write may fail to be stored and is logged with that answer, elsewhere a crash between steps stands for it.
- Interference inside the programs of Services.dfy, AccountEdits.dfy and PaymentFlows.dfy: their contracts speak of a program that runs alone, and what holds under any interleaving is stated for the state machine.
- Payment plans, provider settings, buyer notes, return addresses and the verification of notifications; an order carries the terms it was created with.
- The filters, counts and pages of the order list beyond its search pattern and its paid total.
- HTTP handlers, sessions, templates, configuration, self-update download and installation.
- Calendar arithmetic and time zones of the time package: an instant comes with its UTC reading, and texts with an offset other than Z are not read.
- Unicode: white space and case folding are those of ASCII.
- Widths of integers other than in prices, version parts and field lengths; clocks are arguments or free choices.
- Cryptography and randomness: sealing, the MAC, hashes, codes and tokens are values; the MAC is taken to be injective, and a code or token that is not distinct is refused by its constraint.
- formatMissingEpisodes and the parsing of air dates; whether a season has aired is part of the input.
- The call that fetches the batch: ScanOnce takes what Emby answered, in any order and of any length; a fetch that fails ends the scan before it starts.
