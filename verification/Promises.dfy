/** What the transactions promise, in the fields of the rows: whom a renewal reactivates, what a sold code is
    good for, which orders and invites are accepted, what a checkpoint or a record leaves; and what every run
    keeps of that. Transactions.dfy says how the rows are computed; no predicate here names its functions. */
module Promises {
  import opened Domain
  import opened Timestamps
  import opened TableInvariants
  import opened AccessQueue
  import opened Portal
  import opened Outbox
  import opened OutboxSteps
  import opened Ledgers
  import opened LedgerSteps
  import opened Transitions
  import opened Guarantees
  import opened StepEffects
  import T = Transactions

  lemma MinuteIsSixtySeconds(n: int)
    ensures Minutes(n) == 60 * SECOND * n && SECOND == 1_000_000_000
  {
  }

  ghost predicate Blank(s: string) {
    forall i :: 0 <= i < |s| ==> IsSpace(s[i])
  }

  /** Trimming takes blanks from both ends and nothing else. */
  lemma TrimSpaceTrims(s: string) returns (left: string, right: string)
    ensures s == left + TrimSpace(s) + right && Blank(left) && Blank(right)
    ensures TrimSpace(s) != "" ==> !IsSpace(TrimSpace(s)[0]) && !IsSpace(TrimSpace(s)[|TrimSpace(s)| - 1])
  {
    left := TrimLeftTrims(s);
    right := TrimRightTrims(TrimLeft(s));
  }

  lemma {:induction false} TrimLeftTrims(s: string) returns (left: string)
    ensures s == left + TrimLeft(s) && Blank(left) && (TrimLeft(s) != "" ==> !IsSpace(TrimLeft(s)[0]))
  {
    if s != "" && IsSpace(s[0]) {
      var rest := TrimLeftTrims(s[1..]);
      left := [s[0]] + rest;
    } else {
      left := "";
    }
  }

  lemma {:induction false} TrimRightTrims(s: string) returns (right: string)
    ensures s == TrimRight(s) + right && Blank(right) && (TrimRight(s) != "" ==> !IsSpace(TrimRight(s)[|TrimRight(s)| - 1]))
    ensures TrimRight(s) != "" ==> TrimRight(s)[0] == s[0]
  {
    if s != "" && IsSpace(s[|s| - 1]) {
      var rest := TrimRightTrims(s[..|s| - 1]);
      right := rest + [s[|s| - 1]];
    } else {
      right := "";
    }
  }

  // ----- renewals -----

  /** A renewal adds minutes to the account's own expiry. An expired account whose new expiry lies ahead is
      active again, and its enabling is queued; any other status, and then the queue, stay as they are. */
  ghost predicate RenewedBy(db: Db, db': Db, a: nat, minutes: int, now: int) {
    && a in db.accounts && a in db'.accounts && db'.accounts == db.accounts[a := db'.accounts[a]]
    && var before, after := db.accounts[a], db'.accounts[a];
       && after.expiresAt == before.expiresAt + 60 * SECOND * minutes && after.version == before.version + 1 && after.updatedAt == now
       && after.id == before.id && after.embyUserId == before.embyUserId && after.username == before.username
       && after.note == before.note && after.createdAt == before.createdAt
       && if before.status == Expired && now < after.expiresAt then after.status == Active && after.disabledAt == None && JobQueued(db.jobs, db'.jobs, a, false, now)
          else after.status == before.status && after.disabledAt == before.disabledAt && db'.jobs == db.jobs
  }

  /** A renewal by a code succeeds exactly for an account of that name and a code that can be used, and is
      then one use of it, the extended account and its redemption. */
  lemma RedemptionRenews(db: Db, codeHash: string, username: string, now: int) returns (a: nat, i: nat)
    requires Sound(db)
    ensures var tx := T.RedeemRenewal(db, codeHash, username, now);
      if !NameTaken(db.accounts, username) then tx == Tx(db, Failure(NotFound))
      else if now == ZERO_TIME || NoneUsable(db.invites, codeHash, now) then tx == Tx(db, Failure(InviteNotRedeemable))
      else
        && a in db.accounts && SameName(db.accounts[a].username, username)
        && i in db.invites && Usable(db.invites[i], codeHash, now) && OneUseMore(db.invites, tx.db.invites, i)
        && RenewedBy(db, tx.db, a, db.invites[i].durationMinutes, now) && tx.result == Success(tx.db.accounts[a])
        && tx.db.redemptions == db.redemptions[db.nextRedemption :=
             Redemption(i, a, Renewal, db.invites[i].durationDays, db.invites[i].durationMinutes, now)]
  {
    i := CodeInvite(db, codeHash, now);
    hide Sound, Usable, NoneUsable, SameName, T.Redeemable, T.RenewAccount;
    var found := T.FindAccountByUsername(db.accounts, username);
    a := if found.Some? then found.value else 0;
    hide RenewedBy;
    if found.Some? && i in db.invites {
      RenewalFramed(db, T.UseInvite(db.invites, i), a, db.invites[i].durationMinutes, now);
    }
  }

  // The invites do not matter to a renewal.
  lemma RenewalFramed(db: Db, invites: map<nat, Invite>, a: nat, minutes: int, now: int)
    requires a in db.accounts
    ensures var db' := T.RenewAccount(db.(invites := invites), a, minutes, now);
      RenewedBy(db, db', a, minutes, now) && db'.invites == invites && db'.redemptions == db.redemptions && db'.nextRedemption == db.nextRedemption
  {
  }

  // ----- payments -----

  /** The order is paid and fulfilled; what was ordered stays. */
  ghost predicate PaidFor(order: Order, order': Order, input: T.PaymentInput) {
    && order'.paymentStatus == Paid && order'.fulfillment == Fulfilled && order'.providerStatus == "PAID" && order'.failureReason == ""
    && order'.paidAt == Some(input.paidAt) && order'.updatedAt == input.now && order'.providerPaymentKey == input.providerPaymentKey
    && order'.id == order.id && order'.publicToken == order.publicToken && order'.merchantOrderNo == order.merchantOrderNo
    && order'.kind == order.kind && order'.planName == order.planName && order'.accountId == order.accountId
    && order'.accountUsername == order.accountUsername && order'.durationDays == order.durationDays
    && order'.durationMinutes == order.durationMinutes && order'.amountFen == order.amountFen && order'.currency == order.currency
    && order'.expiresAt == order.expiresAt && order'.createdAt == order.createdAt
  }

  ghost predicate Evidenced(db: Db, db': Db, order: Order, input: T.PaymentInput) {
    && input.eventId !in db.events && input.eventId in db'.events && db'.events == db.events[input.eventId := db'.events[input.eventId]]
    && var event := db'.events[input.eventId];
       && event.orderId == order.id && event.amountFen == input.amountFen && event.currency == input.currency
       && event.payloadHash == input.payloadHash && event.receivedAt == input.now
       && event.eventType == if input.eventType == "" then "order.paid" else input.eventType
  }

  /** What an activation sells: one use of the code that was sent, at any time, for the order's time. */
  ghost predicate SoldCode(invite: Invite, order: Order, input: T.PaymentInput) {
    && invite.code == input.code && invite.codeHash == input.codeHash && invite.codePrefix == input.codePrefix && invite.enabled
    && invite.durationDays == order.durationDays && invite.durationMinutes == order.durationMinutes
    && invite.maxUses == 1 && invite.usedCount == 0 && invite.startsAt == None && invite.expiresAt == None && invite.createdAt == input.now
  }

  /** A payment that delivers an order: its event, the paid order, and the benefit of its kind. */
  ghost predicate Delivered(db: Db, db': Db, input: T.PaymentInput)
    requires input.orderId in db.orders
  {
    var order := db.orders[input.orderId];
    && input.orderId in db'.orders && db'.orders == db.orders[input.orderId := db'.orders[input.orderId]]
    && PaidFor(order, db'.orders[input.orderId], input) && Evidenced(db, db', order, input)
    && match order.kind
       case ActivationOrder =>
         && db'.accounts == db.accounts && db'.jobs == db.jobs && db'.orders[input.orderId].inviteId == Some(db.nextInvite)
         && db.nextInvite in db'.invites && db'.invites == db.invites[db.nextInvite := db'.invites[db.nextInvite]]
         && SoldCode(db'.invites[db.nextInvite], order, input)
       case RenewalOrder =>
         && db'.invites == db.invites && order.accountId.Some?
         && RenewedBy(db, db', order.accountId.value, order.durationMinutes, input.now)
  }

  ghost predicate Undelivered(db: Db, input: T.PaymentInput) {
    input.orderId in db.orders && db.orders[input.orderId].fulfillment != Fulfilled
  }

  lemma RecordingDelivers(db: Db, input: T.PaymentInput)
    requires Undelivered(db, input) && db.orders[input.orderId].id == input.orderId && input.eventId !in db.events
    ensures var tx := T.RecordPayment(db, db.orders[input.orderId], input);
      tx.result.Success? ==> Delivered(db, tx.db, input) && tx.result.value == tx.db.orders[input.orderId]
  {
    hide TrimSpace, T.FindInviteByHash, RenewedBy, T.RenewAccount;
    var order := db.orders[input.orderId];
    if order.kind == RenewalOrder && order.accountId.Some? && order.accountId.value in db.accounts {
      RenewalAlone(db, order.accountId.value, order.durationMinutes, input.now);
    }
  }

  // A renewal is the same whatever else the transaction writes.
  lemma RenewalAlone(db: Db, a: nat, minutes: int, now: int)
    requires a in db.accounts
    ensures var db' := T.RenewAccount(db, a, minutes, now);
      && db'.invites == db.invites && db'.orders == db.orders && db'.events == db.events
      && forall events, orders :: RenewedBy(db, db'.(events := events, orders := orders), a, minutes, now)
  {
  }

  /** A payment of an order that is not fulfilled yet, when it is accepted, delivers it. */
  lemma PaymentDelivers(db: Db, input: T.PaymentInput)
    requires Sound(db) && Undelivered(db, input)
    ensures var tx := T.FulfillPaymentOrder(db, input);
      tx.result.Success? ==> Delivered(db, tx.db, input) && tx.result.value == tx.db.orders[input.orderId]
  {
    OrderFacts(db, input.orderId);
    OwnEventIsPaid(db, input);
    if input.eventId !in db.events {
      RecordingDelivers(db, input);
    }
    hide Sound, T.RecordPayment, Delivered, TrimSpace;
  }

  lemma OwnEventIsPaid(db: Db, input: T.PaymentInput)
    requires Sound(db) && Undelivered(db, input)
    ensures input.eventId in db.events ==> db.events[input.eventId].orderId != input.orderId
  {
    assert EventsSound(db.events, db.orders);
    hide Sound;
    if input.eventId in db.events {
      assert HasEvent(db.events, db.events[input.eventId].orderId);
    }
  }

  /** The code that was sold is good from then on: at any time t it is the one usable invite with its hash;
      a registration with it gets, and a renewal with it adds, the minutes of the order. */
  lemma SoldCodeWorks(db: Db, input: T.PaymentInput, t: int, request: T.OperationInput, username: string)
    requires Sound(db) && Undelivered(db, input) && db.orders[input.orderId].kind == ActivationOrder
    requires T.FulfillPaymentOrder(db, input).result.Success?
    ensures var db', order := T.FulfillPaymentOrder(db, input).db, db.orders[input.orderId];
      && T.FindInviteByHash(db'.invites, input.codeHash) == Some(db.nextInvite)
      && db.nextInvite in db'.invites && Usable(db'.invites[db.nextInvite], input.codeHash, t)
      && T.ConsumeInvite(db', input.codeHash, t).result.Success?
      && (KeyIsNew(db', request.kind, request.key) && !NameTaken(db'.accounts, request.username) && request.now == t ==>
            var tx := T.BeginRegistrationOperation(db', request, input.codeHash);
            tx.result.Success? && tx.result.value.expiresAt == t + 60 * SECOND * order.durationMinutes)
      && (NameTaken(db'.accounts, username) && t != ZERO_TIME ==>
            var tx := T.RedeemRenewal(db', input.codeHash, username, t);
            tx.result.Success? && NamesakeRenewed(db', tx.db, username, order.durationMinutes, t))
  {
    var db', order := T.FulfillPaymentOrder(db, input).db, db.orders[input.orderId];
    PaymentDelivers(db, input);
    SoundFulfillPaymentOrder(db, input);
    OrderFacts(db, input.orderId);
    var i := db.nextInvite;
    OnlyInvite(db', input.codeHash, i);
    assert Usable(db'.invites[i], input.codeHash, t);
    hide Sound, T.FulfillPaymentOrder, SameName, RenewedBy, Delivered;
    var consumed := OpenInvite(db', input.codeHash, t);
    if KeyIsNew(db', request.kind, request.key) && !NameTaken(db'.accounts, request.username) && request.now == t {
      var reserved := RegistrationStores(db', request, input.codeHash);
    }
    if NameTaken(db'.accounts, username) && t != ZERO_TIME {
      var a, redeemed := RedemptionRenews(db', input.codeHash, username, t);
    }
  }

  ghost predicate NamesakeRenewed(db: Db, db': Db, username: string, minutes: int, now: int) {
    exists a :: a in db.accounts && SameName(db.accounts[a].username, username) && RenewedBy(db, db', a, minutes, now)
  }

  lemma OnlyInvite(db: Db, codeHash: string, i: nat)
    requires Sound(db) && i in db.invites && db.invites[i].codeHash == codeHash
    ensures T.FindInviteByHash(db.invites, codeHash) == Some(i)
    ensures forall j :: j in db.invites && db.invites[j].codeHash == codeHash ==> j == i
  {
    assert InvitesSound(db.invites, db.nextInvite);
  }

  // ----- orders -----

  /** An order is accepted exactly under a new token and number, for some time, at a price in CNY, and for an
      account that exists if it names one; it is then pending, as it was asked for. */
  lemma OrderAccepted(db: Db, draft: Order)
    ensures var tx := T.CreatePaymentOrder(db, draft);
      && (tx.result.Success? <==>
            && (forall o :: o in db.orders ==> db.orders[o].publicToken != draft.publicToken && db.orders[o].merchantOrderNo != draft.merchantOrderNo)
            && draft.durationDays >= 1 && draft.durationMinutes >= 1 && draft.amountFen >= 1 && draft.currency == "CNY"
            && (draft.accountId.None? || draft.accountId.value in db.accounts))
      && (tx.result.Failure? ==> tx == Tx(db, Failure(ConstraintViolation)))
      && (tx.result.Success? ==> AsOrdered(db, tx.db, tx.result.value, draft))
  {
  }

  ghost predicate AsOrdered(db: Db, db': Db, order: Order, draft: Order) {
    && order.id == db.nextOrder && db' == db.(orders := db.orders[order.id := order], nextOrder := db.nextOrder + 1)
    && order.publicToken == draft.publicToken && order.merchantOrderNo == draft.merchantOrderNo && order.kind == draft.kind
    && order.planName == draft.planName && order.accountId == draft.accountId && order.accountUsername == draft.accountUsername
    && order.durationDays == draft.durationDays && order.durationMinutes == draft.durationMinutes && order.amountFen == draft.amountFen
    && order.currency == draft.currency && order.expiresAt == draft.expiresAt && order.createdAt == draft.createdAt
    && order.paymentStatus == PaymentPending && order.fulfillment == FulfillmentPending && order.paidAt == None && order.inviteId == None
  }

  /** Provider data reach only an order that is not fulfilled, and touch nothing that was ordered. */
  lemma ProviderTells(db: Db, id: nat, status: string, url: string, memo: string, expiresAt: int, now: int)
    requires id in db.orders
    ensures var order, told := db.orders[id], T.UpdatePaymentProvider(db, id, status, url, memo, expiresAt, now);
      && told.result.Success? && id in told.db.orders && told.result.value == told.db.orders[id]
      && told.db == db.(orders := db.orders[id := told.db.orders[id]])
      && told.db.orders[id] == if order.fulfillment == Fulfilled then order
           else order.(providerStatus := status, paymentUrl := url, paymentMemo := memo, expiresAt := expiresAt, updatedAt := now)
  {
  }

  /** Closing reaches only an order that is not fulfilled, and leaves a paid status alone. */
  lemma OrderCloses(db: Db, id: nat, closing: PaymentStatus, status: string, reason: string, now: int)
    requires id in db.orders
    ensures var order, db' := db.orders[id], T.SetPaymentOrderState(db, id, closing, status, reason, now);
      && id in db'.orders && db' == db.(orders := db.orders[id := db'.orders[id]])
      && db'.orders[id] == if order.fulfillment == Fulfilled then order
           else order.(paymentStatus := if order.paymentStatus == Paid then Paid else closing, providerStatus := status,
                       failureReason := TrimSpace(reason), updatedAt := now)
  {
    hide TrimSpace;
  }

  // ----- invites -----

  /** An invite is created unused under a new code, for at least a day, with a limit that is not negative and
      a period that is not empty. */
  lemma InviteAccepted(db: Db, invite: Invite)
    ensures var tx := T.CreateInvite(db, invite);
      && (tx.result.Success? <==>
            && (forall i :: i in db.invites ==> db.invites[i].codeHash != invite.codeHash) && invite.durationDays >= 1 && invite.maxUses >= 0
            && (invite.startsAt.Some? && invite.expiresAt.Some? ==> TextBefore(invite.startsAt.value, invite.expiresAt.value)))
      && (tx.result.Failure? ==> tx == Tx(db, Failure(ConstraintViolation)))
      && (tx.result.Success? ==>
            && tx.result.value == invite.(id := db.nextInvite, usedCount := 0)
            && tx.db == db.(invites := db.invites[db.nextInvite := tx.result.value], nextInvite := db.nextInvite + 1))
  {
  }

  /** A use is taken exactly from an invite that is open, and given back at most once for each. */
  lemma UseAndRelease(db: Db, codeHash: string, now: int, id: nat) returns (i: nat)
    requires Sound(db)
    ensures var tx := T.ConsumeInvite(db, codeHash, now);
      if NoneOpen(db.invites, codeHash, now) then tx.db == db && tx.result.Failure?
      else
        && i in db.invites && Open(db.invites[i], codeHash, now)
        && OneUseMore(db.invites, tx.db.invites, i) && tx.result == Success(tx.db.invites[i]) && tx.db == db.(invites := tx.db.invites)
    ensures var db' := T.ReleaseInvite(db, id);
      if id !in db.invites then db' == db
      else
        && id in db'.invites && db' == db.(invites := db.invites[id := db'.invites[id]])
        && db'.invites[id] == db.invites[id].(usedCount := db'.invites[id].usedCount)
        && (db.invites[id].usedCount > 0 ==> db'.invites[id].usedCount == db.invites[id].usedCount - 1)
        && (db.invites[id].usedCount <= 0 ==> db'.invites[id].usedCount == 0)
  {
    i := OpenInvite(db, codeHash, now);
    ConsumedInvite(db, codeHash, now);
    hide Sound, Open, NoneOpen, T.InOpenPeriod;
  }

  /** Switching an invite changes nothing else; an invite goes exactly when no redemption and no operation
      names it, and then the orders that did forget it. */
  lemma SwitchedOrGone(db: Db, id: nat, enabled: bool)
    ensures var tx := T.SetInviteEnabled(db, id, enabled);
      if id !in db.invites then tx == Tx(db, Failure(NotFound))
      else
        && tx.result.Success? && tx.db == db.(invites := tx.db.invites)
        && tx.db.invites.Keys == db.invites.Keys && tx.db.invites[id].enabled == enabled
        && tx.db.invites == db.invites[id := db.invites[id].(enabled := tx.db.invites[id].enabled)]
    ensures var tx := T.DeleteInvite(db, id);
      && (tx.result.Success? <==> id in db.invites && Unnamed(db, id))
      && (tx.result.Failure? ==> tx == Tx(db, Failure(if id in db.invites then ConstraintViolation else NotFound)))
      && (tx.result.Success? ==>
            && tx.db == db.(invites := tx.db.invites, orders := tx.db.orders) && tx.db.orders.Keys == db.orders.Keys
            && (forall i :: i in tx.db.invites <==> i in db.invites && i != id)
            && (forall i :: i in tx.db.invites ==> tx.db.invites[i] == db.invites[i])
            && (forall o :: o in db.orders ==> ForgotInvite(db.orders[o], tx.db.orders[o], id)))
  {
  }

  ghost predicate ForgotInvite(order: Order, order': Order, invite: nat) {
    if order.inviteId == Some(invite) then order'.inviteId == None && order == order'.(inviteId := Some(invite)) else order' == order
  }

  ghost predicate Unnamed(db: Db, invite: nat) {
    && (forall d :: d in db.redemptions ==> db.redemptions[d].inviteId != invite)
    && (forall o :: o in db.operations ==> db.operations[o].inviteId != Some(invite))
  }

  // ----- checkpoints and records -----

  /** Each checkpoint moves on the operation's last change, by which recovery picks the longest waiting. */
  lemma CheckpointsStamp(db: Db, o: nat, user: string, now: int)
    requires o in db.operations
    ensures var operation, db' := db.operations[o], T.MarkAccountCreateOperationCreating(db, o, now);
      db' == if operation.status != OperationStatus.Pending then db
             else db.(operations := db.operations[o := operation.(status := Creating, updatedAt := now)])
    ensures var operation, tx := db.operations[o], T.SaveAccountCreateOperationRemote(db, o, user, now);
      && (tx.result.Success? <==> (operation.embyUserId.None? && operation.status != Completed) || operation.embyUserId == Some(user))
      && (tx.result.Failure? ==> tx == Tx(db, Failure(DifferentEmbyUser)))
      && tx.db == if tx.result.Failure? || operation.status == Completed then db
           else db.(operations := db.operations[o := operation.(embyUserId := Some(user), status := RemoteCreated, updatedAt := now)])
  {
  }

  /** What an attempt is recorded under: the job that was queued with its revision, and no newer one. */
  lemma RecordsUnderRevision(jobs: map<nat, Job>, a: nat, revision: nat, message: string, now: int)
    ensures var current, done := a in jobs && jobs[a].revision == revision, T.CompleteAccessSync(jobs, a, revision);
      (forall b :: b in done ==> b in jobs && done[b] == jobs[b]) && (forall b :: b in jobs ==> (b in done <==> !(b == a && current)))
    ensures var current, failed := a in jobs && jobs[a].revision == revision, T.FailAccessSync(jobs, a, revision, message, now);
      && failed.Keys == jobs.Keys && (forall b :: b in jobs && !(b == a && current) ==> failed[b] == jobs[b])
      && (current ==> failed[a] == jobs[a].(attempts := jobs[a].attempts + 1, lastError := message, updatedAt := now))
  {
  }

  // ----- laws of histories -----

  ghost predicate SwitchesTo(step: Step, status: Status) {
    step.OfAccounts? && if status == Disabled then step.account.Disable? else step.account.Enable?
  }

  ghost predicate Renews(step: Step) {
    (step.OfInvites? && step.invite.Redeem?) || (step.OfPayments? && step.payment.Deliver?)
  }

  ghost predicate EndsTime(step: Step) {
    (step.OfWorker? && step.worker.ExpireNext?) || (step.OfAccounts? && (step.account.Update? || step.account.BatchShift?))
  }

  /** Who changes an account's status, and to what: only an administrator disables, or takes a disabled account
      out of that; only a renewal or an administrator reactivates an expired one; only the end of its time
      lets an active one expire. */
  ghost predicate StatusMoves(step: Step, before: Status, after: Status) {
    || after == before
    || (after == Disabled && SwitchesTo(step, Disabled))
    || (after == Active && SwitchesTo(step, Active))
    || (before == Expired && after == Active && Renews(step))
    || (before == Active && after == Expired && EndsTime(step))
  }

  ghost predicate StatusesMove(accounts: map<nat, Account>, accounts': map<nat, Account>, step: Step) {
    forall a :: a in accounts && a in accounts' ==> StatusMoves(step, accounts[a].status, accounts'[a].status)
  }

  lemma EditMovesStatus(s: State, step: Step, snap: Account, expiresAt: int, note: string, intended: int, now: int)
    requires OutboxHolds(s) && snap in s.readAccounts && EndsTime(step)
    ensures StatusesMove(s.db.accounts, ApplyEdit(s, snap, expiresAt, note, intended, now).db.accounts, step)
  {
    if T.VersionMatches(s.db, snap) {
      AcceptedSnapshotIsLive(s, snap);
    }
    hide OutboxHolds, T.UpsertAccessSyncJob, TrimSpace;
  }

  lemma WriteMovesStatus(db: Db, snap: Account, status: Status, disabledAt: Option<int>, now: int, step: Step)
    requires T.VersionMatches(db, snap) ==> StatusMoves(step, db.accounts[snap.id].status, status)
    ensures StatusesMove(db.accounts, T.SetAccountStatus(db, snap, status, disabledAt, now).db.accounts, step)
  {
    hide T.UpsertAccessSyncJob, SwitchesTo, Renews, EndsTime;
  }

  lemma InsertMovesNothing(s: State, account: Account)
    requires Sound(s.db)
    ensures StatusesMove(s.db.accounts, DoAccounts(s, InsertDirectly(account)).db.accounts, OfAccounts(InsertDirectly(account)))
  {
    NewAccountFacts(s.db);
    hide Sound, T.AccountFree, SwitchesTo, Renews, EndsTime;
  }

  lemma DeleteMovesNothing(s: State, id: nat)
    ensures StatusesMove(s.db.accounts, DoAccounts(s, DeleteLocally(id)).db.accounts, OfAccounts(DeleteLocally(id)))
  {
    hide T.OperationsWithout, T.RedemptionsWithout, T.WithoutAccount, SwitchesTo, Renews, EndsTime;
  }

  lemma AccountStepMoves(s: State, action: AccountAction)
    requires Sound(s.db) && OutboxHolds(s)
    ensures StatusesMove(s.db.accounts, DoAccounts(s, action).db.accounts, OfAccounts(action))
  {
    hide Sound, OutboxHolds, ApplyEdit, T.SetAccountStatus, T.CreateAccount, T.DeleteAccount;
    match action
    case ReadAccount(_) =>
    case Update(snap, expiresAt, note, now) =>
      if snap in s.readAccounts {
        EditMovesStatus(s, OfAccounts(action), snap, expiresAt, note, expiresAt - snap.expiresAt, now);
      }
    case BatchShift(first, second, shift, now) =>
      if second in s.readAccounts {
        EditMovesStatus(s, OfAccounts(action), second, first.expiresAt + shift, first.note, shift, now);
      }
    case Disable(snap, now) => WriteMovesStatus(s.db, snap, Disabled, Some(now), now, OfAccounts(action));
    case Enable(snap, checkedAt, now) => WriteMovesStatus(s.db, snap, Active, None, now, OfAccounts(action));
    case InsertDirectly(account) => InsertMovesNothing(s, account);
    case QueueDirectly(snap, now) =>
      if snap in s.readAccounts {
        if T.VersionMatches(s.db, snap) {
          AcceptedSnapshotIsLive(s, snap);
        }
        WriteMovesStatus(s.db, snap, snap.status, snap.disabledAt, now, OfAccounts(action));
      }
    case DeleteRemotely(_, _, _) =>
    case DeleteLocally(id) => DeleteMovesNothing(s, id);
  }

  lemma WorkerStepMoves(s: State, action: WorkerAction)
    requires OutboxHolds(s)
    ensures StatusesMove(s.db.accounts, DoWorker(s, action).db.accounts, OfWorker(action))
  {
    if action.ExpireNext? && s.worker.Expiring? && s.worker.due != [] {
      var account := s.worker.due[0];
      assert account in s.worker.due;
      if T.VersionMatches(s.db, account) {
        AcceptedSnapshotIsLive(s, account);
      }
      WriteMovesStatus(s.db, account, Expired, Some(s.worker.now), s.worker.now, OfWorker(action));
    }
    hide OutboxHolds, T.SetAccountStatus, IsDueList, IsBatch, Snapshots;
  }

  lemma ProvisionKeepsAccounts(db: Db, o: nat, now: int)
    requires db.nextAccount !in db.accounts && o in db.operations && db.operations[o].embyUserId.Some?
    ensures var db' := T.ProvisionAccount(db, o, db.operations[o], now).db;
      forall a :: a in db.accounts ==> a in db'.accounts && db'.accounts[a] == db.accounts[a]
  {
    hide T.UpsertAccessSyncJob, T.AccountFree, T.ProvisionedAccount;
  }

  lemma FinishKeepsAccounts(db: Db, o: nat, now: int)
    requires Sound(db)
    ensures var db' := T.CompleteAccountCreateOperation(db, o, now).db;
      forall a :: a in db.accounts ==> a in db'.accounts && db'.accounts[a] == db.accounts[a]
  {
    NewAccountFacts(db);
    hide Sound, T.ProvisionAccount;
    if o in db.operations && db.operations[o].embyUserId.Some? {
      ProvisionKeepsAccounts(db, o, now);
    }
  }

  lemma ReservationMovesNobody(db: Db, input: T.OperationInput, codeHash: string)
    ensures T.BeginRegistrationOperation(db, input, codeHash).db.accounts == db.accounts
  {
    hide T.FindAccountByUsername, T.FindInviteByHash, T.Redeemable, T.UseInvite, T.NewOperation;
  }

  lemma SagaStepMoves(s: State, action: SagaAction)
    requires Sound(s.db)
    ensures StatusesMove(s.db.accounts, DoSaga(s, action).db.accounts, OfSaga(action))
  {
    if action.Finish? && s.driver.Finishing? {
      FinishKeepsAccounts(s.db, s.driver.operationId, action.now);
    }
    if action.BeginRegister? {
      ReservationMovesNobody(s.db, action.input.(kind := Register), action.codeHash);
    }
    hide Sound, T.CompleteAccountCreateOperation, T.BeginRegistrationOperation, NamedLikeOperation, T.FindAccountByUsername;
  }

  lemma InviteStepMoves(s: State, action: InviteAction)
    ensures StatusesMove(s.db.accounts, DoInvites(s, action).db.accounts, OfInvites(action))
  {
    hide T.UpsertAccessSyncJob, T.FindAccountByUsername, T.FindInviteByHash, T.Redeemable, T.UseInvite;
  }

  lemma RecordingMovesStatus(db: Db, order: Order, input: T.PaymentInput, step: Step)
    requires Renews(step)
    ensures StatusesMove(db.accounts, T.RecordPayment(db, order, input).db.accounts, step)
  {
    hide TrimSpace, T.PaidEvent, T.PaidOrder, T.UpsertAccessSyncJob, T.FindInviteByHash, T.ActivationInvite;
  }

  lemma PaymentStepMoves(s: State, action: PaymentAction)
    ensures StatusesMove(s.db.accounts, DoPayments(s, action).db.accounts, OfPayments(action))
  {
    if action.Deliver? {
      var input := Sent(action.order, action.payment);
      if input.orderId in s.db.orders {
        RecordingMovesStatus(s.db, s.db.orders[input.orderId], input, OfPayments(action));
      }
    }
    hide T.InvalidPaymentInput, T.RecordPayment, Sent;
  }

  lemma StatusesNext(s: State, step: Step)
    requires Sound(s.db) && OutboxHolds(s)
    ensures StatusesMove(s.db.accounts, Next(s, step).db.accounts, step)
  {
    hide Sound, OutboxHolds, StatusMoves, DoAccounts, DoWorker, DoSaga, DoInvites, DoPayments;
    match step
    case OfAccounts(action) => AccountStepMoves(s, action);
    case OfWorker(action) => WorkerStepMoves(s, action);
    case OfSaga(action) => SagaStepMoves(s, action);
    case OfInvites(action) => InviteStepMoves(s, action);
    case OfPayments(action) => PaymentStepMoves(s, action);
    case OfOthers(_) =>
      forall a | a in s.db.accounts
        ensures StatusMoves(step, s.db.accounts[a].status, s.db.accounts[a].status)
      {
        NobodyMoves(step, s.db.accounts[a].status);
      }
  }

  /** The law of statuses, at every step of every run. */
  lemma StatusLaw(h: History, n: nat, a: nat)
    requires IsRun(h) && n < |h.steps|
    requires a in h.states[n].db.accounts && a in h.states[n + 1].db.accounts
    ensures StatusMoves(h.steps[n], h.states[n].db.accounts[a].status, h.states[n + 1].db.accounts[a].status)
  {
    hide Sound, OutboxHolds, LedgersHold, StatusMoves, Next;
    Reachable(h, n);
    StepTaken(h, n);
    StatusesNext(h.states[n], h.steps[n]);
  }

  lemma NobodyMoves(step: Step, status: Status)
    ensures StatusMoves(step, status, status)
  {
  }

  // ----- what an invite stays -----

  ghost predicate InvitesKeep(invites: map<nat, Invite>, invites': map<nat, Invite>) {
    forall i :: i in invites && i in invites' ==>
      invites'[i] == invites[i].(usedCount := invites'[i].usedCount, enabled := invites'[i].enabled)
  }

  lemma InvitesKeepAll(invites: map<nat, Invite>)
    ensures InvitesKeep(invites, invites)
  {
  }

  lemma UseKeepsInvites(invites: map<nat, Invite>, i: nat)
    requires i in invites
    ensures InvitesKeep(invites, T.UseInvite(invites, i))
  {
  }

  lemma ReservationKeepsInvites(db: Db, input: T.OperationInput, codeHash: string)
    ensures InvitesKeep(db.invites, T.BeginRegistrationOperation(db, input, codeHash).db.invites)
  {
    var found := T.FindInviteByHash(db.invites, codeHash);
    if found.Some? {
      UseKeepsInvites(db.invites, found.value);
    }
    hide T.FindAccountByUsername, T.Redeemable, T.UseInvite, T.NewOperation, InvitesKeep;
    InvitesKeepAll(db.invites);
  }

  lemma FinishKeepsInvites(db: Db, o: nat, now: int)
    ensures T.CompleteAccountCreateOperation(db, o, now).db.invites == db.invites
  {
    hide T.UpsertAccessSyncJob, T.AccountFree, T.ProvisionedAccount;
  }

  lemma SagaKeepsInvites(s: State, action: SagaAction)
    ensures InvitesKeep(s.db.invites, DoSaga(s, action).db.invites)
  {
    InvitesKeepAll(s.db.invites);
    if action.BeginRegister? {
      ReservationKeepsInvites(s.db, action.input.(kind := Register), action.codeHash);
    }
    if action.Finish? && s.driver.Finishing? {
      FinishKeepsInvites(s.db, s.driver.operationId, action.now);
    }
    hide T.BeginRegistrationOperation, T.CompleteAccountCreateOperation, NamedLikeOperation, T.FindAccountByUsername, InvitesKeep;
  }

  lemma RedemptionKeepsInvites(db: Db, codeHash: string, username: string, now: int)
    ensures InvitesKeep(db.invites, T.RedeemRenewal(db, codeHash, username, now).db.invites)
  {
    var found := T.FindInviteByHash(db.invites, codeHash);
    if found.Some? {
      UseKeepsInvites(db.invites, found.value);
    }
    InvitesKeepAll(db.invites);
    hide T.UpsertAccessSyncJob, T.FindAccountByUsername, T.Redeemable, T.Renewed, T.Reactivated, T.UseInvite, InvitesKeep;
  }

  lemma ConsumptionKeepsInvites(db: Db, codeHash: string, now: int)
    ensures InvitesKeep(db.invites, T.ConsumeInvite(db, codeHash, now).db.invites)
  {
    var found := T.FindInviteByHash(db.invites, codeHash);
    if found.Some? {
      UseKeepsInvites(db.invites, found.value);
    }
    InvitesKeepAll(db.invites);
    hide T.InOpenPeriod, T.UseInvite, InvitesKeep;
  }

  lemma CreationKeepsInvites(db: Db, invite: Invite)
    requires InvitesSound(db.invites, db.nextInvite)
    ensures InvitesKeep(db.invites, T.CreateInvite(db, invite).db.invites)
  {
    hide T.FindInviteByHash;
  }

  lemma ReleaseKeepsInvites(db: Db, id: nat)
    ensures InvitesKeep(db.invites, T.ReleaseInvite(db, id).invites)
  {
  }

  lemma SwitchKeepsInvites(db: Db, id: nat, enabled: bool)
    ensures InvitesKeep(db.invites, T.SetInviteEnabled(db, id, enabled).db.invites)
    ensures InvitesKeep(db.invites, T.DeleteInvite(db, id).db.invites)
  {
    hide T.InviteReferenced, T.WithoutInvite;
  }

  lemma RegistrationKeepsInvites(s: State, redemption: Redemption)
    ensures ApplyRecordDirectly(s, redemption).db.invites == s.db.invites
  {
  }

  lemma InviteStepKeepsInvites(s: State, action: InviteAction)
    requires Sound(s.db)
    ensures InvitesKeep(s.db.invites, DoInvites(s, action).db.invites)
  {
    assert InvitesSound(s.db.invites, s.db.nextInvite);
    hide Sound;
    InvitesKeepAll(s.db.invites);
    match action {
      case Redeem(codeHash, username, now) => RedemptionKeepsInvites(s.db, codeHash, username, now);
      case Consume(codeHash, now) => ConsumptionKeepsInvites(s.db, codeHash, now);
      case NewInvite(invite) => CreationKeepsInvites(s.db, invite);
      case Release(id) => ReleaseKeepsInvites(s.db, id);
      case SwitchInvite(id, enabled) => SwitchKeepsInvites(s.db, id, enabled);
      case DropInvite(id) => SwitchKeepsInvites(s.db, id, false);
      case RecordDirectly(redemption) => RegistrationKeepsInvites(s, redemption);
    }
    hide T.RedeemRenewal, T.ConsumeInvite, T.CreateInvite, T.ReleaseInvite, T.SetInviteEnabled, T.DeleteInvite, T.FindInviteByHash,
      ApplyRecordDirectly, InvitesKeep, InvitesSound;
  }

  lemma RecordingKeepsInvites(db: Db, order: Order, input: T.PaymentInput)
    requires db.nextInvite !in db.invites
    ensures InvitesKeep(db.invites, T.RecordPayment(db, order, input).db.invites)
  {
    hide TrimSpace, T.PaidEvent, T.PaidOrder, T.Renewed, T.Reactivated, T.UpsertAccessSyncJob, T.FindInviteByHash, T.ActivationInvite;
  }

  lemma OrdersAlone(db: Db)
    ensures forall draft :: T.CreatePaymentOrder(db, draft).db.invites == db.invites
    ensures forall id, status, url, memo, expiresAt, now :: T.UpdatePaymentProvider(db, id, status, url, memo, expiresAt, now).db.invites == db.invites
    ensures forall id, closing, status, reason, now :: T.SetPaymentOrderState(db, id, closing, status, reason, now).invites == db.invites
  {
    hide TrimSpace;
  }

  lemma PaymentKeepsInvites(s: State, action: PaymentAction)
    requires Sound(s.db)
    ensures InvitesKeep(s.db.invites, DoPayments(s, action).db.invites)
  {
    assert InvitesSound(s.db.invites, s.db.nextInvite);
    assert s.db.nextInvite !in s.db.invites;
    InvitesKeepAll(s.db.invites);
    hide Sound, InvitesSound;
    if action.Deliver? {
      var input := Sent(action.order, action.payment);
      if input.orderId in s.db.orders {
        RecordingKeepsInvites(s.db, s.db.orders[input.orderId], input);
      }
    }
    hide T.InvalidPaymentInput, T.RecordPayment, T.CreatePaymentOrder, T.UpdatePaymentProvider, T.SetPaymentOrderState, Sent, InvitesKeep;
    OrdersAlone(s.db);
  }

  lemma AccountStepKeepsInvites(s: State, action: AccountAction)
    ensures DoAccounts(s, action).db.invites == s.db.invites
  {
    hide T.SetAccountStatus, TrimSpace, T.OperationsWithout, T.RedemptionsWithout, T.WithoutAccount, T.UpsertAccessSyncJob, T.AccountFree;
    hide ApplyEdit, T.CreateAccount;
    InsertKeepsInvites(s.db);
    match action {
      case Update(snap, expiresAt, note, now) => UpdateKeepsInvites(s, snap, expiresAt, note, expiresAt - snap.expiresAt, now);
      case BatchShift(first, second, shift, now) => UpdateKeepsInvites(s, second, first.expiresAt + shift, first.note, shift, now);
      case Disable(snap, now) => StatusKeepsInvites(s.db, snap, Disabled, Some(now), now);
      case Enable(snap, _, now) => StatusKeepsInvites(s.db, snap, Active, None, now);
      case QueueDirectly(snap, now) => StatusKeepsInvites(s.db, snap, snap.status, snap.disabledAt, now);
      case _ =>
    }
  }

  lemma InsertKeepsInvites(db: Db)
    ensures forall account :: T.CreateAccount(db, account).db.invites == db.invites
  {
    hide T.AccountFree;
  }

  lemma UpdateKeepsInvites(s: State, snap: Account, expiresAt: int, note: string, intended: int, now: int)
    ensures ApplyEdit(s, snap, expiresAt, note, intended, now).db.invites == s.db.invites
  {
    hide TrimSpace, T.UpsertAccessSyncJob;
  }

  lemma StatusKeepsInvites(db: Db, snap: Account, status: Status, disabledAt: Option<int>, now: int)
    ensures T.SetAccountStatus(db, snap, status, disabledAt, now).db.invites == db.invites
  {
    hide T.UpsertAccessSyncJob;
  }

  lemma WorkerKeepsInvites(s: State, action: WorkerAction)
    ensures DoWorker(s, action).db.invites == s.db.invites
  {
    hide T.UpsertAccessSyncJob, IsDueList, IsBatch, Snapshots, T.CompleteAccessSync, T.FailAccessSync;
  }

  lemma InvitesNext(s: State, step: Step)
    requires Sound(s.db)
    ensures InvitesKeep(s.db.invites, Next(s, step).db.invites)
  {
    InvitesKeepAll(s.db.invites);
    hide Sound, InvitesKeep, DoAccounts, DoWorker, DoSaga, DoInvites, DoPayments;
    match step
    case OfAccounts(action) => AccountStepKeepsInvites(s, action);
    case OfWorker(action) => WorkerKeepsInvites(s, action);
    case OfSaga(action) => SagaKeepsInvites(s, action);
    case OfInvites(action) => InviteStepKeepsInvites(s, action);
    case OfPayments(action) => PaymentKeepsInvites(s, action);
    case OfOthers(_) =>
  }

  /** No step changes an invite's code, durations, period or limit, so a sold code is good while it is enabled
      and unused. */
  lemma InviteTermsStay(h: History, n: nat, i: nat)
    requires IsRun(h) && n < |h.steps|
    requires i in h.states[n].db.invites && i in h.states[n + 1].db.invites
    ensures var before, after := h.states[n].db.invites[i], h.states[n + 1].db.invites[i];
      after == before.(usedCount := after.usedCount, enabled := after.enabled)
  {
    hide Sound, OutboxHolds, LedgersHold, Next;
    Reachable(h, n);
    StepTaken(h, n);
    InvitesNext(h.states[n], h.steps[n]);
  }
}
