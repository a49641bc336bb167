/** What each statement or transaction of the SQLite adapter does to the tables.

    A function here is the specification of the method of the same name in Store.dfy. The store's
    single connection makes each of them atomic; a refused transaction leaves the tables as they were. */
module Transactions {
  import opened Domain
  import opened Timestamps

  ghost function Refused<T>(db: Db, error: Error): Tx<T> {
    Tx(db, Failure(error))
  }

  // ----- lookups by a unique column -----

  ghost function FindAccountByUsername(accounts: map<nat, Account>, username: string): (r: Option<nat>)
    ensures r.Some? ==> r.value in accounts && SameName(accounts[r.value].username, username)
    ensures r.None? ==> forall id :: id in accounts ==> !SameName(accounts[id].username, username)
  {
    if id :| id in accounts && SameName(accounts[id].username, username) then Some(id) else None
  }

  ghost function FindInviteByHash(invites: map<nat, Invite>, codeHash: string): (r: Option<nat>)
    ensures r.Some? ==> r.value in invites && invites[r.value].codeHash == codeHash
    ensures r.None? ==> forall id :: id in invites ==> invites[id].codeHash != codeHash
  {
    if id :| id in invites && invites[id].codeHash == codeHash then Some(id) else None
  }

  ghost function FindOperationByKey(operations: map<nat, Operation>, kind: OperationKind, key: string): (r: Option<nat>)
    ensures r.Some? ==> r.value in operations && operations[r.value].kind == kind && operations[r.value].key == key
    ensures r.None? ==> forall id :: id in operations ==> operations[id].kind != kind || operations[id].key != key
  {
    if id :| id in operations && operations[id].kind == kind && operations[id].key == key then Some(id) else None
  }

  // ----- the access queue -----

  /** INSERT ... ON CONFLICT DO UPDATE: a queued job gets the new flag and the next revision. */
  ghost function UpsertAccessSyncJob(jobs: map<nat, Job>, accountId: nat, desiredDisabled: bool, now: int): map<nat, Job> {
    if accountId in jobs then
      jobs[accountId := jobs[accountId].(desiredDisabled := desiredDisabled, revision := jobs[accountId].revision + 1,
                                         attempts := 0, lastError := "", updatedAt := now)]
    else
      jobs[accountId := Job(desiredDisabled, 1, 0, "", now, now)]
  }

  ghost function CompleteAccessSync(jobs: map<nat, Job>, accountId: nat, revision: nat): map<nat, Job> {
    if accountId in jobs && jobs[accountId].revision == revision then jobs - {accountId} else jobs
  }

  ghost function FailAccessSync(jobs: map<nat, Job>, accountId: nat, revision: nat, message: string, now: int): map<nat, Job> {
    if accountId in jobs && jobs[accountId].revision == revision then
      jobs[accountId := jobs[accountId].(attempts := jobs[accountId].attempts + 1, lastError := message, updatedAt := now)]
    else jobs
  }

  // ----- accounts -----

  ghost predicate AccountFree(accounts: map<nat, Account>, embyUserId: string, username: string) {
    forall id :: id in accounts ==> accounts[id].embyUserId != embyUserId && !SameName(accounts[id].username, username)
  }

  ghost function CreateAccount(db: Db, account: Account): Tx<Account> {
    if !AccountFree(db.accounts, account.embyUserId, account.username) then Refused(db, ConstraintViolation)
    else
      var row := account.(id := db.nextAccount, version := 1);
      Tx(db.(accounts := db.accounts[db.nextAccount := row], nextAccount := db.nextAccount + 1), Success(row))
  }

  ghost predicate VersionMatches(db: Db, account: Account) {
    account.id in db.accounts && db.accounts[account.id].version == account.version
  }

  ghost function UpdateAccount(db: Db, account: Account): Tx<Account> {
    if !VersionMatches(db, account) then Refused(db, AccountVersionConflict)
    else
      var row := db.accounts[account.id];
      var row' := row.(expiresAt := account.expiresAt, note := account.note, updatedAt := account.updatedAt,
                       version := row.version + 1);
      Tx(db.(accounts := db.accounts[account.id := row']), Success(account.(version := account.version + 1)))
  }

  ghost function UpdateAccountAndExpire(db: Db, account: Account, disabledAt: int, now: int): Tx<Account> {
    if !VersionMatches(db, account) || db.accounts[account.id].status != Active then Refused(db, AccountVersionConflict)
    else
      var row := db.accounts[account.id];
      var row' := row.(expiresAt := account.expiresAt, note := account.note, status := Expired,
                       disabledAt := Some(disabledAt), updatedAt := now, version := row.version + 1);
      Tx(db.(accounts := db.accounts[account.id := row'], jobs := UpsertAccessSyncJob(db.jobs, account.id, true, now)),
         Success(account.(status := Expired, disabledAt := Some(disabledAt), updatedAt := now, version := account.version + 1)))
  }

  ghost function SetAccountStatus(db: Db, account: Account, status: Status, disabledAt: Option<int>, now: int): Tx<Account> {
    if !VersionMatches(db, account) then Refused(db, AccountVersionConflict)
    else
      var row := db.accounts[account.id];
      var row' := row.(status := status, disabledAt := disabledAt, updatedAt := now, version := row.version + 1);
      Tx(db.(accounts := db.accounts[account.id := row'],
             jobs := UpsertAccessSyncJob(db.jobs, account.id, status != Active, now)),
         Success(account.(status := status, disabledAt := disabledAt, updatedAt := now, version := account.version + 1)))
  }

  /** The saga operation and the redemptions go with the account; the queue row cascades and orders
      lose their reference. */
  ghost function DeleteAccount(db: Db, id: nat): Tx<()> {
    if id !in db.accounts then Refused(db, NotFound)
    else
      Tx(db.(accounts := db.accounts - {id}, jobs := db.jobs - {id},
             operations := OperationsWithout(db.operations, id), redemptions := RedemptionsWithout(db.redemptions, id),
             orders := WithoutAccount(db.orders, id)),
         Success(()))
  }

  ghost function OperationsWithout(operations: map<nat, Operation>, account: nat): map<nat, Operation> {
    map o | o in operations && operations[o].accountId != Some(account) :: operations[o]
  }

  ghost function RedemptionsWithout(redemptions: map<nat, Redemption>, account: nat): map<nat, Redemption> {
    map r | r in redemptions && redemptions[r].accountId != account :: redemptions[r]
  }

  // ON DELETE SET NULL
  ghost function WithoutAccount(orders: map<nat, Order>, account: nat): map<nat, Order> {
    map o | o in orders :: if orders[o].accountId == Some(account) then orders[o].(accountId := None) else orders[o]
  }

  /** An active account is due when its stored expiry is not after the stored text of now. */
  ghost predicate Due(account: Account, now: int) {
    account.status == Active && !TextBefore(now, account.expiresAt)
  }

  // ----- the provisioning saga -----

  datatype OperationInput = OperationInput(
    kind: OperationKind, key: string, fingerprint: string, username: string, passwordCiphertext: string,
    expiresAt: int, note: string, now: int)

  ghost function NewOperation(id: nat, input: OperationInput): Operation {
    Operation(id, input.kind, input.key, input.fingerprint, input.username, input.passwordCiphertext,
              input.expiresAt, input.note, None, None, 0, 0, None, None, Pending, input.now, input.now, None)
  }

  ghost function InsertOperation(db: Db, operation: Operation): Db {
    db.(operations := db.operations[db.nextOperation := operation], nextOperation := db.nextOperation + 1)
  }

  /** Begin for the kind AccountCreate. */
  ghost function BeginAccountCreateOperation(db: Db, input: OperationInput): Tx<Operation> {
    var replay := FindOperationByKey(db.operations, input.kind, input.key);
    if replay.Some? then
      if db.operations[replay.value].fingerprint != input.fingerprint then Refused(db, IdempotencyKeyConflict)
      else Tx(db, Success(db.operations[replay.value]))
    else if FindAccountByUsername(db.accounts, input.username).Some? then Refused(db, AccountAlreadyExists)
    else
      var operation := NewOperation(db.nextOperation, input);
      Tx(InsertOperation(db, operation), Success(operation))
  }

  ghost predicate InOpenPeriod(invite: Invite, now: int) {
    && invite.enabled
    && (invite.startsAt.Some? ==> invite.startsAt.value <= now)
    && (invite.expiresAt.Some? ==> now < invite.expiresAt.value)
    && (invite.maxUses > 0 ==> invite.usedCount < invite.maxUses)
  }

  ghost predicate Redeemable(invite: Invite, now: int) {
    InOpenPeriod(invite, now) && invite.durationMinutes >= 1
  }

  ghost function UseInvite(invites: map<nat, Invite>, id: nat): map<nat, Invite>
    requires id in invites
  {
    invites[id := invites[id].(usedCount := invites[id].usedCount + 1)]
  }

  /** Reserves one use of the invite and records the registration in one transaction. */
  ghost function BeginRegistrationOperation(db: Db, input: OperationInput, codeHash: string): Tx<Operation> {
    var replay := FindOperationByKey(db.operations, input.kind, input.key);
    if replay.Some? then
      if db.operations[replay.value].fingerprint != input.fingerprint then Refused(db, IdempotencyKeyConflict)
      else Tx(db, Success(db.operations[replay.value]))
    else if FindAccountByUsername(db.accounts, input.username).Some? then Refused(db, AccountAlreadyExists)
    else
      var id := FindInviteByHash(db.invites, codeHash);
      if id.None? || !Redeemable(db.invites[id.value], input.now) then Refused(db, InviteNotRedeemable)
      else
        var invite := db.invites[id.value];
        var operation := NewOperation(db.nextOperation, input).(
          expiresAt := input.now + Minutes(invite.durationMinutes), inviteCodeHash := Some(codeHash), inviteId := id,
          inviteDays := invite.durationDays, inviteMinutes := invite.durationMinutes);
        Tx(InsertOperation(db, operation).(invites := UseInvite(db.invites, id.value)), Success(operation))
  }

  ghost function MarkAccountCreateOperationCreating(db: Db, id: nat, now: int): Db {
    if id in db.operations && db.operations[id].status == Pending then
      db.(operations := db.operations[id := db.operations[id].(status := Creating, updatedAt := now)])
    else db
  }

  ghost function SaveAccountCreateOperationRemote(db: Db, id: nat, embyUserId: string, now: int): Tx<()> {
    if id !in db.operations then Refused(db, NotFound)
    else
      var operation := db.operations[id];
      if operation.status != Completed && (operation.embyUserId.None? || operation.embyUserId == Some(embyUserId)) then
        Tx(db.(operations := db.operations[id := operation.(embyUserId := Some(embyUserId), status := RemoteCreated, updatedAt := now)]),
           Success(()))
      else if operation.embyUserId == Some(embyUserId) then Tx(db, Success(()))
      else Refused(db, DifferentEmbyUser)
  }

  ghost function AddRedemption(db: Db, redemption: Redemption): Db {
    db.(redemptions := db.redemptions[db.nextRedemption := redemption], nextRedemption := db.nextRedemption + 1)
  }

  /** The account row that finishing an operation inserts. */
  ghost function ProvisionedAccount(operation: Operation, id: nat, now: int): Account
    requires operation.embyUserId.Some?
  {
    var expired := operation.expiresAt <= now;
    Account(id, 1, operation.embyUserId.value, operation.username, if expired then Expired else Active,
            operation.expiresAt, operation.note, now, now, if expired then Some(now) else None)
  }

  /** Inserts the account, the redemption of a registration and, for a period already over, the
      disabling job, and completes the operation. */
  ghost function ProvisionAccount(db: Db, id: nat, operation: Operation, now: int): Tx<Account>
    requires operation.embyUserId.Some?
  {
    var a := db.nextAccount;
    var account := ProvisionedAccount(operation, a, now);
    if !AccountFree(db.accounts, account.embyUserId, account.username) then Refused(db, ConstraintViolation)
    else if operation.kind == Register && operation.inviteId.None? then Refused(db, NoInvite)
    else if operation.kind == Register && operation.inviteId.value !in db.invites then Refused(db, ConstraintViolation)
    else
      var registered := operation.kind == Register;
      Tx(db.(accounts := db.accounts[a := account], nextAccount := a + 1,
             redemptions := if registered
               then db.redemptions[db.nextRedemption :=
                 Redemption(operation.inviteId.value, a, Registration, operation.inviteDays, operation.inviteMinutes, now)]
               else db.redemptions,
             nextRedemption := if registered then db.nextRedemption + 1 else db.nextRedemption,
             jobs := if account.status != Active then UpsertAccessSyncJob(db.jobs, a, true, now) else db.jobs,
             operations := db.operations[id := operation.(accountId := Some(a), status := Completed, updatedAt := now, completedAt := Some(now))]),
         Success(account))
  }

  ghost function CompleteAccountCreateOperation(db: Db, id: nat, now: int): Tx<Account> {
    if id !in db.operations then Refused(db, NotFound)
    else
      var operation := db.operations[id];
      if operation.status == Completed then
        if operation.accountId.None? || operation.accountId.value !in db.accounts then Refused(db, NotFound)
        else Tx(db, Success(db.accounts[operation.accountId.value]))
      else if operation.embyUserId.None? then Refused(db, NoEmbyUser)
      else ProvisionAccount(db, id, operation, now)
  }

  // ----- invites -----

  ghost function CreateInvite(db: Db, invite: Invite): Tx<Invite> {
    if FindInviteByHash(db.invites, invite.codeHash).Some? || invite.durationDays < 1 || invite.maxUses < 0 ||
       (invite.startsAt.Some? && invite.expiresAt.Some? && !TextBefore(invite.startsAt.value, invite.expiresAt.value)) then
      Refused(db, ConstraintViolation)
    else
      var row := invite.(id := db.nextInvite, usedCount := 0);
      Tx(db.(invites := db.invites[db.nextInvite := row], nextInvite := db.nextInvite + 1), Success(row))
  }

  ghost function SetInviteEnabled(db: Db, id: nat, enabled: bool): Tx<()> {
    if id !in db.invites then Refused(db, NotFound)
    else Tx(db.(invites := db.invites[id := db.invites[id].(enabled := enabled)]), Success(()))
  }

  ghost predicate InviteReferenced(db: Db, id: nat) {
    (exists r :: r in db.redemptions && db.redemptions[r].inviteId == id) ||
    (exists o :: o in db.operations && db.operations[o].inviteId == Some(id))
  }

  ghost function WithoutInvite(orders: map<nat, Order>, invite: nat): map<nat, Order> {
    map o | o in orders :: if orders[o].inviteId == Some(invite) then orders[o].(inviteId := None) else orders[o]
  }

  /** Foreign keys keep an invite that a redemption or an operation still names. */
  ghost function DeleteInvite(db: Db, id: nat): Tx<()> {
    if id !in db.invites then Refused(db, NotFound)
    else if InviteReferenced(db, id) then Refused(db, ConstraintViolation)
    else Tx(db.(invites := db.invites - {id}, orders := WithoutInvite(db.orders, id)), Success(()))
  }

  ghost function ConsumeInvite(db: Db, codeHash: string, now: int): Tx<Invite> {
    var id := FindInviteByHash(db.invites, codeHash);
    if id.None? then Refused(db, NotFound)
    else if !InOpenPeriod(db.invites[id.value], now) then Refused(db, InviteUnavailable)
    else
      var invites' := UseInvite(db.invites, id.value);
      Tx(db.(invites := invites'), Success(invites'[id.value]))
  }

  ghost function ReleaseInvite(db: Db, id: nat): Db {
    if id in db.invites then
      var invite := db.invites[id];
      db.(invites := db.invites[id := invite.(usedCount := if invite.usedCount > 0 then invite.usedCount - 1 else 0)])
    else db
  }

  ghost function RecordRedemption(db: Db, redemption: Redemption): Tx<()> {
    if redemption.inviteId !in db.invites || redemption.accountId !in db.accounts then Refused(db, ConstraintViolation)
    else Tx(AddRedemption(db, redemption), Success(()))
  }

  /** An account after a renewal: extended from its own expiry and, if it had expired, active again
      once the new expiry lies ahead. */
  ghost function Renewed(account: Account, minutes: int, now: int): Account {
    var expiresAt := account.expiresAt + Minutes(minutes);
    if account.status == Expired && now < expiresAt then
      account.(expiresAt := expiresAt, status := Active, disabledAt := None, updatedAt := now, version := account.version + 1)
    else
      account.(expiresAt := expiresAt, updatedAt := now, version := account.version + 1)
  }

  ghost predicate Reactivated(account: Account, minutes: int, now: int) {
    account.status == Expired && now < account.expiresAt + Minutes(minutes)
  }

  ghost function RenewAccount(db: Db, id: nat, minutes: int, now: int): Db
    requires id in db.accounts
  {
    db.(accounts := db.accounts[id := Renewed(db.accounts[id], minutes, now)],
        jobs := if Reactivated(db.accounts[id], minutes, now) then UpsertAccessSyncJob(db.jobs, id, false, now) else db.jobs)
  }

  ghost function RedeemRenewal(db: Db, codeHash: string, username: string, now: int): Tx<Account> {
    var a := FindAccountByUsername(db.accounts, username);
    var i := FindInviteByHash(db.invites, codeHash);
    if a.None? then Refused(db, NotFound)
    else if i.None? || now == ZERO_TIME || !Redeemable(db.invites[i.value], now) then Refused(db, InviteNotRedeemable)
    else
      var invite := db.invites[i.value];
      var db1 := RenewAccount(db.(invites := UseInvite(db.invites, i.value)), a.value, invite.durationMinutes, now);
      Tx(AddRedemption(db1, Redemption(i.value, a.value, Renewal, invite.durationDays, invite.durationMinutes, now)),
         Success(db1.accounts[a.value]))
  }

  // ----- payments -----

  ghost function CreatePaymentOrder(db: Db, order: Order): Tx<Order> {
    if (exists o :: o in db.orders && (db.orders[o].publicToken == order.publicToken || db.orders[o].merchantOrderNo == order.merchantOrderNo)) ||
       order.durationDays < 1 || order.durationMinutes < 1 || order.amountFen < 1 || order.currency != "CNY" ||
       (order.accountId.Some? && order.accountId.value !in db.accounts) then
      Refused(db, ConstraintViolation)
    else
      var row := order.(id := db.nextOrder, paymentStatus := PaymentPending, fulfillment := FulfillmentPending,
        providerStatus := "", paymentUrl := "", paymentMemo := "", providerPaymentKey := "", inviteId := None,
        failureReason := "", paidAt := None);
      Tx(db.(orders := db.orders[db.nextOrder := row], nextOrder := db.nextOrder + 1), Success(row))
  }

  ghost function UpdatePaymentProvider(db: Db, id: nat, status: string, url: string, memo: string, expiresAt: int, now: int): Tx<Order> {
    if id !in db.orders then Refused(db, NotFound)
    else if db.orders[id].fulfillment != FulfillmentPending then Tx(db, Success(db.orders[id]))
    else
      var row := db.orders[id].(providerStatus := status, paymentUrl := url, paymentMemo := memo, expiresAt := expiresAt, updatedAt := now);
      Tx(db.(orders := db.orders[id := row]), Success(row))
  }

  ghost function SetPaymentOrderState(db: Db, id: nat, status: PaymentStatus, providerStatus: string, reason: string, now: int): Db {
    if id !in db.orders || db.orders[id].fulfillment != FulfillmentPending then db
    else
      var order := db.orders[id];
      db.(orders := db.orders[id := order.(paymentStatus := if order.paymentStatus == Paid then Paid else status,
                                           providerStatus := providerStatus, failureReason := TrimSpace(reason), updatedAt := now)])
  }

  datatype PaymentInput = PaymentInput(
    orderId: nat, eventId: string, eventType: string, amountFen: int, currency: string, providerPaymentKey: string,
    payloadHash: string, paidAt: int, now: int, code: string, codeHash: string, codePrefix: string)

  ghost predicate InvalidPaymentInput(input: PaymentInput) {
    input.orderId < 1 || TrimSpace(input.eventId) == "" || input.amountFen < 1 || input.currency == "" ||
    input.paidAt == ZERO_TIME || input.now == ZERO_TIME
  }

  ghost function PaidEvent(order: Order, input: PaymentInput): Event {
    Event(order.id, if input.eventType == "" then "order.paid" else input.eventType, input.amountFen, input.currency,
          input.payloadHash, input.now)
  }

  ghost function PaidOrder(order: Order, input: PaymentInput, inviteId: Option<nat>): Order {
    order.(paymentStatus := Paid, providerStatus := "PAID", providerPaymentKey := input.providerPaymentKey,
           paidAt := Some(input.paidAt), failureReason := "", updatedAt := input.now, fulfillment := Fulfilled, inviteId := inviteId)
  }

  ghost function ActivationInvite(id: nat, order: Order, input: PaymentInput): Invite {
    Invite(id, input.codeHash, input.code, input.codePrefix, order.durationDays, order.durationMinutes, 1, 0, None, None, true,
           "付费激活码 · " + order.planName, input.now)
  }

  /** The event and the paid order, with the benefit of its kind: an invite, or time for its account. */
  ghost function RecordPayment(db: Db, order: Order, input: PaymentInput): Tx<Order> {
    match order.kind
    case ActivationOrder =>
      if TrimSpace(input.code) == "" || TrimSpace(input.codeHash) == "" || TrimSpace(input.codePrefix) == "" then Refused(db, NoActivationCode)
      else if FindInviteByHash(db.invites, input.codeHash).Some? then Refused(db, ConstraintViolation)
      else
        var i := db.nextInvite;
        var paid := PaidOrder(order, input, Some(i));
        Tx(db.(events := db.events[input.eventId := PaidEvent(order, input)],
               invites := db.invites[i := ActivationInvite(i, order, input)], nextInvite := i + 1,
               orders := db.orders[input.orderId := paid]),
           Success(paid))
    case RenewalOrder =>
      if order.accountId.None? then Refused(db, NoRenewalAccount)
      else if order.accountId.value !in db.accounts then Refused(db, NotFound)
      else
        var paid := PaidOrder(order, input, None);
        Tx(RenewAccount(db, order.accountId.value, order.durationMinutes, input.now).(
             events := db.events[input.eventId := PaidEvent(order, input)], orders := db.orders[input.orderId := paid]),
           Success(paid))
  }

  /** Records a verified payment and delivers its benefit, or does neither. */
  ghost function FulfillPaymentOrder(db: Db, input: PaymentInput): Tx<Order> {
    if InvalidPaymentInput(input) then Refused(db, InvalidFulfillment)
    else if input.orderId !in db.orders then Refused(db, NotFound)
    else
      var order := db.orders[input.orderId];
      if order.fulfillment == Fulfilled then Tx(db, Success(order))
      else if order.amountFen != input.amountFen || order.currency != input.currency then Refused(db, AmountMismatch)
      else if input.eventId in db.events then
        if db.events[input.eventId].orderId != order.id then Refused(db, EventOfAnotherOrder) else Tx(db, Success(order))
      else
        RecordPayment(db, order, input)
  }
}
