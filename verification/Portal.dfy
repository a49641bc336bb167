/** The portal as one state machine: the store, the Emby server, the single background worker, the
    holder of the provisioning mutex, and every HTTP handler as a source of steps.

    A step is one store transaction or one remote call. Between two steps of one handler anything else
    may happen, so a handler's earlier reads are kept in pools (`readAccounts`, `readOrders`) from which
    its later writes take their snapshot. A crash drops the worker or the driver at any point. */
module Portal {
  import opened Domain
  import opened Timestamps
  import opened Transactions
  import opened AccessQueue

  /** An Emby user: its flag now, the flag it appeared with, and the operation whose create call made it,
      if one did. */
  datatype EmbyUser = EmbyUser(username: string, disabled: bool, bornDisabled: bool, createdBy: Option<nat>)

  datatype JobSnapshot = JobSnapshot(accountId: nat, embyUserId: string, desiredDisabled: bool, revision: nat)

  /** Where the worker stands inside RunOnce. */
  datatype Worker =
    | Resting
    | Expiring(due: seq<Account>, now: int)
    | Syncing(jobs: seq<JobSnapshot>, now: int)
    | Called(job: JobSnapshot, ok: bool, rest: seq<JobSnapshot>, now: int)

  /** Where provisionAccountCreate stands; one caller at a time holds its mutex. */
  datatype Driver =
    | NoDriver
    | MarkingCreate(operationId: nat)
    | LookingUp(operationId: nat)
    | CreatingUser(operationId: nat)
    | SavingRemote(operationId: nat, embyUserId: string)
    | Finishing(operationId: nat)

  /** What has happened so far, for stating conservation; no step reads it. */
  datatype Books = Books(
    initialExpiry: map<nat, int>,   // account -> its expiry when it was created
    edits: map<nat, int>,           // account -> sum of the changes that accepted edits intended
    recorded: map<nat, int>,        // invite -> redemptions ever recorded
    held: map<nat, int>,            // invite -> direct registrations that neither recorded nor released
    minted: map<nat, nat>,          // activation invite -> the order that was paid for it
    provisioned: map<nat, int>)     // operation -> business accounts it has inserted

  datatype State = State(
    db: Db, users: map<string, EmbyUser>, usedIds: set<string>, worker: Worker, driver: Driver,
    readAccounts: set<Account>, readOrders: set<Order>, removing: set<nat>, everQueued: set<nat>, books: Books)

  const Start := State(EmptyDb, map[], {}, Resting, NoDriver, {}, {}, {}, {}, Books(map[], map[], map[], map[], map[], map[]))

  function At(m: map<nat, int>, k: nat): int {
    if k in m then m[k] else 0
  }

  function Plus(m: map<nat, int>, k: nat, d: int): map<nat, int> {
    m[k := At(m, k) + d]
  }

  /** Calls of the accounts service, each ending in at most one transaction or remote call. */
  datatype AccountAction =
    | ReadAccount(id: nat)
    | Update(snap: Account, expiresAt: int, note: string, now: int)
    | BatchShift(first: Account, second: Account, shift: int, now: int)
    | Disable(snap: Account, now: int)
    | Enable(snap: Account, checkedAt: int, now: int)
    | InsertDirectly(account: Account)
    | QueueDirectly(snap: Account, now: int)
    | DeleteRemotely(snap: Account, effect: bool, ok: bool)
    | DeleteLocally(id: nat)

  datatype WorkerAction =
    | ListDue(due: seq<Account>, now: int)
    | ExpireNext
    | ListJobs(batch: seq<nat>)
    | CallNext(ok: bool, effect: bool)
    | RecordCall(stored: bool, message: string)
    | EndRun
    | WorkerCrash

  datatype SagaAction =
    | BeginCreate(input: OperationInput)
    | BeginRegister(input: OperationInput, codeHash: string)
    | Drive(operationId: nat)
    | MarkCreating(now: int)
    | Lookup(found: Option<string>)
    | CreateUser(userId: string, ok: bool, effect: bool)
    | SaveRemote(now: int)
    | Finish(now: int)
    | DriverCrash

  datatype InviteAction =
    | NewInvite(invite: Invite)
    | SwitchInvite(id: nat, enabled: bool)
    | DropInvite(id: nat)
    | Consume(codeHash: string, now: int)
    | Release(id: nat)
    | RecordDirectly(redemption: Redemption)
    | Redeem(codeHash: string, username: string, now: int)

  datatype PaymentAction =
    | NewOrder(draft: Order)
    | ReadOrder(id: nat)
    | ProviderUpdate(id: nat, status: string, url: string, memo: string, expiresAt: int, now: int)
    | CloseOrder(id: nat, canceled: bool, providerStatus: string, reason: string, now: int)
    | Deliver(order: Order, payment: PaymentInput)

  /** Somebody else's use of the Emby server. */
  datatype ForeignAction =
    | ForeignUser(userId: string, username: string, disabled: bool)
    | ForeignDelete(userId: string)

  datatype Step =
    | OfAccounts(account: AccountAction)
    | OfWorker(worker: WorkerAction)
    | OfSaga(saga: SagaAction)
    | OfInvites(invite: InviteAction)
    | OfPayments(payment: PaymentAction)
    | OfOthers(foreign: ForeignAction)

  // ----- accounts -----

  ghost function Answered(s: State, tx: Tx<Account>): State {
    s.(db := tx.db, readAccounts := if tx.result.Success? then s.readAccounts + {tx.result.value} else s.readAccounts)
  }

  /** accounts.Service.Update after its read; `intended` is the change of expiry the caller meant. */
  ghost function ApplyEdit(s: State, snap: Account, expiresAt: int, note: string, intended: int, now: int): State {
    var account := snap.(expiresAt := expiresAt, note := TrimSpace(note), updatedAt := now);
    var tx := if snap.status == Active && expiresAt <= now then UpdateAccountAndExpire(s.db, account, now, now)
              else UpdateAccount(s.db, account);
    if expiresAt == ZERO_TIME || tx.result.Failure? then s
    else Answered(s, tx).(books := s.books.(edits := Plus(s.books.edits, snap.id, intended)))
  }

  /** A single edit; the handler read `snap` and compared it with the version in its form. */
  ghost function ApplyUpdate(s: State, snap: Account, expiresAt: int, note: string, now: int): State {
    if snap in s.readAccounts then ApplyEdit(s, snap, expiresAt, note, expiresAt - snap.expiresAt, now) else s
  }

  /** Batch: the new expiry is computed from the first read, the write is guarded by the second. */
  ghost function ApplyShift(s: State, first: Account, second: Account, shift: int, now: int): State {
    if first in s.readAccounts && second in s.readAccounts && first.id == second.id && first.version == second.version then
      ApplyEdit(s, second, first.expiresAt + shift, first.note, shift, now)
    else s
  }

  ghost function ApplyDeleteRemotely(s: State, snap: Account, effect: bool, ok: bool): State {
    var users := if effect then s.users - {snap.embyUserId} else s.users;
    s.(users := users, removing := if ok && snap.embyUserId !in users then s.removing + {snap.id} else s.removing)
  }

  // ----- the worker -----

  ghost predicate IsDueList(db: Db, due: seq<Account>, now: int) {
    forall a: Account :: a in due <==> a.id in db.accounts && db.accounts[a.id] == a && Due(a, now)
  }

  ghost function Snapshots(db: Db, batch: seq<nat>): seq<JobSnapshot>
    requires forall a :: a in batch ==> a in db.jobs && a in db.accounts
  {
    seq(|batch|, i requires 0 <= i < |batch| =>
      JobSnapshot(batch[i], db.accounts[batch[i]].embyUserId, db.jobs[batch[i]].desiredDisabled, db.jobs[batch[i]].revision))
  }

  ghost function ApplyCall(s: State, ok: bool, effect: bool): State
    requires s.worker.Syncing? && s.worker.jobs != []
  {
    var job := s.worker.jobs[0];
    var reached := effect && job.embyUserId in s.users;
    s.(users := if reached then s.users[job.embyUserId := s.users[job.embyUserId].(disabled := job.desiredDisabled)] else s.users,
       worker := Called(job, ok && reached, s.worker.jobs[1..], s.worker.now))
  }

  ghost function ApplyRecord(s: State, stored: bool, message: string): State
    requires s.worker.Called?
  {
    var job := s.worker.job;
    var jobs :=
      if !stored then s.db.jobs
      else if s.worker.ok then CompleteAccessSync(s.db.jobs, job.accountId, job.revision)
      else FailAccessSync(s.db.jobs, job.accountId, job.revision, message, s.worker.now);
    s.(db := s.db.(jobs := jobs), worker := Syncing(s.worker.rest, s.worker.now))
  }

  // ----- the saga -----

  ghost function DriverFor(operation: Operation): Driver {
    if operation.status == Completed || operation.embyUserId.Some? then Finishing(operation.id)
    else if operation.status == Pending then MarkingCreate(operation.id)
    else LookingUp(operation.id)
  }

  ghost predicate NamedLikeOperation(s: State, user: string, operationId: nat) {
    user in s.users && operationId in s.db.operations &&
    SameName(TrimSpace(s.users[user].username), TrimSpace(s.db.operations[operationId].username))
  }

  ghost function ApplyLookup(s: State, found: Option<string>): State
    requires s.driver.LookingUp?
  {
    var o := s.driver.operationId;
    if found.Some? && NamedLikeOperation(s, found.value, o) then s.(driver := SavingRemote(o, found.value))
    else if found.None? && forall u :: u in s.users ==> !NamedLikeOperation(s, u, o) then s.(driver := CreatingUser(o))
    else s
  }

  /** A create call that takes effect makes a fresh, enabled user; its reply may be lost. */
  ghost function ApplyCreateUser(s: State, id: string, ok: bool, effect: bool): State
    requires s.driver.CreatingUser?
  {
    var o := s.driver.operationId;
    if effect && id != "" && id !in s.usedIds && o in s.db.operations then
      s.(users := s.users[id := EmbyUser(s.db.operations[o].username, false, false, Some(o))], usedIds := s.usedIds + {id},
         driver := if ok then SavingRemote(o, id) else NoDriver)
    else s.(driver := NoDriver)
  }

  ghost function ApplyFinish(s: State, now: int): State
    requires s.driver.Finishing?
  {
    var o := s.driver.operationId;
    var tx := CompleteAccountCreateOperation(s.db, o, now);
    var s' := Answered(s, tx).(driver := NoDriver);
    if tx.result.Success? && s.db.operations[o].status != Completed then
      var operation := s.db.operations[o];
      var books := s.books.(initialExpiry := s.books.initialExpiry[tx.result.value.id := operation.expiresAt],
                            provisioned := Plus(s.books.provisioned, o, 1));
      s'.(books := if operation.kind == Register then books.(recorded := Plus(books.recorded, operation.inviteId.value, 1)) else books)
    else s'
  }

  // ----- invites -----

  ghost function ApplyConsume(s: State, codeHash: string, now: int): State {
    var tx := ConsumeInvite(s.db, codeHash, now);
    if tx.result.Failure? then s
    else s.(db := tx.db, books := s.books.(held := Plus(s.books.held, tx.result.value.id, 1)))
  }

  ghost function ApplyRecordDirectly(s: State, redemption: Redemption): State {
    var tx := RecordRedemption(s.db, redemption);
    if tx.result.Failure? then s
    else
      s.(db := tx.db,
         books := s.books.(held := Plus(s.books.held, redemption.inviteId, -1), recorded := Plus(s.books.recorded, redemption.inviteId, 1)))
  }

  ghost function ApplyRedeem(s: State, codeHash: string, username: string, now: int): State {
    var tx := RedeemRenewal(s.db, codeHash, username, now);
    if tx.result.Failure? then s
    else Answered(s, tx).(books := s.books.(recorded := Plus(s.books.recorded, FindInviteByHash(s.db.invites, codeHash).value, 1)))
  }

  // ----- payments -----

  // Only an activation carries a code.
  ghost function Sent(snap: Order, input: PaymentInput): PaymentInput {
    if snap.kind == ActivationOrder then input.(orderId := snap.id)
    else input.(orderId := snap.id, code := "", codeHash := "", codePrefix := "")
  }

  /** fulfillWithHash: a snapshot already completed stops here. */
  ghost function ApplyDeliver(s: State, snap: Order, input: PaymentInput): State {
    if snap.fulfillment == Fulfilled then s
    else
      var db := FulfillPaymentOrder(s.db, Sent(snap, input)).db;
      s.(db := db,
         books := if db.nextInvite == s.db.nextInvite then s.books
                  else s.books.(minted := s.books.minted[s.db.nextInvite := snap.id]))
  }

  ghost function DoAccounts(s: State, action: AccountAction): State {
    match action
    case ReadAccount(id) =>
      if id in s.db.accounts then s.(readAccounts := s.readAccounts + {s.db.accounts[id]}) else s
    case Update(snap, expiresAt, note, now) =>
      ApplyUpdate(s, snap, expiresAt, note, now)
    case BatchShift(first, second, shift, now) =>
      ApplyShift(s, first, second, shift, now)
    case Disable(snap, now) =>
      if snap in s.readAccounts then Answered(s, SetAccountStatus(s.db, snap, Disabled, Some(now), now)) else s
    case Enable(snap, checkedAt, now) =>
      if snap in s.readAccounts && checkedAt < snap.expiresAt then Answered(s, SetAccountStatus(s.db, snap, Active, None, now)) else s
    case InsertDirectly(account) =>
      // the caller has the user id from Emby
      var tx := CreateAccount(s.db, account);
      if account.embyUserId !in s.usedIds || tx.result.Failure? then s
      else Answered(s, tx).(books := s.books.(initialExpiry := s.books.initialExpiry[s.db.nextAccount := account.expiresAt]))
    case QueueDirectly(snap, now) =>
      if snap in s.readAccounts then Answered(s, SetAccountStatus(s.db, snap, snap.status, snap.disabledAt, now)) else s
    case DeleteRemotely(snap, effect, ok) =>
      if snap in s.readAccounts then ApplyDeleteRemotely(s, snap, effect, ok) else s
    case DeleteLocally(id) =>
      if id in s.removing then s.(db := DeleteAccount(s.db, id).db) else s
  }

  ghost function DoWorker(s: State, action: WorkerAction): State {
    match action
    case ListDue(due, now) =>
      if s.worker.Resting? && IsDueList(s.db, due, now) then
        s.(worker := Expiring(due, now), readAccounts := s.readAccounts + set a | a in due)
      else s
    case ExpireNext =>
      if s.worker.Expiring? && s.worker.due != [] then
        var tx := SetAccountStatus(s.db, s.worker.due[0], Expired, Some(s.worker.now), s.worker.now);
        Answered(s, tx).(worker := Expiring(s.worker.due[1..], s.worker.now))
      else s
    case ListJobs(batch) =>
      if s.worker.Expiring? && s.worker.due == [] && IsBatch(s.db.jobs, BATCH, batch) && (forall a :: a in batch ==> a in s.db.accounts) then
        s.(worker := Syncing(Snapshots(s.db, batch), s.worker.now))
      else s
    case CallNext(ok, effect) =>
      if s.worker.Syncing? && s.worker.jobs != [] then ApplyCall(s, ok, effect) else s
    case RecordCall(stored, message) =>
      if s.worker.Called? then ApplyRecord(s, stored, message) else s
    case EndRun =>
      if s.worker.Syncing? && s.worker.jobs == [] then s.(worker := Resting) else s
    case WorkerCrash =>
      s.(worker := Resting)
  }

  ghost function DoSaga(s: State, action: SagaAction): State {
    match action
    case BeginCreate(input) =>
      s.(db := BeginAccountCreateOperation(s.db, input.(kind := AccountCreate)).db)
    case BeginRegister(input, codeHash) =>
      s.(db := BeginRegistrationOperation(s.db, input.(kind := Register), codeHash).db)
    case Drive(operationId) =>
      if s.driver.NoDriver? && operationId in s.db.operations then s.(driver := DriverFor(s.db.operations[operationId])) else s
    case MarkCreating(now) =>
      if s.driver.MarkingCreate? then
        s.(db := MarkAccountCreateOperationCreating(s.db, s.driver.operationId, now), driver := CreatingUser(s.driver.operationId))
      else s
    case Lookup(found) =>
      if s.driver.LookingUp? then ApplyLookup(s, found) else s
    case CreateUser(id, ok, effect) =>
      if s.driver.CreatingUser? then ApplyCreateUser(s, id, ok, effect) else s
    case SaveRemote(now) =>
      if s.driver.SavingRemote? then
        var tx := SaveAccountCreateOperationRemote(s.db, s.driver.operationId, s.driver.embyUserId, now);
        s.(db := tx.db, driver := if tx.result.Success? then Finishing(s.driver.operationId) else NoDriver)
      else s
    case Finish(now) =>
      if s.driver.Finishing? then ApplyFinish(s, now) else s
    case DriverCrash =>
      s.(driver := NoDriver)
  }

  ghost function DoInvites(s: State, action: InviteAction): State {
    match action
    case NewInvite(invite) => s.(db := CreateInvite(s.db, invite).db)
    case SwitchInvite(id, enabled) => s.(db := SetInviteEnabled(s.db, id, enabled).db)
    case DropInvite(id) => s.(db := DeleteInvite(s.db, id).db)
    case Consume(codeHash, now) => ApplyConsume(s, codeHash, now)
    case Release(id) =>
      if At(s.books.held, id) > 0 then
        s.(db := ReleaseInvite(s.db, id), books := s.books.(held := Plus(s.books.held, id, -1)))
      else s
    case RecordDirectly(redemption) =>
      if At(s.books.held, redemption.inviteId) > 0 && redemption.kind == Registration then ApplyRecordDirectly(s, redemption) else s
    case Redeem(codeHash, username, now) => ApplyRedeem(s, codeHash, username, now)
  }

  ghost function DoPayments(s: State, action: PaymentAction): State {
    match action
    case NewOrder(draft) => s.(db := CreatePaymentOrder(s.db, draft).db)
    case ReadOrder(id) =>
      if id in s.db.orders then s.(readOrders := s.readOrders + {s.db.orders[id]}) else s
    case ProviderUpdate(id, status, url, memo, expiresAt, now) =>
      s.(db := UpdatePaymentProvider(s.db, id, status, url, memo, expiresAt, now).db)
    case CloseOrder(id, canceled, providerStatus, reason, now) =>
      s.(db := SetPaymentOrderState(s.db, id, if canceled then Canceled else PaymentExpired, providerStatus, reason, now))
    case Deliver(order, payment) =>
      if order in s.readOrders then ApplyDeliver(s, order, payment) else s
  }

  ghost function DoOthers(s: State, action: ForeignAction): State {
    match action
    case ForeignUser(id, username, disabled) =>
      if id in s.usedIds then s
      else s.(users := s.users[id := EmbyUser(username, disabled, disabled, None)], usedIds := s.usedIds + {id})
    case ForeignDelete(id) =>
      s.(users := s.users - {id})
  }

  ghost function Do(s: State, step: Step): State {
    match step
    case OfAccounts(action) => DoAccounts(s, action)
    case OfWorker(action) => DoWorker(s, action)
    case OfSaga(action) => DoSaga(s, action)
    case OfInvites(action) => DoInvites(s, action)
    case OfPayments(action) => DoPayments(s, action)
    case OfOthers(action) => DoOthers(s, action)
  }

  // The accounts that have a queued job are noted.
  ghost function Noted(s: State): State {
    s.(everQueued := s.everQueued + s.db.jobs.Keys)
  }

  ghost function Next(s: State, step: Step): State {
    Noted(Do(s, step))
  }

  ghost function Run(s: State, steps: seq<Step>): State {
    if steps == [] then s else Next(Run(s, steps[..|steps| - 1]), steps[|steps| - 1])
  }

  // ----- histories -----

  /** A run with the states it leads through. */
  datatype History = History(steps: seq<Step>, states: seq<State>)

  ghost predicate Follows(h: History, n: nat)
    requires n < |h.steps| && |h.states| == |h.steps| + 1
  {
    h.states[n + 1] == Next(h.states[n], h.steps[n])
  }

  /** A history starts with the empty portal, and each state follows from the one before by its step. */
  ghost predicate IsRun(h: History) {
    |h.states| == |h.steps| + 1 && h.states[0] == Start && forall n: nat :: n < |h.steps| ==> Follows(h, n)
  }
}
