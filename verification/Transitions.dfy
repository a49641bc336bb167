/** What one step may do to a single row: account versions advance by one, operations advance by one
    checkpoint, orders keep their terms and stay paid. */
module Transitions {
  import opened Domain
  import opened Timestamps
  import opened Transactions
  import opened TableInvariants
  import opened AccessQueue
  import opened Portal
  import opened Outbox
  import opened OutboxSteps

  /** A committed write to an account raises its version by exactly one and keeps its identity. */
  ghost predicate AccountAdvances(old': Account, new': Account) {
    new' == old' ||
    (new'.version == old'.version + 1 && new'.id == old'.id && new'.embyUserId == old'.embyUserId && new'.username == old'.username)
  }

  ghost predicate AccountsAdvance(old': map<nat, Account>, new': map<nat, Account>) {
    forall a :: a in old' && a in new' ==> AccountAdvances(old'[a], new'[a])
  }

  function Rank(status: OperationStatus): nat {
    match status
    case Pending => 0
    case Creating => 1
    case RemoteCreated => 2
    case Completed => 3
  }

  /** An operation moves one checkpoint at a time; what was requested, reserved and recorded stays. */
  ghost predicate OperationAdvances(old': Operation, new': Operation) {
    new' == old' ||
    (&& Rank(new'.status) == Rank(old'.status) + 1
     && new' == old'.(status := new'.status, embyUserId := new'.embyUserId, accountId := new'.accountId,
                      updatedAt := new'.updatedAt, completedAt := new'.completedAt)
     && (old'.embyUserId.Some? ==> new'.embyUserId == old'.embyUserId)
     && (new'.accountId.Some? ==> new'.status == Completed))
  }

  ghost predicate OperationsAdvance(old': map<nat, Operation>, new': map<nat, Operation>) {
    && (forall o :: o in old' && o in new' ==> OperationAdvances(old'[o], new'[o]))
    && (forall o :: o in old' && o !in new' ==> old'[o].status == Completed)
  }

  /** An order keeps the terms it was created with; once paid only a lost reference may change it. */
  ghost predicate OrderAdvances(old': Order, new': Order) {
    && new'.id == old'.id && new'.kind == old'.kind && new'.amountFen == old'.amountFen && new'.currency == old'.currency
    && new'.durationMinutes == old'.durationMinutes && new'.durationDays == old'.durationDays
    && new'.merchantOrderNo == old'.merchantOrderNo && new'.publicToken == old'.publicToken
    && (old'.fulfillment == Fulfilled ==> new' == old'.(accountId := new'.accountId, inviteId := new'.inviteId))
    && (new'.accountId == old'.accountId || new'.accountId.None?)
  }

  ghost predicate OrdersAdvance(old': map<nat, Order>, new': map<nat, Order>) {
    forall o :: o in old' ==> o in new' && OrderAdvances(old'[o], new'[o])
  }

  ghost predicate Advances(db: Db, db': Db) {
    AccountsAdvance(db.accounts, db'.accounts) && OperationsAdvance(db.operations, db'.operations) && OrdersAdvance(db.orders, db'.orders)
  }

  lemma AdvancesSame(db: Db)
    ensures Advances(db, db)
  {
  }

  lemma AccountsAfterWrite(db: Db, db': Db, a: nat, queued: bool, now: int)
    requires Wrote(db, db', a, queued, now)
    ensures AccountsAdvance(db.accounts, db'.accounts) && OperationsAdvance(db.operations, db'.operations)
  {
  }

  lemma OperationReplacedAdvances(operations: map<nat, Operation>, o: nat, row: Operation)
    requires o in operations ==> OperationAdvances(operations[o], row)
    ensures OperationsAdvance(operations, operations[o := row])
  {
  }

  lemma OrderReplacedAdvances(orders: map<nat, Order>, o: nat, row: Order)
    requires o in orders ==> OrderAdvances(orders[o], row)
    ensures OrdersAdvance(orders, orders[o := row])
  {
  }

  lemma AccountInsertedAdvances(accounts: map<nat, Account>, a: nat, row: Account)
    requires a !in accounts
    ensures AccountsAdvance(accounts, accounts[a := row])
  {
  }

  // ----- the writes of the accounts service and the worker -----

  lemma AdvancesAfterWrite(db: Db, tx: Tx<Account>, a: nat, queued: bool, now: int)
    requires WritesOrRefuses(db, tx, a, queued, now) && tx.db.orders == db.orders
    ensures Advances(db, tx.db)
  {
    if tx.result.Success? {
      AccountsAfterWrite(db, tx.db, a, queued, now);
    }
  }

  lemma AdvancesAfterStatus(s: State, snap: Account, status: Status, disabledAt: Option<int>, now: int)
    requires OutboxHolds(s) && snap in s.readAccounts
    ensures Advances(s.db, SetAccountStatus(s.db, snap, status, disabledAt, now).db)
  {
    hide OutboxHolds, Advances;
    PoolMember(s, snap);
    StatusWrites(s.db, snap, status, disabledAt, now);
    AdvancesAfterWrite(s.db, SetAccountStatus(s.db, snap, status, disabledAt, now), snap.id, true, now);
  }

  lemma AdvancesAfterEdit(s: State, snap: Account, expiresAt: int, note: string, intended: int, now: int)
    requires OutboxHolds(s) && snap in s.readAccounts
    ensures Advances(s.db, ApplyEdit(s, snap, expiresAt, note, intended, now).db)
  {
    hide OutboxHolds, Advances, WritesOrRefuses;
    AdvancesSame(s.db);
    PoolMember(s, snap);
    var account := snap.(expiresAt := expiresAt, note := TrimSpace(note), updatedAt := now);
    UpdateWrites(s.db, snap, account);
    ExpireWrites(s.db, snap, account, now);
    AdvancesAfterWrite(s.db, UpdateAccount(s.db, account), snap.id, false, 0);
    AdvancesAfterWrite(s.db, UpdateAccountAndExpire(s.db, account, now, now), snap.id, true, now);
  }

  lemma AdvancesAfterInsert(db: Db, account: Account)
    requires Sound(db)
    ensures Advances(db, CreateAccount(db, account).db)
  {
    NewAccountFacts(db);
    hide Sound, AccountFree;
    AdvancesSame(db);
    AccountInsertedAdvances(db.accounts, db.nextAccount, account.(id := db.nextAccount, version := 1));
  }

  lemma OrdersForgetAdvance(orders: map<nat, Order>, id: nat)
    ensures OrdersAdvance(orders, WithoutAccount(orders, id)) && OrdersAdvance(orders, WithoutInvite(orders, id))
  {
  }

  lemma AdvancesAfterDelete(db: Db, id: nat)
    requires Sound(db)
    ensures Advances(db, DeleteAccount(db, id).db)
  {
    AdvancesSame(db);
    if id in db.accounts {
      var db' := DeleteAccount(db, id).db;
      forall o | o in db.operations && o !in db'.operations
        ensures db.operations[o].status == Completed
      {
        OperationFacts(db, o);
      }
      OrdersForgetAdvance(db.orders, id);
      hide Sound, OrdersAdvance;
    }
  }

  lemma AdvancesAfterAccountStep(s: State, action: AccountAction)
    requires Sound(s.db) && OutboxHolds(s)
    ensures Advances(s.db, DoAccounts(s, action).db)
  {
    hide Sound, OutboxHolds, Advances, ApplyEdit, SetAccountStatus, DeleteAccount, CreateAccount;
    AdvancesSame(s.db);
    match action
    case ReadAccount(_) =>
    case Update(snap, expiresAt, note, now) =>
      if snap in s.readAccounts { AdvancesAfterEdit(s, snap, expiresAt, note, expiresAt - snap.expiresAt, now); }
    case BatchShift(first, second, shift, now) =>
      if second in s.readAccounts { AdvancesAfterEdit(s, second, first.expiresAt + shift, first.note, shift, now); }
    case Disable(snap, now) => if snap in s.readAccounts { AdvancesAfterStatus(s, snap, Disabled, Some(now), now); }
    case Enable(snap, _, now) => if snap in s.readAccounts { AdvancesAfterStatus(s, snap, Active, None, now); }
    case InsertDirectly(account) => AdvancesAfterInsert(s.db, account);
    case QueueDirectly(snap, now) => if snap in s.readAccounts { AdvancesAfterStatus(s, snap, snap.status, snap.disabledAt, now); }
    case DeleteRemotely(_, _, _) =>
    case DeleteLocally(id) => AdvancesAfterDelete(s.db, id);
  }

  lemma AdvancesAfterWorkerStep(s: State, action: WorkerAction)
    requires OutboxHolds(s)
    ensures Advances(s.db, DoWorker(s, action).db)
  {
    AdvancesSame(s.db);
    if action.ExpireNext? && s.worker.Expiring? && s.worker.due != [] {
      assert s.worker.due[0] in s.worker.due && s.worker.due[0] in s.readAccounts;
      AdvancesAfterStatus(s, s.worker.due[0], Expired, Some(s.worker.now), s.worker.now);
    }
    hide OutboxHolds, AccountsAdvance, OperationsAdvance, OrdersAdvance, SetAccountStatus, IsDueList, IsBatch, Snapshots,
      CompleteAccessSync, FailAccessSync;
  }

  // ----- the saga -----

  lemma AdvancesAfterBegin(db: Db, tx: Tx<Operation>)
    requires Sound(db) && BeginsOrReplays(db, tx) && tx.db.orders == db.orders
    ensures Advances(db, tx.db)
  {
    AdvancesSame(db);
    assert db.nextOperation !in db.operations;
    hide Sound;
    if tx.db != db {
      OperationReplacedAdvances(db.operations, db.nextOperation, tx.result.value);
    }
  }

  lemma AdvancesAfterMark(db: Db, o: nat, now: int)
    requires Sound(db)
    ensures Advances(db, MarkAccountCreateOperationCreating(db, o, now))
  {
    hide Sound, AccountsAdvance, OrdersAdvance, OperationsAdvance;
    AdvancesSame(db);
    if o in db.operations {
      OperationFacts(db, o);
      OperationReplacedAdvances(db.operations, o, MarkAccountCreateOperationCreating(db, o, now).operations[o]);
    }
  }

  lemma AdvancesAfterSaveRemote(db: Db, o: nat, embyUserId: string, now: int)
    requires Sound(db) && OperationAt(db.operations, o, Creating)
    ensures Advances(db, SaveAccountCreateOperationRemote(db, o, embyUserId, now).db)
  {
    AdvancesSame(db);
    OperationFacts(db, o);
    hide Sound, AccountsAdvance, OrdersAdvance, OperationsAdvance;
    OperationReplacedAdvances(db.operations, o, SaveAccountCreateOperationRemote(db, o, embyUserId, now).db.operations[o]);
  }

  lemma AdvancesAfterFinish(db: Db, o: nat, now: int)
    requires Sound(db)
    ensures Advances(db, CompleteAccountCreateOperation(db, o, now).db)
  {
    AdvancesSame(db);
    FinishReplays(db, o, now);
    if o in db.operations {
      OperationFacts(db, o);
      hide Sound, Advances, ProvisionAccount;
      var operation := db.operations[o];
      if operation.status != Completed && operation.embyUserId.Some? {
        AdvancesAfterProvision(db, o, now);
      }
    }
  }

  lemma AdvancesAfterProvision(db: Db, o: nat, now: int)
    requires Sound(db) && o in db.operations && db.operations[o].status != Completed && db.operations[o].embyUserId.Some?
    ensures Advances(db, ProvisionAccount(db, o, db.operations[o], now).db)
  {
    hide Sound, AccountsAdvance, OrdersAdvance, OperationsAdvance, AccountFree, UpsertAccessSyncJob, ProvisionedAccount;
    AdvancesSame(db);
    OperationFacts(db, o);
    NewAccountFacts(db);
    var tx := ProvisionAccount(db, o, db.operations[o], now);
    if tx.result.Success? {
      AccountInsertedAdvances(db.accounts, db.nextAccount, tx.result.value);
      OperationReplacedAdvances(db.operations, o, tx.db.operations[o]);
    }
  }

  lemma RemoteCallsKeepTables(s: State, action: SagaAction)
    requires action.Lookup? || action.CreateUser?
    ensures DoSaga(s, action).db == s.db
  {
    hide NamedLikeOperation;
  }

  lemma BegunOrders(db: Db, input: OperationInput, codeHash: string)
    ensures BeginAccountCreateOperation(db, input).db.orders == db.orders && BeginRegistrationOperation(db, input, codeHash).db.orders == db.orders
  {
    hide Redeemable, FindInviteByHash, FindOperationByKey, FindAccountByUsername, UseInvite;
  }

  lemma AdvancesAfterSagaStep(s: State, action: SagaAction)
    requires Sound(s.db) && OutboxHolds(s)
    ensures Advances(s.db, DoSaga(s, action).db)
  {
    assert s.driver.SavingRemote? ==> OperationAt(s.db.operations, s.driver.operationId, Creating);
    hide Sound, OutboxHolds, Advances, BeginsOrReplays, NamedLikeOperation, OperationAt;
    hide MarkAccountCreateOperationCreating, SaveAccountCreateOperationRemote, CompleteAccountCreateOperation;
    hide BeginAccountCreateOperation, BeginRegistrationOperation, ApplyLookup, ApplyCreateUser;
    AdvancesSame(s.db);
    match action
    case BeginCreate(input) =>
      BeginCreateBegins(s.db, input.(kind := AccountCreate));
      BegunOrders(s.db, input.(kind := AccountCreate), "");
      AdvancesAfterBegin(s.db, BeginAccountCreateOperation(s.db, input.(kind := AccountCreate)));
    case BeginRegister(input, codeHash) =>
      BeginRegisterBegins(s.db, input.(kind := Register), codeHash);
      BegunOrders(s.db, input.(kind := Register), codeHash);
      AdvancesAfterBegin(s.db, BeginRegistrationOperation(s.db, input.(kind := Register), codeHash));
    case Drive(_) =>
    case MarkCreating(now) => if s.driver.MarkingCreate? { AdvancesAfterMark(s.db, s.driver.operationId, now); }
    case Lookup(found) => if s.driver.LookingUp? { RemoteCallsKeepTables(s, action); }
    case CreateUser(_, _, _) => if s.driver.CreatingUser? { RemoteCallsKeepTables(s, action); }
    case SaveRemote(now) =>
      if s.driver.SavingRemote? { AdvancesAfterSaveRemote(s.db, s.driver.operationId, s.driver.embyUserId, now); }
    case Finish(now) => if s.driver.Finishing? { AdvancesAfterFinish(s.db, s.driver.operationId, now); }
    case DriverCrash =>
  }

  // ----- invites and payments -----

  lemma AdvancesAfterInviteStep(s: State, action: InviteAction)
    ensures Advances(s.db, DoInvites(s, action).db)
  {
    AdvancesSame(s.db);
    hide AccountsAdvance, OperationsAdvance, OrdersAdvance;
    match action
    case Redeem(codeHash, username, now) =>
      var tx := RedeemRenewal(s.db, codeHash, username, now);
      RedeemWrites(s.db, codeHash, username, now);
      if tx.result.Success? {
        var a, queued :| a in s.db.accounts && WritesOrRefuses(s.db, tx, a, queued, now);
        AdvancesAfterWrite(s.db, tx, a, queued, now);
      }
      hide RedeemRenewal;
    case DropInvite(id) =>
      OrdersForgetAdvance(s.db.orders, id);
      hide InviteReferenced;
    case _ =>
      if action.NewInvite? || action.SwitchInvite? { AdvancesAfterInviteAdministration(s, action); } else { AdvancesAfterInviteUse(s, action); }
  }

  lemma AdvancesAfterInviteAdministration(s: State, action: InviteAction)
    requires action.NewInvite? || action.SwitchInvite?
    ensures Advances(s.db, DoInvites(s, action).db)
  {
    AdvancesSame(s.db);
    hide AccountsAdvance, OperationsAdvance, OrdersAdvance;
  }

  lemma AdvancesAfterInviteUse(s: State, action: InviteAction)
    requires action.Consume? || action.Release? || action.RecordDirectly?
    ensures Advances(s.db, DoInvites(s, action).db)
  {
    AdvancesSame(s.db);
    hide AccountsAdvance, OperationsAdvance, OrdersAdvance, InOpenPeriod, FindInviteByHash;
  }

  lemma AdvancesAfterDelivery(db: Db, input: PaymentInput)
    requires Sound(db)
    ensures Advances(db, FulfillPaymentOrder(db, input).db)
  {
    AdvancesSame(db);
    hide Sound, AccountsAdvance, OperationsAdvance, OrdersAdvance, FulfillPaymentOrder, Wrote;
    if !Deliverable(db, input) || FulfillPaymentOrder(db, input).result.Failure? {
      UndeliverableChangesNothing(db, input);
    } else if db.orders[input.orderId].kind == ActivationOrder {
      SaleEffect(db, input);
      OrderFacts(db, input.orderId);
      OrderReplacedAdvances(db.orders, input.orderId, PaidOrder(db.orders[input.orderId], input, Some(db.nextInvite)));
    } else {
      PaidRenewalEffect(db, input);
      OrderFacts(db, input.orderId);
      var order := db.orders[input.orderId];
      var a := order.accountId.value;
      RenewWrites(db, a, order.durationMinutes, input.now);
      AccountsAfterWrite(db, RenewAccount(db, a, order.durationMinutes, input.now), a, Reactivated(db.accounts[a], order.durationMinutes, input.now), input.now);
      OrderReplacedAdvances(db.orders, input.orderId, PaidOrder(order, input, None));
    }
  }

  lemma AdvancesAfterPaymentStep(s: State, action: PaymentAction)
    requires Sound(s.db)
    ensures Advances(s.db, DoPayments(s, action).db)
  {
    AdvancesSame(s.db);
    NewOrderFacts(s.db);
    hide AccountsAdvance, OperationsAdvance, OrdersAdvance, FulfillPaymentOrder, Sound;
    match action
    case NewOrder(draft) =>
      var tx := CreatePaymentOrder(s.db, draft);
      if tx.result.Success? { OrderReplacedAdvances(s.db.orders, s.db.nextOrder, tx.result.value); }
    case ReadOrder(_) =>
    case ProviderUpdate(o, _, _, _, _, _) =>
      if o in s.db.orders { OrderReplacedAdvances(s.db.orders, o, DoPayments(s, action).db.orders[o]); }
    case CloseOrder(o, _, _, _, _) =>
      if o in s.db.orders { OrderReplacedAdvances(s.db.orders, o, DoPayments(s, action).db.orders[o]); }
    case Deliver(order, payment) => AdvancesAfterDelivery(s.db, Sent(order, payment));
  }

  /** Every step of the portal moves every row in these ways only. */
  lemma NextAdvances(s: State, step: Step)
    requires Sound(s.db) && OutboxHolds(s)
    ensures Advances(s.db, Next(s, step).db)
  {
    AdvancesSame(s.db);
    hide Sound, OutboxHolds, Advances, DoAccounts, DoWorker, DoSaga, DoInvites, DoPayments;
    match step
    case OfAccounts(action) => AdvancesAfterAccountStep(s, action);
    case OfWorker(action) => AdvancesAfterWorkerStep(s, action);
    case OfSaga(action) => AdvancesAfterSagaStep(s, action);
    case OfInvites(action) => AdvancesAfterInviteStep(s, action);
    case OfPayments(action) => AdvancesAfterPaymentStep(s, action);
    case OfOthers(_) =>
  }

  // ----- operations are retired only with their account -----

  /** Completed is the last checkpoint: such an operation does not change any more. */
  lemma CompletedIsLast(old': Operation, new': Operation)
    requires OperationAdvances(old', new') && old'.status == Completed
    ensures new' == old'
  {
  }

  lemma OtherAccountStepsKeepOperations(s: State, action: AccountAction)
    requires !action.DeleteLocally?
    ensures DoAccounts(s, action).db.operations == s.db.operations
  {
    hide ApplyEdit, SetAccountStatus, CreateAccount;
    match action
    case Update(snap, expiresAt, note, now) => EditKeepsOperations(s, snap, expiresAt, note, expiresAt - snap.expiresAt, now);
    case BatchShift(first, second, shift, now) => EditKeepsOperations(s, second, first.expiresAt + shift, first.note, shift, now);
    case Disable(snap, now) => StatusKeepsOperations(s.db, snap, Disabled, Some(now), now);
    case Enable(snap, _, now) => StatusKeepsOperations(s.db, snap, Active, None, now);
    case QueueDirectly(snap, now) => StatusKeepsOperations(s.db, snap, snap.status, snap.disabledAt, now);
    case InsertDirectly(account) => InsertKeepsOperations(s.db, account);
    case _ =>
  }

  lemma EditKeepsOperations(s: State, snap: Account, expiresAt: int, note: string, intended: int, now: int)
    ensures ApplyEdit(s, snap, expiresAt, note, intended, now).db.operations == s.db.operations
  {
    hide UpsertAccessSyncJob, TrimSpace;
  }

  lemma StatusKeepsOperations(db: Db, snap: Account, status: Status, disabledAt: Option<int>, now: int)
    ensures SetAccountStatus(db, snap, status, disabledAt, now).db.operations == db.operations
  {
  }

  lemma InsertKeepsOperations(db: Db, account: Account)
    ensures CreateAccount(db, account).db.operations == db.operations
  {
  }

  lemma WorkerKeepsOperations(s: State, action: WorkerAction)
    ensures DoWorker(s, action).db.operations == s.db.operations
  {
    hide UpsertAccessSyncJob, IsDueList, IsBatch, Snapshots, CompleteAccessSync, FailAccessSync;
  }

  lemma SagaKeepsOperations(s: State, action: SagaAction)
    ensures s.db.operations.Keys <= DoSaga(s, action).db.operations.Keys
  {
    hide AccountFree, UpsertAccessSyncJob, FindOperationByKey, FindInviteByHash, FindAccountByUsername, Redeemable, NamedLikeOperation, UseInvite;
    match action
    case BeginCreate(_) =>
    case BeginRegister(_, _) =>
    case Finish(now) => if s.driver.Finishing? { FinishKeepsOperations(s.db, s.driver.operationId, now); } hide CompleteAccountCreateOperation;
    case _ =>
  }

  lemma FinishKeepsOperations(db: Db, o: nat, now: int)
    ensures db.operations.Keys <= CompleteAccountCreateOperation(db, o, now).db.operations.Keys
  {
    hide AccountFree, UpsertAccessSyncJob;
  }

  lemma InvitesKeepOperations(s: State, action: InviteAction)
    ensures DoInvites(s, action).db.operations == s.db.operations
  {
    hide InviteReferenced, InOpenPeriod, FindInviteByHash, FindAccountByUsername, UseInvite, Renewed, Reactivated, UpsertAccessSyncJob, WithoutInvite;
  }

  lemma PaymentsKeepOperations(s: State, action: PaymentAction)
    ensures DoPayments(s, action).db.operations == s.db.operations
  {
    if action.Deliver? {
      DeliveryEffect(s.db, Sent(action.order, action.payment));
      hide FulfillPaymentOrder, UpsertAccessSyncJob;
    }
  }

  /** A completed operation disappears only together with its account. */
  lemma OperationsOutlive(s: State, step: Step, o: nat)
    requires o in s.db.operations && s.db.operations[o].accountId.Some?
    ensures o in Next(s, step).db.operations || s.db.operations[o].accountId.value !in Next(s, step).db.accounts
  {
    if step.OfAccounts? && step.account.DeleteLocally? {
      hide WithoutAccount;
    } else {
      hide DoAccounts, DoWorker, DoSaga, DoInvites, DoPayments;
      match step
      case OfAccounts(action) => OtherAccountStepsKeepOperations(s, action);
      case OfWorker(action) => WorkerKeepsOperations(s, action);
      case OfSaga(action) => SagaKeepsOperations(s, action);
      case OfInvites(action) => InvitesKeepOperations(s, action);
      case OfPayments(action) => PaymentsKeepOperations(s, action);
      case OfOthers(_) =>
    }
  }
}
