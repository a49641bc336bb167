/** Every step of the portal keeps the tables sound and the outbox invariant. */
module OutboxSteps {
  import opened Domain
  import opened Timestamps
  import opened Transactions
  import opened TableInvariants
  import opened AccessQueue
  import opened Portal
  import opened Outbox

  // ----- the tables -----

  lemma SoundAfterAccountStep(s: State, action: AccountAction)
    requires Sound(s.db)
    ensures Sound(DoAccounts(s, action).db)
  {
    hide Sound, CreateAccount, SetAccountStatus, UpdateAccount, UpdateAccountAndExpire, DeleteAccount;
    match action
    case Update(snap, expiresAt, note, now) =>
      var account := snap.(expiresAt := expiresAt, note := TrimSpace(note), updatedAt := now);
      SoundUpdateAccountAndExpire(s.db, account, now, now);
      SoundUpdateAccount(s.db, account);
    case BatchShift(first, second, shift, now) =>
      var account := second.(expiresAt := first.expiresAt + shift, note := TrimSpace(first.note), updatedAt := now);
      SoundUpdateAccountAndExpire(s.db, account, now, now);
      SoundUpdateAccount(s.db, account);
    case Disable(snap, now) => SoundSetAccountStatus(s.db, snap, Disabled, Some(now), now);
    case Enable(snap, _, now) => SoundSetAccountStatus(s.db, snap, Active, None, now);
    case InsertDirectly(account) => SoundCreateAccount(s.db, account);
    case QueueDirectly(snap, now) => SoundSetAccountStatus(s.db, snap, snap.status, snap.disabledAt, now);
    case DeleteLocally(id) => SoundDeleteAccount(s.db, id);
    case ReadAccount(_) =>
    case DeleteRemotely(_, _, _) =>
  }

  lemma SoundAfterRecord(s: State, stored: bool, message: string)
    requires Sound(s.db) && s.worker.Called?
    ensures Sound(ApplyRecord(s, stored, message).db)
  {
    hide AccountsSound, OperationsSound, InvitesSound, OrdersSound, JobsSound, RedemptionsSound, OperationsRefer, OrdersRefer, EventsSound;
    JobsAfterRecord(s.db.jobs, s.db.accounts, s.worker.job.accountId, s.worker.job.revision, message, s.worker.now);
  }

  lemma JobsAfterRecord(jobs: map<nat, Job>, accounts: map<nat, Account>, a: nat, revision: nat, message: string, now: int)
    requires JobsSound(jobs, accounts)
    ensures JobsSound(CompleteAccessSync(jobs, a, revision), accounts)
    ensures JobsSound(FailAccessSync(jobs, a, revision, message, now), accounts)
  {
  }

  lemma SoundAfterWorkerStep(s: State, action: WorkerAction)
    requires Sound(s.db)
    ensures Sound(DoWorker(s, action).db)
  {
    hide Sound, SetAccountStatus, IsBatch, IsDueList, ApplyRecord;
    match action
    case ExpireNext =>
      if s.worker.Expiring? && s.worker.due != [] {
        SoundSetAccountStatus(s.db, s.worker.due[0], Expired, Some(s.worker.now), s.worker.now);
      }
    case RecordCall(stored, message) => if s.worker.Called? { SoundAfterRecord(s, stored, message); }
    case _ =>
  }

  lemma SoundAfterSagaStep(s: State, action: SagaAction)
    requires Sound(s.db)
    ensures Sound(DoSaga(s, action).db)
  {
    hide Sound, BeginAccountCreateOperation, BeginRegistrationOperation, MarkAccountCreateOperationCreating,
      SaveAccountCreateOperationRemote, CompleteAccountCreateOperation;
    match action
    case BeginCreate(input) => SoundBeginAccountCreate(s.db, input.(kind := AccountCreate));
    case BeginRegister(input, codeHash) => SoundBeginRegistration(s.db, input.(kind := Register), codeHash);
    case MarkCreating(now) => if s.driver.MarkingCreate? { SoundMark(s.db, s.driver.operationId, now); }
    case SaveRemote(now) => if s.driver.SavingRemote? { SoundSaveRemote(s.db, s.driver.operationId, s.driver.embyUserId, now); }
    case Finish(now) => if s.driver.Finishing? { SoundComplete(s.db, s.driver.operationId, now); }
    case _ =>
  }

  lemma SoundAfterInviteStep(s: State, action: InviteAction)
    requires Sound(s.db)
    ensures Sound(DoInvites(s, action).db)
  {
    hide Sound, CreateInvite, SetInviteEnabled, DeleteInvite, ConsumeInvite, ReleaseInvite, RecordRedemption, RedeemRenewal;
    match action
    case NewInvite(invite) => SoundCreateInvite(s.db, invite);
    case SwitchInvite(id, enabled) => SoundSetInviteEnabled(s.db, id, enabled);
    case DropInvite(id) => SoundDeleteInvite(s.db, id);
    case Consume(codeHash, now) => SoundConsumeInvite(s.db, codeHash, now);
    case Release(id) => SoundReleaseInvite(s.db, id);
    case RecordDirectly(redemption) => SoundRecordRedemption(s.db, redemption);
    case Redeem(codeHash, username, now) => SoundRedeemRenewal(s.db, codeHash, username, now);
  }

  lemma SoundAfterPaymentStep(s: State, action: PaymentAction)
    requires Sound(s.db)
    ensures Sound(DoPayments(s, action).db)
  {
    hide Sound, CreatePaymentOrder, UpdatePaymentProvider, SetPaymentOrderState, FulfillPaymentOrder;
    match action
    case NewOrder(draft) => SoundCreatePaymentOrder(s.db, draft);
    case ReadOrder(_) =>
    case ProviderUpdate(id, status, url, memo, expiresAt, now) => SoundUpdatePaymentProvider(s.db, id, status, url, memo, expiresAt, now);
    case CloseOrder(id, canceled, providerStatus, reason, now) =>
      SoundSetPaymentOrderState(s.db, id, if canceled then Canceled else PaymentExpired, providerStatus, reason, now);
    case Deliver(order, payment) =>
      SoundFulfillPaymentOrder(s.db, Sent(order, payment));
  }

  lemma SoundNext(s: State, step: Step)
    requires Sound(s.db)
    ensures Sound(Next(s, step).db)
  {
    hide Sound, DoAccounts, DoWorker, DoSaga, DoInvites, DoPayments;
    match step
    case OfAccounts(action) => SoundAfterAccountStep(s, action);
    case OfWorker(action) => SoundAfterWorkerStep(s, action);
    case OfSaga(action) => SoundAfterSagaStep(s, action);
    case OfInvites(action) => SoundAfterInviteStep(s, action);
    case OfPayments(action) => SoundAfterPaymentStep(s, action);
    case OfOthers(_) =>
  }

  // ----- the outbox -----

  /** A step that ends in one account transaction, whether it was accepted or refused. */
  lemma OutboxAfterAnswer(s: State, s': State, tx: Tx<Account>, a: nat, queued: bool, now: int)
    requires Sound(s.db) && OutboxHolds(s) && WritesOrRefuses(s.db, tx, a, queued, now)
    requires s'.db.accounts == tx.db.accounts && s'.db.jobs == tx.db.jobs && s'.db.operations == tx.db.operations
    requires s'.db.nextAccount == tx.db.nextAccount && s'.db.nextOperation == tx.db.nextOperation
    requires s'.readAccounts == Answered(s, tx).readAccounts
    requires s'.users == s.users && s'.usedIds == s.usedIds && s'.driver == s.driver && s'.removing == s.removing
    requires Outstanding(s'.worker) == Outstanding(s.worker) && CallHolds(s'.worker, s.users) && DueRead(s'.worker, s.readAccounts)
    requires s'.everQueued == s.everQueued + s'.db.jobs.Keys
    ensures OutboxHolds(s')
  {
    hide Sound, OutboxHolds, CallHolds;
    if tx.result.Failure? {
      OutboxAfterNeutral(s, s');
    } else {
      OutboxAfterWrite(s, s', a, queued, now);
    }
  }

  lemma PoolMember(s: State, snap: Account)
    requires OutboxHolds(s) && snap in s.readAccounts
    ensures ReadEarlier(s.db, snap)
  {
  }

  lemma WorkerFacts(s: State)
    requires OutboxHolds(s)
    ensures CallHolds(s.worker, s.users) && DueRead(s.worker, s.readAccounts)
  {
  }

  lemma OutboxAfterEdit(s: State, s': State, snap: Account, expiresAt: int, note: string, intended: int, now: int)
    requires Sound(s.db) && OutboxHolds(s) && snap in s.readAccounts
    requires var t := ApplyEdit(s, snap, expiresAt, note, intended, now); s' == t.(everQueued := t.everQueued + t.db.jobs.Keys)
    ensures OutboxHolds(s')
  {
    PoolMember(s, snap);
    WorkerFacts(s);
    hide Sound, OutboxHolds, CallHolds, DueRead, UpdateAccount, UpdateAccountAndExpire, Outstanding;
    var account := snap.(expiresAt := expiresAt, note := TrimSpace(note), updatedAt := now);
    UpdateWrites(s.db, snap, account);
    ExpireWrites(s.db, snap, account, now);
    if snap.status == Active && expiresAt <= now {
      var tx := UpdateAccountAndExpire(s.db, account, now, now);
      if expiresAt == ZERO_TIME || tx.result.Failure? { OutboxAfterNeutral(s, s'); } else { OutboxAfterAnswer(s, s', tx, snap.id, true, now); }
    } else {
      var tx := UpdateAccount(s.db, account);
      if expiresAt == ZERO_TIME || tx.result.Failure? { OutboxAfterNeutral(s, s'); } else { OutboxAfterAnswer(s, s', tx, snap.id, false, 0); }
    }
  }

  lemma OutboxAfterStatus(s: State, s': State, snap: Account, status: Status, disabledAt: Option<int>, now: int)
    requires Sound(s.db) && OutboxHolds(s) && snap in s.readAccounts
    requires var t := Answered(s, SetAccountStatus(s.db, snap, status, disabledAt, now));
      s' == t.(everQueued := t.everQueued + t.db.jobs.Keys, worker := s'.worker)
    requires Outstanding(s'.worker) == Outstanding(s.worker) && CallHolds(s'.worker, s.users) && DueRead(s'.worker, s.readAccounts)
    ensures OutboxHolds(s')
  {
    PoolMember(s, snap);
    hide Sound, OutboxHolds, CallHolds, DueRead, SetAccountStatus, Outstanding;
    StatusWrites(s.db, snap, status, disabledAt, now);
    OutboxAfterAnswer(s, s', SetAccountStatus(s.db, snap, status, disabledAt, now), snap.id, true, now);
  }

  lemma OutboxAfterExpireNext(s: State)
    requires Sound(s.db) && OutboxHolds(s)
    ensures OutboxHolds(Noted(DoWorker(s, ExpireNext)))
  {
    WorkerFacts(s);
    var s' := Noted(DoWorker(s, ExpireNext));
    if s.worker.Expiring? && s.worker.due != [] {
      assert s.worker.due[0] in s.worker.due;
      assert DueRead(s'.worker, s.readAccounts);
      hide OutboxHolds, Sound, SetAccountStatus;
      OutboxAfterStatus(s, s', s.worker.due[0], Expired, Some(s.worker.now), s.worker.now);
    } else {
      hide OutboxHolds, Sound;
      OutboxAfterNeutral(s, s');
    }
  }

  lemma OutboxAfterInsertDirectly(s: State, account: Account)
    requires Sound(s.db) && OutboxHolds(s)
    ensures OutboxHolds(Noted(DoAccounts(s, InsertDirectly(account))))
  {
    WorkerFacts(s);
    var s', tx := Noted(DoAccounts(s, InsertDirectly(account))), CreateAccount(s.db, account);
    hide OutboxHolds, Sound, CallHolds, DueRead, AccountFree;
    if account.embyUserId in s.usedIds && tx.result.Success? {
      OutboxAfterInsert(s, s', tx.result.value);
    } else {
      OutboxAfterNeutral(s, s');
    }
  }

  lemma RedeemWrites(db: Db, codeHash: string, username: string, now: int)
    ensures var tx := RedeemRenewal(db, codeHash, username, now);
      tx.result.Success? ==> exists a, queued :: a in db.accounts && WritesOrRefuses(db, tx, a, queued, now)
  {
    var tx := RedeemRenewal(db, codeHash, username, now);
    if tx.result.Success? {
      var a, minutes := FindAccountByUsername(db.accounts, username).value, db.invites[FindInviteByHash(db.invites, codeHash).value].durationMinutes;
      RenewWrites(db, a, minutes, now);
      hide Renewed, Redeemable;
      assert WritesOrRefuses(db, tx, a, Reactivated(db.accounts[a], minutes, now), now);
    }
  }

  lemma OutboxAfterRedeem(s: State, codeHash: string, username: string, now: int)
    requires Sound(s.db) && OutboxHolds(s)
    ensures OutboxHolds(Noted(DoInvites(s, Redeem(codeHash, username, now))))
  {
    WorkerFacts(s);
    OutboxUnchanged(s);
    var s', tx := Noted(DoInvites(s, Redeem(codeHash, username, now))), RedeemRenewal(s.db, codeHash, username, now);
    RedeemWrites(s.db, codeHash, username, now);
    hide OutboxHolds, Sound, CallHolds, DueRead, Outstanding, RedeemRenewal, WritesOrRefuses;
    if tx.result.Success? {
      var a, queued :| a in s.db.accounts && WritesOrRefuses(s.db, tx, a, queued, now);
      OutboxAfterAnswer(s, s', tx, a, queued, now);
    }
  }

  ghost predicate SameAccounts(db: Db, db': Db) {
    db'.accounts == db.accounts && db'.jobs == db.jobs && db'.operations == db.operations
    && db'.nextAccount == db.nextAccount && db'.nextOperation == db.nextOperation
  }

  /** What a delivery does to accounts and jobs: one renewal, or nothing. */
  lemma DeliveryEffect(db: Db, input: PaymentInput)
    ensures var db' := FulfillPaymentOrder(db, input).db;
      SameAccounts(db, db') || exists a, queued :: Wrote(db, db', a, queued, input.now)
  {
    hide FulfillPaymentOrder, Wrote;
    if !Deliverable(db, input) || FulfillPaymentOrder(db, input).result.Failure? {
      UndeliverableChangesNothing(db, input);
    } else if db.orders[input.orderId].kind == ActivationOrder {
      SaleEffect(db, input);
    } else {
      PaidRenewalEffect(db, input);
      var order := db.orders[input.orderId];
      var a := order.accountId.value;
      var renewed := RenewAccount(db, a, order.durationMinutes, input.now);
      RenewWrites(db, a, order.durationMinutes, input.now);
      WroteSame(db, renewed, FulfillPaymentOrder(db, input).db, a, Reactivated(db.accounts[a], order.durationMinutes, input.now), input.now);
    }
  }

  lemma WroteSame(db: Db, db': Db, db'': Db, a: nat, queued: bool, now: int)
    requires Wrote(db, db', a, queued, now) && SameAccounts(db', db'')
    ensures Wrote(db, db'', a, queued, now)
  {
  }

  lemma OutboxAfterSent(s: State, s': State, db': Db, now: int)
    requires Sound(s.db) && OutboxHolds(s)
    requires SameAccounts(s.db, db') || exists a, queued :: Wrote(s.db, db', a, queued, now)
    requires s' == Noted(s.(db := db', books := s'.books))
    ensures OutboxHolds(s')
  {
    WorkerFacts(s);
    hide OutboxHolds, Sound, CallHolds, DueRead, Wrote;
    if a, queued :| Wrote(s.db, db', a, queued, now) {
      WroteKeepsRow(s.db, db', a, queued, now);
      // the caller is answered with the order, so the new account row has not been read
      var wide := s'.(readAccounts := s.readAccounts + {db'.accounts[a]});
      OutboxAfterWrite(s, wide, a, queued, now);
      OutboxForgets(wide, s');
    } else {
      OutboxAfterNeutral(s, s');
    }
  }

  lemma WroteKeepsRow(db: Db, db': Db, a: nat, queued: bool, now: int)
    requires Wrote(db, db', a, queued, now)
    ensures a in db'.accounts
  {
  }

  lemma OutboxAfterDeliver(s: State, order: Order, payment: PaymentInput)
    requires Sound(s.db) && OutboxHolds(s)
    ensures OutboxHolds(Noted(DoPayments(s, Deliver(order, payment))))
  {
    OutboxUnchanged(s);
    var s', sent := Noted(DoPayments(s, Deliver(order, payment))), Sent(order, payment);
    DeliveryEffect(s.db, sent);
    hide OutboxHolds, Sound, FulfillPaymentOrder, Sent, Wrote, SameAccounts;
    if order in s.readOrders && order.fulfillment != Fulfilled {
      OutboxAfterSent(s, s', FulfillPaymentOrder(s.db, sent).db, sent.now);
    }
  }

  // A smaller pool is still a pool of earlier reads, unless the worker's due rows leave it.
  lemma OutboxForgets(s: State, s': State)
    requires OutboxHolds(s) && s'.readAccounts <= s.readAccounts && DueRead(s.worker, s'.readAccounts)
    requires s' == s.(readAccounts := s'.readAccounts)
    ensures OutboxHolds(s')
  {
    assert PoolHolds(s'.readAccounts, s.db.accounts, s.db.nextAccount);
    hide PoolHolds, UsersHold, FlagsHold, CreationsHold, DriverHolds, OutstandingHolds, CallHolds, RemovingHolds;
  }

  /** Beginning an operation inserts it, or replays or refuses without touching the tables. */
  ghost predicate BeginsOrReplays(db: Db, tx: Tx<Operation>) {
    tx.db == db ||
    (tx.result.Success? && tx.db.operations == db.operations[db.nextOperation := tx.result.value] && tx.db.nextOperation == db.nextOperation + 1
     && tx.result.value.accountId.None? && tx.result.value.embyUserId.None?
     && tx.db.accounts == db.accounts && tx.db.jobs == db.jobs && tx.db.nextAccount == db.nextAccount)
  }

  lemma BeginCreateBegins(db: Db, input: OperationInput)
    ensures BeginsOrReplays(db, BeginAccountCreateOperation(db, input))
  {
  }

  lemma BeginRegisterBegins(db: Db, input: OperationInput, codeHash: string)
    ensures BeginsOrReplays(db, BeginRegistrationOperation(db, input, codeHash))
  {
  }

  lemma OutboxAfterBegin(s: State, s': State, tx: Tx<Operation>)
    requires Sound(s.db) && OutboxHolds(s) && BeginsOrReplays(s.db, tx) && s' == Noted(s.(db := tx.db))
    ensures OutboxHolds(s')
  {
    WorkerFacts(s);
    if tx.db == s.db {
      hide OutboxHolds, Sound, CallHolds, DueRead, Outstanding;
      OutboxAfterNeutral(s, s');
    } else {
      OperationBegun(s, tx.result.value);
      hide Sound, PoolHolds, UsersHold, FlagsHold, CreationsHold, DriverHolds, OutstandingHolds, CallHolds, RemovingHolds;
      hide AccountIdsKnown, JobIdsKnown, SagaAccounts, Outstanding;
      OutboxAfterOperations(s, s');
    }
  }

  lemma OutboxAfterDrive(s: State, operationId: nat)
    requires Sound(s.db) && OutboxHolds(s)
    ensures OutboxHolds(Noted(DoSaga(s, Drive(operationId))))
  {
    hide Sound, PoolHolds, UsersHold, FlagsHold, CreationsHold, OutstandingHolds, CallHolds, RemovingHolds;
    hide AccountIdsKnown, OperationIdsKnown, JobIdsKnown, SagaAccounts, Outstanding;
    OutboxUnchanged(s);
    if s.driver.NoDriver? && operationId in s.db.operations {
      OperationFacts(s.db, operationId);
      var s' := Noted(DoSaga(s, Drive(operationId)));
      OutboxAfterOperations(s, s');
    }
  }

  /** Finishing a completed operation again, or one that cannot be finished, changes no table. */
  lemma FinishReplays(db: Db, o: nat, now: int)
    requires Sound(db)
    ensures var tx := CompleteAccountCreateOperation(db, o, now);
      (tx.result.Success? ==> OperationAt(db.operations, o, Completed)) ==>
        tx.db == db && (tx.result.Success? ==> tx.result.value.id in db.accounts && db.accounts[tx.result.value.id] == tx.result.value)
  {
    if o in db.operations && db.operations[o].status == Completed {
      OperationFacts(db, o);
      AccountFacts(db, db.operations[o].accountId.value);
    }
    hide Sound, AccountFree;
  }

  lemma OutboxAfterFinish(s: State, now: int)
    requires Sound(s.db) && OutboxHolds(s) && s.driver.Finishing?
    ensures OutboxHolds(Noted(DoSaga(s, Finish(now))))
  {
    hide OutboxHolds, Sound, CompleteAccountCreateOperation, Provisioned;
    var o, s' := s.driver.operationId, Noted(DoSaga(s, Finish(now)));
    var tx := CompleteAccountCreateOperation(s.db, o, now);
    FinishKnows(s.db, o, now);
    if tx.result.Success? && s.db.operations[o].status != Completed {
      FinishProvisions(s, now);
      OutboxAfterProvision(s, s', tx.result.value, s'.db.operations[o]);
    } else {
      OutboxAfterReplay(s, s', tx);
    }
  }

  lemma FinishKnows(db: Db, o: nat, now: int)
    ensures CompleteAccountCreateOperation(db, o, now).result.Success? ==> o in db.operations
  {
  }

  lemma OutboxAfterReplay(s: State, s': State, tx: Tx<Account>)
    requires Sound(s.db) && OutboxHolds(s) && s.driver.Finishing?
    requires tx.result.Success? ==> OperationAt(s.db.operations, s.driver.operationId, Completed)
    requires exists now :: tx == CompleteAccountCreateOperation(s.db, s.driver.operationId, now)
    requires s' == Noted(Answered(s, tx).(driver := NoDriver))
    ensures OutboxHolds(s')
  {
    var now :| tx == CompleteAccountCreateOperation(s.db, s.driver.operationId, now);
    FinishReplays(s.db, s.driver.operationId, now);
    WorkerFacts(s);
    DriverLeaves(s);
    hide OutboxHolds, Sound, CompleteAccountCreateOperation, DueRead, CallHolds;
    var left := s.(driver := NoDriver);
    DueReadMore(left, s');
    OutboxAfterNeutral(left, s');
  }

  lemma DriverLeaves(s: State)
    requires OutboxHolds(s)
    ensures OutboxHolds(s.(driver := NoDriver))
  {
    hide PoolHolds, UsersHold, FlagsHold, CreationsHold, OutstandingHolds, CallHolds, RemovingHolds;
  }

  // ----- all steps -----

  lemma OutboxAfterRead(s: State, id: nat)
    requires Sound(s.db) && OutboxHolds(s)
    ensures OutboxHolds(Noted(DoAccounts(s, ReadAccount(id))))
  {
    WorkerFacts(s);
    var s' := Noted(DoAccounts(s, ReadAccount(id)));
    hide OutboxHolds, Sound, CallHolds, DueRead, Outstanding;
    if id in s.db.accounts {
      AccountFacts(s.db, id);
      DueReadMore(s, s');
    }
    OutboxAfterNeutral(s, s');
  }

  lemma OutboxUnchanged(s: State)
    requires Sound(s.db) && OutboxHolds(s)
    ensures OutboxHolds(Noted(s))
  {
    WorkerFacts(s);
    hide OutboxHolds, Sound, CallHolds, DueRead, Outstanding;
    OutboxAfterNeutral(s, Noted(s));
  }

  lemma OutboxAfterAccountStep(s: State, action: AccountAction)
    requires Sound(s.db) && OutboxHolds(s)
    ensures OutboxHolds(Noted(DoAccounts(s, action)))
  {
    hide OutboxHolds, Sound, ApplyUpdate, ApplyShift, Noted;
    if action.Update? {
      OutboxAfterUpdateStep(s, action.snap, action.expiresAt, action.note, action.now);
      return;
    } else if action.BatchShift? {
      OutboxAfterShiftStep(s, action.first, action.second, action.shift, action.now);
      return;
    }
    hide DoAccounts;
    match action
    case ReadAccount(id) => OutboxAfterRead(s, id);
    case Disable(_, _) => OutboxAfterStatusStep(s, action);
    case Enable(_, _, _) => OutboxAfterStatusStep(s, action);
    case QueueDirectly(_, _) => OutboxAfterStatusStep(s, action);
    case InsertDirectly(account) => OutboxAfterInsertDirectly(s, account);
    case DeleteRemotely(snap, effect, ok) => OutboxAfterDeleteRemotelyStep(s, snap, effect, ok);
    case DeleteLocally(id) => OutboxAfterDeleteLocally(s, id);
  }

  lemma OutboxAfterUpdateStep(s: State, snap: Account, expiresAt: int, note: string, now: int)
    requires Sound(s.db) && OutboxHolds(s)
    ensures OutboxHolds(Noted(ApplyUpdate(s, snap, expiresAt, note, now)))
  {
    OutboxUnchanged(s);
    hide OutboxHolds, Sound, ApplyEdit;
    if snap in s.readAccounts {
      OutboxAfterEdit(s, Noted(ApplyUpdate(s, snap, expiresAt, note, now)), snap, expiresAt, note, expiresAt - snap.expiresAt, now);
    }
  }

  lemma OutboxAfterShiftStep(s: State, first: Account, second: Account, shift: int, now: int)
    requires Sound(s.db) && OutboxHolds(s)
    ensures OutboxHolds(Noted(ApplyShift(s, first, second, shift, now)))
  {
    OutboxUnchanged(s);
    hide OutboxHolds, Sound, ApplyEdit;
    if first in s.readAccounts && second in s.readAccounts && first.id == second.id && first.version == second.version {
      OutboxAfterEdit(s, Noted(ApplyShift(s, first, second, shift, now)), second, first.expiresAt + shift, first.note, shift, now);
    }
  }

  lemma OutboxAfterStatusStep(s: State, action: AccountAction)
    requires Sound(s.db) && OutboxHolds(s) && (action.Disable? || action.Enable? || action.QueueDirectly?)
    ensures OutboxHolds(Noted(DoAccounts(s, action)))
  {
    OutboxUnchanged(s);
    hide OutboxHolds, Sound, SetAccountStatus, Answered;
    var snap := action.snap;
    if snap in s.readAccounts {
      OutboxAfterAnyStatus(s, snap);
    }
  }

  lemma OutboxAfterAnyStatus(s: State, snap: Account)
    requires Sound(s.db) && OutboxHolds(s) && snap in s.readAccounts
    ensures forall status, disabledAt, now :: OutboxHolds(Noted(Answered(s, SetAccountStatus(s.db, snap, status, disabledAt, now))))
  {
    hide OutboxHolds, Sound, SetAccountStatus, Answered;
    forall status, disabledAt, now
      ensures OutboxHolds(Noted(Answered(s, SetAccountStatus(s.db, snap, status, disabledAt, now))))
    {
      OutboxAfterAnswered(s, Noted(Answered(s, SetAccountStatus(s.db, snap, status, disabledAt, now))), snap, status, disabledAt, now);
    }
  }

  lemma OutboxAfterDeleteRemotelyStep(s: State, snap: Account, effect: bool, ok: bool)
    requires Sound(s.db) && OutboxHolds(s)
    ensures OutboxHolds(Noted(DoAccounts(s, DeleteRemotely(snap, effect, ok))))
  {
    OutboxUnchanged(s);
    hide OutboxHolds, Sound, ApplyDeleteRemotely;
    if snap in s.readAccounts {
      OutboxAfterDeleteRemotely(s, Noted(DoAccounts(s, DeleteRemotely(snap, effect, ok))), snap, effect, ok);
    }
  }

  lemma DueReadMore(s: State, s': State)
    requires DueRead(s.worker, s.readAccounts) && s.readAccounts <= s'.readAccounts && s'.worker == s.worker
    ensures DueRead(s'.worker, s'.readAccounts)
  {
  }

  lemma OutboxAfterAnswered(s: State, s': State, snap: Account, status: Status, disabledAt: Option<int>, now: int)
    requires Sound(s.db) && OutboxHolds(s) && snap in s.readAccounts
    requires var t := Answered(s, SetAccountStatus(s.db, snap, status, disabledAt, now)); s' == t.(everQueued := t.everQueued + t.db.jobs.Keys)
    ensures OutboxHolds(s')
  {
    WorkerFacts(s);
    hide OutboxHolds, Sound, CallHolds, DueRead, Outstanding, SetAccountStatus;
    OutboxAfterStatus(s, s', snap, status, disabledAt, now);
  }

  lemma OutboxAfterDeleteLocally(s: State, id: nat)
    requires Sound(s.db) && OutboxHolds(s)
    ensures OutboxHolds(Noted(DoAccounts(s, DeleteLocally(id))))
  {
    hide OutboxHolds, Sound, CallHolds, DueRead, Outstanding, WithoutAccount, OperationsWithout, RedemptionsWithout;
    WorkerFacts(s);
    var s' := Noted(DoAccounts(s, DeleteLocally(id)));
    if id in s.removing && id in s.db.accounts {
      OutboxAfterDelete(s, s', id);
    } else {
      OutboxAfterNeutral(s, s');
    }
  }

  lemma OutboxAfterWorkerStep(s: State, action: WorkerAction)
    requires Sound(s.db) && OutboxHolds(s)
    ensures OutboxHolds(Noted(DoWorker(s, action)))
  {
    OutboxUnchanged(s);
    var s' := Noted(DoWorker(s, action));
    hide OutboxHolds, Sound, IsBatch, IsDueList, ApplyCall, ApplyRecord, Snapshots, SetAccountStatus, Answered;
    match action
    case ListDue(due, now) => if s.worker.Resting? && IsDueList(s.db, due, now) { OutboxAfterListDue(s, due, now); }
    case ExpireNext => OutboxAfterExpireNext(s);
    case ListJobs(batch) => if s' != Noted(s) { OutboxAfterListJobs(s, s', batch); }
    case CallNext(ok, effect) => if s.worker.Syncing? && s.worker.jobs != [] { OutboxAfterCall(s, s', ok, effect); }
    case RecordCall(stored, message) => if s.worker.Called? { OutboxAfterRecord(s, s', stored, message); }
    case EndRun => if s.worker.Syncing? && s.worker.jobs == [] { OutboxAfterRest(s, s'); }
    case WorkerCrash => OutboxAfterRest(s, s');
  }

  lemma OutboxAfterListDue(s: State, due: seq<Account>, now: int)
    requires Sound(s.db) && OutboxHolds(s) && s.worker.Resting? && IsDueList(s.db, due, now)
    ensures OutboxHolds(Noted(DoWorker(s, ListDue(due, now))))
  {
    var s' := Noted(DoWorker(s, ListDue(due, now)));
    assert forall a :: a in s'.readAccounts && a !in s.readAccounts ==> a in due;
    hide OutboxHolds, Sound;
    OutboxAfterNeutral(s, s');
  }

  lemma OutboxAfterRest(s: State, s': State)
    requires Sound(s.db) && OutboxHolds(s) && s' == s.(worker := Resting, everQueued := s.everQueued + s.db.jobs.Keys)
    ensures OutboxHolds(s')
  {
    JobsBelow(s.db, s.db.jobs.Keys);
    hide Sound, PoolHolds, UsersHold, FlagsHold, CreationsHold, DriverHolds, RemovingHolds;
    UsersNoted(s.users, s.usedIds, s.db.accounts, s.everQueued, s'.everQueued);
    FlagsEverQueued(s.users, s.db.accounts, s.db.jobs, s.everQueued, SagaAccounts(s.db.operations));
  }

  lemma OutboxAfterDriverCrash(s: State)
    requires Sound(s.db) && OutboxHolds(s)
    ensures OutboxHolds(Noted(s.(driver := NoDriver)))
  {
    DriverLeaves(s);
    OutboxUnchanged(s.(driver := NoDriver));
  }

  lemma OutboxAfterSagaStep(s: State, action: SagaAction)
    requires Sound(s.db) && OutboxHolds(s)
    ensures OutboxHolds(Noted(DoSaga(s, action)))
  {
    OutboxUnchanged(s);
    var s' := Noted(DoSaga(s, action));
    hide OutboxHolds, Sound, ApplyLookup, ApplyCreateUser, ApplyFinish, BeginAccountCreateOperation, BeginRegistrationOperation,
      MarkAccountCreateOperationCreating, SaveAccountCreateOperationRemote, BeginsOrReplays;
    match action
    case BeginCreate(input) =>
      var in' := input.(kind := AccountCreate);
      BeginCreateBegins(s.db, in');
      OutboxAfterBegin(s, s', BeginAccountCreateOperation(s.db, in'));
    case BeginRegister(input, codeHash) =>
      var in' := input.(kind := Register);
      BeginRegisterBegins(s.db, in', codeHash);
      OutboxAfterBegin(s, s', BeginRegistrationOperation(s.db, in', codeHash));
    case Drive(operationId) => OutboxAfterDrive(s, operationId);
    case MarkCreating(now) => if s.driver.MarkingCreate? { OutboxAfterMark(s, s', now); }
    case Lookup(found) => if s.driver.LookingUp? { OutboxAfterLookup(s, s', found); }
    case CreateUser(id, ok, effect) => if s.driver.CreatingUser? { OutboxAfterCreateUser(s, s', id, ok, effect); }
    case SaveRemote(now) => if s.driver.SavingRemote? { OutboxAfterSaveRemote(s, s', now); }
    case Finish(now) => if s.driver.Finishing? { OutboxAfterFinish(s, now); }
    case DriverCrash => OutboxAfterDriverCrash(s);
  }

  ghost predicate OnlyInvites(db: Db, db': Db) {
    db' == db.(invites := db'.invites, nextInvite := db'.nextInvite, redemptions := db'.redemptions,
               nextRedemption := db'.nextRedemption, orders := db'.orders)
  }

  lemma InviteAdministrationTables(s: State, action: InviteAction)
    requires action.NewInvite? || action.SwitchInvite? || action.DropInvite?
    ensures OnlyInvites(s.db, DoInvites(s, action).db)
  {
    hide InviteReferenced, FindInviteByHash, WithoutInvite;
  }

  lemma InviteUseTables(s: State, action: InviteAction)
    requires action.Consume? || action.Release? || action.RecordDirectly?
    ensures OnlyInvites(s.db, DoInvites(s, action).db)
  {
    hide InOpenPeriod, FindInviteByHash, UseInvite, At, Plus;
  }

  lemma InviteStepNeutral(s: State, action: InviteAction)
    requires !action.Redeem?
    ensures Neutral(s, Noted(DoInvites(s, action))) && DoInvites(s, action).worker == s.worker
      && DoInvites(s, action).readAccounts == s.readAccounts
  {
    if action.NewInvite? || action.SwitchInvite? || action.DropInvite? {
      InviteAdministrationTables(s, action);
    } else {
      InviteUseTables(s, action);
    }
    hide CreateInvite, SetInviteEnabled, DeleteInvite, ConsumeInvite, ReleaseInvite, RecordRedemption;
  }

  lemma OutboxAfterInviteStep(s: State, action: InviteAction)
    requires Sound(s.db) && OutboxHolds(s)
    ensures OutboxHolds(Noted(DoInvites(s, action)))
  {
    WorkerFacts(s);
    hide OutboxHolds, Sound, DoInvites, Neutral;
    if action.Redeem? {
      OutboxAfterRedeem(s, action.codeHash, action.username, action.now);
    } else {
      InviteStepNeutral(s, action);
      OutboxAfterNeutral(s, Noted(DoInvites(s, action)));
    }
  }

  lemma PaymentStepNeutral(s: State, action: PaymentAction)
    requires !action.Deliver?
    ensures Neutral(s, Noted(DoPayments(s, action))) && DoPayments(s, action).worker == s.worker
      && DoPayments(s, action).readAccounts == s.readAccounts
  {
  }

  lemma OutboxAfterPaymentStep(s: State, action: PaymentAction)
    requires Sound(s.db) && OutboxHolds(s)
    ensures OutboxHolds(Noted(DoPayments(s, action)))
  {
    WorkerFacts(s);
    hide OutboxHolds, Sound, DoPayments, Neutral;
    if action.Deliver? {
      OutboxAfterDeliver(s, action.order, action.payment);
    } else {
      PaymentStepNeutral(s, action);
      OutboxAfterNeutral(s, Noted(DoPayments(s, action)));
    }
  }

  lemma OutboxAfterForeignStep(s: State, action: ForeignAction)
    requires Sound(s.db) && OutboxHolds(s)
    ensures OutboxHolds(Noted(DoOthers(s, action)))
  {
    OutboxUnchanged(s);
    var s' := Noted(DoOthers(s, action));
    hide OutboxHolds, Sound;
    match action
    case ForeignUser(id, username, disabled) => if id !in s.usedIds { OutboxAfterForeignUser(s, s', id, username, disabled); }
    case ForeignDelete(id) => OutboxAfterForeignDelete(s, s', id);
  }

  /** The outbox invariant is inductive: every step of the portal keeps it. */
  lemma OutboxNext(s: State, step: Step)
    requires Sound(s.db) && OutboxHolds(s)
    ensures OutboxHolds(Next(s, step))
  {
    hide OutboxHolds, Sound, DoAccounts, DoWorker, DoSaga, DoInvites, DoPayments, DoOthers, Noted;
    match step
    case OfAccounts(action) => OutboxAfterAccountStep(s, action);
    case OfWorker(action) => OutboxAfterWorkerStep(s, action);
    case OfSaga(action) => OutboxAfterSagaStep(s, action);
    case OfInvites(action) => OutboxAfterInviteStep(s, action);
    case OfPayments(action) => OutboxAfterPaymentStep(s, action);
    case OfOthers(action) => OutboxAfterForeignStep(s, action);
  }
}
