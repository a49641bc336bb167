/** Every step of the portal keeps the ledgers. */
module LedgerSteps {
  import opened Domain
  import opened Totals
  import opened Timestamps
  import opened Transactions
  import opened TableInvariants
  import opened AccessQueue
  import opened Portal
  import opened Outbox
  import opened OutboxSteps
  import opened Ledgers

  // ----- accounts -----

  /** An edit of a live row, as the ledgers see it. */
  ghost predicate EditWrote(s: State, s': State, a: nat, expiresAt: int, intended: int) {
    && a in s.db.accounts && a in s'.db.accounts
    && s'.db.accounts == s.db.accounts[a := s'.db.accounts[a]] && s'.db.accounts[a].expiresAt == expiresAt
    && s'.db == s.db.(accounts := s'.db.accounts, jobs := s'.db.jobs)
    && s'.books == s.books.(edits := Plus(s.books.edits, a, intended))
  }

  lemma EditEffect(s: State, snap: Account, expiresAt: int, note: string, intended: int, now: int)
    ensures var s' := ApplyEdit(s, snap, expiresAt, note, intended, now);
      s' == s || (VersionMatches(s.db, snap) && EditWrote(s, s', snap.id, expiresAt, intended))
  {
    hide UpsertAccessSyncJob, TrimSpace;
  }

  /** An edit whose intended change is the difference to the row it replaces is booked exactly. */
  lemma LedgersAfterEdit(s: State, snap: Account, expiresAt: int, note: string, intended: int, now: int)
    requires Sound(s.db) && LedgersHold(s)
    requires VersionMatches(s.db, snap) ==> intended == expiresAt - s.db.accounts[snap.id].expiresAt
    ensures LedgersHold(ApplyEdit(s, snap, expiresAt, note, intended, now))
  {
    hide Sound, InviteBooksHold, TimeBooksHold, MintedHolds, CountsHold, ApplyEdit;
    var a, s' := snap.id, ApplyEdit(s, snap, expiresAt, note, intended, now);
    EditEffect(s, snap, expiresAt, note, intended, now);
    if s' != s {
      AccountFacts(s.db, a);
      TimeAfterEdit(s.db.accounts, s.db.redemptions, s.db.orders, s.books.initialExpiry, s.books.edits, s.db.nextAccount,
        a, s'.db.accounts[a], intended);
    }
  }

  /** The CAS makes a stale snapshot harmless: an accepted edit was computed from the row it replaces. */
  lemma AcceptedSnapshotIsLive(s: State, snap: Account)
    requires OutboxHolds(s) && snap in s.readAccounts && VersionMatches(s.db, snap)
    ensures snap == s.db.accounts[snap.id]
  {
  }

  lemma LedgersAfterUpdate(s: State, snap: Account, expiresAt: int, note: string, now: int)
    requires Sound(s.db) && OutboxHolds(s) && LedgersHold(s)
    ensures LedgersHold(ApplyUpdate(s, snap, expiresAt, note, now))
  {
    hide Sound, OutboxHolds, LedgersHold, ApplyEdit;
    if snap in s.readAccounts {
      if VersionMatches(s.db, snap) { AcceptedSnapshotIsLive(s, snap); }
      LedgersAfterEdit(s, snap, expiresAt, note, expiresAt - snap.expiresAt, now);
    }
  }

  /** Batch computes from its first read and is guarded by its second; equal versions make them one row. */
  lemma LedgersAfterShift(s: State, first: Account, second: Account, shift: int, now: int)
    requires Sound(s.db) && OutboxHolds(s) && LedgersHold(s)
    ensures LedgersHold(ApplyShift(s, first, second, shift, now))
  {
    hide Sound, OutboxHolds, LedgersHold, ApplyEdit;
    if first in s.readAccounts && second in s.readAccounts && first.id == second.id && first.version == second.version {
      if VersionMatches(s.db, second) { AcceptedSnapshotIsLive(s, first); }
      LedgersAfterEdit(s, second, first.expiresAt + shift, first.note, shift, now);
    }
  }

  lemma LedgersAfterStatus(s: State, s': State, snap: Account, status: Status, disabledAt: Option<int>, now: int)
    requires Sound(s.db) && LedgersHold(s)
    requires s'.db == SetAccountStatus(s.db, snap, status, disabledAt, now).db && s'.books == s.books
    ensures LedgersHold(s')
  {
    var a := snap.id;
    if VersionMatches(s.db, snap) {
      AccountFacts(s.db, a);
      hide Sound, InviteBooksHold, TimeBooksHold, MintedHolds, CountsHold, UpsertAccessSyncJob;
      TimeAfterEdit(s.db.accounts, s.db.redemptions, s.db.orders, s.books.initialExpiry, s.books.edits, s.db.nextAccount, a, s'.db.accounts[a], 0);
    }
  }

  lemma LedgersAfterInsertDirectly(s: State, account: Account)
    requires Sound(s.db) && LedgersHold(s)
    ensures LedgersHold(DoAccounts(s, InsertDirectly(account)))
  {
    hide Sound, InviteBooksHold, TimeBooksHold, MintedHolds, CountsHold, AccountFree;
    TimeAfterInsert(s.db, s.books.initialExpiry, s.books.edits, account.(id := s.db.nextAccount, version := 1));
  }

  lemma CountsAfterDelete(db: Db, provisioned: map<nat, int>, a: nat)
    requires CountsHold(provisioned, db.operations, db.nextOperation)
    ensures CountsHold(provisioned, DeleteAccount(db, a).db.operations, db.nextOperation)
  {
  }

  lemma SalesAfterDelete(db: Db, a: nat)
    ensures SameSales(db.orders, DeleteAccount(db, a).db.orders, db.invites.Keys)
  {
  }

  lemma LedgersAfterDelete(s: State, a: nat)
    requires Sound(s.db) && LedgersHold(s) && a in s.db.accounts
    ensures LedgersHold(s.(db := DeleteAccount(s.db, a).db))
  {
    var db' := DeleteAccount(s.db, a).db;
    assert forall o :: o in s.db.operations && o !in db'.operations ==> s.db.operations[o].status == Completed;
    hide Sound, InviteBooksHold, TimeBooksHold, MintedHolds, CountsHold;
    TimeAfterDelete(s.db, s.books.initialExpiry, s.books.edits, a);
    CountsAfterDelete(s.db, s.books.provisioned, a);
    SalesAfterDelete(s.db, a);
    MintedAfterOrders(s.books.minted, s.db.orders, db'.orders, s.db.invites, s.db.nextInvite);
    BooksAfterRetirement(s.db.invites, s.db.operations, db'.operations, s.books.recorded, s.books.held, s.db.nextInvite);
  }

  lemma LedgersAfterAccountStep(s: State, action: AccountAction)
    requires Sound(s.db) && OutboxHolds(s) && LedgersHold(s)
    ensures LedgersHold(DoAccounts(s, action))
  {
    hide Sound, OutboxHolds, InviteBooksHold, TimeBooksHold, MintedHolds, CountsHold, ApplyUpdate, ApplyShift, DeleteAccount, SetAccountStatus, CreateAccount;
    match action
    case ReadAccount(_) =>
    case Update(snap, expiresAt, note, now) => LedgersAfterUpdate(s, snap, expiresAt, note, now);
    case BatchShift(first, second, shift, now) => LedgersAfterShift(s, first, second, shift, now);
    case Disable(snap, now) =>
      if snap in s.readAccounts { LedgersAfterStatus(s, DoAccounts(s, action), snap, Disabled, Some(now), now); }
    case Enable(snap, checkedAt, now) =>
      if snap in s.readAccounts && checkedAt < snap.expiresAt { LedgersAfterStatus(s, DoAccounts(s, action), snap, Active, None, now); }
    case InsertDirectly(account) => LedgersAfterInsertDirectly(s, account);
    case QueueDirectly(snap, now) =>
      if snap in s.readAccounts { LedgersAfterStatus(s, DoAccounts(s, action), snap, snap.status, snap.disabledAt, now); }
    case DeleteRemotely(_, _, _) =>
    case DeleteLocally(id) => LedgersAfterDeleteLocally(s, id);
  }

  lemma LedgersAfterDeleteLocally(s: State, id: nat)
    requires Sound(s.db) && LedgersHold(s)
    ensures LedgersHold(DoAccounts(s, DeleteLocally(id)))
  {
    hide Sound, InviteBooksHold, TimeBooksHold, MintedHolds, CountsHold;
    if id in s.db.accounts {
      LedgersAfterDelete(s, id);
    }
  }

  lemma LedgersAfterWorkerStep(s: State, action: WorkerAction)
    requires Sound(s.db) && LedgersHold(s)
    ensures LedgersHold(DoWorker(s, action))
  {
    hide Sound, InviteBooksHold, TimeBooksHold, MintedHolds, CountsHold, SetAccountStatus, IsDueList, IsBatch, Snapshots;
    if action.ExpireNext? && s.worker.Expiring? && s.worker.due != [] {
      LedgersAfterStatus(s, DoWorker(s, action), s.worker.due[0], Expired, Some(s.worker.now), s.worker.now);
    }
  }

  // ----- the saga -----

  lemma CountsAfterOperation(provisioned: map<nat, int>, operations: map<nat, Operation>, next: nat, o: nat, row: Operation)
    requires CountsHold(provisioned, operations, next)
    requires o in operations && (row.status == Completed <==> operations[o].status == Completed)
    ensures CountsHold(provisioned, operations[o := row], next)
  {
  }

  lemma CountsAfterNewOperation(provisioned: map<nat, int>, operations: map<nat, Operation>, next: nat, row: Operation)
    requires CountsHold(provisioned, operations, next) && row.status != Completed
    ensures CountsHold(provisioned, operations[next := row], next + 1)
  {
  }

  lemma CountsAfterCompletion(provisioned: map<nat, int>, operations: map<nat, Operation>, next: nat, o: nat, row: Operation)
    requires CountsHold(provisioned, operations, next) && o < next
    requires o in operations && operations[o].status != Completed && row.status == Completed
    ensures CountsHold(Plus(provisioned, o, 1), operations[o := row], next)
  {
    assert At(provisioned, o) == 0;
  }

  lemma OperationKeyFresh(db: Db)
    requires Sound(db)
    ensures db.nextOperation !in db.operations && (forall o :: o in db.operations ==> o < db.nextOperation)
  {
  }

  lemma SameTermsAfterUse(invites: map<nat, Invite>, i: nat)
    requires i in invites
    ensures SameTerms(invites, UseInvite(invites, i))
  {
  }

  lemma BeginsOrNot(db: Db, input: OperationInput)
    ensures var db' := BeginAccountCreateOperation(db, input).db;
      db' == db || db' == InsertOperation(db, NewOperation(db.nextOperation, input))
  {
  }

  lemma LedgersAfterBeginCreate(s: State, input: OperationInput)
    requires Sound(s.db) && LedgersHold(s) && input.kind == AccountCreate
    ensures LedgersHold(s.(db := BeginAccountCreateOperation(s.db, input).db))
  {
    OperationKeyFresh(s.db);
    BeginsOrNot(s.db, input);
    hide Sound, InviteBooksHold, TimeBooksHold, MintedHolds, CountsHold, BeginAccountCreateOperation;
    var o, row := s.db.nextOperation, NewOperation(s.db.nextOperation, input);
    CountsAfterNewOperation(s.books.provisioned, s.db.operations, o, row);
    BooksAfterNewOperation(s.db.invites, s.db.operations, s.books.recorded, s.books.held, s.db.nextInvite, o, row);
  }

  lemma LedgersAfterBeginRegister(s: State, input: OperationInput, codeHash: string)
    requires Sound(s.db) && LedgersHold(s) && input.kind == Register
    ensures LedgersHold(s.(db := BeginRegistrationOperation(s.db, input, codeHash).db))
  {
    OperationKeyFresh(s.db);
    hide Sound, InviteBooksHold, TimeBooksHold, MintedHolds, CountsHold;
    var tx := BeginRegistrationOperation(s.db, input, codeHash);
    if tx.db != s.db {
      var o, i, row := s.db.nextOperation, FindInviteByHash(s.db.invites, codeHash).value, tx.result.value;
      CountsAfterNewOperation(s.books.provisioned, s.db.operations, o, row);
      SameTermsAfterUse(s.db.invites, i);
      MintedAfterInvites(s.books.minted, s.db.orders, s.db.invites, tx.db.invites, s.db.nextInvite);
      BooksAfterReservation(s.db.invites, s.db.operations, s.books.recorded, s.books.held, s.db.nextInvite, o, row, i);
    }
  }

  // Checkpoints neither open nor close an operation.
  lemma LedgersAfterCheckpoint(s: State, o: nat, row: Operation)
    requires LedgersHold(s) && o in s.db.operations
    requires row.kind == s.db.operations[o].kind && row.inviteId == s.db.operations[o].inviteId
    requires row.status != Completed && s.db.operations[o].status != Completed
    ensures LedgersHold(s.(db := s.db.(operations := s.db.operations[o := row])))
  {
    hide InviteBooksHold, TimeBooksHold, MintedHolds, CountsHold;
    CountsAfterOperation(s.books.provisioned, s.db.operations, s.db.nextOperation, o, row);
    BooksAfterOperation(s.db.invites, s.db.operations, s.books.recorded, s.books.held, s.db.nextInvite, o, row);
  }

  lemma RedemptionKeyFresh(db: Db)
    requires Sound(db)
    ensures db.nextRedemption !in db.redemptions
  {
  }

  /** Finishing an operation, as the ledgers see it: one account, one closed operation and, for a
      registration, one redemption. */
  ghost predicate Completes(db: Db, db': Db, o: nat, account: Account) {
    && o in db.operations && o in db'.operations
    && db'.accounts == db.accounts[db.nextAccount := account] && db'.nextAccount == db.nextAccount + 1
    && db'.operations == db.operations[o := db'.operations[o]] && db'.nextOperation == db.nextOperation
    && db'.operations[o].kind == db.operations[o].kind && db'.operations[o].status == Completed
    && db'.operations[o].inviteId == db.operations[o].inviteId
    && db'.orders == db.orders && db'.invites == db.invites && db'.nextInvite == db.nextInvite
    && (if db.operations[o].kind == Register then
          && db.operations[o].inviteId.Some? && db.nextRedemption in db'.redemptions
          && db'.redemptions == db.redemptions[db.nextRedemption := db'.redemptions[db.nextRedemption]]
          && db'.redemptions[db.nextRedemption].kind == Registration
        else db'.redemptions == db.redemptions)
  }

  lemma CompletionEffect(db: Db, o: nat, now: int)
    requires CompleteAccountCreateOperation(db, o, now).result.Success? && db.operations[o].status != Completed
    ensures var tx := CompleteAccountCreateOperation(db, o, now);
      Completes(db, tx.db, o, tx.result.value) && tx.result.value.id == db.nextAccount && tx.result.value.expiresAt == db.operations[o].expiresAt
  {
    hide AccountFree, UpsertAccessSyncJob;
  }

  ghost predicate FinishWrote(s: State, s': State, o: nat, account: Account) {
    && Completes(s.db, s'.db, o, account)
    && s'.books.initialExpiry == s.books.initialExpiry[s.db.nextAccount := account.expiresAt]
    && s'.books.provisioned == Plus(s.books.provisioned, o, 1)
    && s'.books.edits == s.books.edits && s'.books.held == s.books.held && s'.books.minted == s.books.minted
    && s'.books.recorded ==
      if s.db.operations[o].kind == Register then Plus(s.books.recorded, s.db.operations[o].inviteId.value, 1) else s.books.recorded
  }

  lemma FinishEffect(s: State, now: int)
    requires s.driver.Finishing?
    requires CompleteAccountCreateOperation(s.db, s.driver.operationId, now).result.Success?
    requires s.db.operations[s.driver.operationId].status != Completed
    ensures FinishWrote(s, ApplyFinish(s, now), s.driver.operationId,
      CompleteAccountCreateOperation(s.db, s.driver.operationId, now).result.value)
  {
    CompletionEffect(s.db, s.driver.operationId, now);
    hide CompleteAccountCreateOperation;
  }

  lemma TimeAfterFinish(s: State, s': State, o: nat, account: Account)
    requires Sound(s.db) && LedgersHold(s) && FinishWrote(s, s', o, account)
    ensures TimeBooksHold(s'.db.accounts, s'.db.redemptions, s'.db.orders, s'.books.initialExpiry, s'.books.edits, s'.db.nextAccount)
  {
    hide Sound, InviteBooksHold, TimeBooksHold, MintedHolds, CountsHold;
    RedemptionKeyFresh(s.db);
    TimeAfterInsert(s.db, s.books.initialExpiry, s.books.edits, account);
    if s.db.operations[o].kind == Register {
      TimeAfterRegistration(s'.db.accounts, s.db.redemptions, s.db.orders, s'.books.initialExpiry, s.books.edits, s'.db.nextAccount,
        s.db.nextRedemption, s'.db.redemptions[s.db.nextRedemption]);
    }
  }

  lemma LedgersAfterProvision(s: State, s': State, o: nat, account: Account)
    requires Sound(s.db) && LedgersHold(s) && FinishWrote(s, s', o, account) && s.db.operations[o].status != Completed
    ensures LedgersHold(s')
  {
    hide Sound, InviteBooksHold, TimeBooksHold, MintedHolds, CountsHold;
    TimeAfterFinish(s, s', o, account);
    var operation, row := s.db.operations[o], s'.db.operations[o];
    OperationKeyFresh(s.db);
    CountsAfterCompletion(s.books.provisioned, s.db.operations, s.db.nextOperation, o, row);
    if operation.kind == Register {
      OperationFacts(s.db, o);
      InviteFacts(s.db, operation.inviteId.value);
      BooksAfterCompletion(s.db.invites, s.db.operations, s.books.recorded, s.books.held, s.db.nextInvite, o, row, operation.inviteId.value);
    } else {
      BooksAfterPlainCompletion(s.db.invites, s.db.operations, s.books.recorded, s.books.held, s.db.nextInvite, o, row);
    }
  }

  lemma LedgersAfterFinish(s: State, now: int)
    requires Sound(s.db) && LedgersHold(s) && s.driver.Finishing?
    ensures LedgersHold(ApplyFinish(s, now))
  {
    hide InviteBooksHold, TimeBooksHold, MintedHolds, CountsHold, Sound, CompleteAccountCreateOperation, FinishWrote;
    var o := s.driver.operationId;
    FinishKnows(s.db, o, now);
    FinishReplays(s.db, o, now);
    if CompleteAccountCreateOperation(s.db, o, now).result.Success? && s.db.operations[o].status != Completed {
      FinishEffect(s, now);
      LedgersAfterProvision(s, ApplyFinish(s, now), o, CompleteAccountCreateOperation(s.db, o, now).result.value);
    }
  }

  lemma LedgersAfterSagaStep(s: State, action: SagaAction)
    requires Sound(s.db) && OutboxHolds(s) && LedgersHold(s)
    ensures LedgersHold(DoSaga(s, action))
  {
    hide Sound, OutboxHolds, InviteBooksHold, TimeBooksHold, MintedHolds, CountsHold, ApplyFinish, NamedLikeOperation;
    hide BeginAccountCreateOperation, BeginRegistrationOperation, CompleteAccountCreateOperation;
    hide MarkAccountCreateOperationCreating, SaveAccountCreateOperationRemote, OperationAt;
    match action
    case BeginCreate(input) => LedgersAfterBeginCreate(s, input.(kind := AccountCreate));
    case BeginRegister(input, codeHash) => LedgersAfterBeginRegister(s, input.(kind := Register), codeHash);
    case Drive(_) =>
    case MarkCreating(now) => if s.driver.MarkingCreate? { LedgersAfterMark(s, now); }
    case Lookup(_) =>
    case CreateUser(_, _, _) =>
    case SaveRemote(now) => if s.driver.SavingRemote? { LedgersAfterSave(s, now); }
    case Finish(now) => if s.driver.Finishing? { LedgersAfterFinish(s, now); }
    case DriverCrash =>
  }

  lemma LedgersAfterMark(s: State, now: int)
    requires LedgersHold(s) && s.driver.MarkingCreate?
    ensures LedgersHold(s.(db := MarkAccountCreateOperationCreating(s.db, s.driver.operationId, now)))
  {
    hide LedgersHold;
    var o := s.driver.operationId;
    if o in s.db.operations && s.db.operations[o].status == OperationStatus.Pending {
      LedgersAfterCheckpoint(s, o, s.db.operations[o].(status := Creating, updatedAt := now));
    }
  }

  lemma LedgersAfterSave(s: State, now: int)
    requires LedgersHold(s) && s.driver.SavingRemote?
    ensures LedgersHold(s.(db := SaveAccountCreateOperationRemote(s.db, s.driver.operationId, s.driver.embyUserId, now).db))
  {
    hide LedgersHold;
    var o := s.driver.operationId;
    if o in s.db.operations && s.db.operations[o].status != Completed {
      LedgersAfterCheckpoint(s, o, s.db.operations[o].(embyUserId := Some(s.driver.embyUserId), status := RemoteCreated, updatedAt := now));
    }
  }

  // ----- invites -----

  lemma LedgersAfterNewInvite(s: State, invite: Invite)
    requires Sound(s.db) && LedgersHold(s)
    ensures LedgersHold(s.(db := CreateInvite(s.db, invite).db))
  {
    hide Sound, InviteBooksHold, TimeBooksHold, MintedHolds, CountsHold;
    var row := invite.(id := s.db.nextInvite, usedCount := 0);
    BooksAfterNewInvite(s.db, s.books.recorded, s.books.held, row);
    MintedAfterNewInvite(s.books.minted, s.db.orders, s.db.invites, s.db.nextInvite, row);
  }

  lemma LedgersAfterSwitch(s: State, i: nat, enabled: bool)
    requires LedgersHold(s)
    ensures LedgersHold(s.(db := SetInviteEnabled(s.db, i, enabled).db))
  {
    if i in s.db.invites {
      var row := s.db.invites[i].(enabled := enabled);
      assert SameTerms(s.db.invites, s.db.invites[i := row]);
      hide InviteBooksHold, TimeBooksHold, MintedHolds, CountsHold;
      BooksAfterSwitch(s.db.invites, s.db.operations, s.books.recorded, s.books.held, s.db.nextInvite, i, row);
      MintedAfterInvites(s.books.minted, s.db.orders, s.db.invites, s.db.invites[i := row], s.db.nextInvite);
    }
  }

  lemma OrdersAfterDrop(orders: map<nat, Order>, invites: map<nat, Invite>, i: nat)
    ensures SameMinutes(orders, WithoutInvite(orders, i)) && SameSales(orders, WithoutInvite(orders, i), (invites - {i}).Keys)
    ensures SameTerms(invites, invites - {i})
  {
  }

  lemma BooksAfterDrop(invites: map<nat, Invite>, operations: map<nat, Operation>, recorded: map<nat, int>, held: map<nat, int>, next: nat, i: nat)
    requires InviteBooksHold(invites, operations, recorded, held, next)
    ensures InviteBooksHold(invites - {i}, operations, recorded, held, next)
  {
  }

  lemma DropTables(db: Db, i: nat)
    ensures var db' := DeleteInvite(db, i).db;
      db' == db || db' == db.(invites := db.invites - {i}, orders := WithoutInvite(db.orders, i))
  {
    hide InviteReferenced, WithoutInvite;
  }

  lemma LedgersAfterDrop(s: State, i: nat)
    requires LedgersHold(s)
    ensures LedgersHold(s.(db := DeleteInvite(s.db, i).db))
  {
    hide InviteBooksHold, TimeBooksHold, MintedHolds, CountsHold, DeleteInvite, SameTerms, SameSales, SameMinutes, WithoutInvite;
    DropTables(s.db, i);
    var invites', orders' := s.db.invites - {i}, WithoutInvite(s.db.orders, i);
    OrdersAfterDrop(s.db.orders, s.db.invites, i);
    BooksAfterDrop(s.db.invites, s.db.operations, s.books.recorded, s.books.held, s.db.nextInvite, i);
    TimeAfterOrders(s.db.accounts, s.db.redemptions, s.db.orders, orders', s.books.initialExpiry, s.books.edits, s.db.nextAccount);
    MintedAfterInvites(s.books.minted, s.db.orders, s.db.invites, invites', s.db.nextInvite);
    MintedAfterOrders(s.books.minted, s.db.orders, orders', invites', s.db.nextInvite);
  }

  lemma LedgersAfterConsume(s: State, codeHash: string, now: int)
    requires Sound(s.db) && LedgersHold(s)
    ensures LedgersHold(ApplyConsume(s, codeHash, now))
  {
    var i := FindInviteByHash(s.db.invites, codeHash);
    if ConsumeInvite(s.db, codeHash, now).result.Success? {
      InviteFacts(s.db, i.value);
      hide Sound, InviteBooksHold, TimeBooksHold, MintedHolds, CountsHold;
      SameTermsAfterUse(s.db.invites, i.value);
      BooksAfterUse(s.db.invites, s.db.operations, s.books.recorded, s.books.held, s.db.nextInvite, i.value);
      MintedAfterInvites(s.books.minted, s.db.orders, s.db.invites, UseInvite(s.db.invites, i.value), s.db.nextInvite);
    }
  }

  lemma LedgersAfterRelease(s: State, i: nat)
    requires LedgersHold(s) && At(s.books.held, i) > 0
    ensures LedgersHold(s.(db := ReleaseInvite(s.db, i), books := s.books.(held := Plus(s.books.held, i, -1))))
  {
    BooksAfterRelease(s.db, s.books.recorded, s.books.held, i);
    assert SameTerms(s.db.invites, ReleaseInvite(s.db, i).invites);
    hide InviteBooksHold, TimeBooksHold, MintedHolds, CountsHold;
    MintedAfterInvites(s.books.minted, s.db.orders, s.db.invites, ReleaseInvite(s.db, i).invites, s.db.nextInvite);
  }

  lemma LedgersAfterRecordDirectly(s: State, redemption: Redemption)
    requires Sound(s.db) && LedgersHold(s) && At(s.books.held, redemption.inviteId) > 0 && redemption.kind == Registration
    ensures LedgersHold(ApplyRecordDirectly(s, redemption))
  {
    RedemptionKeyFresh(s.db);
    hide Sound, InviteBooksHold, TimeBooksHold, MintedHolds, CountsHold;
    BooksAfterRecord(s.db.invites, s.db.operations, s.books.recorded, s.books.held, s.db.nextInvite, redemption.inviteId);
    TimeAfterRegistration(s.db.accounts, s.db.redemptions, s.db.orders, s.books.initialExpiry, s.books.edits, s.db.nextAccount,
      s.db.nextRedemption, redemption);
  }

  lemma LedgersAfterRedeem(s: State, codeHash: string, username: string, now: int)
    requires Sound(s.db) && LedgersHold(s)
    ensures LedgersHold(ApplyRedeem(s, codeHash, username, now))
  {
    var tx := RedeemRenewal(s.db, codeHash, username, now);
    if tx.result.Success? {
      var a, i := FindAccountByUsername(s.db.accounts, username).value, FindInviteByHash(s.db.invites, codeHash).value;
      var invite := s.db.invites[i];
      InviteFacts(s.db, i);
      RedemptionKeyFresh(s.db);
      hide Sound, InviteBooksHold, TimeBooksHold, MintedHolds, CountsHold, UpsertAccessSyncJob;
      var redemption := Redemption(i, a, Renewal, invite.durationDays, invite.durationMinutes, now);
      TimeAfterRenewal(s.db.accounts, s.db.redemptions, s.db.orders, s.books.initialExpiry, s.books.edits, s.db.nextAccount,
        a, Renewed(s.db.accounts[a], invite.durationMinutes, now), s.db.nextRedemption, redemption);
      BooksAfterUse(s.db.invites, s.db.operations, s.books.recorded, s.books.held, s.db.nextInvite, i);
      SameTermsAfterUse(s.db.invites, i);
      MintedAfterInvites(s.books.minted, s.db.orders, s.db.invites, UseInvite(s.db.invites, i), s.db.nextInvite);
    }
  }

  lemma LedgersAfterInviteStep(s: State, action: InviteAction)
    requires Sound(s.db) && LedgersHold(s)
    ensures LedgersHold(DoInvites(s, action))
  {
    hide Sound, LedgersHold, CreateInvite, SetInviteEnabled, DeleteInvite, ApplyConsume, ReleaseInvite, ApplyRecordDirectly, ApplyRedeem;
    match action
    case NewInvite(invite) => LedgersAfterNewInvite(s, invite);
    case SwitchInvite(i, enabled) => LedgersAfterSwitch(s, i, enabled);
    case DropInvite(i) => LedgersAfterDrop(s, i);
    case Consume(codeHash, now) => LedgersAfterConsume(s, codeHash, now);
    case Release(i) => if At(s.books.held, i) > 0 { LedgersAfterRelease(s, i); }
    case RecordDirectly(redemption) =>
      if At(s.books.held, redemption.inviteId) > 0 && redemption.kind == Registration { LedgersAfterRecordDirectly(s, redemption); }
    case Redeem(codeHash, username, now) => LedgersAfterRedeem(s, codeHash, username, now);
  }

  // ----- payments -----

  lemma LedgersAfterNewOrder(s: State, draft: Order)
    requires Sound(s.db) && LedgersHold(s)
    ensures LedgersHold(s.(db := CreatePaymentOrder(s.db, draft).db))
  {
    NewOrderFacts(s.db);
    hide Sound, InviteBooksHold, TimeBooksHold, MintedHolds, CountsHold;
    var tx := CreatePaymentOrder(s.db, draft);
    if tx.result.Success? {
      var row := tx.result.value;
      TimeAfterNewOrder(s.db.accounts, s.db.redemptions, s.db.orders, s.books.initialExpiry, s.books.edits, s.db.nextAccount, s.db.nextOrder, row);
      MintedAfterNewOrder(s.books.minted, s.db.orders, s.db.invites, s.db.nextInvite, s.db.nextOrder, row);
    }
  }

  // Writing the provider's view of an order, or closing it, delivers nothing.
  lemma LedgersAfterOrderRow(s: State, o: nat, row: Order)
    requires LedgersHold(s) && o in s.db.orders
    requires row.kind == s.db.orders[o].kind && row.fulfillment == s.db.orders[o].fulfillment && row.accountId == s.db.orders[o].accountId
    requires row.durationMinutes == s.db.orders[o].durationMinutes && row.durationDays == s.db.orders[o].durationDays
    requires row.inviteId == s.db.orders[o].inviteId
    ensures LedgersHold(s.(db := s.db.(orders := s.db.orders[o := row])))
  {
    var orders' := s.db.orders[o := row];
    assert SameMinutes(s.db.orders, orders') && SameSales(s.db.orders, orders', s.db.invites.Keys);
    hide InviteBooksHold, TimeBooksHold, MintedHolds, CountsHold, SameMinutes, SameSales;
    TimeAfterOrders(s.db.accounts, s.db.redemptions, s.db.orders, orders', s.books.initialExpiry, s.books.edits, s.db.nextAccount);
    MintedAfterOrders(s.books.minted, s.db.orders, orders', s.db.invites, s.db.nextInvite);
  }

  lemma LedgersAfterSale(s: State, input: PaymentInput)
    requires Sound(s.db) && LedgersHold(s) && Deliverable(s.db, input) && FulfillPaymentOrder(s.db, input).result.Success?
    requires s.db.orders[input.orderId].kind == ActivationOrder
    ensures FulfillPaymentOrder(s.db, input).db.nextInvite == s.db.nextInvite + 1
    ensures LedgersHold(s.(db := FulfillPaymentOrder(s.db, input).db,
                           books := s.books.(minted := s.books.minted[s.db.nextInvite := input.orderId])))
  {
    SaleEffect(s.db, input);
    hide Sound, InviteBooksHold, TimeBooksHold, MintedHolds, CountsHold, FulfillPaymentOrder;
    var o, order, i := input.orderId, s.db.orders[input.orderId], s.db.nextInvite;
    var row, invite := PaidOrder(order, input, Some(i)), ActivationInvite(i, order, input);
    BooksAfterNewInvite(s.db, s.books.recorded, s.books.held, invite);
    TimeAfterActivation(s.db.accounts, s.db.redemptions, s.db.orders, s.books.initialExpiry, s.books.edits, s.db.nextAccount, o, row);
    MintedAfterSale(s.books.minted, s.db.orders, s.db.invites, i, o, row, invite);
  }

  lemma LedgersAfterPaidRenewal(s: State, input: PaymentInput)
    requires Sound(s.db) && LedgersHold(s) && Deliverable(s.db, input) && FulfillPaymentOrder(s.db, input).result.Success?
    requires s.db.orders[input.orderId].kind == RenewalOrder
    ensures FulfillPaymentOrder(s.db, input).db.nextInvite == s.db.nextInvite
    ensures LedgersHold(s.(db := FulfillPaymentOrder(s.db, input).db))
  {
    PaidRenewalEffect(s.db, input);
    hide Sound, InviteBooksHold, TimeBooksHold, MintedHolds, CountsHold, FulfillPaymentOrder;
    var o, order := input.orderId, s.db.orders[input.orderId];
    var row, a := PaidOrder(order, input, None), order.accountId.value;
    TimeAfterPaidRenewal(s.db.accounts, s.db.redemptions, s.db.orders, s.books.initialExpiry, s.books.edits, s.db.nextAccount,
      a, Renewed(s.db.accounts[a], order.durationMinutes, input.now), o, row);
    MintedAfterRenewal(s.books.minted, s.db.orders, s.db.invites, s.db.nextInvite, o, row);
  }

  lemma LedgersAfterDeliver(s: State, order: Order, payment: PaymentInput)
    requires Sound(s.db) && LedgersHold(s)
    ensures LedgersHold(ApplyDeliver(s, order, payment))
  {
    var sent := Sent(order, payment);
    if Deliverable(s.db, sent) && FulfillPaymentOrder(s.db, sent).result.Success? {
      if s.db.orders[sent.orderId].kind == ActivationOrder {
        LedgersAfterSale(s, sent);
      } else {
        LedgersAfterPaidRenewal(s, sent);
      }
    } else {
      UndeliverableChangesNothing(s.db, sent);
    }
    hide Sound, LedgersHold, FulfillPaymentOrder, Deliverable;
  }

  lemma LedgersAfterPaymentStep(s: State, action: PaymentAction)
    requires Sound(s.db) && LedgersHold(s)
    ensures LedgersHold(DoPayments(s, action))
  {
    hide Sound, InviteBooksHold, TimeBooksHold, MintedHolds, CountsHold, CreatePaymentOrder, ApplyDeliver;
    match action
    case NewOrder(draft) => LedgersAfterNewOrder(s, draft);
    case ReadOrder(_) =>
    case ProviderUpdate(o, _, _, _, _, _) =>
      if o in s.db.orders { LedgersAfterOrderRow(s, o, DoPayments(s, action).db.orders[o]); }
    case CloseOrder(o, _, _, _, _) =>
      if o in s.db.orders { LedgersAfterOrderRow(s, o, DoPayments(s, action).db.orders[o]); }
    case Deliver(order, payment) => if order in s.readOrders { LedgersAfterDeliver(s, order, payment); }
  }

  /** The ledgers are inductive: every step of the portal keeps them. */
  lemma LedgersNext(s: State, step: Step)
    requires Sound(s.db) && OutboxHolds(s) && LedgersHold(s)
    ensures LedgersHold(Next(s, step))
  {
    hide Sound, OutboxHolds, InviteBooksHold, TimeBooksHold, MintedHolds, CountsHold;
    hide DoAccounts, DoWorker, DoSaga, DoInvites, DoPayments;
    match step
    case OfAccounts(action) => LedgersAfterAccountStep(s, action);
    case OfWorker(action) => LedgersAfterWorkerStep(s, action);
    case OfSaga(action) => LedgersAfterSagaStep(s, action);
    case OfInvites(action) => LedgersAfterInviteStep(s, action);
    case OfPayments(action) => LedgersAfterPaymentStep(s, action);
    case OfOthers(_) =>
  }
}
