/** The invariant that ties the queue of access jobs, the worker's stale snapshots and Emby's flags
    together, and its preservation by every step of the portal. */
module Outbox {
  import opened Domain
  import opened Listing
  import opened Timestamps
  import opened Transactions
  import opened TableInvariants
  import opened AccessQueue
  import opened Portal

  // ----- what a handler's earlier read still says -----

  ghost predicate SnapshotOf(snap: Account, live: Account) {
    && snap.id == live.id && snap.embyUserId == live.embyUserId && snap.username == live.username
    && snap.version <= live.version
    && (snap.version == live.version ==> snap == live)
  }

  ghost predicate PoolHolds(pool: set<Account>, accounts: map<nat, Account>, next: nat) {
    forall snap :: snap in pool ==> snap.id < next && (snap.id in accounts ==> SnapshotOf(snap, accounts[snap.id]))
  }

  // ----- Emby users and accounts -----

  /** An account is deleted locally only after its Emby user is gone, and user ids do not come back. */
  ghost predicate RemovingHolds(removing: set<nat>, accounts: map<nat, Account>, users: map<string, EmbyUser>, next: nat) {
    forall a :: a in removing ==> a < next && (a in accounts ==> accounts[a].embyUserId !in users)
  }

  /** An account with this user has had a job queued. */
  ghost predicate OwnedAndQueued(accounts: map<nat, Account>, everQueued: set<nat>, user: string) {
    exists a :: a in accounts && a in everQueued && accounts[a].embyUserId == user
  }

  /** A user keeps the flag it appeared with until a job of an account that owns it is called for. */
  ghost predicate UsersHold(users: map<string, EmbyUser>, usedIds: set<string>, accounts: map<nat, Account>, everQueued: set<nat>) {
    forall u :: u in users ==>
      u in usedIds && (users[u].disabled != users[u].bornDisabled ==> OwnedAndQueued(accounts, everQueued, u))
  }

  ghost function SagaAccounts(operations: map<nat, Operation>): set<nat> {
    set o | o in operations && operations[o].accountId.Some? :: operations[o].accountId.value
  }

  ghost predicate FlagAgrees(users: map<string, EmbyUser>, account: Account) {
    account.embyUserId in users ==> (users[account.embyUserId].disabled <==> account.status != Active)
  }

  /** With nothing queued for an account, Emby shows what its status says from its first job on; before
      that, an account that the saga made is as active as it was made. */
  ghost predicate FlagsHold(users: map<string, EmbyUser>, accounts: map<nat, Account>, jobs: map<nat, Job>,
                            everQueued: set<nat>, saga: set<nat>) {
    forall a :: a in accounts && a !in jobs ==>
      (a in everQueued ==> FlagAgrees(users, accounts[a])) && (a in saga && a !in everQueued ==> accounts[a].status == Active)
  }

  ghost predicate QueuedBelow(everQueued: set<nat>, next: nat) {
    forall a :: a in everQueued ==> a < next
  }

  // ----- users and the operations that created them -----

  ghost predicate CreationsHold(users: map<string, EmbyUser>, operations: map<nat, Operation>, next: nat) {
    && (forall u :: u in users && users[u].createdBy.Some? ==>
          var o := users[u].createdBy.value;
          o < next && (o in operations ==> users[u].username == operations[o].username && operations[o].status != Pending))
    && (forall u, v :: u in users && v in users && users[u].createdBy.Some? && users[u].createdBy == users[v].createdBy ==> u == v)
  }

  ghost predicate NoUserOf(users: map<string, EmbyUser>, operation: nat) {
    forall u :: u in users ==> users[u].createdBy != Some(operation)
  }

  ghost predicate OperationAt(operations: map<nat, Operation>, o: nat, status: OperationStatus) {
    o in operations && operations[o].status == status
  }

  /** The holder of the mutex knows where its operation stands. */
  ghost predicate DriverHolds(driver: Driver, operations: map<nat, Operation>, users: map<string, EmbyUser>) {
    match driver
    case NoDriver => true
    case MarkingCreate(o) => OperationAt(operations, o, Pending)
    case LookingUp(o) => OperationAt(operations, o, Creating)
    case CreatingUser(o) => OperationAt(operations, o, Creating) && NoUserOf(users, o)
    case SavingRemote(o, _) => OperationAt(operations, o, Creating)
    case Finishing(_) => true
  }

  // ----- the worker's snapshots -----

  /** A job that the worker has listed and not yet recorded: it is still queued, perhaps under a later
      revision, unless its account and with it its Emby user are gone. */
  ghost predicate JobSnapshotHolds(j: JobSnapshot, accounts: map<nat, Account>, jobs: map<nat, Job>, users: map<string, EmbyUser>, next: nat) {
    && j.accountId < next
    && (j.accountId in accounts ==>
          && accounts[j.accountId].embyUserId == j.embyUserId
          && j.accountId in jobs && j.revision <= jobs[j.accountId].revision
          && (j.revision == jobs[j.accountId].revision ==> j.desiredDisabled == jobs[j.accountId].desiredDisabled))
    && (j.accountId !in accounts ==> j.embyUserId !in users)
  }

  ghost predicate OutstandingHolds(js: seq<JobSnapshot>, accounts: map<nat, Account>, jobs: map<nat, Job>, users: map<string, EmbyUser>, next: nat) {
    && (forall i :: 0 <= i < |js| ==> JobSnapshotHolds(js[i], accounts, jobs, users, next))
    && (forall i, k :: 0 <= i < k < |js| ==> js[i].accountId != js[k].accountId)
  }

  ghost function Outstanding(worker: Worker): seq<JobSnapshot> {
    match worker
    case Syncing(js, _) => js
    case Called(j, _, rest, _) => [j] + rest
    case _ => []
  }

  /** After a successful call the flag is what the job wanted until the worker calls again. */
  ghost predicate CallHolds(worker: Worker, users: map<string, EmbyUser>) {
    worker.Called? && worker.ok && worker.job.embyUserId in users ==>
      users[worker.job.embyUserId].disabled == worker.job.desiredDisabled
  }

  ghost predicate DueRead(worker: Worker, pool: set<Account>) {
    worker.Expiring? ==> forall a :: a in worker.due ==> a in pool && a.status == Active
  }

  /** Every Emby user id the portal holds was given out by Emby. */
  ghost predicate AccountIdsKnown(accounts: map<nat, Account>, usedIds: set<string>) {
    forall a :: a in accounts ==> accounts[a].embyUserId in usedIds
  }

  ghost predicate OperationIdsKnown(operations: map<nat, Operation>, usedIds: set<string>) {
    forall o :: o in operations && operations[o].embyUserId.Some? ==> operations[o].embyUserId.value in usedIds
  }

  ghost predicate JobIdsKnown(js: seq<JobSnapshot>, usedIds: set<string>) {
    forall i :: 0 <= i < |js| ==> js[i].embyUserId in usedIds
  }

  ghost predicate DriverIdKnown(driver: Driver, usedIds: set<string>) {
    driver.SavingRemote? ==> driver.embyUserId in usedIds
  }

  ghost predicate IdsKnown(s: State) {
    && AccountIdsKnown(s.db.accounts, s.usedIds)
    && OperationIdsKnown(s.db.operations, s.usedIds)
    && JobIdsKnown(Outstanding(s.worker), s.usedIds)
    && DriverIdKnown(s.driver, s.usedIds)
  }

  ghost predicate OutboxHolds(s: State) {
    && IdsKnown(s)
    && PoolHolds(s.readAccounts, s.db.accounts, s.db.nextAccount)
    && RemovingHolds(s.removing, s.db.accounts, s.users, s.db.nextAccount)
    && UsersHold(s.users, s.usedIds, s.db.accounts, s.everQueued)
    && FlagsHold(s.users, s.db.accounts, s.db.jobs, s.everQueued, SagaAccounts(s.db.operations))
    && QueuedBelow(s.everQueued, s.db.nextAccount) && s.db.jobs.Keys <= s.everQueued
    && CreationsHold(s.users, s.db.operations, s.db.nextOperation)
    && DriverHolds(s.driver, s.db.operations, s.users)
    && OutstandingHolds(Outstanding(s.worker), s.db.accounts, s.db.jobs, s.users, s.db.nextAccount)
    && CallHolds(s.worker, s.users)
    && DueRead(s.worker, s.readAccounts)
  }

  // ----- writes to one account row -----

  /** One committed write: the version advances, the identity stays, and a change of status is queued. */
  ghost predicate Wrote(db: Db, db': Db, a: nat, queued: bool, now: int) {
    && a in db.accounts && a in db'.accounts
    && db'.accounts == db.accounts[a := db'.accounts[a]]
    && db'.accounts[a].id == db.accounts[a].id
    && db'.accounts[a].embyUserId == db.accounts[a].embyUserId && db'.accounts[a].username == db.accounts[a].username
    && db'.accounts[a].version == db.accounts[a].version + 1
    && (!queued ==> db'.accounts[a].status == db.accounts[a].status)
    && db'.jobs == (if queued then UpsertAccessSyncJob(db.jobs, a, db'.accounts[a].status != Active, now) else db.jobs)
    && db'.operations == db.operations && db'.nextAccount == db.nextAccount && db'.nextOperation == db.nextOperation
  }

  lemma PoolAfterWrite(pool: set<Account>, accounts: map<nat, Account>, next: nat, a: nat, row: Account)
    requires PoolHolds(pool, accounts, next) && a in accounts && a < next
    requires row.id == a == accounts[a].id && row.embyUserId == accounts[a].embyUserId && row.username == accounts[a].username
    requires row.version == accounts[a].version + 1
    ensures PoolHolds(pool + {row}, accounts[a := row], next) && PoolHolds(pool, accounts[a := row], next)
  {
  }

  lemma UsersAfterWrite(users: map<string, EmbyUser>, usedIds: set<string>, accounts: map<nat, Account>, ever: set<nat>, ever': set<nat>,
                        a: nat, row: Account)
    requires UsersHold(users, usedIds, accounts, ever) && ever <= ever'
    requires a in accounts ==> row.embyUserId == accounts[a].embyUserId
    ensures UsersHold(users, usedIds, accounts[a := row], ever')
  {
    forall u | OwnedAndQueued(accounts, ever, u)
      ensures OwnedAndQueued(accounts[a := row], ever', u)
    {
      var b :| b in accounts && b in ever && accounts[b].embyUserId == u;
      assert accounts[a := row][b].embyUserId == u;
    }
  }

  lemma UsersNoted(users: map<string, EmbyUser>, usedIds: set<string>, accounts: map<nat, Account>, ever: set<nat>, ever': set<nat>)
    requires UsersHold(users, usedIds, accounts, ever) && ever <= ever'
    ensures UsersHold(users, usedIds, accounts, ever')
  {
    forall u | OwnedAndQueued(accounts, ever, u)
      ensures OwnedAndQueued(accounts, ever', u)
    {
      var b :| b in accounts && b in ever && accounts[b].embyUserId == u;
    }
  }

  lemma FlagsAfterWrite(users: map<string, EmbyUser>, accounts: map<nat, Account>, jobs: map<nat, Job>, ever: set<nat>, saga: set<nat>,
                        a: nat, row: Account, queued: bool, now: int)
    requires FlagsHold(users, accounts, jobs, ever, saga) && a in accounts
    requires row.embyUserId == accounts[a].embyUserId && (!queued ==> row.status == accounts[a].status)
    ensures var jobs' := if queued then UpsertAccessSyncJob(jobs, a, row.status != Active, now) else jobs;
      FlagsHold(users, accounts[a := row], jobs', ever + jobs'.Keys, saga)
  {
  }

  lemma OutstandingAfterWrite(js: seq<JobSnapshot>, accounts: map<nat, Account>, jobs: map<nat, Job>, users: map<string, EmbyUser>, next: nat,
                          a: nat, row: Account, queued: bool, now: int)
    requires OutstandingHolds(js, accounts, jobs, users, next) && a in accounts && row.embyUserId == accounts[a].embyUserId
    ensures OutstandingHolds(js, accounts[a := row], if queued then UpsertAccessSyncJob(jobs, a, row.status != Active, now) else jobs, users, next)
  {
  }

  lemma JobsBelow(db: Db, keys: set<nat>)
    requires Sound(db) && keys <= db.accounts.Keys + db.jobs.Keys
    ensures QueuedBelow(keys, db.nextAccount)
  {
  }

  lemma OutboxAfterWrite(s: State, s': State, a: nat, queued: bool, now: int)
    requires Sound(s.db) && OutboxHolds(s)
    requires Wrote(s.db, s'.db, a, queued, now)
    requires s'.readAccounts == s.readAccounts + {s'.db.accounts[a]}
    requires s'.users == s.users && s'.usedIds == s.usedIds && s'.driver == s.driver && s'.removing == s.removing
    requires Outstanding(s'.worker) == Outstanding(s.worker) && CallHolds(s'.worker, s.users) && DueRead(s'.worker, s.readAccounts)
    requires s'.everQueued == s.everQueued + s'.db.jobs.Keys
    ensures OutboxHolds(s')
  {
    hide Sound, PoolHolds, UsersHold, FlagsHold, CreationsHold, DriverHolds, OutstandingHolds, CallHolds, SagaAccounts;
    AccountFacts(s.db, a);
    JobsBelow(s.db, s.db.jobs.Keys + {a});
    var row := s'.db.accounts[a];
    PoolAfterWrite(s.readAccounts, s.db.accounts, s.db.nextAccount, a, row);
    UsersAfterWrite(s.users, s.usedIds, s.db.accounts, s.everQueued, s'.everQueued, a, row);
    FlagsAfterWrite(s.users, s.db.accounts, s.db.jobs, s.everQueued, SagaAccounts(s.db.operations), a, row, queued, now);
    OutstandingAfterWrite(Outstanding(s.worker), s.db.accounts, s.db.jobs, s.users, s.db.nextAccount, a, row, queued, now);
  }

  // ----- the transactions that write one account row -----

  ghost predicate ReadEarlier(db: Db, snap: Account) {
    snap.id in db.accounts ==> SnapshotOf(snap, db.accounts[snap.id])
  }

  /** A transaction either changes nothing or writes row `a`, and answers with the row it stored. */
  ghost predicate WritesOrRefuses(db: Db, tx: Tx<Account>, a: nat, queued: bool, now: int) {
    if tx.result.Failure? then tx.db == db
    else Wrote(db, tx.db, a, queued, now) && tx.result.value == tx.db.accounts[a]
  }

  lemma UpdateWrites(db: Db, snap: Account, account: Account)
    requires ReadEarlier(db, snap)
    requires account == snap.(expiresAt := account.expiresAt, note := account.note, updatedAt := account.updatedAt)
    ensures WritesOrRefuses(db, UpdateAccount(db, account), snap.id, false, 0)
  {
  }

  lemma ExpireWrites(db: Db, snap: Account, account: Account, now: int)
    requires ReadEarlier(db, snap)
    requires account == snap.(expiresAt := account.expiresAt, note := account.note, updatedAt := account.updatedAt)
    ensures WritesOrRefuses(db, UpdateAccountAndExpire(db, account, now, now), snap.id, true, now)
  {
  }

  lemma StatusWrites(db: Db, snap: Account, status: Status, disabledAt: Option<int>, now: int)
    requires ReadEarlier(db, snap)
    ensures WritesOrRefuses(db, SetAccountStatus(db, snap, status, disabledAt, now), snap.id, true, now)
  {
  }

  lemma RenewWrites(db: Db, a: nat, minutes: int, now: int)
    requires a in db.accounts
    ensures Wrote(db, RenewAccount(db, a, minutes, now), a, Reactivated(db.accounts[a], minutes, now), now)
  {
  }

  // ----- the other shapes of a step -----

  /** Nothing that the invariant speaks of has changed, except that a stored account may have been read. */
  ghost predicate Neutral(s: State, s': State) {
    && s'.db.accounts == s.db.accounts && s'.db.jobs == s.db.jobs && s'.db.operations == s.db.operations
    && s'.db.nextAccount == s.db.nextAccount && s'.db.nextOperation == s.db.nextOperation
    && s'.users == s.users && s'.usedIds == s.usedIds && s'.driver == s.driver && s'.removing == s.removing
    && s.readAccounts <= s'.readAccounts
    && (forall a :: a in s'.readAccounts && a !in s.readAccounts ==> a.id in s.db.accounts && s.db.accounts[a.id] == a)
    && s'.everQueued == s.everQueued + s'.db.jobs.Keys
  }

  lemma PoolAfterReads(pool: set<Account>, pool': set<Account>, db: Db)
    requires Sound(db) && PoolHolds(pool, db.accounts, db.nextAccount)
    requires forall a :: a in pool' && a !in pool ==> a.id in db.accounts && db.accounts[a.id] == a
    ensures PoolHolds(pool', db.accounts, db.nextAccount)
  {
    forall snap | snap in pool'
      ensures snap.id < db.nextAccount && (snap.id in db.accounts ==> SnapshotOf(snap, db.accounts[snap.id]))
    {
      if snap !in pool {
        AccountFacts(db, snap.id);
      }
    }
  }

  lemma FlagsEverQueued(users: map<string, EmbyUser>, accounts: map<nat, Account>, jobs: map<nat, Job>, ever: set<nat>, saga: set<nat>)
    requires FlagsHold(users, accounts, jobs, ever, saga)
    ensures FlagsHold(users, accounts, jobs, ever + jobs.Keys, saga)
  {
  }

  lemma OutboxAfterNeutral(s: State, s': State)
    requires Sound(s.db) && OutboxHolds(s) && Neutral(s, s')
    requires Outstanding(s'.worker) == Outstanding(s.worker) && CallHolds(s'.worker, s.users) && DueRead(s'.worker, s'.readAccounts)
    ensures OutboxHolds(s')
  {
    JobsBelow(s.db, s.db.jobs.Keys);
    PoolAfterReads(s.readAccounts, s'.readAccounts, s.db);
    hide Sound, PoolHolds, UsersHold, FlagsHold, CreationsHold, DriverHolds, OutstandingHolds, CallHolds;
    UsersNoted(s.users, s.usedIds, s.db.accounts, s.everQueued, s'.everQueued);
    FlagsEverQueued(s.users, s.db.accounts, s.db.jobs, s.everQueued, SagaAccounts(s.db.operations));
  }

  // ----- accounts that appear and go -----

  lemma PoolAfterInsert(pool: set<Account>, accounts: map<nat, Account>, next: nat, row: Account)
    requires PoolHolds(pool, accounts, next) && row.id == next
    ensures PoolHolds(pool + {row}, accounts[next := row], next + 1)
  {
  }

  lemma RemovingAfterInsert(removing: set<nat>, accounts: map<nat, Account>, users: map<string, EmbyUser>, next: nat, row: Account)
    requires RemovingHolds(removing, accounts, users, next)
    ensures RemovingHolds(removing, accounts[next := row], users, next + 1)
  {
  }

  lemma OutstandingAfterInsert(js: seq<JobSnapshot>, accounts: map<nat, Account>, jobs: map<nat, Job>, users: map<string, EmbyUser>, next: nat,
                               row: Account, jobs': map<nat, Job>)
    requires OutstandingHolds(js, accounts, jobs, users, next)
    requires forall a :: a < next && a in jobs ==> a in jobs' && jobs'[a] == jobs[a]
    ensures OutstandingHolds(js, accounts[next := row], jobs', users, next + 1)
  {
  }

  // A new account that neither the saga made nor a job was queued for promises nothing about its flag.
  lemma FlagsAfterInsert(users: map<string, EmbyUser>, accounts: map<nat, Account>, jobs: map<nat, Job>, ever: set<nat>, saga: set<nat>,
                         next: nat, row: Account)
    requires FlagsHold(users, accounts, jobs, ever, saga) && next !in ever && next !in saga
    ensures FlagsHold(users, accounts[next := row], jobs, ever, saga)
  {
  }

  lemma SagaBelow(db: Db)
    requires Sound(db)
    ensures db.nextAccount !in SagaAccounts(db.operations)
  {
    NewAccountFacts(db);
  }

  lemma OutboxAfterInsert(s: State, s': State, row: Account)
    requires Sound(s.db) && OutboxHolds(s)
    requires row.id == s.db.nextAccount && row.embyUserId in s.usedIds
    requires s'.db.accounts == s.db.accounts[row.id := row] && s'.db.nextAccount == row.id + 1
    requires s'.db.jobs == s.db.jobs && s'.db.operations == s.db.operations && s'.db.nextOperation == s.db.nextOperation
    requires s'.users == s.users && s'.usedIds == s.usedIds && s'.driver == s.driver && s'.removing == s.removing && s'.worker == s.worker
    requires s'.readAccounts == s.readAccounts + {row} && s'.everQueued == s.everQueued + s'.db.jobs.Keys
    ensures OutboxHolds(s')
  {
    hide Sound, PoolHolds, UsersHold, FlagsHold, CreationsHold, DriverHolds, OutstandingHolds, CallHolds, RemovingHolds;
    hide AccountIdsKnown, OperationIdsKnown, JobIdsKnown, SagaAccounts, Outstanding;
    JobsBelow(s.db, s.db.jobs.Keys);
    SagaBelow(s.db);
    NewAccountFacts(s.db);
    AccountIdsAfterInsert(s.db.accounts, s.usedIds, row.id, row);
    PoolAfterInsert(s.readAccounts, s.db.accounts, row.id, row);
    UsersAfterWrite(s.users, s.usedIds, s.db.accounts, s.everQueued, s'.everQueued, row.id, row);
    RemovingAfterInsert(s.removing, s.db.accounts, s.users, row.id, row);
    FlagsAfterInsert(s.users, s.db.accounts, s.db.jobs, s.everQueued, SagaAccounts(s.db.operations), row.id, row);
    FlagsEverQueued(s.users, s'.db.accounts, s.db.jobs, s.everQueued, SagaAccounts(s.db.operations));
    OutstandingAfterInsert(Outstanding(s.worker), s.db.accounts, s.db.jobs, s.users, row.id, row, s.db.jobs);
  }

  lemma UsersAfterDelete(users: map<string, EmbyUser>, usedIds: set<string>, accounts: map<nat, Account>, ever: set<nat>, ever': set<nat>, a: nat)
    requires UsersHold(users, usedIds, accounts, ever) && ever <= ever' && a in accounts && accounts[a].embyUserId !in users
    ensures UsersHold(users, usedIds, accounts - {a}, ever')
  {
    forall u | u in users && OwnedAndQueued(accounts, ever, u)
      ensures OwnedAndQueued(accounts - {a}, ever', u)
    {
      var b :| b in accounts && b in ever && accounts[b].embyUserId == u;
      assert (accounts - {a})[b].embyUserId == u;
    }
  }

  lemma FlagsAfterDelete(users: map<string, EmbyUser>, accounts: map<nat, Account>, jobs: map<nat, Job>, ever: set<nat>,
                         saga: set<nat>, saga': set<nat>, a: nat)
    requires FlagsHold(users, accounts, jobs, ever, saga) && saga' <= saga
    ensures FlagsHold(users, accounts - {a}, jobs - {a}, ever, saga')
  {
  }

  lemma OutstandingAfterDelete(js: seq<JobSnapshot>, accounts: map<nat, Account>, jobs: map<nat, Job>, users: map<string, EmbyUser>, next: nat, a: nat)
    requires OutstandingHolds(js, accounts, jobs, users, next) && a in accounts && accounts[a].embyUserId !in users
    ensures OutstandingHolds(js, accounts - {a}, jobs - {a}, users, next)
  {
  }

  // Deletion retires completed operations only, so the driver keeps the one it holds.
  lemma OperationsAfterDelete(s: State, a: nat)
    requires Sound(s.db) && CreationsHold(s.users, s.db.operations, s.db.nextOperation) && DriverHolds(s.driver, s.db.operations, s.users)
    ensures var operations := DeleteAccount(s.db, a).db.operations;
      CreationsHold(s.users, operations, s.db.nextOperation) && DriverHolds(s.driver, operations, s.users) &&
      SagaAccounts(operations) <= SagaAccounts(s.db.operations)
  {
    hide AccountsSound, InvitesSound, OrdersSound, JobsSound, RedemptionsSound, OrdersRefer, EventsSound, OperationsRefer;
  }

  lemma OutboxAfterDelete(s: State, s': State, a: nat)
    requires Sound(s.db) && OutboxHolds(s) && a in s.removing && a in s.db.accounts
    requires s' == s.(db := DeleteAccount(s.db, a).db, everQueued := s.everQueued + (s.db.jobs - {a}).Keys)
    ensures OutboxHolds(s')
  {
    JobsBelow(s.db, s.db.jobs.Keys);
    OperationsAfterDelete(s, a);
    assert s.db.accounts[a].embyUserId !in s.users;
    assert PoolHolds(s.readAccounts, s'.db.accounts, s.db.nextAccount);
    hide Sound, PoolHolds, UsersHold, FlagsHold, CreationsHold, DriverHolds, OutstandingHolds, CallHolds;
    UsersAfterDelete(s.users, s.usedIds, s.db.accounts, s.everQueued, s'.everQueued, a);
    FlagsAfterDelete(s.users, s.db.accounts, s.db.jobs, s.everQueued, SagaAccounts(s.db.operations), SagaAccounts(s'.db.operations), a);
    FlagsEverQueued(s.users, s'.db.accounts, s'.db.jobs, s.everQueued, SagaAccounts(s'.db.operations));
    OutstandingAfterDelete(Outstanding(s.worker), s.db.accounts, s.db.jobs, s.users, s.db.nextAccount, a);
  }

  // ----- the saga -----

  // What a step that leaves accounts and users alone carries over.
  lemma OutboxParts(s: State)
    requires OutboxHolds(s)
    ensures IdsKnown(s) && DriverHolds(s.driver, s.db.operations, s.users)
    ensures UsersHold(s.users, s.usedIds, s.db.accounts, s.everQueued) && RemovingHolds(s.removing, s.db.accounts, s.users, s.db.nextAccount)
    ensures FlagsHold(s.users, s.db.accounts, s.db.jobs, s.everQueued, SagaAccounts(s.db.operations))
    ensures CreationsHold(s.users, s.db.operations, s.db.nextOperation) && CallHolds(s.worker, s.users)
    ensures OutstandingHolds(Outstanding(s.worker), s.db.accounts, s.db.jobs, s.users, s.db.nextAccount)
  {
    hide PoolHolds, UsersHold, FlagsHold, CreationsHold, DriverHolds, OutstandingHolds, CallHolds, RemovingHolds, SagaAccounts, Outstanding, IdsKnown;
  }

  // Operations may move on, as long as the users they created stay named after them.
  lemma OutboxAfterOperations(s: State, s': State)
    requires Sound(s.db) && OutboxHolds(s)
    requires s'.db.accounts == s.db.accounts && s'.db.jobs == s.db.jobs && s'.db.nextAccount == s.db.nextAccount
    requires s'.removing == s.removing && s'.worker == s.worker
    requires s'.readAccounts == s.readAccounts && s'.everQueued == s.everQueued + s.db.jobs.Keys
    requires IdsKnown(s')
    requires UsersHold(s'.users, s'.usedIds, s.db.accounts, s.everQueued) && RemovingHolds(s.removing, s.db.accounts, s'.users, s.db.nextAccount)
    requires FlagsHold(s'.users, s.db.accounts, s.db.jobs, s.everQueued, SagaAccounts(s'.db.operations))
    requires OutstandingHolds(Outstanding(s.worker), s.db.accounts, s.db.jobs, s'.users, s.db.nextAccount)
    requires CallHolds(s.worker, s'.users)
    requires CreationsHold(s'.users, s'.db.operations, s'.db.nextOperation) && DriverHolds(s'.driver, s'.db.operations, s'.users)
    ensures OutboxHolds(s')
  {
    JobsBelow(s.db, s.db.jobs.Keys);
    hide Sound, PoolHolds, UsersHold, FlagsHold, CreationsHold, DriverHolds, OutstandingHolds, CallHolds, RemovingHolds;
    UsersNoted(s'.users, s'.usedIds, s.db.accounts, s.everQueued, s'.everQueued);
    FlagsEverQueued(s'.users, s.db.accounts, s.db.jobs, s.everQueued, SagaAccounts(s'.db.operations));
  }

  // A new operation has a fresh id, so no user names it and the driver does not hold it.
  lemma OperationBegun(s: State, o: Operation)
    requires Sound(s.db) && OutboxHolds(s) && o.accountId.None?
    ensures var operations := s.db.operations[s.db.nextOperation := o];
      && CreationsHold(s.users, operations, s.db.nextOperation + 1) && DriverHolds(s.driver, operations, s.users)
      && SagaAccounts(operations) == SagaAccounts(s.db.operations)
  {
    hide AccountsSound, InvitesSound, OrdersSound, JobsSound, RedemptionsSound, OrdersRefer, EventsSound, OperationsRefer;
    hide PoolHolds, UsersHold, FlagsHold, OutstandingHolds, CallHolds, RemovingHolds;
    assert s.db.nextOperation !in s.db.operations;
    SagaAccountsAdded(s.db.operations, s.db.nextOperation, o);
  }

  lemma SagaAccountsAdded(operations: map<nat, Operation>, o: nat, row: Operation)
    requires o !in operations
    ensures SagaAccounts(operations[o := row]) == SagaAccounts(operations) + if row.accountId.Some? then {row.accountId.value} else {}
  {
    var operations' := operations[o := row];
    assert operations'[o] == row;
    assert forall p :: p in operations ==> p in operations' && operations'[p] == operations[p];
    assert forall p :: p in operations' ==> p == o || p in operations;
  }

  lemma SagaAccountsKept(operations: map<nat, Operation>, o: nat, row: Operation)
    requires o in operations && row.accountId == operations[o].accountId
    ensures SagaAccounts(operations[o := row]) == SagaAccounts(operations)
  {
    assert forall p :: p in operations ==> p in operations[o := row];
    assert forall p :: p in operations[o := row] ==> operations[o := row][p].accountId == operations[p].accountId;
  }

  // An operation may advance past Pending, with a user id that Emby gave out.
  lemma OperationAdvanced(s: State, o: nat, row: Operation)
    requires OutboxHolds(s) && o in s.db.operations
    requires row.username == s.db.operations[o].username && row.status != OperationStatus.Pending
    requires row.embyUserId.Some? ==> row.embyUserId.value in s.usedIds
    requires s.db.operations[o].status == OperationStatus.Pending ==> NoUserOf(s.users, o)
    ensures CreationsHold(s.users, s.db.operations[o := row], s.db.nextOperation)
    ensures OperationIdsKnown(s.db.operations[o := row], s.usedIds)
  {
    hide PoolHolds, UsersHold, FlagsHold, OutstandingHolds, CallHolds, RemovingHolds, DriverHolds;
  }

  lemma PendingHasNoUser(s: State, o: nat)
    requires CreationsHold(s.users, s.db.operations, s.db.nextOperation) && OperationAt(s.db.operations, o, OperationStatus.Pending)
    ensures NoUserOf(s.users, o)
  {
  }

  lemma MarkEffect(s: State, now: int)
    requires Sound(s.db) && s.driver.MarkingCreate? && OperationAt(s.db.operations, s.driver.operationId, OperationStatus.Pending)
    ensures var o := s.driver.operationId;
      var row := s.db.operations[o].(status := Creating, updatedAt := now);
      Noted(DoSaga(s, MarkCreating(now))) == s.(db := s.db.(operations := s.db.operations[o := row]), driver := CreatingUser(o),
        everQueued := s.everQueued + s.db.jobs.Keys) && row.embyUserId.None? && row.accountId == s.db.operations[o].accountId
  {
    OperationFacts(s.db, s.driver.operationId);
    hide Sound;
  }

  lemma OutboxAfterMark(s: State, s': State, now: int)
    requires Sound(s.db) && OutboxHolds(s) && s.driver.MarkingCreate?
    requires s' == Noted(DoSaga(s, MarkCreating(now)))
    ensures OutboxHolds(s')
  {
    var o := s.driver.operationId;
    hide Sound, PoolHolds, UsersHold, FlagsHold, CreationsHold, OutstandingHolds, CallHolds, RemovingHolds, OperationIdsKnown;
    hide SagaAccounts, Outstanding, AccountIdsKnown, JobIdsKnown, DoSaga, Noted, OutboxHolds;
    OutboxParts(s);
    assert OperationAt(s.db.operations, o, OperationStatus.Pending);
    MarkEffect(s, now);
    var row := s.db.operations[o].(status := Creating, updatedAt := now);
    PendingHasNoUser(s, o);
    OperationAdvanced(s, o, row);
    SagaAccountsKept(s.db.operations, o, row);
    OutboxAfterOperations(s, s');
  }

  lemma SaveEffect(s: State, now: int)
    requires Sound(s.db) && s.driver.SavingRemote? && OperationAt(s.db.operations, s.driver.operationId, Creating)
    ensures var o := s.driver.operationId;
      var row := s.db.operations[o].(embyUserId := Some(s.driver.embyUserId), status := RemoteCreated, updatedAt := now);
      Noted(DoSaga(s, SaveRemote(now))) == s.(db := s.db.(operations := s.db.operations[o := row]), driver := Finishing(o),
        everQueued := s.everQueued + s.db.jobs.Keys) && row.accountId == s.db.operations[o].accountId
  {
    OperationFacts(s.db, s.driver.operationId);
    hide Sound;
  }

  lemma OutboxAfterSaveRemote(s: State, s': State, now: int)
    requires Sound(s.db) && OutboxHolds(s) && s.driver.SavingRemote?
    requires s' == Noted(DoSaga(s, SaveRemote(now)))
    ensures OutboxHolds(s')
  {
    var o := s.driver.operationId;
    hide Sound, PoolHolds, UsersHold, FlagsHold, CreationsHold, OutstandingHolds, CallHolds, RemovingHolds, OperationIdsKnown;
    hide SagaAccounts, Outstanding, AccountIdsKnown, JobIdsKnown, DoSaga, Noted, OutboxHolds;
    OutboxParts(s);
    assert OperationAt(s.db.operations, o, Creating);
    SaveEffect(s, now);
    var row := s.db.operations[o].(embyUserId := Some(s.driver.embyUserId), status := RemoteCreated, updatedAt := now);
    OperationAdvanced(s, o, row);
    SagaAccountsKept(s.db.operations, o, row);
    OutboxAfterOperations(s, s');
  }

  /** No user that operation `o` created exists when none carries its name. */
  lemma UnnamedIsUncreated(s: State, o: nat)
    requires CreationsHold(s.users, s.db.operations, s.db.nextOperation) && o in s.db.operations
    requires forall u :: u in s.users ==> !NamedLikeOperation(s, u, o)
    ensures NoUserOf(s.users, o)
  {
    if u :| u in s.users && s.users[u].createdBy == Some(o) {
      assert NamedLikeOperation(s, u, o);
    }
  }

  lemma LookupMovesDriver(s: State, found: Option<string>)
    requires OutboxHolds(s) && s.driver.LookingUp?
    ensures var driver := ApplyLookup(s, found).driver;
      && ApplyLookup(s, found) == s.(driver := driver)
      && DriverHolds(driver, s.db.operations, s.users) && DriverIdKnown(driver, s.usedIds)
  {
    var o := s.driver.operationId;
    assert OperationAt(s.db.operations, o, Creating);
    if found.None? && forall u :: u in s.users ==> !NamedLikeOperation(s, u, o) {
      UnnamedIsUncreated(s, o);
    } else if found.Some? && NamedLikeOperation(s, found.value, o) {
      assert found.value in s.usedIds;
    }
  }

  lemma OutboxAfterLookup(s: State, s': State, found: Option<string>)
    requires Sound(s.db) && OutboxHolds(s) && s.driver.LookingUp?
    requires s' == Noted(DoSaga(s, Lookup(found)))
    ensures OutboxHolds(s')
  {
    LookupMovesDriver(s, found);
    hide Sound, PoolHolds, UsersHold, FlagsHold, CreationsHold, OutstandingHolds, CallHolds, RemovingHolds, DriverHolds, ApplyLookup;
    OutboxAfterOperations(s, s');
  }

  // A fresh enabled user is nobody's account's, nobody's job's and nobody's second creation.
  lemma UserCreated(s: State, id: string, user: EmbyUser)
    requires Sound(s.db) && OutboxHolds(s) && id !in s.usedIds && user.disabled == user.bornDisabled
    requires user.createdBy.Some? ==> s.driver == CreatingUser(user.createdBy.value)
    requires user.createdBy.Some? && user.createdBy.value in s.db.operations ==> user.username == s.db.operations[user.createdBy.value].username
    ensures UsersHold(s.users[id := user], s.usedIds + {id}, s.db.accounts, s.everQueued)
    ensures CreationsHold(s.users[id := user], s.db.operations, s.db.nextOperation)
  {
    hide PoolHolds, FlagsHold, OutstandingHolds, CallHolds, RemovingHolds;
    hide AccountsSound, InvitesSound, OrdersSound, JobsSound, RedemptionsSound, OrdersRefer, EventsSound, OperationsRefer;
  }

  // What is said of the ids in use does not change when an id in use for the first time appears.
  lemma FreshUserUnseen(s: State, id: string, user: EmbyUser)
    requires OutboxHolds(s) && id !in s.usedIds
    ensures RemovingHolds(s.removing, s.db.accounts, s.users[id := user], s.db.nextAccount)
    ensures FlagsHold(s.users[id := user], s.db.accounts, s.db.jobs, s.everQueued, SagaAccounts(s.db.operations))
    ensures OutstandingHolds(Outstanding(s.worker), s.db.accounts, s.db.jobs, s.users[id := user], s.db.nextAccount)
    ensures CallHolds(s.worker, s.users[id := user])
  {
    hide CreationsHold, UsersHold, PoolHolds, DriverHolds;
    if s.worker.Called? {
      assert Outstanding(s.worker)[0] == s.worker.job;
    }
    assert RemovingHolds(s.removing, s.db.accounts, s.users[id := user], s.db.nextAccount) by {
      hide FlagsHold, OutstandingHolds;
    }
    assert FlagsHold(s.users[id := user], s.db.accounts, s.db.jobs, s.everQueued, SagaAccounts(s.db.operations)) by {
      hide RemovingHolds, OutstandingHolds;
    }
    assert OutstandingHolds(Outstanding(s.worker), s.db.accounts, s.db.jobs, s.users[id := user], s.db.nextAccount) by {
      hide FlagsHold, RemovingHolds;
    }
  }

  lemma OutboxAfterCreateUser(s: State, s': State, id: string, ok: bool, effect: bool)
    requires Sound(s.db) && OutboxHolds(s) && s.driver.CreatingUser?
    requires s' == Noted(DoSaga(s, CreateUser(id, ok, effect)))
    ensures OutboxHolds(s')
  {
    var o := s.driver.operationId;
    assert OperationAt(s.db.operations, o, Creating);
    var user := EmbyUser(s.db.operations[o].username, false, false, Some(o));
    if effect && id != "" && id !in s.usedIds {
      UserCreated(s, id, user);
      FreshUserUnseen(s, id, user);
    }
    hide Sound, PoolHolds, UsersHold, FlagsHold, CreationsHold, OutstandingHolds, CallHolds, RemovingHolds;
    OutboxAfterOperations(s, s');
  }

  lemma ForeignUserUnnamed(s: State, id: string, user: EmbyUser)
    requires OutboxHolds(s) && id !in s.usedIds && user.createdBy.None? && user.disabled == user.bornDisabled
    ensures UsersHold(s.users[id := user], s.usedIds + {id}, s.db.accounts, s.everQueued)
    ensures CreationsHold(s.users[id := user], s.db.operations, s.db.nextOperation)
    ensures DriverHolds(s.driver, s.db.operations, s.users[id := user])
  {
    hide PoolHolds, FlagsHold, OutstandingHolds, CallHolds, RemovingHolds;
  }

  lemma OutboxAfterForeignUser(s: State, s': State, id: string, username: string, disabled: bool)
    requires Sound(s.db) && OutboxHolds(s) && id !in s.usedIds
    requires s' == Noted(DoOthers(s, ForeignUser(id, username, disabled)))
    ensures OutboxHolds(s')
  {
    var user := EmbyUser(username, disabled, disabled, None);
    FreshUserUnseen(s, id, user);
    ForeignUserUnnamed(s, id, user);
    hide Sound, PoolHolds, UsersHold, FlagsHold, CreationsHold, OutstandingHolds, CallHolds, RemovingHolds, DriverHolds;
    OutboxAfterOperations(s, s');
  }

  // Users may disappear at any time.
  lemma UserGone(s: State, id: string)
    requires OutboxHolds(s)
    ensures var users := s.users - {id};
      && UsersHold(users, s.usedIds, s.db.accounts, s.everQueued) && RemovingHolds(s.removing, s.db.accounts, users, s.db.nextAccount)
      && FlagsHold(users, s.db.accounts, s.db.jobs, s.everQueued, SagaAccounts(s.db.operations))
      && CreationsHold(users, s.db.operations, s.db.nextOperation) && DriverHolds(s.driver, s.db.operations, users)
      && OutstandingHolds(Outstanding(s.worker), s.db.accounts, s.db.jobs, users, s.db.nextAccount) && CallHolds(s.worker, users)
  {
    hide PoolHolds;
  }

  lemma OutboxAfterForeignDelete(s: State, s': State, id: string)
    requires Sound(s.db) && OutboxHolds(s)
    requires s' == Noted(DoOthers(s, ForeignDelete(id)))
    ensures OutboxHolds(s')
  {
    UserGone(s, id);
    hide Sound, PoolHolds, UsersHold, FlagsHold, CreationsHold, OutstandingHolds, CallHolds, RemovingHolds, DriverHolds;
    OutboxAfterOperations(s, s');
  }

  lemma OutboxAfterDeleteRemotely(s: State, s': State, snap: Account, effect: bool, ok: bool)
    requires Sound(s.db) && OutboxHolds(s) && snap in s.readAccounts
    requires s' == Noted(DoAccounts(s, DeleteRemotely(snap, effect, ok)))
    ensures OutboxHolds(s')
  {
    UserGone(s, snap.embyUserId);
    JobsBelow(s.db, s.db.jobs.Keys);
    assert snap.id < s.db.nextAccount && (snap.id in s.db.accounts ==> s.db.accounts[snap.id].embyUserId == snap.embyUserId);
    hide Sound, PoolHolds, UsersHold, FlagsHold, CreationsHold, OutstandingHolds, CallHolds, DriverHolds;
    UsersNoted(s'.users, s.usedIds, s.db.accounts, s.everQueued, s'.everQueued);
    FlagsEverQueued(s'.users, s.db.accounts, s.db.jobs, s.everQueued, SagaAccounts(s.db.operations));
  }

  // ----- completing an operation -----

  /** Finishing an operation inserts its account under the next id; the flag is right at once or a job
      is queued to make it so. */
  lemma FlagsAfterProvision(s: State, s': State, account: Account)
    requires Sound(s.db) && OutboxHolds(s)
    requires account.id == s.db.nextAccount && s'.users == s.users
    requires s'.db.accounts == s.db.accounts[account.id := account]
    requires s'.db.jobs == if account.status != Active then UpsertAccessSyncJob(s.db.jobs, account.id, true, account.createdAt) else s.db.jobs
    requires SagaAccounts(s'.db.operations) == SagaAccounts(s.db.operations) + {account.id}
    ensures FlagsHold(s'.users, s'.db.accounts, s'.db.jobs, s.everQueued + s'.db.jobs.Keys, SagaAccounts(s'.db.operations))
  {
    NewAccountFacts(s.db);
    hide Sound, PoolHolds, UsersHold, CreationsHold, OutstandingHolds, CallHolds, RemovingHolds, DriverHolds;
    assert account.id !in s.everQueued;
  }

  lemma SagaAccountsCompleted(operations: map<nat, Operation>, o: nat, row: Operation)
    requires o in operations && operations[o].accountId.None? && row.accountId.Some?
    ensures SagaAccounts(operations[o := row]) == SagaAccounts(operations) + {row.accountId.value}
  {
    var operations' := operations[o := row];
    assert operations'[o] == row;
    assert forall p :: p in operations && p != o ==> p in operations' && operations'[p] == operations[p];
    assert forall p :: p in operations' ==> p == o || p in operations;
  }

  /** The state after an operation has been finished, as far as this invariant looks. */
  ghost predicate Provisioned(s: State, s': State, account: Account, row: Operation) {
    && row.id in s.db.operations && s.db.operations[row.id].accountId.None? && s.db.operations[row.id].status != OperationStatus.Pending
    && row == s.db.operations[row.id].(accountId := Some(account.id), status := Completed, updatedAt := row.updatedAt, completedAt := row.completedAt)
    && row.embyUserId == Some(account.embyUserId) && account.id == s.db.nextAccount
    && AccountFree(s.db.accounts, account.embyUserId, account.username)
    && s'.db.accounts == s.db.accounts[account.id := account] && s'.db.nextAccount == account.id + 1
    && s'.db.operations == s.db.operations[row.id := row] && s'.db.nextOperation == s.db.nextOperation
    && s'.db.jobs == (if account.status != Active then UpsertAccessSyncJob(s.db.jobs, account.id, true, account.createdAt) else s.db.jobs)
    && s'.users == s.users && s'.usedIds == s.usedIds && s'.removing == s.removing && s'.worker == s.worker && s'.driver == NoDriver
    && s'.readAccounts == s.readAccounts + {account} && s'.everQueued == s.everQueued + s'.db.jobs.Keys
  }

  lemma ProvisionShape(db: Db, o: nat, now: int)
    requires o in db.operations && db.operations[o].embyUserId.Some? && ProvisionAccount(db, o, db.operations[o], now).result.Success?
    ensures var tx, operation := ProvisionAccount(db, o, db.operations[o], now), db.operations[o];
      var account := tx.result.value;
      && account.id == db.nextAccount && Some(account.embyUserId) == operation.embyUserId
      && AccountFree(db.accounts, account.embyUserId, account.username)
      && tx.db.accounts == db.accounts[account.id := account] && tx.db.nextAccount == account.id + 1
      && tx.db.nextOperation == db.nextOperation && o in tx.db.operations
      && tx.db.operations == db.operations[o := operation.(accountId := Some(account.id), status := Completed, updatedAt := now, completedAt := Some(now))]
      && tx.db.jobs == if account.status != Active then UpsertAccessSyncJob(db.jobs, account.id, true, account.createdAt) else db.jobs
  {
    hide AccountFree, UpsertAccessSyncJob;
  }

  lemma FinishProvisions(s: State, now: int)
    requires Sound(s.db) && s.driver.Finishing?
    requires CompleteAccountCreateOperation(s.db, s.driver.operationId, now).result.Success?
    requires s.db.operations[s.driver.operationId].status != Completed
    ensures var s', o := Noted(DoSaga(s, Finish(now))), s.driver.operationId;
      o in s'.db.operations &&
      Provisioned(s, s', CompleteAccountCreateOperation(s.db, o, now).result.value, s'.db.operations[o])
  {
    hide Sound, AccountFree, UpsertAccessSyncJob, ProvisionAccount;
    var s', o := Noted(DoSaga(s, Finish(now))), s.driver.operationId;
    OperationFacts(s.db, o);
    ProvisionShape(s.db, o, now);
    var tx := CompleteAccountCreateOperation(s.db, o, now);
    assert s'.db == tx.db && s'.readAccounts == s.readAccounts + {tx.result.value};
  }

  lemma OperationIdKnown(s: State, o: nat)
    requires OutboxHolds(s) && o in s.db.operations && s.db.operations[o].embyUserId.Some?
    ensures s.db.operations[o].embyUserId.value in s.usedIds
  {
  }

  lemma AccountIdsAfterInsert(accounts: map<nat, Account>, usedIds: set<string>, a: nat, row: Account)
    requires AccountIdsKnown(accounts, usedIds) && row.embyUserId in usedIds
    ensures AccountIdsKnown(accounts[a := row], usedIds)
  {
  }

  lemma OutboxAfterProvision(s: State, s': State, account: Account, row: Operation)
    requires Sound(s.db) && OutboxHolds(s) && Provisioned(s, s', account, row)
    ensures OutboxHolds(s')
  {
    hide Sound, PoolHolds, UsersHold, FlagsHold, CreationsHold, OutstandingHolds, CallHolds, RemovingHolds;
    hide OperationIdsKnown, JobIdsKnown, AccountIdsKnown, AccountFree, SagaAccounts, UpsertAccessSyncJob, QueuedBelow, Outstanding;
    var o, next := row.id, s.db.nextAccount;
    OperationIdKnown(s, o);
    OperationAdvanced(s, o, row);
    SagaAccountsCompleted(s.db.operations, o, row);
    FlagsAfterProvision(s, s', account);
    QueuedAfterProvision(s, account);
    AccountIdsAfterInsert(s.db.accounts, s.usedIds, next, account);
    PoolAfterInsert(s.readAccounts, s.db.accounts, next, account);
    NewAccountFacts(s.db);
    UsersAfterWrite(s.users, s.usedIds, s.db.accounts, s.everQueued, s'.everQueued, next, account);
    RemovingAfterInsert(s.removing, s.db.accounts, s.users, next, account);
    JobsAfterProvision(s, account);
    OutstandingAfterInsert(Outstanding(s.worker), s.db.accounts, s.db.jobs, s.users, next, account, s'.db.jobs);
  }

  lemma JobsAfterProvision(s: State, account: Account)
    requires Sound(s.db) && account.id == s.db.nextAccount
    ensures var jobs := UpsertAccessSyncJob(s.db.jobs, account.id, true, account.createdAt);
      forall a :: a < s.db.nextAccount && a in s.db.jobs ==> a in jobs && jobs[a] == s.db.jobs[a]
  {
  }

  lemma QueuedAfterProvision(s: State, account: Account)
    requires Sound(s.db) && QueuedBelow(s.everQueued, s.db.nextAccount) && account.id == s.db.nextAccount
    ensures QueuedBelow(s.everQueued + s.db.jobs.Keys, account.id + 1)
    ensures QueuedBelow(s.everQueued + UpsertAccessSyncJob(s.db.jobs, account.id, true, account.createdAt).Keys, account.id + 1)
  {
    JobsBelow(s.db, s.db.jobs.Keys);
  }

  // ----- the worker -----

  lemma SnapshotsHold(s: State, batch: seq<nat>)
    requires Sound(s.db) && AccountIdsKnown(s.db.accounts, s.usedIds)
    requires IsBatch(s.db.jobs, BATCH, batch) && forall a :: a in batch ==> a in s.db.accounts
    ensures OutstandingHolds(Snapshots(s.db, batch), s.db.accounts, s.db.jobs, s.users, s.db.nextAccount)
    ensures JobIdsKnown(Snapshots(s.db, batch), s.usedIds)
  {
    ListingDistinct(Stamps(s.db.jobs), BATCH, batch);
    forall i | 0 <= i < |batch|
      ensures JobSnapshotHolds(Snapshots(s.db, batch)[i], s.db.accounts, s.db.jobs, s.users, s.db.nextAccount)
    {
      assert batch[i] in batch;
      AccountFacts(s.db, batch[i]);
    }
  }

  lemma OutboxAfterListJobs(s: State, s': State, batch: seq<nat>)
    requires Sound(s.db) && OutboxHolds(s)
    requires IsBatch(s.db.jobs, BATCH, batch) && forall a :: a in batch ==> a in s.db.accounts
    requires s.worker.Expiring?
    requires s' == s.(worker := Syncing(Snapshots(s.db, batch), s.worker.now), everQueued := s.everQueued + s.db.jobs.Keys)
    ensures OutboxHolds(s')
  {
    hide Sound, PoolHolds, UsersHold, FlagsHold, CreationsHold, DriverHolds, RemovingHolds, IsBatch, OutstandingHolds;
    hide JobIdsKnown, AccountIdsKnown, OperationIdsKnown, SagaAccounts;
    JobsBelow(s.db, s.db.jobs.Keys);
    SnapshotsHold(s, batch);
    UsersNoted(s.users, s.usedIds, s.db.accounts, s.everQueued, s'.everQueued);
    FlagsEverQueued(s.users, s.db.accounts, s.db.jobs, s.everQueued, SagaAccounts(s.db.operations));
  }

  /** The call touches the flag of an account that still has a job queued, so nobody else's claim on
      the flags is disturbed. */
  lemma UsersAfterCall(s: State, disabled: bool)
    requires Sound(s.db) && OutboxHolds(s) && s.worker.Syncing? && s.worker.jobs != []
    requires s.worker.jobs[0].embyUserId in s.users
    ensures var u := s.worker.jobs[0].embyUserId;
      var users := s.users[u := s.users[u].(disabled := disabled)];
      && UsersHold(users, s.usedIds, s.db.accounts, s.everQueued) && RemovingHolds(s.removing, s.db.accounts, users, s.db.nextAccount)
      && FlagsHold(users, s.db.accounts, s.db.jobs, s.everQueued, SagaAccounts(s.db.operations))
      && CreationsHold(users, s.db.operations, s.db.nextOperation) && DriverHolds(s.driver, s.db.operations, users)
      && OutstandingHolds(s.worker.jobs, s.db.accounts, s.db.jobs, users, s.db.nextAccount)
  {
    hide PoolHolds, DueRead, QueuedBelow, IdsKnown, CallHolds, OperationsSound, InvitesSound, OrdersSound, JobsSound, RedemptionsSound,
      OperationsRefer, OrdersRefer, EventsSound, SagaAccounts;
    var job := s.worker.jobs[0];
    assert JobSnapshotHolds(job, s.db.accounts, s.db.jobs, s.users, s.db.nextAccount);
    assert OwnedAndQueued(s.db.accounts, s.everQueued, job.embyUserId) by {
      assert s.db.accounts[job.accountId].embyUserId == job.embyUserId;
    }
    assert forall a :: a in s.db.accounts && s.db.accounts[a].embyUserId == job.embyUserId ==> a == job.accountId;
    hide Sound;
  }

  lemma OutboxAfterCall(s: State, s': State, ok: bool, effect: bool)
    requires Sound(s.db) && OutboxHolds(s) && s.worker.Syncing? && s.worker.jobs != []
    requires s' == Noted(DoWorker(s, CallNext(ok, effect)))
    ensures OutboxHolds(s')
  {
    hide Sound, PoolHolds, UsersHold, FlagsHold, CreationsHold, DriverHolds, OutstandingHolds, RemovingHolds, SagaAccounts,
      AccountIdsKnown, OperationIdsKnown, JobIdsKnown;
    var job := s.worker.jobs[0];
    if job.embyUserId in s.users {
      UsersAfterCall(s, job.desiredDisabled);
    }
    JobsBelow(s.db, s.db.jobs.Keys);
    assert [job] + s.worker.jobs[1..] == s.worker.jobs;
    UsersNoted(s'.users, s.usedIds, s.db.accounts, s.everQueued, s'.everQueued);
    FlagsEverQueued(s'.users, s.db.accounts, s.db.jobs, s.everQueued, SagaAccounts(s.db.operations));
  }

  /** A job leaves the queue only when it is the one that was called for, and then the flag is right. */
  lemma FlagsAfterRecord(s: State, jobs': map<nat, Job>)
    requires Sound(s.db) && OutboxHolds(s) && s.worker.Called?
    requires jobs' == s.db.jobs ||
      (s.worker.ok && jobs' == CompleteAccessSync(s.db.jobs, s.worker.job.accountId, s.worker.job.revision)) ||
      (jobs'.Keys == s.db.jobs.Keys)
    ensures FlagsHold(s.users, s.db.accounts, jobs', s.everQueued + jobs'.Keys, SagaAccounts(s.db.operations))
  {
    var job := s.worker.job;
    assert Outstanding(s.worker)[0] == job;
    assert JobSnapshotHolds(job, s.db.accounts, s.db.jobs, s.users, s.db.nextAccount);
    assert job.accountId in s.db.accounts && job.revision == s.db.jobs[job.accountId].revision ==>
        (job.desiredDisabled <==> s.db.accounts[job.accountId].status != Active);
    hide Sound, PoolHolds, UsersHold, CreationsHold, DriverHolds, OutstandingHolds, RemovingHolds;
  }

  lemma OutstandingAfterRecord(job: JobSnapshot, rest: seq<JobSnapshot>, accounts: map<nat, Account>, jobs: map<nat, Job>, jobs': map<nat, Job>,
                               users: map<string, EmbyUser>, next: nat)
    requires OutstandingHolds([job] + rest, accounts, jobs, users, next)
    requires forall a :: a in jobs && a != job.accountId ==> a in jobs' && jobs'[a] == jobs[a]
    ensures OutstandingHolds(rest, accounts, jobs', users, next)
  {
    var all := [job] + rest;
    assert all[0] == job;
    forall i | 0 <= i < |rest|
      ensures JobSnapshotHolds(rest[i], accounts, jobs', users, next) && rest[i].accountId != job.accountId
    {
      assert rest[i] == all[i + 1];
      assert all[0].accountId != all[i + 1].accountId;
      assert JobSnapshotHolds(all[i + 1], accounts, jobs, users, next);
    }
    forall i, k | 0 <= i < k < |rest|
      ensures rest[i].accountId != rest[k].accountId
    {
      assert rest[i] == all[i + 1] && rest[k] == all[k + 1];
    }
  }

  lemma OutboxAfterRecord(s: State, s': State, stored: bool, message: string)
    requires Sound(s.db) && OutboxHolds(s) && s.worker.Called?
    requires s' == Noted(DoWorker(s, RecordCall(stored, message)))
    ensures OutboxHolds(s')
  {
    hide Sound, PoolHolds, UsersHold, FlagsHold, CreationsHold, DriverHolds, OutstandingHolds, RemovingHolds, JobIdsKnown;
    var worker := s.worker;
    FlagsAfterRecord(s, s'.db.jobs);
    UsersNoted(s.users, s.usedIds, s.db.accounts, s.everQueued, s'.everQueued);
    JobsBelow(s.db, s.db.jobs.Keys);
    OutstandingAfterRecord(worker.job, worker.rest, s.db.accounts, s.db.jobs, s'.db.jobs, s.users, s.db.nextAccount);
    JobIdsOfRest(worker.job, worker.rest, s.usedIds);
  }

  lemma JobIdsOfRest(job: JobSnapshot, rest: seq<JobSnapshot>, usedIds: set<string>)
    requires JobIdsKnown([job] + rest, usedIds)
    ensures JobIdsKnown(rest, usedIds)
  {
    assert forall i :: 0 <= i < |rest| ==> rest[i] == ([job] + rest)[i + 1];
  }
}
