/** What single steps of the portal do to the tables, to Emby's users and to whoever takes them: the
    facts with which the programs of the services are proved to be runs of the portal. */
module StepEffects {
  import opened Domain
  import opened Listing
  import opened Timestamps
  import opened TableInvariants
  import opened AccessQueue
  import opened Portal
  import opened Persistence
  import opened Outbox
  import opened Remote
  import opened Ledgers
  import LedgerSteps
  import OutboxSteps
  import T = Transactions

  ghost predicate Healthy(s: State) {
    Sound(s.db) && OutboxHolds(s) && LedgersHold(s)
  }

  lemma HealthyNext(s: State, step: Step)
    requires Healthy(s)
    ensures Healthy(Next(s, step))
  {
    hide Sound, OutboxHolds, LedgersHold, Next;
    LedgerSteps.LedgersNext(s, step);
    OutboxSteps.SoundNext(s, step);
    OutboxSteps.OutboxNext(s, step);
  }

  lemma HealthyStart()
    ensures Healthy(Start)
  {
  }

  lemma RunSnoc(s: State, steps: seq<Step>, step: Step)
    ensures Run(s, steps + [step]) == Next(Run(s, steps), step)
  {
    assert (steps + [step])[..|steps|] == steps;
  }

  lemma RunNothing(s: State)
    ensures Run(s, []) == s
  {
  }

  lemma RunSingle(s: State, step: Step)
    ensures Run(s, [step]) == Next(s, step)
  {
    RunSnoc(s, [], step);
    assert [] + [step] == [step];
  }

  lemma RunTwice(s: State, first: Step, second: Step)
    ensures Run(s, [first, second]) == Next(Next(s, first), second)
  {
    RunSingle(s, first);
    RunSnoc(s, [first], second);
    assert [first] + [second] == [first, second];
  }

  lemma {:induction false} RunAppend(s: State, steps: seq<Step>, more: seq<Step>)
    ensures Run(s, steps + more) == Run(Run(s, steps), more)
    decreases |more|
  {
    if more == [] {
      assert steps + more == steps;
    } else {
      var front, last := more[..|more| - 1], more[|more| - 1];
      assert steps + more == (steps + front) + [last] && more == front + [last];
      RunAppend(s, steps, front);
      RunSnoc(s, steps + front, last);
      RunSnoc(Run(s, steps), front, last);
    }
  }

  ghost predicate AllOfWorker(steps: seq<Step>) {
    forall i :: 0 <= i < |steps| ==> steps[i].OfWorker?
  }

  ghost predicate AllExpire(steps: seq<Step>) {
    forall i :: 0 <= i < |steps| ==> steps[i] == OfWorker(ExpireNext)
  }

  ghost predicate AllOfSaga(steps: seq<Step>) {
    forall i :: 0 <= i < |steps| ==> steps[i].OfSaga?
  }

  /** Steps inside one drive of an operation. */
  ghost predicate WithinDrive(steps: seq<Step>) {
    forall i :: 0 <= i < |steps| ==> steps[i].OfSaga? && !steps[i].saga.Drive?
  }

  ghost predicate IsDrive(steps: seq<Step>, o: nat) {
    steps != [] && steps[0] == OfSaga(Drive(o)) && WithinDrive(steps[1..])
  }

  /** The operations that were driven, in order. */
  ghost function Driven(steps: seq<Step>): seq<nat> {
    if steps == [] then []
    else Driven(steps[..|steps| - 1]) + if steps[|steps| - 1].OfSaga? && steps[|steps| - 1].saga.Drive? then [steps[|steps| - 1].saga.operationId] else []
  }

  lemma {:induction false} DrivenAppend(steps: seq<Step>, more: seq<Step>)
    ensures Driven(steps + more) == Driven(steps) + Driven(more)
  {
    if more == [] {
      assert steps + more == steps;
    } else {
      assert (steps + more)[..|steps + more| - 1] == steps + more[..|more| - 1];
      DrivenAppend(steps, more[..|more| - 1]);
    }
  }

  lemma {:induction false} NothingDriven(steps: seq<Step>)
    requires WithinDrive(steps)
    ensures Driven(steps) == [] && AllOfSaga(steps)
  {
    if steps != [] {
      NothingDriven(steps[..|steps| - 1]);
    }
  }

  lemma DrivenOnce(o: nat)
    ensures Driven([OfSaga(Drive(o))]) == [o]
  {
    assert [OfSaga(Drive(o))][..0] == [];
  }

  lemma DriveMore(steps: seq<Step>, o: nat, more: seq<Step>)
    requires IsDrive(more, o) && AllOfSaga(steps)
    ensures Driven(steps + more) == Driven(steps) + [o] && AllOfSaga(steps + more)
  {
    hide Driven;
    var start := [OfSaga(Drive(o))];
    assert more == start + more[1..];
    DrivenAppend(steps, more);
    DrivenAppend(start, more[1..]);
    NothingDriven(more[1..]);
    DrivenOnce(o);
  }

  lemma DriveBegun(o: nat, taken: seq<Step>)
    requires WithinDrive(taken)
    ensures IsDrive([OfSaga(Drive(o))] + taken, o) && AllOfSaga([OfSaga(Drive(o))] + taken)
  {
  }

  lemma DriveGoesOn(steps: seq<Step>, o: nat, step: Step)
    requires IsDrive(steps, o) && AllOfSaga(steps) && step.OfSaga? && !step.saga.Drive?
    ensures IsDrive(steps + [step], o) && AllOfSaga(steps + [step])
  {
  }

  // Who is driven is completed exactly when its drive succeeded; nobody else is touched.
  lemma DroveOne(db: Db, db': Db, o: nat, r: Result<Account>)
    requires o in db.operations && (OperationAt(db.operations, o, Completed) ==> r.Success?)
    requires if r.Success? then ProvisionedBy(db, db', o, r.value) else OnlyOperation(db, db', o)
    ensures db'.operations.Keys == db.operations.Keys
    ensures OperationAt(db'.operations, o, Completed) <==> r.Success?
    ensures forall p :: p in db.operations && p != o ==>
      db'.operations[p] == db.operations[p] && (OperationAt(db'.operations, p, Completed) <==> OperationAt(db.operations, p, Completed))
  {
    hide RedemptionsAfter, SameRequest;
  }

  ghost predicate Untouched(operations: map<nat, Operation>, operations': map<nat, Operation>, listed: seq<nat>, from: nat) {
    forall j :: from <= j < |listed| ==>
      listed[j] in operations && listed[j] in operations' && operations'[listed[j]] == operations[listed[j]]
  }

  ghost predicate CompletedUntil(operations: map<nat, Operation>, listed: seq<nat>, until: nat) {
    until <= |listed| && forall j :: 0 <= j < until ==> OperationAt(operations, listed[j], Completed)
  }

  lemma DroveNext(operations: map<nat, Operation>, db: Db, db': Db, listed: seq<nat>, i: nat, r: Result<Account>)
    requires i < |listed| && (forall j, k :: 0 <= j < k < |listed| ==> listed[j] != listed[k])
    requires Untouched(operations, db.operations, listed, i)
    requires if r.Success? then ProvisionedBy(db, db', listed[i], r.value) else OnlyOperation(db, db', listed[i])
    requires OperationAt(db.operations, listed[i], Completed) ==> r.Success?
    requires forall j :: 0 <= j < i ==> listed[j] in db.operations
    ensures db'.operations.Keys == db.operations.Keys && Untouched(operations, db'.operations, listed, i + 1)
    ensures CompletedUntil(db'.operations, listed, i + 1) <==> CompletedUntil(db.operations, listed, i) && r.Success?
  {
    DroveOne(db, db', listed[i], r);
    hide ProvisionedBy, OnlyOperation, OperationAt;
  }

  lemma HealthyFacts(s: State)
    requires Healthy(s)
    ensures Sound(s.db) && AccountsSound(s.db.accounts, s.db.nextAccount) && JobsSound(s.db.jobs, s.db.accounts)
    ensures InvitesSound(s.db.invites, s.db.nextInvite) && OperationsSound(s.db.operations, s.db.nextOperation)
    ensures OrdersSound(s.db.orders, s.db.nextOrder)
  {
  }

  // ----- what the steps do -----

  // A step's effect, for a caller that hides Next to keep whole runs opaque.
  lemma StepDoes(s: State, step: Step)
    ensures Next(s, step) == Noted(Do(s, step))
  {
  }

  // ----- the worker -----

  function SnapshotOfRow(row: JobRow): JobSnapshot {
    JobSnapshot(row.accountId, row.embyUserId, row.desiredDisabled, row.revision)
  }

  /** A job that has left the queue leaves the flag as the account's status says. */
  lemma QuietAgrees(s: State, a: nat)
    requires Healthy(s) && a in s.db.accounts && a !in s.db.jobs && a in s.everQueued
    ensures FlagAgrees(s.users, s.db.accounts[a])
  {
    hide Sound, LedgersHold, IdsKnown, PoolHolds, RemovingHolds, UsersHold, CreationsHold, DriverHolds, OutstandingHolds, CallHolds, DueRead;
  }

  lemma BatchIsListed(db: Db, rows: seq<JobRow>, batch: seq<nat>)
    requires batch == AccountsOf(rows)
    requires forall i :: 0 <= i < |rows| ==> rows[i].accountId in db.jobs && rows[i].accountId in db.accounts
    ensures |batch| == |rows| && (forall i :: 0 <= i < |rows| ==> batch[i] == rows[i].accountId)
    ensures forall a :: a in batch ==> a in db.jobs && a in db.accounts
  {
  }

  /** The calls of a pass: one for each listed job, with the job's flag for its account's Emby user, and
      one record of each. */
  ghost predicate CallsFor(accounts: map<nat, Account>, jobs: map<nat, Job>, batch: seq<nat>, calls: seq<Call>, writes: seq<Write>) {
    && |calls| == |writes| == |batch|
    && forall i :: 0 <= i < |batch| ==> CallFor(accounts, jobs, batch[i], calls[i], writes[i])
  }

  ghost predicate CallFor(accounts: map<nat, Account>, jobs: map<nat, Job>, a: nat, call: Call, write: Write) {
    && a in jobs && a in accounts && write.accountId == a
    && call.Switched? && call.userId == accounts[a].embyUserId && call.disabled == jobs[a].desiredDisabled
  }

  /** What becomes of a job that was called for: it leaves the queue exactly when the call was accepted and
      its record stored; a refusal that is stored counts and moves the job to the back; otherwise it stays. */
  ghost predicate JobAfter(jobs: map<nat, Job>, jobs': map<nat, Job>, a: nat, call: Call, write: Write, now: int) {
    && a in jobs && call.Switched?
    && if call.ok && write.ok then a !in jobs'
       else
         a in jobs' && jobs'[a] ==
           if write.ok then jobs[a].(attempts := jobs[a].attempts + 1, lastError := call.message, updatedAt := now) else jobs[a]
  }

  ghost predicate OnlyJob(jobs: map<nat, Job>, jobs': map<nat, Job>, a: nat) {
    forall b :: b != a ==> (b in jobs' <==> b in jobs) && (b in jobs ==> jobs'[b] == jobs[b])
  }

  ghost predicate Recorded(jobs: map<nat, Job>, jobs': map<nat, Job>, batch: seq<nat>, calls: seq<Call>, writes: seq<Write>, now: int) {
    && |calls| == |writes| == |batch|
    && (forall a :: a in jobs && a !in batch ==> a in jobs' && jobs'[a] == jobs[a])
    && (forall a :: a in jobs' ==> a in jobs)
    && forall i :: 0 <= i < |batch| ==> JobAfter(jobs, jobs', batch[i], calls[i], writes[i], now)
  }

  lemma NothingRecorded(jobs: map<nat, Job>, now: int)
    ensures Recorded(jobs, jobs, [], [], [], now)
  {
  }

  lemma RecordedOne(jobs: map<nat, Job>, a: nat, call: Call, write: Write, now: int)
    requires a in jobs && call.Switched?
    ensures var jobs' := if !write.ok then jobs
        else if call.ok then T.CompleteAccessSync(jobs, a, jobs[a].revision)
        else T.FailAccessSync(jobs, a, jobs[a].revision, call.message, now);
      JobAfter(jobs, jobs', a, call, write, now) && OnlyJob(jobs, jobs', a)
  {
  }

  lemma RecordedOneMore(jobs: map<nat, Job>, jobs': map<nat, Job>, jobs'': map<nat, Job>, batch: seq<nat>, i: nat,
                        calls: seq<Call>, writes: seq<Write>, call: Call, write: Write, now: int)
    requires IsBatch(jobs, BATCH, batch) && i < |batch| && Recorded(jobs, jobs', batch[..i], calls, writes, now)
    requires batch[i] in jobs && batch[i] in jobs' && jobs'[batch[i]] == jobs[batch[i]] && JobAfter(jobs', jobs'', batch[i], call, write, now) && OnlyJob(jobs', jobs'', batch[i])
    ensures Recorded(jobs, jobs'', batch[..i + 1], calls + [call], writes + [write], now)
  {
    hide OnlyJob, JobAfter, Recorded;
    var a, before := batch[i], batch[..i];
    assert a !in before by {
      ListingDistinct(Stamps(jobs), BATCH, batch);
    }
    hide IsBatch;
    assert batch[..i + 1] == before + [a];
    RecordedSnoc(jobs, jobs', jobs'', before, a, calls, writes, call, write, now);
  }

  lemma RecordedSnoc(jobs: map<nat, Job>, jobs': map<nat, Job>, jobs'': map<nat, Job>, before: seq<nat>, a: nat,
                     calls: seq<Call>, writes: seq<Write>, call: Call, write: Write, now: int)
    requires Recorded(jobs, jobs', before, calls, writes, now) && a !in before
    requires a in jobs && a in jobs' && jobs'[a] == jobs[a] && JobAfter(jobs', jobs'', a, call, write, now) && OnlyJob(jobs', jobs'', a)
    ensures Recorded(jobs, jobs'', before + [a], calls + [call], writes + [write], now)
  {
    hide OnlyJob, JobAfter;
    JobAfterRest(jobs, jobs', jobs'', a, call, write, now);
    OthersKept(jobs, jobs', jobs'', before, a);
    var after, calls', writes' := before + [a], calls + [call], writes + [write];
    forall k | 0 <= k < |after|
      ensures JobAfter(jobs, jobs'', after[k], calls'[k], writes'[k], now)
    {
      if k < |before| {
        JobAfterKept(jobs, jobs', jobs'', before[k], calls[k], writes[k], now, a);
      }
    }
  }

  lemma OthersKept(jobs: map<nat, Job>, jobs': map<nat, Job>, jobs'': map<nat, Job>, before: seq<nat>, a: nat)
    requires forall b :: b in jobs && b !in before ==> b in jobs' && jobs'[b] == jobs[b]
    requires (forall b :: b in jobs' ==> b in jobs) && a in jobs && OnlyJob(jobs', jobs'', a)
    ensures forall b :: b in jobs && b !in before + [a] ==> b in jobs'' && jobs''[b] == jobs[b]
    ensures forall b :: b in jobs'' ==> b in jobs
  {
  }

  lemma JobAfterKept(jobs: map<nat, Job>, jobs': map<nat, Job>, jobs'': map<nat, Job>, b: nat, call: Call, write: Write, now: int, a: nat)
    requires JobAfter(jobs, jobs', b, call, write, now) && OnlyJob(jobs', jobs'', a) && b != a
    ensures JobAfter(jobs, jobs'', b, call, write, now)
  {
  }

  lemma JobAfterRest(jobs: map<nat, Job>, jobs': map<nat, Job>, jobs'': map<nat, Job>, a: nat, call: Call, write: Write, now: int)
    requires a in jobs && a in jobs' && jobs'[a] == jobs[a] && JobAfter(jobs', jobs'', a, call, write, now)
    ensures JobAfter(jobs, jobs'', a, call, write, now)
  {
  }

  // The jobs that a pass has not come to yet are as they were listed.
  lemma StillListed(jobs: map<nat, Job>, jobs': map<nat, Job>, batch: seq<nat>, i: nat, calls: seq<Call>, writes: seq<Write>, now: int)
    requires IsBatch(jobs, BATCH, batch) && i < |batch| && batch[i] in jobs && Recorded(jobs, jobs', batch[..i], calls, writes, now)
    ensures batch[i] in jobs' && jobs'[batch[i]] == jobs[batch[i]]
  {
    ListingDistinct(Stamps(jobs), BATCH, batch);
    assert batch[i] !in batch[..i];
  }

  function Refusals(calls: seq<Call>): nat {
    if calls == [] then 0
    else Refusals(calls[..|calls| - 1]) + if calls[|calls| - 1].Switched? && !calls[|calls| - 1].ok then 1 else 0
  }

  function Unstored(writes: seq<Write>): nat {
    if writes == [] then 0 else Unstored(writes[..|writes| - 1]) + if writes[|writes| - 1].ok then 0 else 1
  }

  lemma NothingFailed()
    ensures Refusals([]) == 0 && Unstored([]) == 0
  {
  }

  lemma OneFailureMore(calls: seq<Call>, writes: seq<Write>, call: Call, write: Write)
    requires call.Switched?
    ensures Refusals(calls + [call]) == Refusals(calls) + if call.ok then 0 else 1
    ensures Unstored(writes + [write]) == Unstored(writes) + if write.ok then 0 else 1
  {
    assert (calls + [call])[..|calls|] == calls && (writes + [write])[..|writes|] == writes;
  }

  lemma {:induction false} NoFailures(calls: seq<Call>, writes: seq<Write>)
    requires Refusals(calls) == 0 && Unstored(writes) == 0
    ensures forall i :: 0 <= i < |calls| && calls[i].Switched? ==> calls[i].ok
    ensures forall i :: 0 <= i < |writes| ==> writes[i].ok
    decreases |calls| + |writes|
  {
    if calls != [] {
      NoFailures(calls[..|calls| - 1], []);
    }
    if writes != [] {
      NoFailures([], writes[..|writes| - 1]);
    }
  }

  /** A pass without a failure has emptied the queue of its batch. */
  lemma NoFailureEmptiesBatch(jobs: map<nat, Job>, jobs': map<nat, Job>, batch: seq<nat>, calls: seq<Call>, writes: seq<Write>, now: int)
    requires Recorded(jobs, jobs', batch, calls, writes, now) && Refusals(calls) + Unstored(writes) == 0
    ensures jobs' == jobs - Members(batch)
  {
    NoFailures(calls, writes);
    forall a | a in jobs && a in batch
      ensures a !in jobs'
    {
      var i :| 0 <= i < |batch| && batch[i] == a;
      assert JobAfter(jobs, jobs', batch[i], calls[i], writes[i], now);
    }
  }

  /** The account's job, new or over the one it had, carries this flag; no other job has changed. */
  ghost predicate JobQueued(jobs: map<nat, Job>, jobs': map<nat, Job>, a: nat, disabled: bool, now: int) {
    && a in jobs' && jobs' == jobs[a := jobs'[a]]
    && jobs'[a].desiredDisabled == disabled && jobs'[a].attempts == 0 && jobs'[a].lastError == "" && jobs'[a].updatedAt == now
    && jobs'[a].revision == if a in jobs then jobs[a].revision + 1 else 1
  }

  lemma UpsertQueues(jobs: map<nat, Job>, a: nat, disabled: bool, now: int)
    ensures JobQueued(jobs, T.UpsertAccessSyncJob(jobs, a, disabled, now), a, disabled, now)
  {
  }

  // ----- the shape of a pass -----

  ghost predicate Synchronises(steps: seq<Step>) {
    forall i :: 0 <= i < |steps| ==> steps[i].OfWorker? && (steps[i].worker.CallNext? || steps[i].worker.RecordCall?)
  }

  ghost predicate AllStored(steps: seq<Step>) {
    forall i :: 0 <= i < |steps| ==> steps[i].OfWorker? && steps[i].worker.RecordCall? ==> steps[i].worker.stored
  }

  /** A run of worker steps that lists a batch at step `first`, calls and records until nothing listed is
      left, and ends the pass. */
  ghost predicate IsPass(s: State, steps: seq<Step>, first: nat) {
    && first + 2 <= |steps|
    && steps[first].OfWorker? && steps[first].worker.ListJobs? && steps[|steps| - 1] == OfWorker(EndRun)
    && Run(s, steps[..first]).worker.Expiring? && Run(s, steps[..first + 1]).worker.Syncing?
    && Synchronises(steps[first + 1..|steps| - 1])
    && Run(s, steps[..|steps| - 1]).worker.Syncing? && Run(s, steps[..|steps| - 1]).worker.jobs == []
  }

  lemma PassOf(s: State, prefix: seq<Step>, batch: seq<nat>, synced: seq<Step>)
    requires Run(s, prefix).worker.Expiring? && Run(s, prefix + [OfWorker(ListJobs(batch))]).worker.Syncing? && Synchronises(synced)
    requires var end := Run(s, prefix + [OfWorker(ListJobs(batch))] + synced).worker; end.Syncing? && end.jobs == []
    ensures IsPass(s, prefix + [OfWorker(ListJobs(batch))] + synced + [OfWorker(EndRun)], |prefix|)
  {
    hide Run;
    var listed := prefix + [OfWorker(ListJobs(batch))];
    var steps := listed + synced + [OfWorker(EndRun)];
    assert steps[..|prefix|] == prefix && steps[..|prefix| + 1] == listed;
    assert steps[|prefix| + 1..|steps| - 1] == synced && steps[..|steps| - 1] == listed + synced;
  }

  // ----- the accounts of an expiry pass -----

  ghost function ExpiredRow(account: Account, now: int): Account {
    account.(status := Expired, disabledAt := Some(now), updatedAt := now, version := account.version + 1)
  }

  /** Exactly the due accounts expire. */
  ghost function ExpiredWhenDue(accounts: map<nat, Account>, now: int): map<nat, Account> {
    map a | a in accounts :: if T.Due(accounts[a], now) then ExpiredRow(accounts[a], now) else accounts[a]
  }

  ghost function ExpiredAmong(accounts: map<nat, Account>, done: seq<Account>, now: int): map<nat, Account> {
    map a | a in accounts :: if accounts[a] in done then ExpiredRow(accounts[a], now) else accounts[a]
  }

  // The account rows after marking one account expired, unless its version has moved on.
  ghost function ExpireIfLive(accounts: map<nat, Account>, account: Account, now: int): map<nat, Account> {
    if account.id in accounts && accounts[account.id].version == account.version then
      accounts[account.id := accounts[account.id].(status := Expired, disabledAt := Some(now), updatedAt := now, version := account.version + 1)]
    else accounts
  }

  lemma StatusExpires(db: Db, account: Account, now: int)
    ensures T.SetAccountStatus(db, account, Expired, Some(now), now).db.accounts == ExpireIfLive(db.accounts, account, now)
  {
    hide T.UpsertAccessSyncJob;
  }

  lemma ExpiredOneMore(accounts: map<nat, Account>, due: seq<Account>, i: nat, now: int)
    requires forall a :: a in accounts ==> accounts[a].id == a
    requires i < |due| && due[i].id in accounts && accounts[due[i].id] == due[i]
    ensures ExpireIfLive(ExpiredAmong(accounts, due[..i], now), due[i], now) == ExpiredAmong(accounts, due[..i + 1], now)
  {
    var account, before, after := due[i], ExpiredAmong(accounts, due[..i], now), ExpiredAmong(accounts, due[..i + 1], now);
    assert due[..i + 1] == due[..i] + [account];
    forall a | a in accounts
      ensures ExpireIfLive(before, account, now)[a] == after[a]
    {
      if a != account.id {
        assert accounts[a] != account;
      }
    }
  }

  /** The queue after an expiry pass: a disabling job for each due account, over whatever it had queued. */
  ghost function QueuedWhenDue(accounts: map<nat, Account>, jobs: map<nat, Job>, now: int): map<nat, Job> {
    map a | a in accounts.Keys + jobs.Keys && (a in jobs || T.Due(accounts[a], now)) ::
      if a in accounts && T.Due(accounts[a], now) then T.UpsertAccessSyncJob(jobs, a, true, now)[a] else jobs[a]
  }

  ghost function QueuedAmong(accounts: map<nat, Account>, jobs: map<nat, Job>, done: seq<Account>, now: int): map<nat, Job> {
    map a | a in accounts.Keys + jobs.Keys && (a in jobs || accounts[a] in done) ::
      if a in accounts && accounts[a] in done then T.UpsertAccessSyncJob(jobs, a, true, now)[a] else jobs[a]
  }

  ghost function QueueIfLive(accounts: map<nat, Account>, jobs: map<nat, Job>, account: Account, now: int): map<nat, Job> {
    if account.id in accounts && accounts[account.id].version == account.version then T.UpsertAccessSyncJob(jobs, account.id, true, now)
    else jobs
  }

  lemma StatusQueues(db: Db, account: Account, now: int)
    ensures T.SetAccountStatus(db, account, Expired, Some(now), now).db.jobs == QueueIfLive(db.accounts, db.jobs, account, now)
  {
    hide T.UpsertAccessSyncJob;
  }

  lemma QueuedOneMore(accounts: map<nat, Account>, jobs: map<nat, Job>, due: seq<Account>, i: nat, now: int)
    requires forall a :: a in accounts ==> accounts[a].id == a
    requires i < |due| && due[i].id in accounts && accounts[due[i].id] == due[i]
    ensures QueueIfLive(ExpiredAmong(accounts, due[..i], now), QueuedAmong(accounts, jobs, due[..i], now), due[i], now)
      == QueuedAmong(accounts, jobs, due[..i + 1], now)
  {
    var account := due[i];
    var before, after := QueuedAmong(accounts, jobs, due[..i], now), QueuedAmong(accounts, jobs, due[..i + 1], now);
    assert due[..i + 1] == due[..i] + [account];
    assert forall a :: a in accounts && a != account.id ==> accounts[a] != account;
    var result := QueueIfLive(ExpiredAmong(accounts, due[..i], now), before, account, now);
    assert result.Keys == after.Keys;
  }

  lemma AllDueQueued(db: Db, due: seq<Account>, now: int)
    requires Sound(db) && IsDueList(db, due, now)
    ensures QueuedAmong(db.accounts, db.jobs, due, now) == QueuedWhenDue(db.accounts, db.jobs, now)
    ensures QueuedAmong(db.accounts, db.jobs, [], now) == db.jobs
  {
    hide T.Due, T.UpsertAccessSyncJob;
    assert forall a :: a in db.jobs ==> a in db.accounts;
    assert forall a :: a in db.accounts ==> (db.accounts[a] in due <==> T.Due(db.accounts[a], now)) by {
      assert forall a :: a in db.accounts ==> db.accounts[a].id == a;
    }
  }

  lemma DueRows(db: Db, due: seq<Account>, i: nat, now: int)
    requires Sound(db) && IsDueList(db, due, now) && i < |due|
    ensures due[i].id in db.accounts && db.accounts[due[i].id] == due[i]
    ensures forall a :: a in db.accounts ==> db.accounts[a].id == a
  {
    assert due[i] in due;
  }

  lemma AllDueExpired(db: Db, due: seq<Account>, now: int)
    requires Sound(db) && IsDueList(db, due, now)
    ensures ExpiredAmong(db.accounts, due, now) == ExpiredWhenDue(db.accounts, now)
    ensures ExpiredAmong(db.accounts, [], now) == db.accounts
  {
    hide T.Due;
    assert forall a :: a in db.accounts ==> (db.accounts[a] in due <==> T.Due(db.accounts[a], now)) by {
      assert forall a :: a in db.accounts ==> db.accounts[a].id == a;
    }
  }

  // ----- what a drive does to its operation -----

  /** The tables, the users and the driver after a step of the saga; the worker stands where it stood. */
  ghost predicate Drives(s: State, s': State, db: Db, users: map<string, EmbyUser>, usedIds: set<string>, driver: Driver) {
    s'.db == db && s'.users == users && s'.usedIds == usedIds && s'.driver == driver && s'.worker == s.worker
  }

  ghost predicate SameRequest(old': Operation, new': Operation) {
    new' == old'.(status := new'.status, embyUserId := new'.embyUserId, accountId := new'.accountId,
                  updatedAt := new'.updatedAt, completedAt := new'.completedAt)
  }

  ghost predicate OnlyOperation(db: Db, db': Db, o: nat) {
    && o in db.operations && o in db'.operations
    && db' == db.(operations := db.operations[o := db'.operations[o]])
    && SameRequest(db.operations[o], db'.operations[o])
    && (db'.operations[o].status == Completed <==> db.operations[o].status == Completed)
  }

  lemma OnlyKeeps(db: Db, db': Db, o: nat)
    requires OnlyOperation(db, db', o)
    ensures o in db.operations && o in db'.operations && db'.operations[o].username == db.operations[o].username
  {
  }

  lemma OnlyOnce(db: Db, db': Db, db'': Db, o: nat)
    requires OnlyOperation(db, db', o) && OnlyOperation(db', db'', o)
    ensures OnlyOperation(db, db'', o)
  {
  }

  /** The account is the one that the operation, now completed, has: the one it had, or a new one. */
  ghost predicate ProvisionedBy(db: Db, db': Db, o: nat, account: Account) {
    && OperationAt(db'.operations, o, Completed) && db'.operations[o].accountId == Some(account.id)
    && db'.accounts[account.id := account] == db'.accounts
    && o in db.operations
    && (db.operations[o].status == Completed ==> db' == db)
    && (db.operations[o].status != Completed ==> account.id !in db.accounts && db'.accounts == db.accounts[account.id := account])
    && db'.operations == db.operations[o := db'.operations[o]] && SameRequest(db.operations[o], db'.operations[o])
    && db'.invites == db.invites && db'.orders == db.orders && db'.events == db.events
    && db'.redemptions == RedemptionsAfter(db, o, account)
  }

  /** The calls that obtain an operation's user, and the user they end with: a first attempt creates one;
      a later one looks the name up first, and sets the password of a user it finds. */
  ghost predicate Obtains(operation: Operation, calls: seq<Call>, user: Option<string>) {
    if operation.status == OperationStatus.Pending then calls == [Created(operation.username, user)]
    else
      && calls != [] && calls[0].LookedUp? && calls[0].username == operation.username
      && if !calls[0].ok then |calls| == 1 && user.None?
         else if calls[0].found.None? then calls == [calls[0], Created(operation.username, user)]
         else calls == [calls[0], PasswordSet(calls[0].found.value, user.Some?)] && (user.Some? ==> user == calls[0].found)
  }

  /** All calls of a drive: with a user, stored before or obtained now, the last one restricts it. */
  ghost predicate DriveCalls(operation: Operation, calls: seq<Call>, user: Option<string>, admitted: bool) {
    if operation.embyUserId.Some? then user == operation.embyUserId && calls == [Restricted(user.value, admitted)]
    else if user.None? then !admitted && Obtains(operation, calls, None)
    else calls != [] && Obtains(operation, calls[..|calls| - 1], user) && calls[|calls| - 1] == Restricted(user.value, admitted)
  }

  /** A new account under the given name, expiry and note, expired from the start when its period is over. */
  ghost predicate NewAccount(account: Account, username: string, expiresAt: int, note: string, now: int) {
    && account.version == 1 && account.username == username && account.expiresAt == expiresAt && account.note == note
    && account.createdAt == now && account.updatedAt == now
    && if expiresAt <= now then account.status == Expired && account.disabledAt == Some(now)
       else account.status == Active && account.disabledAt == None
  }

  /** A drive that completes its operation: the account is born of it, with a disabling job if it has
      expired, and belongs to the operation's user. */
  ghost predicate Delivers(db: Db, db': Db, o: nat, user: Option<string>, account: Account, now: int)
    requires o in db.operations
  {
    && NewAccount(account, db.operations[o].username, db.operations[o].expiresAt, db.operations[o].note, now) && Some(account.embyUserId) == user
    && db'.jobs == if account.status == Active then db.jobs else db.jobs[account.id := Job(true, 1, 0, "", now, now)]
  }

  /** Nobody else has the Emby user or the name. */
  ghost predicate Available(accounts: map<nat, Account>, embyUserId: string, username: string) {
    forall a :: a in accounts ==> accounts[a].embyUserId != embyUserId && !SameName(accounts[a].username, username)
  }

  /** How the drive of an incomplete operation ends: an account exactly when every call was answered and
      the user and the name are free; what was obtained is stored with the operation. */
  ghost predicate DriveEnds(db: Db, db': Db, o: nat, calls: seq<Call>, user: Option<string>, admitted: bool, r: Result<Account>, now: int)
    requires o in db.operations
  {
    && DriveCalls(db.operations[o], calls, user, admitted)
    && (user.Some? ==> o in db'.operations && db'.operations[o].embyUserId == user)
    && (r.Success? <==> admitted && user.Some? && Available(db.accounts, user.value, db.operations[o].username))
    && (r.Failure? ==> r.error == if admitted then ConstraintViolation else RemoteFailure)
    && (r.Success? ==> Delivers(db, db', o, user, r.value, now))
  }

  lemma UserAnswered(operation: Operation, obtained: seq<Call>, user: Option<string>, admitted: bool)
    requires user.Some?
    requires if operation.embyUserId.Some? then obtained == [] && user == operation.embyUserId else Obtains(operation, obtained, user)
    ensures DriveCalls(operation, obtained + [Restricted(user.value, admitted)], user, admitted)
  {
    var calls := obtained + [Restricted(user.value, admitted)];
    assert calls[..|calls| - 1] == obtained;
  }

  lemma NobodyAdmitted(operation: Operation, calls: seq<Call>)
    requires operation.embyUserId.None? && Obtains(operation, calls, None)
    ensures DriveCalls(operation, calls, None, false)
  {
  }

  lemma NotAdmitted(db: Db, db': Db, o: nat, calls: seq<Call>, user: Option<string>, r: Result<Account>, now: int)
    requires OnlyOperation(db, db', o) && DriveCalls(db.operations[o], calls, user, false) && r == Failure(RemoteFailure)
    requires user.Some? ==> db'.operations[o].embyUserId == user
    ensures DriveEnds(db, db', o, calls, user, false, r, now)
  {
    hide DriveCalls, Available;
  }

  lemma FinishEnds(db: Db, ready: Db, o: nat, calls: seq<Call>, user: Option<string>, now: int)
    requires Sound(ready) && OnlyOperation(db, ready, o) && db.operations[o].status != Completed
    requires user.Some? && ready.operations[o].embyUserId == user && DriveCalls(db.operations[o], calls, user, true)
    ensures var tx := T.CompleteAccountCreateOperation(ready, o, now); DriveEnds(db, tx.db, o, calls, user, true, tx.result, now)
  {
    hide Sound, DriveCalls, T.CompleteAccountCreateOperation;
    FinishDelivers(ready, o, now);
  }

  lemma MarkKeepsUser(db: Db, o: nat, now: int)
    requires o in db.operations
    ensures var db' := T.MarkAccountCreateOperationCreating(db, o, now);
      o in db'.operations && db'.operations[o].embyUserId == db.operations[o].embyUserId
  {
  }

  lemma OnlyIncomplete(db: Db, db': Db, o: nat)
    requires OnlyOperation(db, db', o) && db.operations[o].status != Completed
    ensures o in db'.operations && db'.operations[o].status != Completed
  {
  }

  lemma UserIsSaved(db: Db, o: nat, user: string, now: int)
    requires o in db.operations && db.operations[o].status != Completed && db.operations[o].embyUserId.None?
    ensures var tx := T.SaveAccountCreateOperationRemote(db, o, user, now);
      tx.result.Success? && o in tx.db.operations && tx.db.operations[o].embyUserId == Some(user)
  {
  }

  lemma ProvisionDelivers(db: Db, o: nat, now: int)
    requires o in db.operations && db.operations[o].embyUserId.Some? && db.nextAccount !in db.jobs
    requires db.operations[o].kind == Register ==> db.operations[o].inviteId.Some? && db.operations[o].inviteId.value in db.invites
    ensures var tx, user := T.ProvisionAccount(db, o, db.operations[o], now), db.operations[o].embyUserId;
      && (tx.result.Success? <==> Available(db.accounts, user.value, db.operations[o].username))
      && (if tx.result.Success? then Delivers(db, tx.db, o, user, tx.result.value, now) else tx.result.error == ConstraintViolation && tx.db == db)
      && o in tx.db.operations && tx.db.operations[o].embyUserId == user
  {
    hide SameName;
  }

  lemma FinishDelivers(ready: Db, o: nat, now: int)
    requires Sound(ready) && o in ready.operations && ready.operations[o].status != Completed && ready.operations[o].embyUserId.Some?
    ensures var tx, user := T.CompleteAccountCreateOperation(ready, o, now), ready.operations[o].embyUserId;
      && (tx.result.Success? <==> Available(ready.accounts, user.value, ready.operations[o].username))
      && (if tx.result.Success? then Delivers(ready, tx.db, o, user, tx.result.value, now) else tx.result.error == ConstraintViolation)
      && o in tx.db.operations && tx.db.operations[o].embyUserId == user
  {
    NoJobYet(ready);
    if ready.operations[o].kind == Register {
      RegistersUnderInvite(ready, o);
    }
    ProvisionDelivers(ready, o, now);
    hide Sound, T.ProvisionAccount, Delivers, Available;
  }

  lemma RegistersUnderInvite(db: Db, o: nat)
    requires Sound(db) && o in db.operations && db.operations[o].kind == Register
    ensures db.operations[o].inviteId.Some? && db.operations[o].inviteId.value in db.invites
  {
    OperationFacts(db, o);
  }

  /** A registration that is finished now is redeemed once, under the invite it reserved. */
  ghost function RedemptionsAfter(db: Db, o: nat, account: Account): map<nat, Redemption>
    requires o in db.operations
  {
    var operation := db.operations[o];
    if operation.status != Completed && operation.kind == Register && operation.inviteId.Some? then
      db.redemptions[db.nextRedemption :=
        Redemption(operation.inviteId.value, account.id, Registration, operation.inviteDays, operation.inviteMinutes, account.createdAt)]
    else db.redemptions
  }

  lemma HealthyOperation(s: State, o: nat)
    requires Healthy(s) && o in s.db.operations
    ensures s.db.operations[o].id == o && OperationChecks(s.db.operations[o])
    ensures DriverFor(s.db.operations[o]) == if s.db.operations[o].status == Completed || s.db.operations[o].embyUserId.Some? then Finishing(o)
      else if s.db.operations[o].status == OperationStatus.Pending then MarkingCreate(o) else LookingUp(o)
  {
    hide OutboxHolds, LedgersHold, Sound;
    OperationFacts(s.db, o);
  }

  lemma ProvisionEffect(db: Db, o: nat, now: int)
    requires o in db.operations && db.operations[o].embyUserId.Some?
    ensures var tx, a := T.ProvisionAccount(db, o, db.operations[o], now), db.nextAccount;
      if tx.result.Failure? then tx.db == db
      else
        && tx.result.value.id == a && tx.db.accounts == db.accounts[a := tx.result.value]
        && o in tx.db.operations && tx.db.operations == db.operations[o := tx.db.operations[o]]
        && tx.db.operations[o].status == Completed && tx.db.operations[o].accountId == Some(a)
        && SameRequest(db.operations[o], tx.db.operations[o])
        && tx.db.invites == db.invites && tx.db.orders == db.orders && tx.db.events == db.events
        && (db.operations[o].status != Completed ==> tx.db.redemptions == RedemptionsAfter(db, o, tx.result.value))
  {
    hide T.AccountFree, T.UpsertAccessSyncJob, T.ProvisionedAccount;
    ProvisionedNames(db.operations[o], db.nextAccount, now);
  }

  lemma FinishAnswers(db: Db, ready: Db, o: nat, now: int)
    requires Sound(ready) && OnlyOperation(db, ready, o) && (db.operations[o].status == Completed ==> ready == db)
    ensures var tx := T.CompleteAccountCreateOperation(ready, o, now);
      && (db.operations[o].status == Completed ==> tx.result.Success?)
      && if tx.result.Success? then ProvisionedBy(db, tx.db, o, tx.result.value) else OnlyOperation(db, tx.db, o)
  {
    hide Sound, T.ProvisionAccount;
    OperationFacts(ready, o);
    var operation := ready.operations[o];
    if operation.status == Completed {
      AccountFacts(ready, operation.accountId.value);
    } else if operation.embyUserId.Some? {
      NewAccountFacts(ready);
      ProvisionEffect(ready, o, now);
    }
  }

  lemma DriveDoes(s: State, o: nat)
    requires s.driver.NoDriver? && o in s.db.operations
    ensures Drives(s, Next(s, OfSaga(Drive(o))), s.db, s.users, s.usedIds, DriverFor(s.db.operations[o]))
  {
  }

  lemma CheckpointsOnly(db: Db, o: nat, user: string, now: int)
    requires o in db.operations
    ensures OnlyOperation(db, T.MarkAccountCreateOperationCreating(db, o, now), o)
    ensures OnlyOperation(db, T.SaveAccountCreateOperationRemote(db, o, user, now).db, o)
    ensures OnlyOperation(db, db, o)
  {
  }

  lemma CreateUserDoes(s: State, o: nat, made: string, ok: bool)
    requires s.driver == CreatingUser(o) && o in s.db.operations && made != "" && made !in s.usedIds
    ensures Drives(s, Next(s, OfSaga(CreateUser(made, ok, true))), s.db,
      s.users[made := EmbyUser(s.db.operations[o].username, false, false, Some(o))], s.usedIds + {made}, if ok then SavingRemote(o, made) else NoDriver)
  {
  }

  // ----- answers to a request with an idempotency key -----

  ghost predicate Asked(operation: Operation, kind: OperationKind, key: string) {
    operation.kind == kind && operation.key == key
  }

  ghost predicate MadeAccount(db: Db, o: nat, kind: OperationKind, key: string, fingerprint: string, account: Account) {
    && OperationAt(db.operations, o, Completed) && Asked(db.operations[o], kind, key)
    && db.operations[o].fingerprint == fingerprint && db.operations[o].accountId == Some(account.id)
    && account.id in db.accounts && db.accounts[account.id] == account
  }

  /** An account answers a request only when its key's operation, completed, carries the request's
      fingerprint and made that account. When the key has an operation already, however far it has come, a
      request with another fingerprint changes nothing; one with the same fingerprint moves that operation
      on and reserves nothing more, and once it is completed changes nothing and gets the same account. */
  ghost predicate AnswersRequest(db: Db, db': Db, kind: OperationKind, key: string, fingerprint: string, r: Result<Account>) {
    && (r.Success? ==> exists o :: MadeAccount(db', o, kind, key, fingerprint, r.value))
    && (forall o :: o in db.operations && Asked(db.operations[o], kind, key) ==> AnswersReplay(db, db', o, fingerprint, r))
  }

  ghost predicate AnswersReplay(db: Db, db': Db, o: nat, fingerprint: string, r: Result<Account>)
    requires o in db.operations
  {
    if db.operations[o].fingerprint != fingerprint then db' == db && r == Failure(IdempotencyKeyConflict)
    else
      && (db.operations[o].status == Completed ==> r.Success?)
      && if r.Success? then ProvisionedBy(db, db', o, r.value) else OnlyOperation(db, db', o)
  }

  /** What both ways to begin have in common. */
  ghost predicate Begun(db: Db, input: T.OperationInput, tx: Tx<Operation>) {
    && (tx.result.Success? ==>
          var o := tx.result.value.id;
          o in tx.db.operations && tx.db.operations[o] == tx.result.value && Asked(tx.result.value, input.kind, input.key) &&
          tx.result.value.fingerprint == input.fingerprint)
    && (forall o :: o in db.operations && Asked(db.operations[o], input.kind, input.key) ==>
          tx == Tx(db, if db.operations[o].fingerprint == input.fingerprint then Success(db.operations[o]) else Failure(IdempotencyKeyConflict)))
  }

  lemma CreateBegun(db: Db, input: T.OperationInput)
    requires Sound(db)
    ensures Begun(db, input, T.BeginAccountCreateOperation(db, input))
  {
    hide T.FindAccountByUsername;
    assert OperationsSound(db.operations, db.nextOperation);
    hide Sound;
  }

  lemma RegistrationBegun(db: Db, input: T.OperationInput, codeHash: string)
    requires Sound(db)
    ensures Begun(db, input, T.BeginRegistrationOperation(db, input, codeHash))
  {
    hide T.Redeemable, T.FindInviteByHash, T.FindAccountByUsername, T.UseInvite;
    assert OperationsSound(db.operations, db.nextOperation);
    hide Sound;
  }

  lemma BegunIsThere(db: Db, input: T.OperationInput, tx: Tx<Operation>)
    requires Begun(db, input, tx) && tx.result.Success?
    ensures tx.result.value.id in tx.db.operations && tx.db.operations[tx.result.value.id] == tx.result.value
    ensures tx.result.value.fingerprint == input.fingerprint
  {
  }

  lemma ProvisionAnswers(db: Db, begun: Tx<Operation>, db': Db, input: T.OperationInput, r: Result<Account>)
    requires Sound(db) && Begun(db, input, begun)
    requires begun.result.Failure? ==> db' == begun.db && r == Failure(begun.result.error)
    requires begun.result.Success? ==> begun.result.value.id in begun.db.operations && AnswersReplay(begun.db, db', begun.result.value.id, input.fingerprint, r)
    ensures AnswersRequest(db, db', input.kind, input.key, input.fingerprint, r)
  {
    hide Sound, OnlyOperation, RedemptionsAfter;
    if begun.result.Success? && r.Success? {
      assert MadeAccount(db', begun.result.value.id, input.kind, input.key, input.fingerprint, r.value);
    }
    forall o | o in db.operations && Asked(db.operations[o], input.kind, input.key)
      ensures db.operations[o].id == o
    {
      OperationFacts(db, o);
    }
  }

  ghost predicate KeyIsNew(db: Db, kind: OperationKind, key: string) {
    forall o :: o in db.operations ==> !Asked(db.operations[o], kind, key)
  }

  /** A request that repeats an incomplete one drives that operation on. */
  ghost predicate DriveResumes(db: Db, db': Db, o: nat, fingerprint: string, calls: seq<Call>, user: Option<string>, admitted: bool,
                               r: Result<Account>, now: int)
    requires o in db.operations
  {
    if db.operations[o].fingerprint != fingerprint || db.operations[o].status == Completed then calls == []
    else DriveEnds(db, db', o, calls, user, admitted, r, now)
  }

  lemma ProvisionResumes(db: Db, begun: Tx<Operation>, db': Db, input: T.OperationInput, calls: seq<Call>, user: Option<string>, admitted: bool,
                         r: Result<Account>, now: int)
    requires Sound(db) && Begun(db, input, begun)
    requires begun.result.Failure? ==> calls == []
    requires begun.result.Success? ==>
      var o := begun.result.value.id;
      && o in begun.db.operations && (begun.db.operations[o].status == Completed ==> calls == [])
      && (begun.db.operations[o].status != Completed ==> DriveEnds(begun.db, db', o, calls, user, admitted, r, now))
    ensures forall o :: o in db.operations && Asked(db.operations[o], input.kind, input.key) ==>
      DriveResumes(db, db', o, input.fingerprint, calls, user, admitted, r, now)
  {
    hide Sound, DriveEnds;
    forall o | o in db.operations && Asked(db.operations[o], input.kind, input.key)
      ensures db.operations[o].id == o
    {
      OperationFacts(db, o);
    }
  }

  lemma RedeemedOnce(mid: Db, request: Operation, account: Account, now: int)
    requires request.id in mid.operations && mid.operations[request.id] == request && request.status != Completed
    requires request.kind == Register && request.inviteId.Some? && account.createdAt == now
    ensures RedemptionsAfter(mid, request.id, account) == mid.redemptions[mid.nextRedemption :=
      Redemption(request.inviteId.value, account.id, Registration, request.inviteDays, request.inviteMinutes, now)]
  {
  }

  // ----- the drives of a recovery -----

  /** The calls of one drive, the user it ended with and whether Emby admitted that. */
  datatype DriveTalk = DriveTalk(calls: seq<Call>, user: Option<string>, admitted: bool)

  function AllCalls(drives: seq<DriveTalk>): seq<Call> {
    if drives == [] then [] else AllCalls(drives[..|drives| - 1]) + drives[|drives| - 1].calls
  }

  lemma NobodyCalled()
    ensures AllCalls([]) == []
  {
  }

  lemma OneTalkMore(drives: seq<DriveTalk>, more: DriveTalk)
    ensures AllCalls(drives + [more]) == AllCalls(drives) + more.calls
  {
    assert (drives + [more])[..|drives|] == drives;
  }

  /** A recovered operation: its drive made the calls it must, and completed it exactly when Emby admitted
      the user, unless another account has the user or the name. */
  ghost predicate Talked(request: Operation, db': Db, o: nat, talk: DriveTalk) {
    && DriveCalls(request, talk.calls, talk.user, talk.admitted) && o in db'.operations
    && (talk.user.Some? ==> db'.operations[o].embyUserId == talk.user)
    && (OperationAt(db'.operations, o, Completed) ==> talk.admitted)
    && (talk.admitted && !OperationAt(db'.operations, o, Completed) ==>
          talk.user.Some? && !Available(db'.accounts, talk.user.value, request.username))
  }

  lemma DroveTalk(db: Db, db': Db, o: nat, calls: seq<Call>, user: Option<string>, admitted: bool, r: Result<Account>, now: int)
    requires o in db.operations && db.operations[o].status != Completed && DriveEnds(db, db', o, calls, user, admitted, r, now)
    requires if r.Success? then ProvisionedBy(db, db', o, r.value) else OnlyOperation(db, db', o)
    ensures Talked(db.operations[o], db', o, DriveTalk(calls, user, admitted))
  {
    hide RedemptionsAfter, Obtains, Delivers, SameName;
  }

  lemma StillTalked(request: Operation, db: Db, db': Db, o: nat, p: nat, talk: DriveTalk, r: Result<Account>)
    requires o != p && Talked(request, db, o, talk) && p in db.operations
    requires if r.Success? then ProvisionedBy(db, db', p, r.value) else OnlyOperation(db, db', p)
    ensures Talked(request, db', o, talk)
  {
    hide RedemptionsAfter, DriveCalls, Available;
    if talk.user.Some? && !Available(db.accounts, talk.user.value, request.username) {
      StaysTaken(db.accounts, db'.accounts, talk.user.value, request.username);
    }
  }

  lemma StaysTaken(accounts: map<nat, Account>, accounts': map<nat, Account>, embyUserId: string, username: string)
    requires !Available(accounts, embyUserId, username) && forall a :: a in accounts ==> a in accounts' && accounts'[a] == accounts[a]
    ensures !Available(accounts', embyUserId, username)
  {
    hide SameName;
    var a :| a in accounts && (accounts[a].embyUserId == embyUserId || SameName(accounts[a].username, username));
    assert accounts'[a] == accounts[a];
  }

  ghost predicate AllTalked(operations: map<nat, Operation>, db': Db, listed: seq<nat>, drives: seq<DriveTalk>) {
    |drives| <= |listed| && forall i :: 0 <= i < |drives| ==>
      listed[i] in operations && Talked(operations[listed[i]], db', listed[i], drives[i])
  }

  lemma NobodyTalked(operations: map<nat, Operation>, db': Db, listed: seq<nat>)
    ensures AllTalked(operations, db', listed, [])
  {
  }

  lemma AllTalkedMore(operations: map<nat, Operation>, db: Db, db': Db, listed: seq<nat>, drives: seq<DriveTalk>, more: DriveTalk, r: Result<Account>)
    requires |drives| < |listed| && AllTalked(operations, db, listed, drives)
    requires forall i, j :: 0 <= i < j < |listed| ==> listed[i] != listed[j]
    requires var o := listed[|drives|];
      && o in db.operations && o in operations && operations[o] == db.operations[o] && Talked(operations[o], db', o, more)
      && if r.Success? then ProvisionedBy(db, db', o, r.value) else OnlyOperation(db, db', o)
    ensures AllTalked(operations, db', listed, drives + [more])
  {
    hide Talked, ProvisionedBy, OnlyOperation;
    var o := listed[|drives|];
    forall i | 0 <= i < |drives|
      ensures Talked(operations[listed[i]], db', listed[i], drives[i])
    {
      StillTalked(operations[listed[i]], db, db', listed[i], o, drives[i], r);
    }
  }

  lemma ListingFull(stamps: map<nat, int>, limit: nat, ids: seq<nat>)
    requires IsListing(stamps, limit, ids)
    ensures (exists o :: o in stamps && o !in ids) ==> |ids| == limit
  {
    ListingDistinct(stamps, limit, ids);
    DistinctSize(ids);
    assert |stamps| == |stamps.Keys|;
    if o :| o in stamps && o !in ids {
      assert Members(ids) + {o} <= stamps.Keys;
      SmallerSet(Members(ids) + {o}, stamps.Keys);
      assert |Members(ids) + {o}| == |ids| + 1;
    }
  }

  /** The hundred operations that are pending, creating or remote created and whose last change is longest ago,
      in that order; all of them when they are fewer. */
  ghost predicate OldestIncomplete(operations: map<nat, Operation>, listed: seq<nat>) {
    && |listed| <= 100 && (forall i :: 0 <= i < |listed| ==> listed[i] in operations && operations[listed[i]].status != Completed)
    && (forall i, j :: 0 <= i < j < |listed| ==>
          Earlier(operations[listed[i]].updatedAt, listed[i], operations[listed[j]].updatedAt, listed[j]))
    && (forall o :: o in operations && operations[o].status != Completed && o !in listed ==>
          |listed| == 100 && forall i :: 0 <= i < |listed| ==> Earlier(operations[listed[i]].updatedAt, listed[i], operations[o].updatedAt, o))
  }

  lemma ListedAreOldest(operations: map<nat, Operation>, listed: seq<nat>)
    requires IsListing(IncompleteStamps(operations), 100, listed)
    ensures OldestIncomplete(operations, listed)
  {
    ListingFull(IncompleteStamps(operations), 100, listed);
    hide Earlier;
    var stamps := IncompleteStamps(operations);
    assert forall i :: 0 <= i < |listed| ==> listed[i] in stamps;
    assert forall o :: o in operations && operations[o].status != Completed ==> o in stamps && stamps[o] == operations[o].updatedAt;
    forall o, i | o in operations && operations[o].status != Completed && o !in listed && 0 <= i < |listed|
      ensures Earlier(operations[listed[i]].updatedAt, listed[i], operations[o].updatedAt, o)
    {
      assert listed[i] in listed;
    }
  }

  lemma IncompleteListed(operations: map<nat, Operation>, listed: seq<nat>)
    requires IsListing(IncompleteStamps(operations), 100, listed)
    ensures forall i, j :: 0 <= i < j < |listed| ==> listed[i] != listed[j]
    ensures forall i :: 0 <= i < |listed| ==> listed[i] in operations && operations[listed[i]].status != Completed
  {
    ListingDistinct(IncompleteStamps(operations), 100, listed);
  }

  // ----- the answer to a first request -----

  /** The request as it is stored. */
  ghost predicate Requested(operation: Operation, kind: OperationKind, key: string, fingerprint: string, username: string, sealed: string,
                            expiresAt: int, note: string) {
    && operation.kind == kind && operation.key == key && operation.fingerprint == fingerprint
    && operation.username == username && operation.passwordCiphertext == sealed && operation.expiresAt == expiresAt && operation.note == note
  }

  ghost predicate NameTaken(accounts: map<nat, Account>, username: string) {
    exists a :: a in accounts && SameName(accounts[a].username, username)
  }

  /** The calls for a first request: the user is created and restricted, and that, with nobody else having
      the user or the name, makes the account. */
  ghost predicate FirstAttempt(accounts: map<nat, Account>, username: string, calls: seq<Call>, user: Option<string>, admitted: bool,
                               r: Result<Account>) {
    if user.None? then calls == [Created(username, None)] && r == Failure(RemoteFailure)
    else
      && calls == [Created(username, user), Restricted(user.value, admitted)]
      && (r.Success? <==> admitted && Available(accounts, user.value, username))
      && (r.Failure? ==> r.error == if admitted then ConstraintViolation else RemoteFailure)
      && (r.Success? ==> Some(r.value.embyUserId) == user)
  }

  /** What a first request leaves: the operation with the request, and on success the new account with a
      disabling job when it has expired, otherwise no account. */
  ghost predicate FirstAnswer(db: Db, db': Db, r: Result<Account>, username: string, expiresAt: int, note: string, now: int) {
    if r.Failure? then db'.accounts == db.accounts && db'.jobs == db.jobs && db'.redemptions == db.redemptions
    else
      && NewAccount(r.value, username, expiresAt, note, now) && r.value.id !in db.accounts
      && db'.accounts == db.accounts[r.value.id := r.value]
      && db'.jobs == if expiresAt <= now then db.jobs[r.value.id := Job(true, 1, 0, "", now, now)] else db.jobs
  }

  ghost predicate StoredAs(db': Db, o: nat, kind: OperationKind, key: string, fingerprint: string, username: string, sealed: string,
                           expiresAt: int, note: string) {
    o in db'.operations && Requested(db'.operations[o], kind, key, fingerprint, username, sealed, expiresAt, note)
  }

  lemma FirstRequest(db: Db, mid: Db, db': Db, o: nat, calls: seq<Call>, user: Option<string>, admitted: bool, r: Result<Account>, now: int)
    requires o in mid.operations && mid.operations[o].status == OperationStatus.Pending && mid.operations[o].embyUserId.None?
    requires mid.accounts == db.accounts && mid.jobs == db.jobs && mid.redemptions == db.redemptions
    requires DriveEnds(mid, db', o, calls, user, admitted, r, now)
    requires if r.Success? then ProvisionedBy(mid, db', o, r.value) else OnlyOperation(mid, db', o)
    ensures var request := mid.operations[o];
      && FirstAttempt(db.accounts, request.username, calls, user, admitted, r)
      && FirstAnswer(db, db', r, request.username, request.expiresAt, request.note, now)
      && StoredAs(db', o, request.kind, request.key, request.fingerprint, request.username, request.passwordCiphertext, request.expiresAt, request.note)
      && db'.invites == mid.invites
      && (r.Success? ==> db'.redemptions == RedemptionsAfter(mid, o, r.value) && r.value.createdAt == now)
  {
    hide Available, RedemptionsAfter;
    if user.Some? {
      assert calls == calls[..|calls| - 1] + [calls[|calls| - 1]];
    }
  }

  lemma CreateStores(db: Db, input: T.OperationInput)
    requires Sound(db) && forall o :: o in db.operations ==> !Asked(db.operations[o], input.kind, input.key)
    ensures var tx := T.BeginAccountCreateOperation(db, input);
      if NameTaken(db.accounts, input.username) then tx == Tx(db, Failure(AccountAlreadyExists))
      else
        && tx.result.Success? && tx.result.value.id == db.nextOperation && FreshRequest(db, tx.db, tx.result.value)
        && tx.db.invites == db.invites
        && Requested(tx.result.value, input.kind, input.key, input.fingerprint, input.username, input.passwordCiphertext, input.expiresAt, input.note)
  {
  }

  /** Only the operation has been added. */
  ghost predicate FreshRequest(db: Db, mid: Db, row: Operation) {
    && row.id == db.nextOperation && row.status == OperationStatus.Pending && row.embyUserId.None?
    && mid == db.(operations := db.operations[row.id := row], nextOperation := db.nextOperation + 1, invites := mid.invites)
  }

  /** An invite with this code that can be used for a registration or a renewal at this time. */
  ghost predicate Usable(invite: Invite, codeHash: string, now: int) {
    && invite.codeHash == codeHash && invite.enabled && invite.durationMinutes >= 1
    && (invite.startsAt.None? || invite.startsAt.value <= now) && (invite.expiresAt.None? || now < invite.expiresAt.value)
    && (invite.maxUses < 1 || invite.usedCount < invite.maxUses)
  }

  ghost predicate OneUseMore(invites: map<nat, Invite>, invites': map<nat, Invite>, i: nat) {
    i in invites && invites' == invites[i := invites[i].(usedCount := invites[i].usedCount + 1)]
  }

  /** A registration that is accepted: one use of the code's invite, and an account that lives for the
      minutes the invite gives. */
  ghost predicate Reserves(db: Db, mid: Db, row: Operation, i: nat, codeHash: string, now: int) {
    && i in db.invites && Usable(db.invites[i], codeHash, now) && OneUseMore(db.invites, mid.invites, i)
    && row.inviteId == Some(i) && row.expiresAt == now + 60 * SECOND * db.invites[i].durationMinutes
    && row.inviteDays == db.invites[i].durationDays && row.inviteMinutes == db.invites[i].durationMinutes
  }

  ghost predicate NoneUsable(invites: map<nat, Invite>, codeHash: string, now: int) {
    forall i :: i in invites ==> !Usable(invites[i], codeHash, now)
  }

  lemma RegistrationStores(db: Db, input: T.OperationInput, codeHash: string) returns (i: nat)
    requires Sound(db) && forall o :: o in db.operations ==> !Asked(db.operations[o], input.kind, input.key)
    ensures var tx := T.BeginRegistrationOperation(db, input, codeHash);
      if NameTaken(db.accounts, input.username) then tx == Tx(db, Failure(AccountAlreadyExists))
      else if NoneUsable(db.invites, codeHash, input.now) then tx == Tx(db, Failure(InviteNotRedeemable))
      else
        && tx.result.Success? && tx.result.value.id == db.nextOperation && FreshRequest(db, tx.db, tx.result.value)
        && Reserves(db, tx.db, tx.result.value, i, codeHash, input.now)
        && Requested(tx.result.value, input.kind, input.key, input.fingerprint, input.username, input.passwordCiphertext,
             tx.result.value.expiresAt, input.note)
  {
    i := CodeInvite(db, codeHash, input.now);
    hide Sound, T.Redeemable, Usable, SameName;
  }

  lemma CodeInvite(db: Db, codeHash: string, now: int) returns (i: nat)
    requires Sound(db)
    ensures var found := T.FindInviteByHash(db.invites, codeHash);
      && (NoneUsable(db.invites, codeHash, now) <==> found.None? || !T.Redeemable(db.invites[found.value], now))
      && (found.Some? ==> i == found.value && (T.Redeemable(db.invites[i], now) <==> Usable(db.invites[i], codeHash, now)))
  {
    assert InvitesSound(db.invites, db.nextInvite);
    hide Sound;
    var found := T.FindInviteByHash(db.invites, codeHash);
    i := if found.Some? then found.value else 0;
  }

  // ----- a direct registration -----

  ghost predicate OnlyAccounts(db: Db, db': Db) {
    db' == db.(accounts := db'.accounts, nextAccount := db'.nextAccount, jobs := db'.jobs)
  }

  /** A directly created account as it is stored: active, or expired with its disabling job when its
      period is over before it begins. */
  function DirectAccount(id: nat, embyUserId: string, username: string, expiresAt: int, note: string, now: int): Account {
    var expired := expiresAt <= now;
    Account(id, if expired then 2 else 1, embyUserId, username, if expired then Expired else Active, expiresAt, note, now, now,
      if expired then Some(now) else None)
  }

  ghost predicate CreatedDirectly(db: Db, db': Db, account: Account, now: int) {
    && account.id == db.nextAccount && db'.accounts == db.accounts[account.id := account]
    && db'.jobs == if account.status == Active then db.jobs else db.jobs[account.id := Job(true, 1, 0, "", now, now)]
  }

  /** The calls of a direct creation: a user is made and restricted, or deleted again. */
  ghost predicate DirectAttempt(accounts: map<nat, Account>, username: string, calls: seq<Call>, user: Option<string>, admitted: bool,
                                r: Result<Account>) {
    && (r.Success? <==> user.Some? && admitted && Available(accounts, user.value, username))
    && (r.Success? ==> Some(r.value.embyUserId) == user)
    && (r.Failure? ==> r.error == if admitted then ConstraintViolation else RemoteFailure)
    && if user.None? then !admitted && calls == [Created(username, None)]
       else
         && [Created(username, user), Restricted(user.value, admitted)] <= calls
         && if admitted then |calls| == 2 else |calls| == 3 && calls[2].Deleted? && calls[2].userId == user.value
  }

  lemma InsertedAccount(db: Db, account: Account)
    ensures var tx := T.CreateAccount(db, account);
      && OnlyAccounts(db, tx.db) && (tx.result.Failure? ==> tx == Tx(db, Failure(ConstraintViolation)))
      && (tx.result.Success? <==> Available(db.accounts, account.embyUserId, account.username))
      && (tx.result.Success? ==> tx.result.value == account.(id := db.nextAccount, version := 1))
      && (tx.result.Success? ==> tx.db.accounts == db.accounts[db.nextAccount := tx.result.value] && tx.db.jobs == db.jobs)
  {
    hide SameName;
  }

  lemma NoJobYet(db: Db)
    requires Sound(db)
    ensures db.nextAccount !in db.jobs
  {
    NewAccountFacts(db);
    assert JobsSound(db.jobs, db.accounts);
  }

  lemma QueuedAccount(db: Db, snap: Account, now: int)
    requires snap.id in db.accounts && db.accounts[snap.id] == snap && snap.id !in db.jobs
    ensures var tx := T.SetAccountStatus(db, snap, snap.status, snap.disabledAt, now);
      && OnlyAccounts(db, tx.db) && tx.result == Success(snap.(updatedAt := now, version := snap.version + 1))
      && tx.db.accounts == db.accounts[snap.id := tx.result.value]
      && tx.db.jobs == db.jobs[snap.id := Job(snap.status != Active, 1, 0, "", now, now)]
  {
  }

  lemma ConsumedInvite(db: Db, codeHash: string, now: int)
    ensures var tx := T.ConsumeInvite(db, codeHash, now);
      if tx.result.Failure? then tx.db == db
      else
        var i := T.FindInviteByHash(db.invites, codeHash);
        i.Some? && tx.db == db.(invites := T.UseInvite(db.invites, i.value)) && tx.result.value == T.UseInvite(db.invites, i.value)[i.value]
  {
    hide T.InOpenPeriod;
  }

  /** A use that is held can be given back, and giving it back undoes taking it. */
  lemma ReleaseUndoesConsume(s: State, invites: map<nat, Invite>, i: nat)
    requires Healthy(s) && i in invites && s.db.invites == T.UseInvite(invites, i) && At(s.books.held, i) > 0
    ensures T.ReleaseInvite(s.db, i) == s.db.(invites := invites)
  {
    BooksAfterRelease(s.db, s.books.recorded, s.books.held, i);
    hide Sound, OutboxHolds, LedgersHold;
    assert T.ReleaseInvite(s.db, i).invites == invites;
  }

  lemma HeldNotNegative(s: State, i: nat)
    requires Healthy(s)
    ensures At(s.books.held, i) >= 0
  {
    hide Sound, OutboxHolds;
  }

  lemma UsedInviteId(s: State, invites: map<nat, Invite>, i: nat)
    requires Healthy(s) && i in invites && s.db.invites == T.UseInvite(invites, i)
    ensures i in s.db.invites && s.db.invites[i].id == i
  {
    hide Sound, OutboxHolds, LedgersHold;
    InviteFacts(s.db, i);
  }

  lemma OnlyAccountsKeeps(db: Db, db': Db)
    requires OnlyAccounts(db, db')
    ensures db'.invites == db.invites && db'.redemptions == db.redemptions && db'.nextRedemption == db.nextRedemption
  {
  }

  /** An invite with this code that can be used now; unlike Usable it may give no time. */
  ghost predicate Open(invite: Invite, codeHash: string, now: int) {
    && invite.codeHash == codeHash && invite.enabled
    && (invite.startsAt.None? || invite.startsAt.value <= now) && (invite.expiresAt.None? || now < invite.expiresAt.value)
    && (invite.maxUses < 1 || invite.usedCount < invite.maxUses)
  }

  ghost predicate NoneOpen(invites: map<nat, Invite>, codeHash: string, now: int) {
    forall i :: i in invites ==> !Open(invites[i], codeHash, now)
  }

  lemma OpenInvite(db: Db, codeHash: string, now: int) returns (i: nat)
    requires Sound(db)
    ensures var tx := T.ConsumeInvite(db, codeHash, now);
      if NoneOpen(db.invites, codeHash, now) then tx.result.Failure?
      else
        && tx.result.Success? && i in db.invites && Open(db.invites[i], codeHash, now)
        && T.FindInviteByHash(db.invites, codeHash) == Some(i) && OneUseMore(db.invites, T.UseInvite(db.invites, i), i)
  {
    assert InvitesSound(db.invites, db.nextInvite);
    hide Sound;
    var found := T.FindInviteByHash(db.invites, codeHash);
    i := if found.Some? then found.value else 0;
  }

  lemma BlankNote()
    ensures TrimSpace("") == ""
  {
  }

  /** The invite has one more use, and one redemption of it by the account is recorded. */
  ghost predicate RegisteredWith(db: Db, db': Db, i: nat, account: nat, now: int)
    requires i in db.invites
  {
    && OneUseMore(db.invites, db'.invites, i)
    && db'.redemptions == db.redemptions[db.nextRedemption :=
         Redemption(i, account, Registration, db.invites[i].durationDays, db.invites[i].durationMinutes, now)]
  }

  lemma RecordedRegistration(db: Db, before: Db, i: nat, redemption: Redemption, now: int)
    requires i in db.invites && redemption.inviteId == i && before.invites == T.UseInvite(db.invites, i)
    requires before.redemptions == db.redemptions && before.nextRedemption == db.nextRedemption
    requires redemption.kind == Registration && redemption.redeemedAt == now
    requires redemption.durationDays == db.invites[i].durationDays && redemption.durationMinutes == db.invites[i].durationMinutes
    ensures RegisteredWith(db, T.AddRedemption(before, redemption), i, redemption.accountId, now)
    ensures T.AddRedemption(before, redemption).accounts == before.accounts
  {
  }
}
