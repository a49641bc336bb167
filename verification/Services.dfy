/** The services as imperative programs over the store and Emby: the background runner of access
    policies, the provisioning driver and registration. AccountEdits.dfy and PaymentFlows.dfy go on with
    the edits of the accounts service and the callers of the payment tables.

    The process carries, as ghost state, the portal of Portal.dfy that the system is in. Every transaction
    and every remote call that a method makes is one step of that machine, so what Guarantees.dfy proves
    of all runs holds of these programs at each of their steps. A method here runs alone; Portal.dfy is
    where its steps meet other callers' steps. */
module Services {
  import opened Domain
  import opened Timestamps
  import opened TableInvariants
  import opened AccessQueue
  import opened Listing
  import opened Portal
  import opened Persistence
  import opened Outbox
  import opened Remote
  import opened StepEffects
  import T = Transactions

  // ----- expiry.go -----

  /** One server process: its services share the store and the Emby client. */
  class Process {
    const store: Store
    const emby: Emby
    ghost var state: State

    ghost predicate Valid()
      reads this, store, emby
    {
      state.db == store.Contents() && state.users == emby.users && state.usedIds == emby.usedIds && Healthy(state)
    }

    constructor (store: Store, emby: Emby, ghost state: State)
      requires state.db == store.Contents() && state.users == emby.users && state.usedIds == emby.usedIds && Healthy(state)
      ensures Valid() && this.store == store && this.emby == emby && this.state == state
    {
      this.store, this.emby, this.state := store, emby, state;
    }

    ghost method Take(step: Step)
      requires Healthy(state)
      modifies `state
      ensures state == Next(old(state), step) && Healthy(state)
    {
      HealthyNext(state, step);
      hide Healthy, Next;
      state := Next(state, step);
    }

    method StartRun(now: int) returns (due: seq<Account>)
      requires Valid() && state.worker.Resting?
      modifies `state
      ensures Valid() && state == Next(old(state), OfWorker(ListDue(due, now)))
      ensures IsDueList(old(state).db, due, now) && state.db == old(state).db && state.worker == Expiring(due, now)
    {
      hide Healthy, Next, AccountsSound, JobsSound, Sound;
      HealthyFacts(state);
      due := store.ListDueActiveAccounts(now);
      StepDoes(state, OfWorker(ListDue(due, now)));
      Take(OfWorker(ListDue(due, now)));
    }

    method ExpireOne(account: Account, ghost rest: seq<Account>, now: int)
      requires Valid() && state.worker == Expiring([account] + rest, now)
      modifies this`state, store`accounts, store`jobs
      ensures Valid() && state == Next(old(state), OfWorker(ExpireNext)) && state.worker == Expiring(rest, now)
      ensures state.db == T.SetAccountStatus(old(state).db, account, Expired, Some(now), now).db
    {
      hide Healthy, Next, T.SetAccountStatus;
      var r := store.SetAccountStatus(account, Expired, Some(now), now);
      StepDoes(state, OfWorker(ExpireNext));
      Take(OfWorker(ExpireNext));
    }

    method ListBatch() returns (rows: seq<JobRow>, ghost batch: seq<nat>)
      requires Valid() && state.worker.Expiring? && state.worker.due == []
      modifies `state
      ensures Valid() && state == Next(old(state), OfWorker(ListJobs(batch))) && state.db == old(state).db
      ensures state.db.jobs.Keys <= state.everQueued
      ensures IsBatch(state.db.jobs, BATCH, batch)
      ensures forall a :: a in batch ==> a in state.db.jobs && a in state.db.accounts
      ensures state.worker == Syncing(Snapshots(state.db, batch), old(state).worker.now)
      ensures |rows| == |batch| && forall i :: 0 <= i < |rows| ==> SnapshotOfRow(rows[i]) == Snapshots(state.db, batch)[i]
    {
      hide Healthy, Next, AccountsSound, JobsSound, Sound, IsBatch;
      HealthyFacts(state);
      rows := store.ListAccessSyncJobs(100);
      batch := AccountsOf(rows);
      BatchIsListed(state.db, rows, batch);
      StepDoes(state, OfWorker(ListJobs(batch)));
      Take(OfWorker(ListJobs(batch)));
    }

    method CallOne(row: JobRow, ghost rest: seq<JobSnapshot>, now: int) returns (ok: bool, message: string, ghost step: Step)
      requires Valid() && state.worker == Syncing([SnapshotOfRow(row)] + rest, now)
      modifies this`state, emby`users, emby`log
      ensures Valid() && state == Next(old(state), step) && state.db == old(state).db && old(state).everQueued <= state.everQueued
      ensures step.OfWorker? && step.worker.CallNext? && state.worker == Called(SnapshotOfRow(row), ok, rest, now)
      ensures emby.log == old(emby.log) + [Switched(row.embyUserId, row.desiredDisabled, ok, message)]
    {
      hide Healthy, Next;
      ghost var effect;
      ok, message, effect := emby.SetUserDisabled(row.embyUserId, row.desiredDisabled);
      step := OfWorker(CallNext(ok, effect));
      StepDoes(state, step);
      Take(step);
    }

    method RecordOne(row: JobRow, ok: bool, message: string, ghost rest: seq<JobSnapshot>, now: int) returns (stored: bool)
      requires Valid() && state.worker == Called(SnapshotOfRow(row), ok, rest, now)
      requires row.accountId in state.db.jobs && state.db.jobs[row.accountId].revision == row.revision
      modifies this`state, store`jobs, store`writes
      ensures Valid() && state == Next(old(state), OfWorker(RecordCall(stored, message))) && state.worker == Syncing(rest, now)
      ensures state.db == old(state).db.(jobs := state.db.jobs) && old(state).everQueued <= state.everQueued
      ensures store.writes == old(store.writes) + [Write(row.accountId, stored)]
      ensures JobAfter(old(state).db.jobs, state.db.jobs, row.accountId, Switched(row.embyUserId, row.desiredDisabled, ok, message),
        Write(row.accountId, stored), now)
      ensures OnlyJob(old(state).db.jobs, state.db.jobs, row.accountId)
    {
      hide Healthy, Next, T.CompleteAccessSync, T.FailAccessSync, JobAfter, OnlyJob;
      if ok {
        stored := store.CompleteAccessSync(row.accountId, row.revision);
      } else {
        stored := store.FailAccessSync(row.accountId, row.revision, message, now);
      }
      RecordedOne(state.db.jobs, row.accountId, Switched(row.embyUserId, row.desiredDisabled, ok, message), Write(row.accountId, stored), now);
      StepDoes(state, OfWorker(RecordCall(stored, message)));
      Take(OfWorker(RecordCall(stored, message)));
    }

    method SyncOne(row: JobRow, ghost rest: seq<JobSnapshot>, now: int)
      returns (failures: nat, ghost call: Call, ghost write: Write, ghost steps: seq<Step>)
      requires Valid() && state.worker == Syncing([SnapshotOfRow(row)] + rest, now)
      requires row.accountId in state.db.jobs && state.db.jobs[row.accountId].revision == row.revision
      modifies this`state, store`jobs, store`writes, emby`users, emby`log
      ensures Valid() && state == Run(old(state), steps) && AllOfWorker(steps) && state.worker == Syncing(rest, now)
      ensures state.db == old(state).db.(jobs := state.db.jobs) && old(state).everQueued <= state.everQueued
      ensures emby.log == old(emby.log) + [call] && store.writes == old(store.writes) + [write]
      ensures call.Switched? && call.userId == row.embyUserId && call.disabled == row.desiredDisabled && write.accountId == row.accountId
      ensures JobAfter(old(state).db.jobs, state.db.jobs, row.accountId, call, write, now)
      ensures OnlyJob(old(state).db.jobs, state.db.jobs, row.accountId)
      ensures failures == (if call.ok then 0 else 1) + (if write.ok then 0 else 1)
      ensures Synchronises(steps) && (write.ok ==> AllStored(steps))
    {
      hide Healthy, Next, JobAfter, OnlyJob;
      failures := 0;
      var ok, message; ghost var step;
      ok, message, step := CallOne(row, rest, now);
      if !ok {
        failures := failures + 1;
      }
      var stored := RecordOne(row, ok, message, rest, now);
      if !stored {
        failures := failures + 1;
      }
      call, write := Switched(row.embyUserId, row.desiredDisabled, ok, message), Write(row.accountId, stored);
      steps := [step, OfWorker(RecordCall(stored, message))];
      RunTwice(old(state), steps[0], steps[1]);
    }

    // Conflicts are no failures: whoever won has recorded a newer desired state.
    method ExpireDue(due: seq<Account>, now: int) returns (ghost steps: seq<Step>)
      requires Valid() && state.worker == Expiring(due, now) && IsDueList(state.db, due, now)
      modifies this`state, store`accounts, store`jobs
      ensures Valid() && state == Run(old(state), steps) && AllExpire(steps) && state.worker == Expiring([], now)
      ensures state.db.accounts == ExpiredWhenDue(old(state).db.accounts, now)
      ensures state.db.jobs == QueuedWhenDue(old(state).db.accounts, old(state).db.jobs, now)
    {
      hide Healthy, Next, Run, ExpiredAmong, ExpiredWhenDue, ExpireIfLive, IsDueList, T.SetAccountStatus, Sound;
      hide QueuedAmong, QueuedWhenDue, QueueIfLive;
      ghost var before := state.db;
      HealthyFacts(state);
      AllDueExpired(before, due, now);
      AllDueQueued(before, due, now);
      steps := [];
      RunNothing(state);
      var i := 0;
      assert due[i..] == due && due[..i] == [];
      while i < |due|
        invariant 0 <= i <= |due| && Valid() && state == Run(old(state), steps) && AllExpire(steps)
        invariant state.worker == Expiring(due[i..], now)
        invariant state.db.accounts == ExpiredAmong(before.accounts, due[..i], now)
        invariant state.db.jobs == QueuedAmong(before.accounts, before.jobs, due[..i], now)
      {
        assert due[i..] == [due[i]] + due[i + 1..];
        DueRows(before, due, i, now);
        ExpiredOneMore(before.accounts, due, i, now);
        QueuedOneMore(before.accounts, before.jobs, due, i, now);
        StatusExpires(state.db, due[i], now);
        StatusQueues(state.db, due[i], now);
        ExpireOne(due[i], due[i + 1..], now);
        RunSnoc(old(state), steps, OfWorker(ExpireNext));
        steps := steps + [OfWorker(ExpireNext)];
        i := i + 1;
      }
      assert due[..i] == due && due[i..] == [];
    }

    /** Each listed job is called for and recorded once, in order. */
    method SyncBatch(rows: seq<JobRow>, ghost batch: seq<nat>, now: int)
      returns (failures: nat, ghost calls: seq<Call>, ghost writes: seq<Write>, ghost steps: seq<Step>)
      requires Valid() && IsBatch(state.db.jobs, BATCH, batch) && state.db.jobs.Keys <= state.everQueued
      requires forall a :: a in batch ==> a in state.db.jobs && a in state.db.accounts
      requires state.worker == Syncing(Snapshots(state.db, batch), now)
      requires |rows| == |batch| && forall i :: 0 <= i < |rows| ==> SnapshotOfRow(rows[i]) == Snapshots(state.db, batch)[i]
      modifies this`state, store`jobs, store`writes, emby`users, emby`log
      ensures Valid() && state == Run(old(state), steps) && AllOfWorker(steps) && state.worker == Syncing([], now)
      ensures state.db == old(state).db.(jobs := state.db.jobs) && old(state).db.jobs.Keys <= state.everQueued
      ensures emby.log == old(emby.log) + calls && store.writes == old(store.writes) + writes
      ensures CallsFor(old(state).db.accounts, old(state).db.jobs, batch, calls, writes)
      ensures Recorded(old(state).db.jobs, state.db.jobs, batch, calls, writes, now)
      ensures failures == Refusals(calls) + Unstored(writes)
      ensures Synchronises(steps) && (Unstored(writes) == 0 ==> AllStored(steps))
    {
      hide Healthy, Next, Run, IsBatch, Recorded, JobAfter, OnlyJob, Refusals, Unstored;
      ghost var before, snapshots := state.db, Snapshots(state.db, batch);
      failures, calls, writes, steps := 0, [], [], [];
      RunNothing(state);
      NothingRecorded(before.jobs, now);
      NothingFailed();
      var i := 0;
      assert snapshots[i..] == snapshots && batch[..i] == [];
      while i < |rows|
        invariant 0 <= i <= |rows| && Valid() && state == Run(old(state), steps) && AllOfWorker(steps)
        invariant state.worker == Syncing(snapshots[i..], now)
        invariant state.db == before.(jobs := state.db.jobs) && before.jobs.Keys <= state.everQueued
        invariant emby.log == old(emby.log) + calls && store.writes == old(store.writes) + writes
        invariant CallsFor(before.accounts, before.jobs, batch[..i], calls, writes)
        invariant Recorded(before.jobs, state.db.jobs, batch[..i], calls, writes, now)
        invariant failures == Refusals(calls) + Unstored(writes)
        invariant Synchronises(steps) && (Unstored(writes) == 0 ==> AllStored(steps))
      {
        assert snapshots[i..] == [SnapshotOfRow(rows[i])] + snapshots[i + 1..];
        assert batch[i] in batch && batch[..i + 1] == batch[..i] + [batch[i]];
        StillListed(before.jobs, state.db.jobs, batch, i, calls, writes, now);
        ghost var reached := state;
        var more; ghost var call; ghost var write; ghost var taken;
        more, call, write, taken := SyncOne(rows[i], snapshots[i + 1..], now);
        RecordedOneMore(before.jobs, reached.db.jobs, state.db.jobs, batch, i, calls, writes, call, write, now);
        OneFailureMore(calls, writes, call, write);
        RunAppend(old(state), steps, taken);
        failures, steps, calls, writes := failures + more, steps + taken, calls + [call], writes + [write];
        i := i + 1;
      }
      assert batch[..i] == batch && snapshots[i..] == [];
    }

    /** One pass of the worker. It expires exactly the accounts that are due, each with its disabling job.
        Of the queue as it is then it lists the first hundred jobs, calls Emby for each of them once and
        records each answer once. A listed job leaves the queue exactly when its call was accepted and the
        record stored, and then the flag agrees; a refusal that is stored counts on the job; no other job
        changes. The failures are the refused calls and the records that were not stored. */
    method RunOnce(now: int)
      returns (failures: nat, ghost steps: seq<Step>, ghost first: nat, ghost batch: seq<nat>, ghost calls: seq<Call>, ghost writes: seq<Write>)
      requires Valid() && state.worker.Resting?
      modifies this`state, store`accounts, store`jobs, store`writes, emby`users, emby`log
      ensures Valid() && state == Run(old(state), steps) && AllOfWorker(steps) && state.worker.Resting?
      ensures IsPass(old(state), steps, first) && steps[first] == OfWorker(ListJobs(batch)) && (Unstored(writes) == 0 ==> AllStored(steps))
      ensures store.accounts == ExpiredWhenDue(old(store.accounts), now)
      ensures var queue := QueuedWhenDue(old(store.accounts), old(store.jobs), now);
        && IsListing(Stamps(queue), 100, batch) && CallsFor(store.accounts, queue, batch, calls, writes)
        && Recorded(queue, store.jobs, batch, calls, writes, now)
        && (failures == 0 ==> store.jobs == queue - Members(batch))
      ensures emby.log == old(emby.log) + calls && store.writes == old(store.writes) + writes
      ensures failures == Refusals(calls) + Unstored(writes)
      ensures forall a :: a in batch && a !in store.jobs ==> a in store.accounts && FlagAgrees(emby.users, store.accounts[a])
    {
      hide Healthy, Next, Run, ExpiredWhenDue, QueuedWhenDue, IsDueList, Snapshots, FlagAgrees, Members, IsPass, Recorded, CallsFor, IsListing,
        Refusals, Unstored;
      var due := StartRun(now);
      ghost var prefix := [OfWorker(ListDue(due, now))];
      RunSingle(old(state), prefix[0]);
      ghost var taken := ExpireDue(due, now);
      RunAppend(old(state), prefix, taken);
      assert AllStored(prefix + taken);
      prefix := prefix + taken;
      var rows;
      rows, batch := ListBatch();
      RunSnoc(old(state), prefix, OfWorker(ListJobs(batch)));
      steps := prefix + [OfWorker(ListJobs(batch))];
      failures, calls, writes, taken := SyncBatch(rows, batch, now);
      RunAppend(old(state), steps, taken);
      PassOf(old(state), prefix, batch, taken);
      steps, first := steps + taken, |prefix|;
      StepDoes(state, OfWorker(EndRun));
      Take(OfWorker(EndRun));
      RunSnoc(old(state), steps, OfWorker(EndRun));
      steps := steps + [OfWorker(EndRun)];
      if failures == 0 {
        NoFailureEmptiesBatch(QueuedWhenDue(old(store.accounts), old(store.jobs), now), store.jobs, batch, calls, writes, now);
      }
      forall a | a in batch && a !in store.jobs
        ensures a in store.accounts && FlagAgrees(emby.users, store.accounts[a])
      {
        QuietAgrees(state, a);
      }
    }

    // ----- accounts/service.go -----

    // The mutex is released without an account; the checkpoints stay.
    method Abandon(ghost before: State, ghost taken: seq<Step>, error: Error) returns (r: Result<Account>, ghost steps: seq<Step>)
      requires Valid() && state == Run(before, taken) && taken != []
      modifies `state
      ensures Valid() && state == Run(before, steps) && steps == taken + [OfSaga(DriverCrash)]
      ensures state.driver.NoDriver? && state.worker == old(state).worker
      ensures state.db == old(state).db && r == Failure(error)
    {
      hide Healthy, Next, Run;
      StepDoes(state, OfSaga(DriverCrash));
      Take(OfSaga(DriverCrash));
      RunSnoc(before, taken, OfSaga(DriverCrash));
      r, steps := Failure(error), taken + [OfSaga(DriverCrash)];
    }

    method MarkAttempt(o: nat, now: int)
      requires Valid() && o in state.db.operations && state.driver == MarkingCreate(o)
      modifies this`state, store`operations
      ensures Valid() && state == Next(old(state), OfSaga(MarkCreating(now))) && state.worker == old(state).worker
      ensures OnlyOperation(old(state).db, state.db, o) && state.driver == CreatingUser(o)
      ensures state.db.operations[o].embyUserId == old(state).db.operations[o].embyUserId
    {
      hide Healthy, Next, T.MarkAccountCreateOperationCreating, OnlyOperation;
      CheckpointsOnly(state.db, o, "", now);
      MarkKeepsUser(state.db, o, now);
      store.MarkAccountCreateOperationCreating(o, now);
      StepDoes(state, OfSaga(MarkCreating(now)));
      Take(OfSaga(MarkCreating(now)));
    }

    method LookUpUser(o: nat) returns (ok: bool, found: Option<string>, ghost steps: seq<Step>)
      requires Valid() && o in state.db.operations && state.driver == LookingUp(o)
      modifies `state, emby`log
      ensures Valid() && state == Run(old(state), steps) && WithinDrive(steps) && state.worker == old(state).worker
      ensures state.db == old(state).db && emby.log == old(emby.log) + [LookedUp(state.db.operations[o].username, ok, found)]
      ensures ok ==> state.driver == if found.Some? then SavingRemote(o, found.value) else CreatingUser(o)
    {
      hide Healthy, Next, Run;
      ok, found := emby.FindUserByUsername(store.operations[o].username);
      steps := [];
      RunNothing(state);
      if ok {
        StepDoes(state, OfSaga(Lookup(found)));
        Take(OfSaga(Lookup(found)));
        RunSingle(old(state), OfSaga(Lookup(found)));
        steps := [OfSaga(Lookup(found))];
      }
    }

    // Before a first attempt the checkpoint; before any other, the user a lost reply may have left behind.
    method BeforeCreate(o: nat, now: int) returns (ok: bool, found: Option<string>, ghost calls: seq<Call>, ghost steps: seq<Step>)
      requires Valid() && o in state.db.operations && state.driver == DriverFor(state.db.operations[o]) && state.db.operations[o].id == o
      requires state.db.operations[o].status != Completed && state.db.operations[o].embyUserId.None?
      modifies this`state, store`operations, emby`log
      ensures Valid() && state == Run(old(state), steps) && WithinDrive(steps) && state.worker == old(state).worker
      ensures OnlyOperation(old(state).db, state.db, o) && emby.log == old(emby.log) + calls && state.db.operations[o].embyUserId.None?
      ensures var operation := old(state).db.operations[o];
        if operation.status == OperationStatus.Pending then ok && found.None? && calls == [] else calls == [LookedUp(operation.username, ok, found)]
      ensures ok ==> state.driver == if found.Some? then SavingRemote(o, found.value) else CreatingUser(o)
    {
      hide Healthy, Next, Run, OnlyOperation, T.MarkAccountCreateOperationCreating, T.SaveAccountCreateOperationRemote;
      var operation := store.operations[o];
      CheckpointsOnly(state.db, o, "", now);
      HealthyOperation(state, o);
      if operation.status == OperationStatus.Pending {
        MarkAttempt(o, now);
        RunSingle(old(state), OfSaga(MarkCreating(now)));
        return true, None, [], [OfSaga(MarkCreating(now))];
      }
      ok, found, steps := LookUpUser(o);
      calls := [LookedUp(operation.username, ok, found)];
    }

    method CreateRemote(o: nat) returns (user: Option<string>, ghost steps: seq<Step>)
      requires Valid() && o in state.db.operations && state.driver == CreatingUser(o)
      modifies this`state, emby
      ensures Valid() && state == Run(old(state), steps) && WithinDrive(steps) && state.worker == old(state).worker
      ensures state.db == old(state).db && (user.Some? ==> state.driver == SavingRemote(o, user.value))
      ensures emby.log == old(emby.log) + [Created(state.db.operations[o].username, user)]
    {
      hide Healthy, Next, Run;
      ghost var made;
      user, made := emby.CreateUser(store.operations[o].username, Some(o));
      steps := [];
      RunNothing(state);
      if made.Some? {
        CreateUserDoes(state, o, made.value, user.Some?);
        Take(OfSaga(CreateUser(made.value, user.Some?, true)));
        RunSingle(old(state), OfSaga(CreateUser(made.value, user.Some?, true)));
        steps := [OfSaga(CreateUser(made.value, user.Some?, true))];
      }
    }

    // The user that carries the operation's name: the one a lost reply left behind, or a new one.
    method ObtainUser(o: nat, now: int) returns (user: Option<string>, ghost calls: seq<Call>, ghost steps: seq<Step>)
      requires Valid() && o in state.db.operations && state.driver == DriverFor(state.db.operations[o]) && state.db.operations[o].id == o
      requires state.db.operations[o].status != Completed && state.db.operations[o].embyUserId.None?
      modifies this`state, store`operations, emby
      ensures Valid() && state == Run(old(state), steps) && WithinDrive(steps) && state.worker == old(state).worker
      ensures OnlyOperation(old(state).db, state.db, o)
      ensures emby.log == old(emby.log) + calls && Obtains(old(state).db.operations[o], calls, user)
      ensures state.db.operations[o].embyUserId.None? && (user.Some? ==> state.driver == SavingRemote(o, user.value))
    {
      hide Healthy, Next, Run, OnlyOperation, DriverFor;
      ghost var operation := state.db.operations[o];
      var ok, found;
      ok, found, calls, steps := BeforeCreate(o, now);
      if !ok {
        return None, calls, steps;
      }
      if found.Some? {
        var renewed := emby.SetUserPassword(found.value);
        calls := calls + [PasswordSet(found.value, renewed)];
        return if renewed then found else None, calls, steps;
      }
      OnlyKeeps(old(state).db, state.db, o);
      ghost var taken;
      user, taken := CreateRemote(o);
      RunAppend(old(state), steps, taken);
      calls, steps := calls + [Created(operation.username, user)], steps + taken;
    }

    // The remote half: on success the user's id is stored with the operation.
    method CheckpointUser(o: nat, now: int) returns (user: Option<string>, ghost calls: seq<Call>, ghost steps: seq<Step>)
      requires Valid() && o in state.db.operations && state.driver == DriverFor(state.db.operations[o]) && state.db.operations[o].id == o
      requires state.db.operations[o].status != Completed && state.db.operations[o].embyUserId.None?
      modifies this`state, store`operations, emby
      ensures Valid() && state == Run(old(state), steps) && WithinDrive(steps) && state.worker == old(state).worker
      ensures OnlyOperation(old(state).db, state.db, o)
      ensures emby.log == old(emby.log) + calls && Obtains(old(state).db.operations[o], calls, user)
      ensures user.Some? ==> state.driver == Finishing(o) && state.db.operations[o].embyUserId == user
    {
      hide Healthy, Next, Run, OnlyOperation, DriverFor, Obtains;
      user, calls, steps := ObtainUser(o, now);
      if user.None? {
        return;
      }
      OnlyKeeps(old(state).db, state.db, o);
      ghost var obtained := state.db;
      OnlyIncomplete(old(state).db, state.db, o);
      SaveRemote(o, user.value, now);
      OnlyOnce(old(state).db, obtained, state.db, o);
      RunSnoc(old(state), steps, OfSaga(SagaAction.SaveRemote(now)));
      steps := steps + [OfSaga(SagaAction.SaveRemote(now))];
    }

    // The checkpoint cannot be refused while the driver is at it.
    method SaveRemote(o: nat, user: string, now: int)
      requires Valid() && o in state.db.operations && state.driver == SavingRemote(o, user)
      requires state.db.operations[o].status != Completed && state.db.operations[o].embyUserId.None?
      modifies this`state, store`operations
      ensures Valid() && state == Next(old(state), OfSaga(SagaAction.SaveRemote(now))) && state.worker == old(state).worker
      ensures OnlyOperation(old(state).db, state.db, o)
      ensures state.driver == Finishing(o) && state.db.operations[o].embyUserId == Some(user)
    {
      hide Healthy, Next, Run, T.SaveAccountCreateOperationRemote, OnlyOperation;
      var r := store.SaveAccountCreateOperationRemote(o, user, now);
      CheckpointsOnly(state.db, o, user, now);
      UserIsSaved(state.db, o, user, now);
      StepDoes(state, OfSaga(SagaAction.SaveRemote(now)));
      Take(OfSaga(SagaAction.SaveRemote(now)));
    }

    // All calls of a drive: with a user that Emby admits the operation can be finished.
    method Admit(o: nat, now: int) returns (user: Option<string>, admitted: bool, ghost calls: seq<Call>, ghost steps: seq<Step>)
      requires Valid() && o in state.db.operations && state.driver == DriverFor(state.db.operations[o]) && state.db.operations[o].id == o
      requires state.db.operations[o].status != Completed
      modifies this`state, store`operations, emby
      ensures Valid() && state == Run(old(state), steps) && WithinDrive(steps) && state.worker == old(state).worker
      ensures OnlyOperation(old(state).db, state.db, o)
      ensures emby.log == old(emby.log) + calls && DriveCalls(old(state).db.operations[o], calls, user, admitted)
      ensures user.Some? ==> state.driver == Finishing(o) && state.db.operations[o].embyUserId == user
      ensures admitted ==> user.Some?
    {
      hide Healthy, Next, Run, OnlyOperation, DriverFor, Obtains, DriveCalls;
      ghost var operation := state.db.operations[o];
      steps, calls, admitted := [], [], false;
      RunNothing(state);
      HealthyOperation(state, o);
      CheckpointsOnly(state.db, o, "", now);
      user := store.operations[o].embyUserId;
      if user.None? {
        user, calls, steps := CheckpointUser(o, now);
        if user.None? {
          NobodyAdmitted(operation, calls);
          return;
        }
      }
      ghost var obtained := calls;
      admitted := emby.RestrictUserMediaFeatures(user.value);
      calls := calls + [Restricted(user.value, admitted)];
      UserAnswered(operation, obtained, user, admitted);
    }

    method Finish(o: nat, now: int) returns (r: Result<Account>)
      requires Valid() && state.driver == Finishing(o)
      modifies this`state, store
      ensures Valid() && state == Next(old(state), OfSaga(SagaAction.Finish(now))) && state.driver.NoDriver? && state.worker == old(state).worker
      ensures Tx(state.db, r) == T.CompleteAccountCreateOperation(old(state).db, o, now)
    {
      hide Healthy, Next, Run, T.CompleteAccountCreateOperation;
      r := store.CompleteAccountCreateOperation(o, now);
      StepDoes(state, OfSaga(SagaAction.Finish(now)));
      Take(OfSaga(SagaAction.Finish(now)));
    }

    /** Drives one operation as far as it gets, under the mutex. With an account in hand the operation is
        completed and the account is its account, born of its request; without one no account has changed. An
        incomplete operation is completed exactly when Emby answers every call of the drive and nobody has
        its user or its name; a user that was obtained is stored either way. */
    method ProvisionAccountCreate(o: nat, now: int)
      returns (r: Result<Account>, ghost calls: seq<Call>, ghost user: Option<string>, ghost admitted: bool, ghost steps: seq<Step>)
      requires Valid() && state.driver.NoDriver?
      modifies this`state, store, emby
      ensures Valid() && state == Run(old(state), steps) && state.driver.NoDriver? && state.worker == old(state).worker
      ensures AllOfSaga(steps) && if o in old(state).db.operations then IsDrive(steps, o) else steps == []
      ensures emby.log == old(emby.log) + calls
      ensures r.Success? ==> ProvisionedBy(old(state).db, state.db, o, r.value)
      ensures OperationAt(old(state).db.operations, o, Completed) ==> r.Success? && calls == []
      ensures r.Failure? ==> o in old(state).db.operations ==> OnlyOperation(old(state).db, state.db, o)
      ensures o !in old(state).db.operations ==> state == old(state) && r == Failure(NotFound) && calls == []
      ensures o in old(state).db.operations && old(state).db.operations[o].status != Completed ==>
        DriveEnds(old(state).db, state.db, o, calls, user, admitted, r, now)
    {
      hide Healthy, Next, Run, OnlyOperation, DriverFor, T.CompleteAccountCreateOperation, ProvisionedBy, WithinDrive, IsDrive, AllOfSaga,
        DriveEnds, DriveCalls, Sound;
      steps, calls, user, admitted := [], [], None, false;
      RunNothing(state);
      NothingDriven(steps);
      if o !in store.operations {
        r := Failure(NotFound);
        return;
      }
      var operation := store.operations[o];
      HealthyOperation(state, o);
      CheckpointsOnly(state.db, o, "", now);
      DriveDoes(state, o);
      Take(OfSaga(Drive(o)));
      steps := [OfSaga(Drive(o))];
      RunSingle(old(state), steps[0]);
      DriveBegun(o, []);
      if operation.status != Completed {
        var obtained, ok; ghost var taken;
        obtained, ok, calls, taken := Admit(o, now);
        user, admitted := obtained, ok;
        RunAppend(old(state), steps, taken);
        DriveBegun(o, taken);
        steps := steps + taken;
        if !ok {
          DriveGoesOn(steps, o, OfSaga(DriverCrash));
          r, steps := Abandon(old(state), steps, RemoteFailure);
          NotAdmitted(old(state).db, state.db, o, calls, user, r, now);
          return;
        }
      }
      ghost var ready := state;
      HealthyFacts(ready);
      r := Finish(o, now);
      RunSnoc(old(state), steps, OfSaga(SagaAction.Finish(now)));
      DriveGoesOn(steps, o, OfSaga(SagaAction.Finish(now)));
      steps := steps + [OfSaga(SagaAction.Finish(now))];
      FinishAnswers(old(state).db, ready.db, o, now);
      if operation.status != Completed {
        FinishEnds(old(state).db, ready.db, o, calls, user, now);
      }
    }

    predicate InvalidKey(key: string) {
      TrimSpace(key) == "" || |TrimSpace(key)| > 255
    }

    predicate InvalidCredentials(username: string, password: string) {
      TrimSpace(username) == "" || |password| < 8
    }

    /** The fingerprint and the sealed password come from the vault. A key that is new stores the request; the
        account has the given name, expiry and note. A key that is known moves its operation on. */
    method CreateIdempotent(key: string, username: string, password: string, expiresAt: int, note: string, fingerprint: string,
                            sealed: string, now: int)
      returns (r: Result<Account>, ghost calls: seq<Call>, ghost user: Option<string>, ghost admitted: bool, ghost steps: seq<Step>)
      requires Valid() && state.driver.NoDriver?
      modifies this`state, store, emby
      ensures Valid() && state == Run(old(state), steps) && AllOfSaga(steps) && state.driver.NoDriver? && emby.log == old(emby.log) + calls
      ensures if InvalidKey(key) || InvalidCredentials(username, password) || expiresAt == ZERO_TIME
        then state == old(state) && r == Failure(InvalidRequest)
        else AnswersRequest(old(state).db, state.db, AccountCreate, TrimSpace(key), fingerprint, r)
      ensures !InvalidKey(key) && !InvalidCredentials(username, password) && expiresAt != ZERO_TIME ==>
        forall o :: o in old(state).db.operations && Asked(old(state).db.operations[o], AccountCreate, TrimSpace(key)) ==>
          DriveResumes(old(state).db, state.db, o, fingerprint, calls, user, admitted, r, now)
      ensures !InvalidKey(key) && !InvalidCredentials(username, password) && expiresAt != ZERO_TIME && KeyIsNew(old(state).db, AccountCreate, TrimSpace(key)) ==>
        if NameTaken(old(state).db.accounts, TrimSpace(username)) then r == Failure(AccountAlreadyExists) && state.db == old(state).db && calls == []
        else
          && FirstAttempt(old(state).db.accounts, TrimSpace(username), calls, user, admitted, r)
          && FirstAnswer(old(state).db, state.db, r, TrimSpace(username), expiresAt, TrimSpace(note), now)
          && StoredAs(state.db, old(state).db.nextOperation, AccountCreate, TrimSpace(key), fingerprint, TrimSpace(username), sealed,
               expiresAt, TrimSpace(note))
    {
      hide Healthy, Next, Run, Sound, T.BeginAccountCreateOperation, ProvisionedBy, OnlyOperation, AnswersRequest, Asked, Begun, TrimSpace,
        DriveEnds, FirstAttempt, FirstAnswer, NameTaken, DriveResumes, AccountsSound, JobsSound, InvitesSound, OperationsSound, OrdersSound;
      steps, calls, user, admitted := [], [], None, false;
      RunNothing(state);
      if TrimSpace(key) == "" || |TrimSpace(key)| > 255 || TrimSpace(username) == "" || |password| < 8 || expiresAt == ZERO_TIME {
        r := Failure(InvalidRequest);
        return;
      }
      var input := T.OperationInput(AccountCreate, TrimSpace(key), fingerprint, TrimSpace(username), sealed, expiresAt, TrimSpace(note), now);
      HealthyFacts(state);
      var begun := store.BeginAccountCreateOperation(input);
      CreateBegun(state.db, input);
      if KeyIsNew(state.db, AccountCreate, TrimSpace(key)) {
        CreateStores(state.db, input);
      }
      StepDoes(state, OfSaga(BeginCreate(input)));
      Take(OfSaga(BeginCreate(input)));
      steps := [OfSaga(BeginCreate(input))];
      RunSingle(old(state), steps[0]);
      ghost var tx := Tx(state.db, begun);
      if begun.Failure? {
        r := Failure(begun.error);
      } else {
        BegunIsThere(old(state).db, input, tx);
        ghost var taken;
        r, calls, user, admitted, taken := ProvisionAccountCreate(begun.value.id, now);
        RunAppend(old(state), steps, taken);
        steps := steps + taken;
        if KeyIsNew(old(state).db, AccountCreate, TrimSpace(key)) {
          FirstRequest(old(state).db, tx.db, state.db, begun.value.id, calls, user, admitted, r, now);
        }
      }
      ProvisionAnswers(old(state).db, tx, state.db, input, r);
      ProvisionResumes(old(state).db, tx, state.db, input, calls, user, admitted, r, now);
    }

    /** The registration reserves one use of the invite together with its operation; the account lives for
        the minutes that the invite gives. */
    method RegisterIdempotent(key: string, codeHash: string, username: string, password: string, fingerprint: string, sealed: string, now: int)
      returns (r: Result<Account>, ghost invite: nat, ghost calls: seq<Call>, ghost user: Option<string>, ghost admitted: bool, ghost steps: seq<Step>)
      requires Valid() && state.driver.NoDriver?
      modifies this`state, store, emby
      ensures Valid() && state == Run(old(state), steps) && AllOfSaga(steps) && state.driver.NoDriver? && emby.log == old(emby.log) + calls
      ensures if InvalidKey(key) || InvalidCredentials(username, password)
        then state == old(state) && r == Failure(InvalidRequest)
        else AnswersRequest(old(state).db, state.db, Register, TrimSpace(key), fingerprint, r)
      ensures !InvalidKey(key) && !InvalidCredentials(username, password) ==>
        forall o :: o in old(state).db.operations && Asked(old(state).db.operations[o], Register, TrimSpace(key)) ==>
          DriveResumes(old(state).db, state.db, o, fingerprint, calls, user, admitted, r, now)
      ensures !InvalidKey(key) && !InvalidCredentials(username, password) && KeyIsNew(old(state).db, Register, TrimSpace(key)) ==>
        if NameTaken(old(state).db.accounts, TrimSpace(username)) then r == Failure(AccountAlreadyExists) && state.db == old(state).db && calls == []
        else if NoneUsable(old(state).db.invites, codeHash, now) then r == Failure(InviteNotRedeemable) && state.db == old(state).db && calls == []
        else
          && invite in old(state).db.invites && Usable(old(state).db.invites[invite], codeHash, now)
          && OneUseMore(old(state).db.invites, state.db.invites, invite)
          && FirstAttempt(old(state).db.accounts, TrimSpace(username), calls, user, admitted, r)
          && var given := old(state).db.invites[invite];
             && FirstAnswer(old(state).db, state.db, r, TrimSpace(username), now + 60 * SECOND * given.durationMinutes, "", now)
             && StoredAs(state.db, old(state).db.nextOperation, Register, TrimSpace(key), fingerprint, TrimSpace(username), sealed,
                  now + 60 * SECOND * given.durationMinutes, "")
             && (r.Success? ==> state.db.redemptions == old(state).db.redemptions[old(state).db.nextRedemption :=
                  Redemption(invite, r.value.id, Registration, given.durationDays, given.durationMinutes, now)])
    {
      hide Healthy, Next, Run, Sound, T.BeginRegistrationOperation, ProvisionedBy, OnlyOperation, AnswersRequest, Asked, Begun, TrimSpace,
        DriveEnds, FirstAttempt, FirstAnswer, NameTaken, DriveResumes, NoneUsable, Usable, OneUseMore, RedemptionsAfter,
        StoredAs, AccountsSound, JobsSound, InvitesSound, OperationsSound, OrdersSound;
      steps, calls, user, admitted, invite := [], [], None, false, 0;
      RunNothing(state);
      if TrimSpace(key) == "" || |TrimSpace(key)| > 255 || TrimSpace(username) == "" || |password| < 8 {
        r := Failure(InvalidRequest);
        return;
      }
      var input := T.OperationInput(Register, TrimSpace(key), fingerprint, TrimSpace(username), sealed, ZERO_TIME, "", now);
      HealthyFacts(state);
      var begun := store.BeginRegistrationOperation(input, codeHash);
      RegistrationBegun(state.db, input, codeHash);
      if KeyIsNew(state.db, Register, TrimSpace(key)) {
        invite := RegistrationStores(state.db, input, codeHash);
      }
      StepDoes(state, OfSaga(BeginRegister(input, codeHash)));
      Take(OfSaga(BeginRegister(input, codeHash)));
      steps := [OfSaga(BeginRegister(input, codeHash))];
      RunSingle(old(state), steps[0]);
      ghost var tx := Tx(state.db, begun);
      if begun.Failure? {
        r := Failure(begun.error);
      } else {
        BegunIsThere(old(state).db, input, tx);
        ghost var taken;
        r, calls, user, admitted, taken := ProvisionAccountCreate(begun.value.id, now);
        RunAppend(old(state), steps, taken);
        steps := steps + taken;
        if KeyIsNew(old(state).db, Register, TrimSpace(key)) {
          FirstRequest(old(state).db, tx.db, state.db, begun.value.id, calls, user, admitted, r, now);
          if r.Success? {
            RedeemedOnce(tx.db, begun.value, r.value, now);
          }
        }
      }
      ProvisionAnswers(old(state).db, tx, state.db, input, r);
      ProvisionResumes(old(state).db, tx, state.db, input, calls, user, admitted, r, now);
    }

    method DriveAll(operations: seq<Operation>, now: int, ghost listed: seq<nat>)
      returns (firstError: Option<Error>, ghost drives: seq<DriveTalk>, ghost steps: seq<Step>)
      requires Valid() && state.driver.NoDriver? && listed == OperationIds(operations)
      requires forall i, j :: 0 <= i < j < |listed| ==> listed[i] != listed[j]
      requires forall i :: 0 <= i < |listed| ==> listed[i] in state.db.operations && state.db.operations[listed[i]].status != Completed
      modifies this`state, store, emby
      ensures Valid() && state == Run(old(state), steps) && AllOfSaga(steps) && state.driver.NoDriver?
      ensures Driven(steps) == listed && emby.log == old(emby.log) + AllCalls(drives) && |drives| == |listed|
      ensures AllTalked(old(state).db.operations, state.db, listed, drives)
      ensures firstError.None? <==> CompletedUntil(state.db.operations, listed, |listed|)
    {
      hide Healthy, Next, Run, OnlyOperation, ProvisionedBy, Driven, IsDrive, AllOfSaga, OperationAt, DriveEnds, Talked, AllCalls, AllTalked;
      firstError, steps, drives := None, [], [];
      RunNothing(state);
      NothingDriven(steps);
      NobodyCalled();
      NobodyTalked(state.db.operations, state.db, listed);
      for i := 0 to |operations|
        invariant Valid() && state == Run(old(state), steps) && AllOfSaga(steps) && state.driver.NoDriver?
        invariant Driven(steps) == listed[..i] && |drives| == i && state.db.operations.Keys == old(state).db.operations.Keys
        invariant Untouched(old(state).db.operations, state.db.operations, listed, i)
        invariant emby.log == old(emby.log) + AllCalls(drives)
        invariant AllTalked(old(state).db.operations, state.db, listed, drives)
        invariant firstError.None? <==> CompletedUntil(state.db.operations, listed, i)
      {
        ghost var before := state.db;
        var r; ghost var taken; ghost var calls; ghost var user; ghost var admitted;
        r, calls, user, admitted, taken := ProvisionAccountCreate(operations[i].id, now);
        DroveNext(old(state).db.operations, before, state.db, listed, i, r);
        DroveTalk(before, state.db, listed[i], calls, user, admitted, r, now);
        OneTalkMore(drives, DriveTalk(calls, user, admitted));
        AllTalkedMore(old(state).db.operations, before, state.db, listed, drives, DriveTalk(calls, user, admitted), r);
        RunAppend(old(state), steps, taken);
        DriveMore(steps, listed[i], taken);
        steps, drives := steps + taken, drives + [DriveTalk(calls, user, admitted)];
        if r.Failure? && firstError.None? {
          firstError := Some(r.error);
        }
      }
      assert listed[..|operations|] == listed;
    }

    /** Drives the hundred incomplete operations whose last change is longest ago, each once and in that
        order, whether or not one before it failed. An operation that Emby answered for is completed unless
        somebody has its user or its name; there is no error exactly when all of them are completed. */
    method RecoverAccountCreates(now: int)
      returns (firstError: Option<Error>, ghost listed: seq<nat>, ghost drives: seq<DriveTalk>, ghost steps: seq<Step>)
      requires Valid() && state.driver.NoDriver?
      modifies this`state, store, emby
      ensures Valid() && state == Run(old(state), steps) && AllOfSaga(steps) && state.driver.NoDriver?
      ensures OldestIncomplete(old(store.operations), listed) && Driven(steps) == listed
      ensures emby.log == old(emby.log) + AllCalls(drives) && |drives| == |listed|
      ensures AllTalked(old(state).db.operations, state.db, listed, drives)
      ensures firstError.None? <==> forall i :: 0 <= i < |listed| ==> OperationAt(state.db.operations, listed[i], Completed)
    {
      hide Healthy, Next, Run, IsListing, OperationsSound, Sound, Driven, AllOfSaga, IncompleteStamps, OperationAt, AllCalls, AllTalked,
        OldestIncomplete, AccountsSound, JobsSound, InvitesSound, OrdersSound;
      HealthyFacts(state);
      var operations := store.ListIncompleteAccountCreateOperations(100);
      listed := OperationIds(operations);
      IncompleteListed(store.operations, listed);
      ListedAreOldest(store.operations, listed);
      firstError, drives, steps := DriveAll(operations, now, listed);
    }

    // The user made for a direct creation belongs to no operation.
    method CreateForeignUser(username: string) returns (id: Option<string>, ghost steps: seq<Step>)
      requires Valid()
      modifies this`state, emby
      ensures Valid() && state == Run(old(state), steps)
      ensures state.db == old(state).db && state.books.held == old(state).books.held && (id.Some? ==> id.value in state.usedIds)
      ensures id.Some? ==> id.value !in old(emby.usedIds) && emby.users == old(emby.users)[id.value := EmbyUser(username, false, false, None)]
      ensures emby.log == old(emby.log) + [Created(username, id)]
    {
      hide Healthy, Next, Run;
      ghost var made;
      id, made := emby.CreateUser(username, None);
      steps := [];
      RunNothing(state);
      if made.Some? {
        StepDoes(state, OfOthers(ForeignUser(made.value, username, false)));
        Take(OfOthers(ForeignUser(made.value, username, false)));
        RunSingle(old(state), OfOthers(ForeignUser(made.value, username, false)));
        steps := [OfOthers(ForeignUser(made.value, username, false))];
      }
    }

    method DropForeignUser(id: string) returns (ghost call: Call, ghost steps: seq<Step>)
      requires Valid()
      modifies this`state, emby`users, emby`log
      ensures Valid() && state == Run(old(state), steps)
      ensures state.db == old(state).db && state.books.held == old(state).books.held
      ensures emby.log == old(emby.log) + [call] && call.Deleted? && call.userId == id
    {
      hide Healthy, Next, Run;
      var deleted; ghost var effect;
      deleted, effect := emby.DeleteUser(id);
      call := Deleted(id, deleted);
      steps := [];
      RunNothing(state);
      if effect {
        StepDoes(state, OfOthers(ForeignDelete(id)));
        Take(OfOthers(ForeignDelete(id)));
        RunSingle(old(state), OfOthers(ForeignDelete(id)));
        steps := [OfOthers(ForeignDelete(id))];
      }
    }

    method InsertDirectly(account: Account) returns (r: Result<Account>)
      requires Valid() && account.embyUserId in state.usedIds
      modifies this`state, store
      ensures Valid() && state == Next(old(state), OfAccounts(AccountAction.InsertDirectly(account)))
      ensures Tx(state.db, r) == T.CreateAccount(old(state).db, account) && state.books.held == old(state).books.held
      ensures r.Success? ==> r.value in state.readAccounts
      ensures r.Failure? ==> state.db == old(state).db
    {
      hide Healthy, Next, Run, T.CreateAccount;
      r := store.CreateAccount(account);
      InsertedAccount(state.db, account);
      StepDoes(state, OfAccounts(AccountAction.InsertDirectly(account)));
      Take(OfAccounts(AccountAction.InsertDirectly(account)));
    }

    method QueueDirectly(account: Account, now: int) returns (r: Result<Account>)
      requires Valid() && account in state.readAccounts
      modifies this`state, store
      ensures Valid() && state == Next(old(state), OfAccounts(AccountAction.QueueDirectly(account, now)))
      ensures Tx(state.db, r) == T.SetAccountStatus(old(state).db, account, account.status, account.disabledAt, now)
      ensures state.books.held == old(state).books.held
    {
      hide Healthy, Next, Run, T.SetAccountStatus;
      r := store.SetAccountStatus(account, account.status, account.disabledAt, now);
      StepDoes(state, OfAccounts(AccountAction.QueueDirectly(account, now)));
      Take(OfAccounts(AccountAction.QueueDirectly(account, now)));
    }

    /** The two transactions that store a directly created account. */
    method StoreDirectly(account: Account, now: int) returns (r: Result<Account>, ghost steps: seq<Step>)
      requires Valid() && account.embyUserId in state.usedIds
      modifies this`state, store
      ensures Valid() && state == Run(old(state), steps)
      ensures r.Success? <==> Available(old(state).db.accounts, account.embyUserId, account.username)
      ensures r.Failure? ==> r.error == ConstraintViolation
      ensures OnlyAccounts(old(state).db, state.db) && state.books.held == old(state).books.held
      ensures r.Failure? ==> state.db == old(state).db
      ensures r.Success? ==> CreatedDirectly(old(state).db, state.db, r.value, now)
      ensures r.Success? ==> r.value == account.(id := old(state).db.nextAccount, version := if account.status == Active then 1 else 2,
        updatedAt := if account.status == Active then account.updatedAt else now)
    {
      hide Healthy, Next, Run, T.CreateAccount, T.SetAccountStatus, Sound, Available;
      HealthyFacts(state);
      NoJobYet(state.db);
      InsertedAccount(state.db, account);
      r := InsertDirectly(account);
      steps := [OfAccounts(AccountAction.InsertDirectly(account))];
      RunSingle(old(state), steps[0]);
      if r.Success? && r.value.status != Active {
        var inserted := r.value;
        QueuedAccount(state.db, inserted, now);
        r := QueueDirectly(inserted, now);
        RunSnoc(old(state), steps, OfAccounts(AccountAction.QueueDirectly(inserted, now)));
        steps := steps + [OfAccounts(AccountAction.QueueDirectly(inserted, now))];
      }
    }

    /** Direct creation: one row under the trimmed name for a new, enabled Emby user, with a disabling job
        when its period is over already. It succeeds exactly when Emby made and restricted the user and nobody
        has its name; a user that could not be restricted is deleted; after a failure no table has changed. */
    method Create(username: string, password: string, expiresAt: int, note: string, now: int)
      returns (r: Result<Account>, ghost calls: seq<Call>, ghost user: Option<string>, ghost admitted: bool, ghost steps: seq<Step>)
      requires Valid()
      modifies this`state, store, emby
      ensures Valid() && state == Run(old(state), steps) && emby.log == old(emby.log) + calls
      ensures InvalidCredentials(username, password) || expiresAt == ZERO_TIME ==> r == Failure(InvalidRequest) && state == old(state) && calls == []
      ensures !InvalidCredentials(username, password) && expiresAt != ZERO_TIME ==>
        DirectAttempt(old(state).db.accounts, TrimSpace(username), calls, user, admitted, r)
      ensures OnlyAccounts(old(state).db, state.db) && state.books.held == old(state).books.held
      ensures r.Failure? ==> state.db == old(state).db
      ensures r.Success? ==> CreatedDirectly(old(state).db, state.db, r.value, now)
      ensures r.Success? ==> r.value == DirectAccount(old(state).db.nextAccount, r.value.embyUserId, TrimSpace(username), expiresAt, TrimSpace(note), now)
      ensures r.Success? ==> r.value.embyUserId !in old(emby.usedIds)
      ensures r.Success? ==> emby.users == old(emby.users)[r.value.embyUserId := EmbyUser(TrimSpace(username), false, false, None)]
    {
      hide Healthy, Next, Run, TrimSpace, CreatedDirectly, Available;
      steps, calls, user, admitted := [], [], None, false;
      RunNothing(state);
      if TrimSpace(username) == "" || |password| < 8 || expiresAt == ZERO_TIME {
        r := Failure(InvalidRequest);
        return;
      }
      var made;
      made, steps := CreateForeignUser(TrimSpace(username));
      user, calls := made, [Created(TrimSpace(username), made)];
      if made.None? {
        r := Failure(RemoteFailure);
        return;
      }
      var restricted := emby.RestrictUserMediaFeatures(made.value);
      admitted, calls := restricted, calls + [Restricted(made.value, restricted)];
      ghost var taken;
      if !restricted {
        ghost var dropped;
        dropped, taken := DropForeignUser(made.value);
        RunAppend(old(state), steps, taken);
        r, steps, calls := Failure(RemoteFailure), steps + taken, calls + [dropped];
        return;
      }
      var expired := expiresAt <= now;
      r, taken := StoreDirectly(Account(0, 0, made.value, TrimSpace(username), if expired then Expired else Active, expiresAt,
        TrimSpace(note), now, now, if expired then Some(now) else None), now);
      RunAppend(old(state), steps, taken);
      steps := steps + taken;
    }

    // ----- invites/service.go -----

    method TakeUse(codeHash: string, now: int) returns (r: Result<Invite>)
      requires Valid()
      modifies this`state, store
      ensures Valid() && state == Next(old(state), OfInvites(Consume(codeHash, now)))
      ensures Tx(state.db, r) == T.ConsumeInvite(old(state).db, codeHash, now)
      ensures r.Success? ==> state.books.held == Plus(old(state).books.held, r.value.id, 1)
      ensures r.Failure? ==> state.db == old(state).db && state.books.held == old(state).books.held
    {
      hide Healthy, Next, Run, T.ConsumeInvite, Sound, InvitesSound;
      HealthyFacts(state);
      r := store.ConsumeInvite(codeHash, now);
      ConsumedInvite(state.db, codeHash, now);
      StepDoes(state, OfInvites(Consume(codeHash, now)));
      Take(OfInvites(Consume(codeHash, now)));
    }

    method GiveBack(id: nat)
      requires Valid() && At(state.books.held, id) > 0
      modifies this`state, store
      ensures Valid() && state == Next(old(state), OfInvites(Release(id))) && state.db == T.ReleaseInvite(old(state).db, id)
      ensures state.books.held == Plus(old(state).books.held, id, -1)
    {
      hide Healthy, Next, Run, T.ReleaseInvite;
      store.ReleaseInvite(id);
      StepDoes(state, OfInvites(Release(id)));
      Take(OfInvites(Release(id)));
    }

    method Record(redemption: Redemption) returns (r: Result<()>)
      requires Valid() && At(state.books.held, redemption.inviteId) > 0 && redemption.kind == Registration
      requires redemption.inviteId in state.db.invites && redemption.accountId in state.db.accounts
      modifies this`state, store
      ensures Valid() && state == Next(old(state), OfInvites(RecordDirectly(redemption)))
      ensures r.Success? && state.db == T.AddRedemption(old(state).db, redemption)
      ensures state.books.held == Plus(old(state).books.held, redemption.inviteId, -1)
    {
      hide Healthy, Next, Run, T.AddRedemption;
      r := store.RecordRedemption(redemption);
      StepDoes(state, OfInvites(RecordDirectly(redemption)));
      Take(OfInvites(RecordDirectly(redemption)));
    }

    /** Registration without an idempotency key. Without an invite that is open it is refused at once; a
        creation that fails gives back the use it took; an accepted one leaves its account, which lives for
        the invite's minutes, one more use of the invite and the redemption that accounts for it. Either way
        this caller holds no use any more. */
    method RegisterDirectly(codeHash: string, username: string, password: string, now: int)
      returns (r: Result<Account>, ghost i: nat, ghost calls: seq<Call>, ghost user: Option<string>, ghost admitted: bool, ghost steps: seq<Step>)
      requires Valid()
      modifies this`state, store, emby
      ensures Valid() && state == Run(old(state), steps) && emby.log == old(emby.log) + calls
      ensures forall k :: At(state.books.held, k) == At(old(state).books.held, k)
      ensures r.Failure? ==> state.db.invites == old(state).db.invites && state.db.redemptions == old(state).db.redemptions
      ensures r.Failure? ==> state.db.accounts == old(state).db.accounts
      ensures if NoneOpen(old(state).db.invites, codeHash, now) then r.Failure? && calls == []
        else
          && i in old(state).db.invites && Open(old(state).db.invites[i], codeHash, now)
          && var expiresAt := now + 60 * SECOND * old(state).db.invites[i].durationMinutes;
          && (InvalidCredentials(username, password) || expiresAt == ZERO_TIME ==> r == Failure(InvalidRequest) && calls == [])
          && (!InvalidCredentials(username, password) && expiresAt != ZERO_TIME ==>
                DirectAttempt(old(state).db.accounts, TrimSpace(username), calls, user, admitted, r))
          && (r.Success? ==>
                r.value == DirectAccount(old(state).db.nextAccount, r.value.embyUserId, TrimSpace(username), expiresAt, "", now)
                && state.db.accounts == old(state).db.accounts[r.value.id := r.value]
                && RegisteredWith(old(state).db, state.db, i, r.value.id, now))
    {
      hide Healthy, Next, Run, T.ConsumeInvite, T.ReleaseInvite, T.UseInvite, T.AddRedemption, T.FindInviteByHash, OnlyAccounts, RegisteredWith,
        DirectAccount, TrimSpace, Sound, AccountsSound, JobsSound, OperationsSound, OrdersSound, InvitesSound, NoneOpen, Open, DirectAttempt,
        InvalidCredentials;
      ConsumedInvite(state.db, codeHash, now);
      HealthyFacts(state);
      calls, user, admitted := [], None, false;
      i := OpenInvite(state.db, codeHash, now);
      HeldNotNegative(state, i);
      var taken := TakeUse(codeHash, now);
      steps := [OfInvites(Consume(codeHash, now))];
      RunSingle(old(state), steps[0]);
      if taken.Failure? {
        r := Failure(taken.error);
        return;
      }
      var invite := taken.value;
      ghost var consumed := state;
      UsedInviteId(consumed, old(state).db.invites, i);
      ghost var creating;
      BlankNote();
      r, calls, user, admitted, creating := Create(username, password, now + Minutes(invite.durationMinutes), "", now);
      RunAppend(old(state), steps, creating);
      steps := steps + creating;
      OnlyAccountsKeeps(consumed.db, state.db);
      if r.Failure? {
        ReleaseUndoesConsume(state, old(state).db.invites, invite.id);
        GiveBack(invite.id);
        RunSnoc(old(state), steps, OfInvites(Release(invite.id)));
        steps := steps + [OfInvites(Release(invite.id))];
        return;
      }
      var redemption := Redemption(invite.id, r.value.id, Registration, invite.durationDays, invite.durationMinutes, now);
      ghost var before := state.db;
      var recorded := Record(redemption);
      RunSnoc(old(state), steps, OfInvites(RecordDirectly(redemption)));
      steps := steps + [OfInvites(RecordDirectly(redemption))];
      RecordedRegistration(old(state).db, before, i, redemption, now);
    }
  }

  /** An installation begins with an empty store and an Emby server without users. */
  method Launch() returns (p: Process)
    ensures fresh(p) && fresh(p.store) && fresh(p.emby) && p.Valid() && p.state == Start
  {
    HealthyStart();
    hide Healthy;
    var store := new Store();
    var emby := new Emby();
    p := new Process(store, emby, Start);
  }
}
