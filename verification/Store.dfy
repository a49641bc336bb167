/** The SQLite adapter as an object. Its tables are fields; a method runs one statement or transaction,
    step by step, and puts the tables back when it is refused. Every method is proved to do exactly what
    the function of the same name in Transactions.dfy says. */
module Persistence {
  import opened Domain
  import opened Timestamps
  import opened TableInvariants
  import opened AccessQueue
  import opened Listing
  import T = Transactions

  /** A row of the join that the worker reads: the queued job with its account's Emby user. */
  datatype JobRow = JobRow(accountId: nat, embyUserId: string, desiredDisabled: bool, revision: nat)

  /** The attempt to record a call of the worker, and whether the database stored it. */
  datatype Write = Write(accountId: nat, ok: bool)

  function AccountsOf(rows: seq<JobRow>): seq<nat> {
    seq(|rows|, i requires 0 <= i < |rows| => rows[i].accountId)
  }

  function OperationIds(listed: seq<Operation>): seq<nat> {
    seq(|listed|, i requires 0 <= i < |listed| => listed[i].id)
  }

  function OrderIds(listed: seq<Order>): seq<nat> {
    seq(|listed|, i requires 0 <= i < |listed| => listed[i].id)
  }

  // WHERE status <> 'completed'
  function IncompleteStamps(operations: map<nat, Operation>): map<nat, int> {
    map o | o in operations && operations[o].status != Completed :: operations[o].updatedAt
  }

  predicate IsPending(order: Order) {
    order.paymentStatus == PaymentPending && order.fulfillment == FulfillmentPending
  }

  // WHERE payment_status = 'pending' AND fulfillment_status = 'pending'
  function PendingStamps(orders: map<nat, Order>): map<nat, int> {
    map o | o in orders && IsPending(orders[o]) :: orders[o].updatedAt
  }

  lemma PendingRows(orders: map<nat, Order>, next: nat, limit: nat, ids: seq<nat>)
    requires OrdersSound(orders, next) && IsListing(PendingStamps(orders), limit, ids)
    ensures forall k :: 0 <= k < |ids| ==> ids[k] in orders && orders[ids[k]].id == ids[k]
  {
  }

  lemma IncompleteRows(operations: map<nat, Operation>, next: nat, limit: nat, ids: seq<nat>)
    requires OperationsSound(operations, next) && IsListing(IncompleteStamps(operations), limit, ids)
    ensures forall k :: 0 <= k < |ids| ==> ids[k] in operations && operations[ids[k]].id == ids[k]
  {
  }

  /** The account's own expiry moves; an expired account whose new expiry lies ahead is active again, with its
      enabling queued, and any other status stays. */
  ghost predicate Extends(accounts: map<nat, Account>, jobs: map<nat, Job>, accounts': map<nat, Account>, jobs': map<nat, Job>, id: nat,
                          minutes: int, now: int) {
    && id in accounts && id in accounts' && accounts'[id].expiresAt == accounts[id].expiresAt + 60 * SECOND * minutes
    && if accounts[id].status == Expired && now < accounts'[id].expiresAt
       then accounts'[id].status == Active && accounts'[id].disabledAt == None && id in jobs' && !jobs'[id].desiredDisabled
       else accounts'[id].status == accounts[id].status && accounts'[id].disabledAt == accounts[id].disabledAt && jobs' == jobs
  }

  lemma ProvisionedAs(operation: Operation, account: Account, id: nat, now: int)
    requires operation.embyUserId.Some?
    requires account == Account(id, 1, operation.embyUserId.value, operation.username, if operation.expiresAt <= now then Expired else Active,
      operation.expiresAt, operation.note, now, now, if operation.expiresAt <= now then Some(now) else None)
    ensures account == T.ProvisionedAccount(operation, id, now)
  {
  }

  lemma ProvisionedNames(operation: Operation, id: nat, now: int)
    requires operation.embyUserId.Some?
    ensures var account := T.ProvisionedAccount(operation, id, now);
      account.id == id && account.createdAt == now && account.embyUserId == operation.embyUserId.value && account.username == operation.username
  {
  }

  lemma PaidAs(order: Order, input: T.PaymentInput, inviteId: Option<nat>, event: Event, paid: Order)
    requires event == Event(order.id, if input.eventType == "" then "order.paid" else input.eventType, input.amountFen, input.currency,
      input.payloadHash, input.now)
    requires paid == order.(paymentStatus := Paid, providerStatus := "PAID", providerPaymentKey := input.providerPaymentKey,
      paidAt := Some(input.paidAt), failureReason := "", updatedAt := input.now, fulfillment := Fulfilled, inviteId := inviteId)
    ensures event == T.PaidEvent(order, input) && paid == T.PaidOrder(order, input, inviteId)
  {
  }

  class Store {
    var accounts: map<nat, Account>
    var jobs: map<nat, Job>
    var operations: map<nat, Operation>
    var invites: map<nat, Invite>
    var redemptions: map<nat, Redemption>
    var orders: map<nat, Order>
    var events: map<string, Event>
    var nextAccount: nat
    var nextOperation: nat
    var nextInvite: nat
    var nextRedemption: nat
    var nextOrder: nat
    ghost var writes: seq<Write>

    function Contents(): Db
      reads this
    {
      Db(accounts, jobs, operations, invites, redemptions, orders, events, nextAccount, nextOperation, nextInvite, nextRedemption, nextOrder)
    }

    constructor ()
      ensures Contents() == EmptyDb && writes == []
    {
      accounts, jobs, operations, invites, redemptions, orders, events := map[], map[], map[], map[], map[], map[], map[];
      nextAccount, nextOperation, nextInvite, nextRedemption, nextOrder := 1, 1, 1, 1, 1;
      writes := [];
    }

    method Rollback(saved: Db)
      modifies this
      ensures Contents() == saved
    {
      accounts, jobs, operations, invites := saved.accounts, saved.jobs, saved.operations, saved.invites;
      redemptions, orders, events := saved.redemptions, saved.orders, saved.events;
      nextAccount, nextOperation, nextInvite := saved.nextAccount, saved.nextOperation, saved.nextInvite;
      nextRedemption, nextOrder := saved.nextRedemption, saved.nextOrder;
    }

    // ----- SELECT by a unique column -----

    method SelectAccountByUsername(username: string) returns (r: Option<nat>)
      requires AccountsSound(accounts, nextAccount)
      ensures r == T.FindAccountByUsername(accounts, username)
    {
      if id :| id in accounts && SameName(accounts[id].username, username) {
        r := Some(id);
      } else {
        r := None;
      }
    }

    method SelectInviteByHash(codeHash: string) returns (r: Option<nat>)
      requires InvitesSound(invites, nextInvite)
      ensures r == T.FindInviteByHash(invites, codeHash)
    {
      if id :| id in invites && invites[id].codeHash == codeHash {
        r := Some(id);
      } else {
        r := None;
      }
    }

    method SelectOperationByKey(kind: OperationKind, key: string) returns (r: Option<nat>)
      requires OperationsSound(operations, nextOperation)
      ensures r == T.FindOperationByKey(operations, kind, key)
    {
      if id :| id in operations && operations[id].kind == kind && operations[id].key == key {
        r := Some(id);
      } else {
        r := None;
      }
    }

    // ----- sqlite.go and sync.go -----

    method UpsertAccessSyncJob(accountId: nat, desiredDisabled: bool, now: int)
      modifies `jobs
      ensures jobs == T.UpsertAccessSyncJob(old(jobs), accountId, desiredDisabled, now)
    {
      if accountId in jobs {
        var job := jobs[accountId];
        jobs := jobs[accountId := job.(desiredDisabled := desiredDisabled, revision := job.revision + 1, attempts := 0,
                                       lastError := "", updatedAt := now)];
      } else {
        jobs := jobs[accountId := Job(desiredDisabled, 1, 0, "", now, now)];
      }
    }

    /** Either record of a call may fail to be stored. */
    method CompleteAccessSync(accountId: nat, revision: nat) returns (ok: bool)
      modifies `jobs, `writes
      ensures writes == old(writes) + [Write(accountId, ok)]
      ensures jobs == if ok then T.CompleteAccessSync(old(jobs), accountId, revision) else old(jobs)
    {
      ok := *;
      writes := writes + [Write(accountId, ok)];
      if ok && accountId in jobs && jobs[accountId].revision == revision {
        jobs := jobs - {accountId};
      }
    }

    method FailAccessSync(accountId: nat, revision: nat, message: string, now: int) returns (ok: bool)
      modifies `jobs, `writes
      ensures writes == old(writes) + [Write(accountId, ok)]
      ensures jobs == if ok then T.FailAccessSync(old(jobs), accountId, revision, message, now) else old(jobs)
    {
      ok := *;
      writes := writes + [Write(accountId, ok)];
      if ok && accountId in jobs && jobs[accountId].revision == revision {
        var job := jobs[accountId];
        jobs := jobs[accountId := job.(attempts := job.attempts + 1, lastError := message, updatedAt := now)];
      }
    }

    function RowOf(a: nat): JobRow
      requires a in accounts && a in jobs
      reads this
    {
      JobRow(a, accounts[a].embyUserId, jobs[a].desiredDisabled, jobs[a].revision)
    }

    /** The first `limit` jobs of the queue in order, each with its account's Emby user. */
    method ListAccessSyncJobs(limit: int) returns (rows: seq<JobRow>)
      requires JobsSound(jobs, accounts)
      ensures IsBatch(jobs, if limit < 1 then 0 else limit, AccountsOf(rows))
      ensures forall i :: 0 <= i < |rows| ==> rows[i].accountId in jobs && rows[i].accountId in accounts && rows[i] == RowOf(rows[i].accountId)
    {
      var ids := FirstOf(Stamps(jobs), if limit < 1 then 0 else limit);
      rows := [];
      for i := 0 to |ids|
        invariant |rows| == i && AccountsOf(rows) == ids[..i]
        invariant forall j :: 0 <= j < i ==> rows[j].accountId in jobs && rows[j].accountId in accounts && rows[j] == RowOf(rows[j].accountId)
      {
        rows := rows + [RowOf(ids[i])];
      }
      assert AccountsOf(rows) == ids;
    }

    // ----- accounts.go -----

    // The INSERT with its UNIQUE constraints, as a statement of a larger transaction.
    method InsertAccount(account: Account) returns (r: Result<Account>)
      modifies `accounts, `nextAccount
      ensures r.Success? <==> T.AccountFree(old(accounts), account.embyUserId, account.username)
      ensures r.Failure? ==> r.error == ConstraintViolation && accounts == old(accounts) && nextAccount == old(nextAccount)
      ensures r.Success? ==> r.value == account.(id := old(nextAccount), version := 1)
      ensures r.Success? ==> accounts == old(accounts)[old(nextAccount) := r.value] && nextAccount == old(nextAccount) + 1
    {
      if exists id :: id in accounts && (accounts[id].embyUserId == account.embyUserId || SameName(accounts[id].username, account.username)) {
        return Failure(ConstraintViolation);
      }
      var row := account.(id := nextAccount, version := 1);
      accounts := accounts[nextAccount := row];
      nextAccount := nextAccount + 1;
      r := Success(row);
    }

    method CreateAccount(account: Account) returns (r: Result<Account>)
      modifies this
      ensures Tx(Contents(), r) == T.CreateAccount(old(Contents()), account)
    {
      r := InsertAccount(account);
    }

    method UpdateAccount(account: Account) returns (r: Result<Account>)
      modifies this
      ensures Tx(Contents(), r) == T.UpdateAccount(old(Contents()), account)
    {
      if account.id !in accounts || accounts[account.id].version != account.version {
        return Failure(AccountVersionConflict);
      }
      var row := accounts[account.id];
      accounts := accounts[account.id := row.(expiresAt := account.expiresAt, note := account.note, updatedAt := account.updatedAt,
                                              version := row.version + 1)];
      r := Success(account.(version := account.version + 1));
    }

    method UpdateAccountAndExpire(account: Account, disabledAt: int, now: int) returns (r: Result<Account>)
      modifies this
      ensures Tx(Contents(), r) == T.UpdateAccountAndExpire(old(Contents()), account, disabledAt, now)
    {
      if account.id !in accounts || accounts[account.id].version != account.version || accounts[account.id].status != Active {
        return Failure(AccountVersionConflict);
      }
      var row := accounts[account.id];
      accounts := accounts[account.id := row.(expiresAt := account.expiresAt, note := account.note, status := Expired,
                                              disabledAt := Some(disabledAt), updatedAt := now, version := row.version + 1)];
      UpsertAccessSyncJob(account.id, true, now);
      r := Success(account.(status := Expired, disabledAt := Some(disabledAt), updatedAt := now, version := account.version + 1));
    }

    method SetAccountStatus(account: Account, status: Status, disabledAt: Option<int>, now: int) returns (r: Result<Account>)
      modifies `accounts, `jobs
      ensures Tx(Contents(), r) == T.SetAccountStatus(old(Contents()), account, status, disabledAt, now)
    {
      if account.id !in accounts || accounts[account.id].version != account.version {
        return Failure(AccountVersionConflict);
      }
      var row := accounts[account.id];
      accounts := accounts[account.id := row.(status := status, disabledAt := disabledAt, updatedAt := now, version := row.version + 1)];
      UpsertAccessSyncJob(account.id, status != Active, now);
      r := Success(account.(status := status, disabledAt := disabledAt, updatedAt := now, version := account.version + 1));
    }

    /** Exactly the active accounts whose stored expiry is not after the stored text of now. */
    method ListDueActiveAccounts(now: int) returns (due: seq<Account>)
      requires AccountsSound(accounts, nextAccount)
      ensures forall a: Account :: a in due <==> a.id in accounts && accounts[a.id] == a && T.Due(a, now)
    {
      due := [];
      var rest := accounts.Keys;
      while rest != {}
        invariant rest <= accounts.Keys
        invariant forall a: Account :: a in due <==> a.id in accounts && a.id !in rest && accounts[a.id] == a && T.Due(a, now)
        decreases |rest|
      {
        var id :| id in rest;
        if accounts[id].status == Active && !TextBefore(now, accounts[id].expiresAt) {
          due := due + [accounts[id]];
        }
        rest := rest - {id};
      }
    }

    method DeleteOperationsOf(id: nat)
      modifies `operations
      ensures operations == T.OperationsWithout(old(operations), id)
    {
      operations := map o | o in operations && operations[o].accountId != Some(id) :: operations[o];
    }

    method DeleteRedemptionsOf(id: nat)
      modifies `redemptions
      ensures redemptions == T.RedemptionsWithout(old(redemptions), id)
    {
      redemptions := map d | d in redemptions && redemptions[d].accountId != id :: redemptions[d];
    }

    // ON DELETE SET NULL of the two references an order holds.
    method ForgetAccountInOrders(id: nat)
      modifies `orders
      ensures orders == T.WithoutAccount(old(orders), id)
    {
      orders := map o | o in orders :: if orders[o].accountId == Some(id) then orders[o].(accountId := None) else orders[o];
    }

    method ForgetInviteInOrders(id: nat)
      modifies `orders
      ensures orders == T.WithoutInvite(old(orders), id)
    {
      orders := map o | o in orders :: if orders[o].inviteId == Some(id) then orders[o].(inviteId := None) else orders[o];
    }

    method DeleteAccount(id: nat) returns (r: Result<()>)
      modifies this
      ensures Tx(Contents(), r) == T.DeleteAccount(old(Contents()), id)
    {
      hide T.WithoutAccount, T.OperationsWithout, T.RedemptionsWithout;
      var saved := Contents();
      DeleteOperationsOf(id);
      DeleteRedemptionsOf(id);
      if id !in accounts {
        Rollback(saved);
        return Failure(NotFound);
      }
      accounts := accounts - {id};
      jobs := jobs - {id};
      ForgetAccountInOrders(id);
      r := Success(());
    }

    // ----- saga.go -----

    method BeginAccountCreateOperation(input: T.OperationInput) returns (r: Result<Operation>)
      requires Sound(Contents())
      modifies this
      ensures Tx(Contents(), r) == T.BeginAccountCreateOperation(old(Contents()), input)
    {
      var replay := SelectOperationByKey(input.kind, input.key);
      if replay.Some? {
        if operations[replay.value].fingerprint != input.fingerprint {
          return Failure(IdempotencyKeyConflict);
        }
        return Success(operations[replay.value]);
      }
      var existing := SelectAccountByUsername(input.username);
      if existing.Some? {
        return Failure(AccountAlreadyExists);
      }
      var operation := Operation(nextOperation, input.kind, input.key, input.fingerprint, input.username, input.passwordCiphertext,
        input.expiresAt, input.note, None, None, 0, 0, None, None, OperationStatus.Pending, input.now, input.now, None);
      operations := operations[nextOperation := operation];
      nextOperation := nextOperation + 1;
      r := Success(operation);
    }

    method BeginRegistrationOperation(input: T.OperationInput, codeHash: string) returns (r: Result<Operation>)
      requires Sound(Contents())
      modifies this
      ensures Tx(Contents(), r) == T.BeginRegistrationOperation(old(Contents()), input, codeHash)
    {
      hide AccountsSound, OperationsSound, InvitesSound, OrdersSound, JobsSound, RedemptionsSound, OperationsRefer, OrdersRefer, EventsSound;
      var replay := SelectOperationByKey(input.kind, input.key);
      if replay.Some? {
        if operations[replay.value].fingerprint != input.fingerprint {
          return Failure(IdempotencyKeyConflict);
        }
        return Success(operations[replay.value]);
      }
      var existing := SelectAccountByUsername(input.username);
      if existing.Some? {
        return Failure(AccountAlreadyExists);
      }
      var found := SelectInviteByHash(codeHash);
      if found.None? {
        return Failure(InviteNotRedeemable);
      }
      var id, invite, now := found.value, invites[found.value], input.now;
      if !invite.enabled || invite.durationMinutes < 1 || (invite.startsAt.Some? && now < invite.startsAt.value) ||
         (invite.expiresAt.Some? && now >= invite.expiresAt.value) || (invite.maxUses > 0 && invite.usedCount >= invite.maxUses) {
        return Failure(InviteNotRedeemable);
      }
      invites := invites[id := invite.(usedCount := invite.usedCount + 1)];
      var operation := Operation(nextOperation, input.kind, input.key, input.fingerprint, input.username, input.passwordCiphertext,
        now + Minutes(invite.durationMinutes), input.note, Some(codeHash), Some(id), invite.durationDays, invite.durationMinutes,
        None, None, OperationStatus.Pending, now, now, None);
      operations := operations[nextOperation := operation];
      nextOperation := nextOperation + 1;
      r := Success(operation);
    }

    method MarkAccountCreateOperationCreating(id: nat, now: int)
      modifies `operations
      ensures Contents() == T.MarkAccountCreateOperationCreating(old(Contents()), id, now)
    {
      if id in operations && operations[id].status == OperationStatus.Pending {
        operations := operations[id := operations[id].(status := Creating, updatedAt := now)];
      }
    }

    method SaveAccountCreateOperationRemote(id: nat, embyUserId: string, now: int) returns (r: Result<()>)
      modifies `operations
      ensures Tx(Contents(), r) == T.SaveAccountCreateOperationRemote(old(Contents()), id, embyUserId, now)
    {
      if id in operations && operations[id].status != Completed &&
         (operations[id].embyUserId.None? || operations[id].embyUserId == Some(embyUserId)) {
        operations := operations[id := operations[id].(embyUserId := Some(embyUserId), status := RemoteCreated, updatedAt := now)];
        return Success(());
      }
      if id !in operations {
        return Failure(NotFound);
      }
      if operations[id].embyUserId == Some(embyUserId) {
        return Success(());
      }
      r := Failure(DifferentEmbyUser);
    }

    /** The operations that recovery drives: the incomplete ones whose last change is longest ago. */
    method ListIncompleteAccountCreateOperations(limit: int) returns (listed: seq<Operation>)
      requires OperationsSound(operations, nextOperation)
      ensures IsListing(IncompleteStamps(operations), if limit < 1 then 0 else limit, OperationIds(listed))
      ensures forall i :: 0 <= i < |listed| ==> listed[i].id in operations && listed[i] == operations[listed[i].id]
    {
      hide IsListing, OperationsSound, IncompleteStamps;
      var ids := FirstOf(IncompleteStamps(operations), if limit < 1 then 0 else limit);
      IncompleteRows(operations, nextOperation, if limit < 1 then 0 else limit, ids);
      listed := [];
      for i := 0 to |ids|
        invariant |listed| == i && forall j :: 0 <= j < i ==> listed[j] == operations[ids[j]]
      {
        listed := listed + [operations[ids[i]]];
      }
      assert OperationIds(listed) == ids;
    }

    // The redemption of a finished registration.
    method InsertRegistration(operation: Operation, accountId: nat, now: int) returns (r: Result<()>)
      modifies `redemptions, `nextRedemption
      ensures r.Success? <==> operation.inviteId.Some? && operation.inviteId.value in invites
      ensures r.Failure? ==> r.error == (if operation.inviteId.None? then NoInvite else ConstraintViolation)
      ensures r.Failure? ==> redemptions == old(redemptions) && nextRedemption == old(nextRedemption)
      ensures r.Success? ==> nextRedemption == old(nextRedemption) + 1
      ensures r.Success? ==> redemptions == old(redemptions)[old(nextRedemption) :=
        Redemption(operation.inviteId.value, accountId, Registration, operation.inviteDays, operation.inviteMinutes, now)]
    {
      if operation.inviteId.None? {
        return Failure(NoInvite);
      }
      if operation.inviteId.value !in invites {
        return Failure(ConstraintViolation);
      }
      redemptions := redemptions[nextRedemption :=
        Redemption(operation.inviteId.value, accountId, Registration, operation.inviteDays, operation.inviteMinutes, now)];
      nextRedemption := nextRedemption + 1;
      r := Success(());
    }

    // The account and, for a registration, its redemption: both rows or neither.
    method InsertProvisioned(operation: Operation, now: int) returns (r: Result<Account>)
      requires operation.embyUserId.Some?
      modifies `accounts, `nextAccount, `redemptions, `nextRedemption
      ensures r.Failure? ==> accounts == old(accounts) && nextAccount == old(nextAccount)
      ensures r.Failure? || operation.kind != Register ==> redemptions == old(redemptions) && nextRedemption == old(nextRedemption)
      ensures r == (
        if !T.AccountFree(old(accounts), operation.embyUserId.value, operation.username) then Failure(ConstraintViolation)
        else if operation.kind == Register && operation.inviteId.None? then Failure(NoInvite)
        else if operation.kind == Register && operation.inviteId.value !in invites then Failure(ConstraintViolation)
        else Success(T.ProvisionedAccount(operation, old(nextAccount), now)))
      ensures r.Success? ==> accounts == old(accounts)[old(nextAccount) := r.value] && nextAccount == old(nextAccount) + 1
      ensures r.Success? && operation.kind == Register ==> nextRedemption == old(nextRedemption) + 1
      ensures r.Success? && operation.kind == Register ==> redemptions == old(redemptions)[old(nextRedemption) :=
        Redemption(operation.inviteId.value, old(nextAccount), Registration, operation.inviteDays, operation.inviteMinutes, now)]
    {
      hide T.AccountFree, T.ProvisionedAccount;
      var savedAccounts, savedNext := accounts, nextAccount;
      var status, disabledAt := Active, None;
      if operation.expiresAt <= now {
        status, disabledAt := Expired, Some(now);
      }
      r := InsertAccount(Account(0, 0, operation.embyUserId.value, operation.username, status, operation.expiresAt,
        operation.note, now, now, disabledAt));
      if r.Failure? {
        return;
      }
      ProvisionedAs(operation, r.value, savedNext, now);
      if operation.kind == Register {
        var recorded := InsertRegistration(operation, r.value.id, now);
        if recorded.Failure? {
          accounts, nextAccount := savedAccounts, savedNext;
          return Failure(recorded.error);
        }
      }
    }

    // The finishing transaction once its checks have passed.
    method ProvisionAccount(id: nat, operation: Operation, now: int) returns (r: Result<Account>)
      requires operation.embyUserId.Some?
      modifies this
      ensures Tx(Contents(), r) == T.ProvisionAccount(old(Contents()), id, operation, now)
    {
      hide T.AccountFree, T.UpsertAccessSyncJob, T.ProvisionedAccount;
      ProvisionedNames(operation, nextAccount, now);
      r := InsertProvisioned(operation, now);
      if r.Failure? {
        return;
      }
      var account := r.value;
      if account.status != Active {
        UpsertAccessSyncJob(account.id, true, now);
      }
      operations := operations[id := operation.(accountId := Some(account.id), status := Completed, updatedAt := now, completedAt := Some(now))];
    }

    method CompleteAccountCreateOperation(id: nat, now: int) returns (r: Result<Account>)
      modifies this
      ensures Tx(Contents(), r) == T.CompleteAccountCreateOperation(old(Contents()), id, now)
    {
      hide T.ProvisionAccount;
      if id !in operations {
        return Failure(NotFound);
      }
      var operation := operations[id];
      if operation.status == Completed {
        if operation.accountId.None? || operation.accountId.value !in accounts {
          return Failure(NotFound);
        }
        return Success(accounts[operation.accountId.value]);
      }
      if operation.embyUserId.None? {
        return Failure(NoEmbyUser);
      }
      r := ProvisionAccount(id, operation, now);
    }

    // ----- invites.go -----

    method CreateInvite(invite: Invite) returns (r: Result<Invite>)
      requires InvitesSound(invites, nextInvite)
      modifies this
      ensures Tx(Contents(), r) == T.CreateInvite(old(Contents()), invite)
    {
      var clash := SelectInviteByHash(invite.codeHash);
      if clash.Some? || invite.durationDays < 1 || invite.maxUses < 0 ||
         (invite.startsAt.Some? && invite.expiresAt.Some? && !TextBefore(invite.startsAt.value, invite.expiresAt.value)) {
        return Failure(ConstraintViolation);
      }
      var row := invite.(id := nextInvite, usedCount := 0);
      invites := invites[nextInvite := row];
      nextInvite := nextInvite + 1;
      r := Success(row);
    }

    method SetInviteEnabled(id: nat, enabled: bool) returns (r: Result<()>)
      modifies this
      ensures Tx(Contents(), r) == T.SetInviteEnabled(old(Contents()), id, enabled)
    {
      if id !in invites {
        return Failure(NotFound);
      }
      invites := invites[id := invites[id].(enabled := enabled)];
      r := Success(());
    }

    method DeleteInvite(id: nat) returns (r: Result<()>)
      modifies this
      ensures Tx(Contents(), r) == T.DeleteInvite(old(Contents()), id)
    {
      if id !in invites {
        return Failure(NotFound);
      }
      if exists d :: d in redemptions && redemptions[d].inviteId == id {
        return Failure(ConstraintViolation);
      }
      if exists o :: o in operations && operations[o].inviteId == Some(id) {
        return Failure(ConstraintViolation);
      }
      invites := invites - {id};
      ForgetInviteInOrders(id);
      r := Success(());
    }

    method ConsumeInvite(codeHash: string, now: int) returns (r: Result<Invite>)
      requires InvitesSound(invites, nextInvite)
      modifies this
      ensures Tx(Contents(), r) == T.ConsumeInvite(old(Contents()), codeHash, now)
    {
      var found := SelectInviteByHash(codeHash);
      if found.None? {
        return Failure(NotFound);
      }
      var id, invite := found.value, invites[found.value];
      if !invite.enabled || (invite.startsAt.Some? && now < invite.startsAt.value) ||
         (invite.expiresAt.Some? && now >= invite.expiresAt.value) || (invite.maxUses > 0 && invite.usedCount >= invite.maxUses) {
        return Failure(InviteUnavailable);
      }
      invites := invites[id := invite.(usedCount := invite.usedCount + 1)];
      r := Success(invites[id]);
    }

    method ReleaseInvite(id: nat)
      modifies this
      ensures Contents() == T.ReleaseInvite(old(Contents()), id)
    {
      if id in invites {
        var used := invites[id].usedCount;
        invites := invites[id := invites[id].(usedCount := if used > 0 then used - 1 else 0)];
      }
    }

    method RecordRedemption(redemption: Redemption) returns (r: Result<()>)
      modifies this
      ensures Tx(Contents(), r) == T.RecordRedemption(old(Contents()), redemption)
    {
      if redemption.inviteId !in invites || redemption.accountId !in accounts {
        return Failure(ConstraintViolation);
      }
      redemptions := redemptions[nextRedemption := redemption];
      nextRedemption := nextRedemption + 1;
      r := Success(());
    }

    // The part that both kinds of renewal share: extend, perhaps reactivate, and queue.
    method ExtendAccount(id: nat, minutes: int, now: int)
      requires id in accounts
      modifies `accounts, `jobs
      ensures accounts == old(accounts)[id := T.Renewed(old(accounts)[id], minutes, now)]
      ensures jobs == if T.Reactivated(old(accounts)[id], minutes, now) then T.UpsertAccessSyncJob(old(jobs), id, false, now) else old(jobs)
      ensures Extends(old(accounts), old(jobs), accounts, jobs, id, minutes, now)
    {
      var account := accounts[id];
      account := account.(expiresAt := account.expiresAt + Minutes(minutes), updatedAt := now, version := account.version + 1);
      var reactivated := account.status == Expired && now < account.expiresAt;
      if reactivated {
        account := account.(status := Active, disabledAt := None);
      }
      accounts := accounts[id := account];
      if reactivated {
        UpsertAccessSyncJob(id, false, now);
      }
    }

    method RedeemRenewal(codeHash: string, username: string, now: int) returns (r: Result<Account>)
      requires Sound(Contents())
      modifies this
      ensures Tx(Contents(), r) == T.RedeemRenewal(old(Contents()), codeHash, username, now)
    {
      hide AccountsSound, OperationsSound, InvitesSound, OrdersSound, JobsSound, RedemptionsSound, OperationsRefer, OrdersRefer, EventsSound;
      hide T.UpsertAccessSyncJob, T.FindAccountByUsername, T.FindInviteByHash, Extends;
      var a := SelectAccountByUsername(username);
      if a.None? {
        return Failure(NotFound);
      }
      var i := SelectInviteByHash(codeHash);
      if i.None? {
        return Failure(InviteNotRedeemable);
      }
      var invite := invites[i.value];
      if now == ZERO_TIME || !invite.enabled || invite.durationMinutes < 1 || (invite.startsAt.Some? && now < invite.startsAt.value) ||
         (invite.expiresAt.Some? && now >= invite.expiresAt.value) || (invite.maxUses > 0 && invite.usedCount >= invite.maxUses) {
        return Failure(InviteNotRedeemable);
      }
      invites := invites[i.value := invite.(usedCount := invite.usedCount + 1)];
      ExtendAccount(a.value, invite.durationMinutes, now);
      redemptions := redemptions[nextRedemption := Redemption(i.value, a.value, Renewal, invite.durationDays, invite.durationMinutes, now)];
      nextRedemption := nextRedemption + 1;
      r := Success(accounts[a.value]);
    }

    // ----- payments.go -----

    method CreatePaymentOrder(order: Order) returns (r: Result<Order>)
      modifies this
      ensures Tx(Contents(), r) == T.CreatePaymentOrder(old(Contents()), order)
    {
      if exists o :: o in orders && (orders[o].publicToken == order.publicToken || orders[o].merchantOrderNo == order.merchantOrderNo) {
        return Failure(ConstraintViolation);
      }
      if order.durationDays < 1 || order.durationMinutes < 1 || order.amountFen < 1 || order.currency != "CNY" ||
         (order.accountId.Some? && order.accountId.value !in accounts) {
        return Failure(ConstraintViolation);
      }
      var row := Order(nextOrder, order.publicToken, order.merchantOrderNo, order.kind, order.planName, order.accountId, order.accountUsername,
        order.durationDays, order.durationMinutes, order.amountFen, order.currency, PaymentPending, FulfillmentPending,
        "", "", "", "", None, "", order.expiresAt, None, order.createdAt, order.updatedAt);
      orders := orders[nextOrder := row];
      nextOrder := nextOrder + 1;
      r := Success(row);
    }

    /** The orders that reconciliation asks about: the pending ones whose last change is longest ago. */
    method ListPendingPaymentOrders(limit: int) returns (listed: seq<Order>)
      requires OrdersSound(orders, nextOrder)
      ensures IsListing(PendingStamps(orders), if limit < 1 then 0 else limit, OrderIds(listed))
      ensures forall i :: 0 <= i < |listed| ==> listed[i].id in orders && listed[i] == orders[listed[i].id]
    {
      hide IsListing, OrdersSound, PendingStamps;
      var ids := FirstOf(PendingStamps(orders), if limit < 1 then 0 else limit);
      PendingRows(orders, nextOrder, if limit < 1 then 0 else limit, ids);
      listed := [];
      for i := 0 to |ids|
        invariant |listed| == i && forall j :: 0 <= j < i ==> listed[j] == orders[ids[j]]
      {
        listed := listed + [orders[ids[i]]];
      }
      assert OrderIds(listed) == ids;
    }

    method UpdatePaymentProvider(id: nat, status: string, url: string, memo: string, expiresAt: int, now: int) returns (r: Result<Order>)
      modifies this
      ensures Tx(Contents(), r) == T.UpdatePaymentProvider(old(Contents()), id, status, url, memo, expiresAt, now)
    {
      if id in orders && orders[id].fulfillment == FulfillmentPending {
        orders := orders[id := orders[id].(providerStatus := status, paymentUrl := url, paymentMemo := memo, expiresAt := expiresAt, updatedAt := now)];
      }
      r := if id in orders then Success(orders[id]) else Failure(NotFound);
    }

    method SetPaymentOrderState(id: nat, status: PaymentStatus, providerStatus: string, reason: string, now: int)
      modifies this
      ensures Contents() == T.SetPaymentOrderState(old(Contents()), id, status, providerStatus, reason, now)
    {
      if id in orders && orders[id].fulfillment == FulfillmentPending {
        var kept := if orders[id].paymentStatus == Paid then Paid else status;
        orders := orders[id := orders[id].(paymentStatus := kept, providerStatus := providerStatus, failureReason := TrimSpace(reason), updatedAt := now)];
      }
    }

    predicate BlankCode(input: T.PaymentInput) {
      TrimSpace(input.code) == "" || TrimSpace(input.codeHash) == "" || TrimSpace(input.codePrefix) == ""
    }

    // The invite that an activation order sells.
    method MintActivation(order: Order, input: T.PaymentInput) returns (r: Result<nat>)
      requires InvitesSound(invites, nextInvite)
      modifies `invites, `nextInvite
      ensures r.Failure? ==> invites == old(invites) && nextInvite == old(nextInvite)
      ensures r.Success? <==> !BlankCode(input) && T.FindInviteByHash(old(invites), input.codeHash).None?
      ensures r.Failure? ==> r.error == (if BlankCode(input) then NoActivationCode else ConstraintViolation)
      ensures r.Success? ==> r.value == old(nextInvite) && nextInvite == old(nextInvite) + 1
      ensures r.Success? ==> invites == old(invites)[r.value := T.ActivationInvite(r.value, order, input)]
      ensures r.Success? ==>
        var invite := invites[r.value];
        && invite.code == input.code && invite.codeHash == input.codeHash && invite.enabled && invite.maxUses == 1 && invite.usedCount == 0
        && invite.durationDays == order.durationDays && invite.durationMinutes == order.durationMinutes
        && invite.startsAt == None && invite.expiresAt == None
    {
      if BlankCode(input) {
        return Failure(NoActivationCode);
      }
      var clash := SelectInviteByHash(input.codeHash);
      if clash.Some? {
        return Failure(ConstraintViolation);
      }
      var id := nextInvite;
      invites := invites[id := Invite(id, input.codeHash, input.code, input.codePrefix, order.durationDays, order.durationMinutes, 1, 0,
        None, None, true, "付费激活码 · " + order.planName, input.now)];
      nextInvite := nextInvite + 1;
      r := Success(id);
    }

    // The benefit of a paid order: an invite, or more time for its account.
    method DeliverBenefit(order: Order, input: T.PaymentInput) returns (r: Result<Option<nat>>)
      requires InvitesSound(invites, nextInvite)
      modifies `invites, `nextInvite, `accounts, `jobs
      ensures order.kind == ActivationOrder ==> accounts == old(accounts) && jobs == old(jobs)
      ensures order.kind == ActivationOrder ==> (r.Success? <==> !BlankCode(input) && T.FindInviteByHash(old(invites), input.codeHash).None?)
      ensures order.kind == ActivationOrder && r.Failure? ==> r.error == (if BlankCode(input) then NoActivationCode else ConstraintViolation)
      ensures order.kind == ActivationOrder && r.Success? ==> r.value == Some(old(nextInvite)) && nextInvite == old(nextInvite) + 1
      ensures order.kind == ActivationOrder && r.Success? ==> invites == old(invites)[old(nextInvite) := T.ActivationInvite(old(nextInvite), order, input)]
      ensures order.kind == RenewalOrder ==> invites == old(invites) && nextInvite == old(nextInvite)
      ensures order.kind == RenewalOrder ==> (r.Success? <==> order.accountId.Some? && order.accountId.value in old(accounts))
      ensures order.kind == RenewalOrder && r.Failure? ==> r.error == (if order.accountId.None? then NoRenewalAccount else NotFound)
      ensures order.kind == RenewalOrder && r.Success? ==> r.value == None
      ensures order.kind == RenewalOrder && r.Success? ==>
        Contents() == T.RenewAccount(old(Contents()), order.accountId.value, order.durationMinutes, input.now)
    {
      if order.kind == ActivationOrder {
        var minted := MintActivation(order, input);
        if minted.Failure? {
          return Failure(minted.error);
        }
        return Success(Some(minted.value));
      }
      if order.accountId.None? {
        return Failure(NoRenewalAccount);
      }
      if order.accountId.value !in accounts {
        return Failure(NotFound);
      }
      ExtendAccount(order.accountId.value, order.durationMinutes, input.now);
      r := Success(None);
    }

    // The paying transaction once its checks have passed.
    method RecordPayment(order: Order, input: T.PaymentInput) returns (r: Result<Order>)
      requires InvitesSound(invites, nextInvite)
      requires input.orderId in orders && orders[input.orderId] == order
      modifies this
      ensures Tx(Contents(), r) == T.RecordPayment(old(Contents()), order, input)
    {
      hide T.ActivationInvite, T.FindInviteByHash, T.Renewed, T.Reactivated, T.UpsertAccessSyncJob, T.PaidOrder, T.PaidEvent, TrimSpace, InvitesSound;
      var saved, o := Contents(), input.orderId;
      var eventType := if input.eventType == "" then "order.paid" else input.eventType;
      var event := Event(order.id, eventType, input.amountFen, input.currency, input.payloadHash, input.now);
      events := events[input.eventId := event];
      var paid := order.(paymentStatus := Paid, providerStatus := "PAID", providerPaymentKey := input.providerPaymentKey,
        paidAt := Some(input.paidAt), failureReason := "", updatedAt := input.now);
      orders := orders[o := paid];
      var benefit := DeliverBenefit(order, input);
      if benefit.Failure? {
        Rollback(saved);
        return Failure(benefit.error);
      }
      paid := paid.(fulfillment := Fulfilled, inviteId := benefit.value, updatedAt := input.now);
      PaidAs(order, input, benefit.value, event, paid);
      orders := orders[o := paid];
      assert orders == saved.orders[o := paid];
      r := Success(paid);
    }

    method FulfillPaymentOrder(input: T.PaymentInput) returns (r: Result<Order>)
      requires Sound(Contents())
      modifies this
      ensures Tx(Contents(), r) == T.FulfillPaymentOrder(old(Contents()), input)
    {
      hide T.RecordPayment, TrimSpace;
      if input.orderId < 1 || TrimSpace(input.eventId) == "" || input.amountFen < 1 || input.currency == "" ||
         input.paidAt == ZERO_TIME || input.now == ZERO_TIME {
        return Failure(InvalidFulfillment);
      }
      if input.orderId !in orders {
        return Failure(NotFound);
      }
      var order := orders[input.orderId];
      if order.fulfillment == Fulfilled {
        return Success(order);
      }
      if order.amountFen != input.amountFen || order.currency != input.currency {
        return Failure(AmountMismatch);
      }
      if input.eventId in events {
        if events[input.eventId].orderId != order.id {
          return Failure(EventOfAnotherOrder);
        }
        return Success(order);
      }
      r := RecordPayment(order, input);
    }
  }
}
