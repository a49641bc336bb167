/** The redemptions table against the books. Every redemption ever recorded is a row, except those that
    went with a deleted account; a use of an invite is therefore accounted for by rows. */
module Redemptions {
  import opened Domain
  import opened Totals
  import opened Transactions
  import opened TableInvariants
  import opened AccessQueue
  import opened Portal
  import opened Outbox
  import opened Ledgers
  import opened LedgerSteps
  import opened Guarantees

  function OfInvite(i: nat): Redemption -> int {
    (r: Redemption) => if r.inviteId == i then 1 else 0
  }

  function OfInviteBy(i: nat, a: nat): Redemption -> int {
    (r: Redemption) => if r.inviteId == i && r.accountId == a then 1 else 0
  }

  // ----- what a step does to the table -----

  ghost predicate Untouched(s: State, s': State) {
    s'.db.redemptions == s.db.redemptions && s'.books.recorded == s.books.recorded
  }

  ghost predicate Redeems(s: State, s': State, row: Redemption) {
    && s'.db.redemptions == s.db.redemptions[s.db.nextRedemption := row]
    && s'.books.recorded == Plus(s.books.recorded, row.inviteId, 1)
  }

  ghost predicate Touched(s: State, s': State) {
    Untouched(s, s') || exists row :: Redeems(s, s', row)
  }

  /** A step that takes an account's rows away. */
  ghost predicate Deletes(s: State, step: Step) {
    step.OfAccounts? && step.account.DeleteLocally? && step.account.id in s.removing && step.account.id in s.db.accounts
  }

  lemma AccountWrites(db: Db)
    ensures forall snap, status, disabledAt, now :: SetAccountStatus(db, snap, status, disabledAt, now).db.redemptions == db.redemptions
    ensures forall account :: CreateAccount(db, account).db.redemptions == db.redemptions
    ensures forall id :: id !in db.accounts ==> DeleteAccount(db, id).db == db
  {
    hide UpsertAccessSyncJob, AccountFree, OperationsWithout, RedemptionsWithout, WithoutAccount;
  }

  lemma EditTouches(s: State)
    ensures forall snap, expiresAt, note, intended, now :: Untouched(s, ApplyEdit(s, snap, expiresAt, note, intended, now))
  {
    hide UpsertAccessSyncJob, TrimSpace;
  }

  lemma AccountStepTouches(s: State, action: AccountAction)
    requires !Deletes(s, OfAccounts(action))
    ensures Untouched(s, DoAccounts(s, action))
  {
    AccountWrites(s.db);
    EditTouches(s);
    hide SetAccountStatus, CreateAccount, DeleteAccount, ApplyEdit;
  }

  lemma WorkerStepTouches(s: State, action: WorkerAction)
    ensures Untouched(s, DoWorker(s, action))
  {
    hide UpsertAccessSyncJob, IsDueList, IsBatch, Snapshots, CompleteAccessSync, FailAccessSync;
  }

  lemma FinishTouches(s: State, now: int)
    requires s.driver.Finishing?
    ensures Touched(s, ApplyFinish(s, now))
  {
    var o, s' := s.driver.operationId, ApplyFinish(s, now);
    FinishReplaysOrRefuses(s.db, o, now);
    hide CompleteAccountCreateOperation;
    if CompleteAccountCreateOperation(s.db, o, now).result.Success? && s.db.operations[o].status != Completed {
      RegistrationRow(s.db, o, now);
      if s.db.operations[o].kind == Register {
        assert Redeems(s, s', s'.db.redemptions[s.db.nextRedemption]);
      }
    }
  }

  lemma FinishReplaysOrRefuses(db: Db, o: nat, now: int)
    ensures var tx := CompleteAccountCreateOperation(db, o, now);
      (tx.result.Success? ==> o in db.operations) &&
      (tx.result.Failure? || (o in db.operations && db.operations[o].status == Completed) ==> tx.db == db)
  {
    hide AccountFree, UpsertAccessSyncJob;
  }

  lemma RegistrationRow(db: Db, o: nat, now: int)
    requires var tx := CompleteAccountCreateOperation(db, o, now);
      tx.result.Success? && o in db.operations && db.operations[o].status != Completed
    ensures var db', operation := CompleteAccountCreateOperation(db, o, now).db, db.operations[o];
      if operation.kind == Register then
        && operation.inviteId.Some? && db.nextRedemption in db'.redemptions
        && db'.redemptions == db.redemptions[db.nextRedemption := db'.redemptions[db.nextRedemption]]
        && db'.redemptions[db.nextRedemption].inviteId == operation.inviteId.value
      else db'.redemptions == db.redemptions
  {
    hide AccountFree, UpsertAccessSyncJob;
  }

  lemma SagaStepTouches(s: State, action: SagaAction)
    ensures Touched(s, DoSaga(s, action))
  {
    if action.Finish? && s.driver.Finishing? {
      FinishTouches(s, action.now);
    }
    hide ApplyFinish, NamedLikeOperation, Redeems, FindAccountByUsername, FindInviteByHash, Redeemable, UseInvite;
  }

  lemma InviteStepTouches(s: State, action: InviteAction)
    ensures Touched(s, DoInvites(s, action))
  {
    hide RenewAccount, FindAccountByUsername, FindInviteByHash, Redeemable, UseInvite;
    var s' := DoInvites(s, action);
    if action.RecordDirectly? && !Untouched(s, s') {
      assert Redeems(s, s', action.redemption);
    } else if action.Redeem? && !Untouched(s, s') {
      RenewKeepsRedemptions(s, action.codeHash, action.username, action.now);
    }
  }

  lemma RenewKeepsRedemptions(s: State, codeHash: string, username: string, now: int)
    requires RedeemRenewal(s.db, codeHash, username, now).result.Success?
    ensures exists row :: Redeems(s, ApplyRedeem(s, codeHash, username, now), row)
  {
    hide UpsertAccessSyncJob, FindAccountByUsername, FindInviteByHash, Redeemable, UseInvite;
    var s', i := ApplyRedeem(s, codeHash, username, now), FindInviteByHash(s.db.invites, codeHash).value;
    assert Redeems(s, s', s'.db.redemptions[s.db.nextRedemption]);
  }

  lemma PaymentStepTouches(s: State, action: PaymentAction)
    ensures Untouched(s, DoPayments(s, action))
  {
    hide UpsertAccessSyncJob, InvalidPaymentInput, PaidOrder, PaidEvent, ActivationInvite;
  }

  lemma NotedTouches(s: State, s': State)
    requires Touched(s, s')
    ensures Touched(s, Noted(s'))
  {
    if !Untouched(s, s') {
      var row :| Redeems(s, s', row);
      assert Redeems(s, Noted(s'), row);
    }
  }

  lemma NextTouches(s: State, step: Step)
    requires !Deletes(s, step)
    ensures Touched(s, Next(s, step))
  {
    hide DoAccounts, DoWorker, DoSaga, DoInvites, DoPayments;
    match step {
      case OfAccounts(action) => AccountStepTouches(s, action);
      case OfWorker(action) => WorkerStepTouches(s, action);
      case OfSaga(action) => SagaStepTouches(s, action);
      case OfInvites(action) => InviteStepTouches(s, action);
      case OfPayments(action) => PaymentStepTouches(s, action);
      case OfOthers(_) =>
    }
    NotedTouches(s, Do(s, step));
  }

  // ----- the rows of an invite -----

  lemma RowsAfter(s: State, s': State, i: nat)
    requires Sound(s.db) && Touched(s, s')
    ensures At(s'.books.recorded, i) - Total(s'.db.redemptions, OfInvite(i)) == At(s.books.recorded, i) - Total(s.db.redemptions, OfInvite(i))
  {
    RedemptionKeyFresh(s.db);
    hide Sound;
    if !Untouched(s, s') {
      var row :| Redeems(s, s', row);
      TotalInsert(s.db.redemptions, OfInvite(i), s.db.nextRedemption, row);
    }
  }

  lemma RowsAfterDelete(s: State, step: Step, i: nat)
    requires Deletes(s, step)
    ensures Next(s, step).books.recorded == s.books.recorded
    ensures Total(s.db.redemptions, OfInvite(i)) ==
      Total(Next(s, step).db.redemptions, OfInvite(i)) + Total(s.db.redemptions, OfInviteBy(i, step.account.id))
  {
    hide OperationsWithout, WithoutAccount;
    var a, rows := step.account.id, s.db.redemptions;
    TotalParts(rows, RedemptionsWithout(rows, a), OfInvite(i), OfInviteBy(i, a));
  }

  // ----- over a run -----

  /** The redemptions of an invite that were deleted with their accounts in the first n steps. */
  ghost function Dropped(h: History, n: nat, i: nat): int
    requires IsRun(h) && n <= |h.steps|
  {
    if n == 0 then 0
    else
      var s, step := h.states[n - 1], h.steps[n - 1];
      Dropped(h, n - 1, i) + if Deletes(s, step) then Total(s.db.redemptions, OfInviteBy(i, step.account.id)) else 0
  }

  lemma {:induction false} DroppedNotNegative(h: History, n: nat, i: nat)
    requires IsRun(h) && n <= |h.steps|
    ensures Dropped(h, n, i) >= 0
    ensures (forall k :: 0 <= k < n ==> !Deletes(h.states[k], h.steps[k])) ==> Dropped(h, n, i) == 0
  {
    hide Next;
    if n > 0 {
      DroppedNotNegative(h, n - 1, i);
      var s, step := h.states[n - 1], h.steps[n - 1];
      if Deletes(s, step) {
        TotalAtLeast(s.db.redemptions, OfInviteBy(i, step.account.id));
      }
    }
  }

  /** Redemptions ever recorded are the rows of the table and those that went with deleted accounts. */
  lemma {:induction false} RecordedAreRows(h: History, n: nat, i: nat)
    requires IsRun(h) && n <= |h.steps|
    ensures At(h.states[n].books.recorded, i) == Total(h.states[n].db.redemptions, OfInvite(i)) + Dropped(h, n, i)
  {
    hide Next, Deletes, Sound, OutboxHolds, LedgersHold;
    if n > 0 {
      RecordedAreRows(h, n - 1, i);
      StepTaken(h, n - 1);
      var s, step := h.states[n - 1], h.steps[n - 1];
      if Deletes(s, step) {
        RowsAfterDelete(s, step, i);
      } else {
        Reachable(h, n - 1);
        NextTouches(s, step);
        RowsAfter(s, Next(s, step), i);
      }
    } else {
      TotalZero(h.states[0].db.redemptions, OfInvite(i));
    }
  }

  /** used_count against the tables themselves: the invite's redemptions, those deleted with their accounts,
      the open registrations and the direct ones in between. With no account deleted the second part is nothing. */
  lemma UsesAreRows(h: History, n: nat, i: nat)
    requires IsRun(h) && n <= |h.steps| && i in h.states[n].db.invites
    ensures var s := h.states[n];
      && s.db.invites[i].usedCount == Total(s.db.redemptions, OfInvite(i)) + Dropped(h, n, i)
           + Total(s.db.operations, OpenRegistration(i)) + At(s.books.held, i)
      && Total(s.db.redemptions, OfInvite(i)) <= At(s.books.recorded, i)
      && ((forall k :: 0 <= k < n ==> !Deletes(h.states[k], h.steps[k])) ==> Dropped(h, n, i) == 0)
  {
    hide IsRun;
    InviteConservation(h, n, i);
    RecordedAreRows(h, n, i);
    DroppedNotNegative(h, n, i);
  }
}
