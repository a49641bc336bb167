/** What the portal guarantees at every point of every run. A run is any finite sequence of steps from
    the empty portal: requests, worker and driver steps, crashes, lost replies, retries and other people's
    use of Emby, interleaved in any way. Its history holds the steps and the states they lead through. */
module Guarantees {
  import opened Domain
  import opened ByteOrder
  import opened Totals
  import opened Timestamps
  import opened Transactions
  import opened TableInvariants
  import opened AccessQueue
  import opened Portal
  import opened Outbox
  import opened OutboxSteps
  import opened Ledgers
  import opened LedgerSteps
  import opened Transitions

  lemma StepTaken(h: History, n: nat)
    requires IsRun(h) && n < |h.steps|
    ensures h.states[n + 1] == Next(h.states[n], h.steps[n])
  {
    assert Follows(h, n);
  }

  lemma StartHolds()
    ensures Sound(Start.db) && OutboxHolds(Start) && LedgersHold(Start)
  {
  }

  lemma {:induction false} Reachable(h: History, n: nat)
    requires IsRun(h) && n <= |h.steps|
    ensures Sound(h.states[n].db) && OutboxHolds(h.states[n]) && LedgersHold(h.states[n])
  {
    hide Sound, OutboxHolds, LedgersHold, Next;
    if n == 0 {
      StartHolds();
    } else {
      Reachable(h, n - 1);
      StepTaken(h, n - 1);
      SoundNext(h.states[n - 1], h.steps[n - 1]);
      OutboxNext(h.states[n - 1], h.steps[n - 1]);
      LedgersNext(h.states[n - 1], h.steps[n - 1]);
    }
  }

  /** Every sequence of steps is a run, with one history; a history is the run of its steps. */
  lemma {:induction false} EveryRunHasAHistory(steps: seq<Step>) returns (h: History)
    ensures IsRun(h) && h.steps == steps && h.states[|steps|] == Run(Start, steps)
  {
    hide Next;
    if steps == [] {
      h := History([], [Start]);
    } else {
      var front, last := steps[..|steps| - 1], steps[|steps| - 1];
      var before := EveryRunHasAHistory(front);
      h := History(steps, before.states + [Next(before.states[|front|], last)]);
      assert steps == front + [last];
      forall n: nat | n < |h.steps|
        ensures Follows(h, n)
      {
        if n < |front| {
          assert Follows(before, n);
        }
      }
    }
  }

  lemma {:induction false} HistoryIsTheRun(h: History, n: nat)
    requires IsRun(h) && n <= |h.steps|
    ensures h.states[n] == Run(Start, h.steps[..n])
  {
    hide Next;
    if n > 0 {
      HistoryIsTheRun(h, n - 1);
      StepTaken(h, n - 1);
      assert h.steps[..n][..n - 1] == h.steps[..n - 1];
    }
  }

  // ----- the access outbox -----

  ghost predicate MadeBySaga(db: Db, a: nat) {
    exists o :: o in db.operations && db.operations[o].accountId == Some(a)
  }

  /** A queued job always wants what the account's status demands. An account with nothing queued shows
      in Emby as its status says from its first job on; and one that the saga made does so exactly when it
      has had a job queued or its Emby user did not appear disabled. Before any job, the flag of any account
      is the one its user appeared with. */
  lemma OutboxSafety(h: History, n: nat, a: nat)
    requires IsRun(h) && n <= |h.steps|
    requires a in h.states[n].db.accounts
    ensures var s := h.states[n]; var account := s.db.accounts[a];
      && (a in s.db.jobs ==> (s.db.jobs[a].desiredDisabled <==> account.status != Active))
      && (a !in s.db.jobs && a in s.everQueued ==> FlagAgrees(s.users, account))
      && (a !in s.db.jobs && MadeBySaga(s.db, a) && account.embyUserId in s.users ==>
          (FlagAgrees(s.users, account) <==> a in s.everQueued || !s.users[account.embyUserId].bornDisabled))
      && (a !in s.everQueued && account.embyUserId in s.users ==>
          (FlagAgrees(s.users, account) <==> (s.users[account.embyUserId].bornDisabled <==> account.status != Active)))
  {
    Reachable(h, n);
    var s := h.states[n];
    if MadeBySaga(s.db, a) {
      var o :| o in s.db.operations && s.db.operations[o].accountId == Some(a);
      assert a in SagaAccounts(s.db.operations);
    }
    if a !in s.everQueued {
      BornFlagStays(h, n, s.db.accounts[a].embyUserId);
      OneOwner(s.db, a);
    }
    hide IsRun, LedgersHold, MadeBySaga, PoolHolds, UsersHold, CreationsHold, DriverHolds, OutstandingHolds, CallHolds, RemovingHolds;
  }

  lemma OneOwner(db: Db, a: nat)
    requires Sound(db) && a in db.accounts
    ensures forall b :: b in db.accounts && db.accounts[b].embyUserId == db.accounts[a].embyUserId ==> b == a
  {
  }

  /** Until an account that has had a job queued owns it, a user's flag is the one it appeared with: the
      flag that a look-up by name can see before the saga takes the user over. */
  lemma BornFlagStays(h: History, n: nat, u: string)
    requires IsRun(h) && n <= |h.steps|
    ensures var s := h.states[n];
      u in s.users && (forall a :: a in s.db.accounts && a in s.everQueued ==> s.db.accounts[a].embyUserId != u) ==>
        s.users[u].disabled == s.users[u].bornDisabled
  {
    Reachable(h, n);
    hide IsRun, Sound, LedgersHold;
  }

  // ----- the provisioning saga -----

  /** Over a whole run an operation inserts at most one business account, and exactly one by the time it
      is completed; that account belongs to no other operation. */
  lemma ProvisionedOnce(h: History, n: nat, o: nat)
    requires IsRun(h) && n <= |h.steps|
    ensures var s := h.states[n];
      && 0 <= At(s.books.provisioned, o) <= 1
      && (o in s.db.operations ==>
            && (s.db.operations[o].status == Completed <==> At(s.books.provisioned, o) == 1)
            && (s.db.operations[o].status == Completed ==>
                  && s.db.operations[o].accountId.Some? && s.db.operations[o].accountId.value in s.db.accounts
                  && forall p :: p in s.db.operations && s.db.operations[p].accountId == s.db.operations[o].accountId ==> p == o))
  {
    Reachable(h, n);
    var s := h.states[n];
    if o in s.db.operations {
      OperationFacts(s.db, o);
      assert forall p :: p in s.db.operations && p != o && s.db.operations[o].accountId.Some? ==>
        s.db.operations[o].accountId != s.db.operations[p].accountId;
    }
    hide IsRun, OutboxHolds, Sound, InviteBooksHold, TimeBooksHold, MintedHolds;
  }

  /** At any time at most one Emby user exists that an operation's create calls made. */
  lemma OneUserPerOperation(h: History, n: nat, u: string, v: string)
    requires IsRun(h) && n <= |h.steps|
    requires var s := h.states[n]; u in s.users && v in s.users
    requires var s := h.states[n]; s.users[u].createdBy.Some? && s.users[u].createdBy == s.users[v].createdBy
    ensures u == v
  {
    Reachable(h, n);
    hide IsRun, Sound, LedgersHold;
  }

  /** Pending, creating, remote created, completed: no step skips, repeats or undoes a checkpoint, and an
      operation disappears only when it is completed. */
  lemma OperationNeverGoesBack(h: History, n: nat, o: nat)
    requires IsRun(h) && n < |h.steps|
    requires o in h.states[n].db.operations
    ensures var s, s' := h.states[n], h.states[n + 1];
      if o in s'.db.operations then OperationAdvances(s.db.operations[o], s'.db.operations[o]) else s.db.operations[o].status == Completed
  {
    Reachable(h, n);
    StepTaken(h, n);
    NextAdvances(h.states[n], h.steps[n]);
    hide IsRun, Sound, OutboxHolds, LedgersHold, Next, OperationAdvances;
  }

  /** A completed operation keeps its account and its request until that account is deleted. */
  lemma CompletedStays(h: History, n: nat, o: nat)
    requires IsRun(h) && n < |h.steps|
    requires OperationAt(h.states[n].db.operations, o, Completed)
    ensures var s, s' := h.states[n], h.states[n + 1];
      var operation := s.db.operations[o];
      operation.accountId.Some? && (operation.accountId.value in s'.db.accounts ==> o in s'.db.operations && s'.db.operations[o] == operation)
  {
    Reachable(h, n);
    var s := h.states[n];
    OperationFacts(s.db, o);
    hide IsRun, Sound, OutboxHolds, LedgersHold, Next, OperationAdvances, AccountsAdvance, OrdersAdvance;
    StepTaken(h, n);
    NextAdvances(s, h.steps[n]);
    OperationsOutlive(s, h.steps[n], o);
    if o in h.states[n + 1].db.operations {
      CompletedIsLast(s.db.operations[o], h.states[n + 1].db.operations[o]);
    }
  }

  /** A request repeated with its key and fingerprint finds its operation, however far that has come: it
      stores no second one and reserves no second use, even when the invite is by then used up, disabled
      or over. With another fingerprint it is refused and changes nothing. Finishing a completed operation
      again answers the same account and changes nothing. */
  lemma ReplayIsIdempotent(h: History, n: nat, input: OperationInput, codeHash: string, o: nat, now: int)
    requires IsRun(h) && n <= |h.steps|
    requires var operations := h.states[n].db.operations; o in operations && operations[o].kind == input.kind && operations[o].key == input.key
    ensures var db := h.states[n].db; var operation := db.operations[o];
      var begun := if input.kind == AccountCreate then BeginAccountCreateOperation(db, input) else BeginRegistrationOperation(db, input, codeHash);
      && begun == Tx(db, if operation.fingerprint == input.fingerprint then Success(operation) else Failure(IdempotencyKeyConflict))
      && (operation.status == Completed ==>
            && operation.accountId.Some? && operation.accountId.value in db.accounts
            && CompleteAccountCreateOperation(db, o, now) == Tx(db, Success(db.accounts[operation.accountId.value])))
  {
    Reachable(h, n);
    var db := h.states[n].db;
    OperationFacts(db, o);
    KeyFindsOperation(db, o);
    hide IsRun, Sound, OutboxHolds, LedgersHold, FindOperationByKey, Redeemable, AccountFree, ProvisionAccount;
  }

  lemma KeyFindsOperation(db: Db, o: nat)
    requires Sound(db) && o in db.operations
    ensures FindOperationByKey(db.operations, db.operations[o].kind, db.operations[o].key) == Some(o)
  {
  }

  // ----- account versions and subscription time -----

  /** Every committed write raises the row's version by exactly one. */
  lemma VersionsNeverSkip(h: History, n: nat, a: nat)
    requires IsRun(h) && n < |h.steps|
    requires a in h.states[n].db.accounts && a in h.states[n + 1].db.accounts
    ensures AccountAdvances(h.states[n].db.accounts[a], h.states[n + 1].db.accounts[a])
  {
    Reachable(h, n);
    StepTaken(h, n);
    NextAdvances(h.states[n], h.steps[n]);
    hide IsRun, Sound, OutboxHolds, LedgersHold, Next, AccountAdvances;
  }

  /** No lost update: whenever a compare-and-swap of a row read at any earlier time is accepted, the row
      has not changed since it was read. */
  lemma AcceptedEditsAreFresh(h: History, n: nat, snap: Account)
    requires IsRun(h) && n <= |h.steps|
    requires snap in h.states[n].readAccounts && VersionMatches(h.states[n].db, snap)
    ensures h.states[n].db.accounts[snap.id] == snap
  {
    Reachable(h, n);
    hide IsRun, Sound, LedgersHold;
    AcceptedSnapshotIsLive(h.states[n], snap);
  }

  /** Conservation of subscription time, whatever is interleaved with the edits. */
  lemma TimeConservation(h: History, n: nat, a: nat)
    requires IsRun(h) && n <= |h.steps|
    requires a in h.states[n].db.accounts
    ensures var s := h.states[n];
      s.db.accounts[a].expiresAt == At(s.books.initialExpiry, a) + At(s.books.edits, a)
        + Minutes(Total(s.db.redemptions, RenewalMinutes(a))) + Minutes(Total(s.db.orders, PaidMinutes(a)))
  {
    Reachable(h, n);
    hide IsRun, Sound, OutboxHolds, InviteBooksHold, MintedHolds, CountsHold;
  }

  ghost predicate IsEdit(step: Step) {
    step.OfAccounts? && (step.account.Update? || step.account.BatchShift?)
  }

  lemma {:induction false} NothingEdited(h: History, n: nat)
    requires IsRun(h) && n <= |h.steps|
    requires forall i :: 0 <= i < n ==> !IsEdit(h.steps[i])
    ensures h.states[n].books.edits == map[]
  {
    hide Next;
    if n > 0 {
      NothingEdited(h, n - 1);
      StepTaken(h, n - 1);
      EditsAfter(h.states[n - 1], h.steps[n - 1]);
    }
  }

  lemma EditsAfterAccountStep(s: State, action: AccountAction)
    requires !action.Update? && !action.BatchShift?
    ensures DoAccounts(s, action).books.edits == s.books.edits
  {
    hide CreateAccount, SetAccountStatus, DeleteAccount;
  }

  lemma EditsAfterWorkerStep(s: State, action: WorkerAction)
    ensures DoWorker(s, action).books.edits == s.books.edits
  {
    hide SetAccountStatus, IsDueList, IsBatch, Snapshots, CompleteAccessSync, FailAccessSync;
  }

  lemma EditsAfterSagaStep(s: State, action: SagaAction)
    ensures DoSaga(s, action).books.edits == s.books.edits
  {
    hide BeginAccountCreateOperation, BeginRegistrationOperation, MarkAccountCreateOperationCreating, SaveAccountCreateOperationRemote,
      CompleteAccountCreateOperation, NamedLikeOperation;
  }

  lemma EditsAfterInviteStep(s: State, action: InviteAction)
    ensures DoInvites(s, action).books.edits == s.books.edits
  {
    hide CreateInvite, SetInviteEnabled, DeleteInvite, ConsumeInvite, ReleaseInvite, RecordRedemption, RedeemRenewal;
  }

  lemma EditsAfterPaymentStep(s: State, action: PaymentAction)
    ensures DoPayments(s, action).books.edits == s.books.edits
  {
    hide CreatePaymentOrder, UpdatePaymentProvider, SetPaymentOrderState, FulfillPaymentOrder;
  }

  lemma EditsAfter(s: State, step: Step)
    requires !IsEdit(step)
    ensures Next(s, step).books.edits == s.books.edits
  {
    hide DoAccounts, DoWorker, DoSaga, DoInvites, DoPayments;
    match step
    case OfAccounts(action) => EditsAfterAccountStep(s, action);
    case OfWorker(action) => EditsAfterWorkerStep(s, action);
    case OfSaga(action) => EditsAfterSagaStep(s, action);
    case OfInvites(action) => EditsAfterInviteStep(s, action);
    case OfPayments(action) => EditsAfterPaymentStep(s, action);
    case OfOthers(_) =>
  }

  /** With no edit by an administrator, expiry is exactly the start plus every renewal. */
  lemma TimeWithoutEdits(h: History, n: nat, a: nat)
    requires IsRun(h) && n <= |h.steps|
    requires a in h.states[n].db.accounts
    requires forall i :: 0 <= i < n ==> !IsEdit(h.steps[i])
    ensures var s := h.states[n];
      s.db.accounts[a].expiresAt == At(s.books.initialExpiry, a)
        + Minutes(Total(s.db.redemptions, RenewalMinutes(a))) + Minutes(Total(s.db.orders, PaidMinutes(a)))
  {
    hide IsRun, Total;
    TimeConservation(h, n, a);
    NothingEdited(h, n);
  }

  /** The due query compares stored texts. By whole seconds that is time: an active account whose expiry
      second is over is listed, one whose expiry second is still to come is not. */
  lemma DueQueryBySecond(account: Account, expiry: Civil, now: Civil)
    requires Valid(expiry) && Valid(now) && account.expiresAt == Instant(expiry)
    ensures Due(account, Instant(now)) <==> account.status == Active && !Below(Timestamp(now), Timestamp(expiry))
    ensures account.status == Active && Seconds(expiry) < Seconds(now) ==> Due(account, Instant(now))
    ensures Seconds(now) < Seconds(expiry) ==> !Due(account, Instant(now))
  {
    StoredOrder(now, expiry);
    assert Instant(now) / SECOND == Seconds(now) && Instant(expiry) / SECOND == Seconds(expiry);
  }

  // ----- invites -----

  /** used_count counts recorded redemptions, open registrations and direct registrations in between, and
      never passes a positive limit. */
  lemma InviteConservation(h: History, n: nat, i: nat)
    requires IsRun(h) && n <= |h.steps|
    requires i in h.states[n].db.invites
    ensures var s := h.states[n]; var invite := s.db.invites[i];
      && invite.usedCount == At(s.books.recorded, i) + Total(s.db.operations, OpenRegistration(i)) + At(s.books.held, i)
      && (invite.maxUses > 0 ==> invite.usedCount <= invite.maxUses)
  {
    Reachable(h, n);
    hide IsRun, Sound, OutboxHolds, TimeBooksHold, MintedHolds, CountsHold;
  }

  /** Whoever releases a use still holds it, so the guard against zero in ReleaseInvite never decides. */
  lemma ReleaseNeverClamps(h: History, n: nat, i: nat)
    requires IsRun(h) && n <= |h.steps|
    requires var s := h.states[n]; i in s.db.invites && At(s.books.held, i) > 0
    ensures h.states[n].db.invites[i].usedCount > 0
  {
    Reachable(h, n);
    hide IsRun, Sound, OutboxHolds, TimeBooksHold, MintedHolds, CountsHold, InviteBooksHold;
    var s := h.states[n];
    BooksAfterRelease(s.db, s.books.recorded, s.books.held, i);
  }

  // ----- payments -----

  /** Paid, fulfilled and having an event are one thing; an order has at most one event; an activation
      has at most one invite, which grants one use of what was sold. */
  lemma PaidExactlyOnce(h: History, n: nat, o: nat)
    requires IsRun(h) && n <= |h.steps|
    requires o in h.states[n].db.orders
    ensures var s := h.states[n]; var order := s.db.orders[o];
      && (order.paymentStatus == Paid <==> order.fulfillment == Fulfilled)
      && (order.fulfillment == Fulfilled <==> HasEvent(s.db.events, o))
      && (forall e, f :: e in s.db.events && f in s.db.events && s.db.events[e].orderId == s.db.events[f].orderId == o ==> e == f)
      && (order.kind == ActivationOrder ==> (order.fulfillment == Fulfilled <==> Minted(s.books.minted, o)))
      && (forall i, j :: i in s.books.minted && j in s.books.minted && s.books.minted[i] == s.books.minted[j] == o ==> i == j)
      && (forall i :: i in s.books.minted && s.books.minted[i] == o && i in s.db.invites ==>
            order.inviteId == Some(i) && SoldInvite(s.db.invites[i], order))
  {
    Reachable(h, n);
    var s := h.states[n];
    OrderFacts(s.db, o);
    assert EventsSound(s.db.events, s.db.orders);
    hide IsRun, Sound, OutboxHolds, InviteBooksHold, TimeBooksHold, CountsHold;
  }

  /** Every recorded event belongs to a paid order of its amount. */
  lemma EventsAreOfPaidOrders(h: History, n: nat, e: string)
    requires IsRun(h) && n <= |h.steps|
    requires e in h.states[n].db.events
    ensures var db := h.states[n].db; var o := db.events[e].orderId;
      o in db.orders && db.orders[o].paymentStatus == Paid && db.orders[o].amountFen == db.events[e].amountFen
  {
    Reachable(h, n);
    var db := h.states[n].db;
    var o := db.events[e].orderId;
    assert EventsSound(db.events, db.orders);
    hide IsRun, Sound, OutboxHolds, LedgersHold;
    assert HasEvent(db.events, o);
    OrderFacts(db, o);
  }

  /** Paid is absorbing: no later step, and no later event id, changes a paid order, except that a
      deleted account or invite is forgotten. */
  lemma PaidIsAbsorbing(h: History, n: nat, o: nat)
    requires IsRun(h) && n < |h.steps|
    requires var s := h.states[n]; o in s.db.orders && s.db.orders[o].paymentStatus == Paid
    ensures var s, s' := h.states[n], h.states[n + 1];
      && o in s'.db.orders
      && s'.db.orders[o] == s.db.orders[o].(accountId := s'.db.orders[o].accountId, inviteId := s'.db.orders[o].inviteId)
      && s'.db.orders[o].paymentStatus == Paid
  {
    Reachable(h, n);
    StepTaken(h, n);
    NextAdvances(h.states[n], h.steps[n]);
    OrderFacts(h.states[n].db, o);
    hide IsRun, Sound, OutboxHolds, LedgersHold, Next;
  }

  /** A second delivery for a paid order changes nothing, whatever its event id, amount or code. */
  lemma RepeatedDeliveryChangesNothing(h: History, n: nat, input: PaymentInput)
    requires IsRun(h) && n <= |h.steps|
    requires var db := h.states[n].db; input.orderId in db.orders && db.orders[input.orderId].paymentStatus == Paid
    ensures FulfillPaymentOrder(h.states[n].db, input).db == h.states[n].db
  {
    Reachable(h, n);
    OrderFacts(h.states[n].db, input.orderId);
    hide IsRun, Sound, OutboxHolds, LedgersHold;
    UndeliverableChangesNothing(h.states[n].db, input);
  }

  /** The branch that answers a replayed event of the same order is never reached: such an order is
      already fulfilled, and the branch before it has answered. */
  lemma ReplayBranchUnreachable(h: History, n: nat, e: string, o: nat)
    requires IsRun(h) && n <= |h.steps|
    requires var db := h.states[n].db; o in db.orders && db.orders[o].fulfillment != Fulfilled && e in db.events
    ensures h.states[n].db.events[e].orderId != o
  {
    Reachable(h, n);
    var db := h.states[n].db;
    assert EventsSound(db.events, db.orders);
    assert HasEvent(db.events, db.events[e].orderId);
    hide IsRun, Sound, OutboxHolds, LedgersHold;
  }

  function EventAmount(): Event -> int {
    (e: Event) => e.amountFen
  }

  // SUM(CASE WHEN payment_status = 'paid' THEN amount_fen ELSE 0 END)
  function PaidAmount(): Order -> int {
    (o: Order) => if o.paymentStatus == Paid then o.amountFen else 0
  }

  // Take an event and its order away together, and the two sums stay equal.
  lemma {:induction false} AmountsAgree(events: map<string, Event>, orders: map<nat, Order>)
    requires EventsSound(events, orders)
    requires forall o :: o in orders ==> (orders[o].paymentStatus == Paid <==> orders[o].fulfillment == Fulfilled)
    ensures Total(events, EventAmount()) == Total(orders, PaidAmount())
    decreases |events|
  {
    if events == map[] {
      forall o | o in orders
        ensures orders[o].paymentStatus != Paid
      {
        assert !HasEvent(events, o);
      }
      TotalZero(orders, PaidAmount());
    } else {
      var e :| e in events;
      var o := events[e].orderId;
      assert HasEvent(events, o);
      var row := orders[o].(paymentStatus := PaymentPending, fulfillment := FulfillmentPending);
      EventTakenAway(events, orders, e, row);
      AmountsAgree(events - {e}, orders[o := row]);
      TotalPick(events, EventAmount(), e);
      TotalReplace(orders, PaidAmount(), o, row);
    }
  }

  lemma EventTakenAway(events: map<string, Event>, orders: map<nat, Order>, e: string, row: Order)
    requires EventsSound(events, orders) && e in events
    requires row.fulfillment != Fulfilled && row.amountFen == orders[events[e].orderId].amountFen
    ensures EventsSound(events - {e}, orders[events[e].orderId := row])
  {
    var o, events', orders' := events[e].orderId, events - {e}, orders[events[e].orderId := row];
    forall p | p in orders'
      ensures orders'[p].fulfillment == Fulfilled <==> HasEvent(events', p)
    {
      if p != o && HasEvent(events, p) {
        var f :| f in events && events[f].orderId == p;
        assert events'[f].orderId == p;
      }
    }
  }

  /** Conservation of revenue: the paid total of the unfiltered order list is the sum of the amounts of
      all recorded events. */
  lemma RevenueConservation(h: History, n: nat)
    requires IsRun(h) && n <= |h.steps|
    ensures var db := h.states[n].db; Total(db.orders, PaidAmount()) == Total(db.events, EventAmount())
  {
    Reachable(h, n);
    var db := h.states[n].db;
    forall o | o in db.orders
      ensures db.orders[o].paymentStatus == Paid <==> db.orders[o].fulfillment == Fulfilled
    {
      OrderFacts(db, o);
    }
    assert EventsSound(db.events, db.orders);
    hide IsRun, Sound, OutboxHolds, LedgersHold, EventsSound;
    AmountsAgree(db.events, db.orders);
  }
}
