/** What holds of the tables after every transaction, whoever runs it and in whatever order. Each
    predicate speaks of the tables it needs, so that a transaction leaves the others' alone. */
module TableInvariants {
  import opened Domain
  import opened Timestamps
  import opened Transactions

  // ----- one table at a time -----

  /** Rows lie under their own ids, below the next id, so that no id is given twice; the UNIQUE
      columns are unique. */
  ghost predicate AccountsSound(accounts: map<nat, Account>, next: nat) {
    && (forall a :: a in accounts ==> accounts[a].id == a && a < next && accounts[a].version >= 1)
    && (forall a, b :: a in accounts && b in accounts && a != b ==>
          accounts[a].embyUserId != accounts[b].embyUserId && !SameName(accounts[a].username, accounts[b].username))
  }

  /** The CHECK constraints of account_create_operations. */
  ghost predicate OperationChecks(o: Operation) {
    && (o.kind == AccountCreate ==> o.inviteCodeHash.None? && o.inviteId.None? && o.inviteDays == 0 && o.inviteMinutes == 0)
    && (o.kind == Register ==> o.inviteCodeHash.Some? && o.inviteId.Some? && o.inviteDays > 0 && o.inviteMinutes > 0)
    && (o.status == Completed <==> o.accountId.Some?)
    && (o.status == Completed ==> o.completedAt.Some?)
    && (o.status == RemoteCreated || o.status == Completed <==> o.embyUserId.Some?)
  }

  /** Besides keys and CHECKs: no two operations name one account. */
  ghost predicate OperationsSound(operations: map<nat, Operation>, next: nat) {
    && (forall o :: o in operations ==> operations[o].id == o && o < next && OperationChecks(operations[o]))
    && (forall o, p :: o in operations && p in operations && o != p ==>
          (operations[o].kind != operations[p].kind || operations[o].key != operations[p].key) &&
          (operations[o].accountId.Some? ==> operations[o].accountId != operations[p].accountId))
  }

  ghost predicate InvitesSound(invites: map<nat, Invite>, next: nat) {
    && (forall i :: i in invites ==> invites[i].id == i && i < next && invites[i].durationDays > 0 && invites[i].maxUses >= 0)
    && (forall i, j :: i in invites && j in invites && i != j ==> invites[i].codeHash != invites[j].codeHash)
  }

  ghost predicate OrderChecks(o: Order) {
    && o.durationDays > 0 && o.durationMinutes > 0 && o.amountFen > 0 && o.currency == "CNY"
    && (o.paymentStatus == Paid <==> o.fulfillment == Fulfilled)
  }

  ghost predicate OrdersSound(orders: map<nat, Order>, next: nat) {
    && (forall o :: o in orders ==> orders[o].id == o && o < next && OrderChecks(orders[o]))
    && (forall o, p :: o in orders && p in orders && o != p ==>
          orders[o].publicToken != orders[p].publicToken && orders[o].merchantOrderNo != orders[p].merchantOrderNo)
  }

  // ----- tables that refer to others -----

  /** A queued job belongs to an account and wants exactly what the account's status demands. */
  ghost predicate JobsSound(jobs: map<nat, Job>, accounts: map<nat, Account>) {
    forall a :: a in jobs ==>
      a in accounts && jobs[a].revision >= 1 && (jobs[a].desiredDisabled <==> accounts[a].status != Active)
  }

  ghost predicate RedemptionsSound(redemptions: map<nat, Redemption>, next: nat, invites: set<nat>, accounts: set<nat>) {
    forall r :: r in redemptions ==> r < next && redemptions[r].inviteId in invites && redemptions[r].accountId in accounts
  }

  ghost predicate OperationsRefer(operations: map<nat, Operation>, invites: set<nat>, accounts: set<nat>) {
    forall o :: o in operations ==>
      (operations[o].inviteId.Some? ==> operations[o].inviteId.value in invites) &&
      (operations[o].accountId.Some? ==> operations[o].accountId.value in accounts)
  }

  ghost predicate OrdersRefer(orders: map<nat, Order>, invites: set<nat>, accounts: set<nat>) {
    forall o :: o in orders ==>
      (orders[o].inviteId.Some? ==> orders[o].inviteId.value in invites) &&
      (orders[o].accountId.Some? ==> orders[o].accountId.value in accounts)
  }

  ghost predicate HasEvent(events: map<string, Event>, order: nat) {
    exists e :: e in events && events[e].orderId == order
  }

  /** Fulfilled orders and event rows correspond one to one, with equal amounts. */
  ghost predicate EventsSound(events: map<string, Event>, orders: map<nat, Order>) {
    && (forall o :: o in orders ==> (orders[o].fulfillment == Fulfilled <==> HasEvent(events, o)))
    && (forall e :: e in events ==> events[e].orderId in orders && events[e].amountFen == orders[events[e].orderId].amountFen)
    && (forall e, f :: e in events && f in events && e != f ==> events[e].orderId != events[f].orderId)
  }

  ghost predicate Sound(db: Db) {
    && AccountsSound(db.accounts, db.nextAccount)
    && OperationsSound(db.operations, db.nextOperation)
    && InvitesSound(db.invites, db.nextInvite)
    && OrdersSound(db.orders, db.nextOrder)
    && JobsSound(db.jobs, db.accounts)
    && RedemptionsSound(db.redemptions, db.nextRedemption, db.invites.Keys, db.accounts.Keys)
    && OperationsRefer(db.operations, db.invites.Keys, db.accounts.Keys)
    && OrdersRefer(db.orders, db.invites.Keys, db.accounts.Keys)
    && EventsSound(db.events, db.orders)
  }

  // ----- single rows -----

  lemma AccountReplaced(accounts: map<nat, Account>, next: nat, a: nat, row: Account)
    requires AccountsSound(accounts, next) && a in accounts
    requires row.id == a && row.version >= 1
    requires row.embyUserId == accounts[a].embyUserId && row.username == accounts[a].username
    ensures AccountsSound(accounts[a := row], next)
    ensures accounts[a := row].Keys == accounts.Keys
  {
  }

  lemma AccountInserted(accounts: map<nat, Account>, next: nat, row: Account)
    requires AccountsSound(accounts, next) && row.id == next && row.version >= 1
    requires AccountFree(accounts, row.embyUserId, row.username)
    ensures AccountsSound(accounts[next := row], next + 1)
    ensures accounts[next := row].Keys == accounts.Keys + {next}
  {
  }

  lemma JobsAfterStatus(jobs: map<nat, Job>, accounts: map<nat, Account>, a: nat, row: Account, now: int)
    requires JobsSound(jobs, accounts)
    ensures JobsSound(UpsertAccessSyncJob(jobs, a, row.status != Active, now), accounts[a := row])
  {
  }

  lemma JobsAfterEdit(jobs: map<nat, Job>, accounts: map<nat, Account>, a: nat, row: Account)
    requires JobsSound(jobs, accounts)
    requires a in jobs ==> accounts[a].status == row.status
    ensures JobsSound(jobs, accounts[a := row])
  {
  }

  lemma OperationReplaced(operations: map<nat, Operation>, next: nat, o: nat, row: Operation)
    requires OperationsSound(operations, next) && o in operations
    requires row.id == o && row.kind == operations[o].kind && row.key == operations[o].key && OperationChecks(row)
    requires row.accountId.Some? ==> forall p :: p in operations && p != o ==> operations[p].accountId != row.accountId
    ensures OperationsSound(operations[o := row], next)
  {
  }

  lemma OperationInserted(operations: map<nat, Operation>, next: nat, row: Operation)
    requires OperationsSound(operations, next)
    requires row.id == next && OperationChecks(row) && row.accountId.None?
    requires forall p :: p in operations ==> operations[p].kind != row.kind || operations[p].key != row.key
    ensures OperationsSound(operations[next := row], next + 1)
  {
  }

  lemma InviteReplaced(invites: map<nat, Invite>, next: nat, i: nat, row: Invite)
    requires InvitesSound(invites, next) && i in invites
    requires row.id == i && row.codeHash == invites[i].codeHash && row.durationDays > 0 && row.maxUses >= 0
    ensures InvitesSound(invites[i := row], next)
    ensures invites[i := row].Keys == invites.Keys
  {
  }

  lemma InviteInserted(invites: map<nat, Invite>, next: nat, row: Invite)
    requires InvitesSound(invites, next)
    requires row.id == next && row.durationDays > 0 && row.maxUses >= 0
    requires forall i :: i in invites ==> invites[i].codeHash != row.codeHash
    ensures InvitesSound(invites[next := row], next + 1)
    ensures invites[next := row].Keys == invites.Keys + {next}
  {
  }

  lemma OrderReplaced(orders: map<nat, Order>, next: nat, o: nat, row: Order)
    requires OrdersSound(orders, next) && o in orders
    requires row.id == o && OrderChecks(row)
    requires row.publicToken == orders[o].publicToken && row.merchantOrderNo == orders[o].merchantOrderNo
    ensures OrdersSound(orders[o := row], next)
  {
  }

  // An order row may change as long as it stays as fulfilled as it was.
  lemma EventsAfterOrder(events: map<string, Event>, orders: map<nat, Order>, o: nat, row: Order)
    requires EventsSound(events, orders) && o in orders
    requires row.fulfillment == orders[o].fulfillment && row.amountFen == orders[o].amountFen
    ensures EventsSound(events, orders[o := row])
  {
  }

  lemma EventRecorded(events: map<string, Event>, orders: map<nat, Order>, e: string, event: Event, row: Order)
    requires EventsSound(events, orders) && e !in events
    requires event.orderId in orders && orders[event.orderId].fulfillment != Fulfilled
    requires row.fulfillment == Fulfilled && row.amountFen == event.amountFen == orders[event.orderId].amountFen
    ensures EventsSound(events[e := event], orders[event.orderId := row])
  {
    var o, events', orders' := event.orderId, events[e := event], orders[event.orderId := row];
    assert events'[e].orderId == o;
    forall p | p in orders'
      ensures orders'[p].fulfillment == Fulfilled <==> HasEvent(events', p)
    {
      if p != o && HasEvent(events, p) {
        var f :| f in events && events[f].orderId == p;
        assert events'[f].orderId == p;
      }
    }
    assert !HasEvent(events, o);
  }

  // ----- references when tables grow -----

  lemma ReferencesGrow(db: Db, invites: set<nat>, accounts: set<nat>)
    requires Sound(db) && db.invites.Keys <= invites && db.accounts.Keys <= accounts
    ensures RedemptionsSound(db.redemptions, db.nextRedemption, invites, accounts)
    ensures OperationsRefer(db.operations, invites, accounts)
    ensures OrdersRefer(db.orders, invites, accounts)
  {
  }

  lemma RedemptionAdded(redemptions: map<nat, Redemption>, next: nat, invites: set<nat>, accounts: set<nat>, row: Redemption)
    requires RedemptionsSound(redemptions, next, invites, accounts) && row.inviteId in invites && row.accountId in accounts
    ensures RedemptionsSound(redemptions[next := row], next + 1, invites, accounts)
  {
  }

  lemma OperationRefers(operations: map<nat, Operation>, invites: set<nat>, accounts: set<nat>, o: nat, row: Operation)
    requires OperationsRefer(operations, invites, accounts)
    requires row.inviteId.Some? ==> row.inviteId.value in invites
    requires row.accountId.Some? ==> row.accountId.value in accounts
    ensures OperationsRefer(operations[o := row], invites, accounts)
  {
  }

  lemma OrderRefers(orders: map<nat, Order>, invites: set<nat>, accounts: set<nat>, o: nat, row: Order)
    requires OrdersRefer(orders, invites, accounts)
    requires row.inviteId.Some? ==> row.inviteId.value in invites
    requires row.accountId.Some? ==> row.accountId.value in accounts
    ensures OrdersRefer(orders[o := row], invites, accounts)
  {
  }

  // ----- single rows of sound tables -----

  lemma AccountFacts(db: Db, a: nat)
    requires Sound(db) && a in db.accounts
    ensures db.accounts[a].id == a < db.nextAccount && db.accounts[a].version >= 1
  {
  }

  lemma NewAccountFacts(db: Db)
    requires Sound(db)
    ensures db.nextAccount !in db.accounts && db.nextAccount !in db.jobs
    ensures forall o :: o in db.operations ==> db.operations[o].accountId != Some(db.nextAccount)
  {
    hide OrdersSound, EventsSound, OrdersRefer, RedemptionsSound, InvitesSound;
  }

  lemma OperationFacts(db: Db, o: nat)
    requires Sound(db) && o in db.operations
    ensures db.operations[o].id == o && OperationChecks(db.operations[o])
    ensures db.operations[o].inviteId.Some? ==> db.operations[o].inviteId.value in db.invites
    ensures db.operations[o].accountId.Some? ==> db.operations[o].accountId.value in db.accounts
  {
  }

  lemma InviteFacts(db: Db, i: nat)
    requires Sound(db) && i in db.invites
    ensures db.invites[i].id == i < db.nextInvite && db.invites[i].durationDays > 0 && db.invites[i].maxUses >= 0
  {
  }

  lemma OrderFacts(db: Db, o: nat)
    requires Sound(db) && o in db.orders
    ensures db.orders[o].id == o && OrderChecks(db.orders[o])
    ensures db.orders[o].accountId.Some? ==> db.orders[o].accountId.value in db.accounts
    ensures db.orders[o].inviteId.Some? ==> db.orders[o].inviteId.value in db.invites
  {
  }

  lemma NewOrderFacts(db: Db)
    requires Sound(db)
    ensures db.nextOrder !in db.orders
  {
  }

  // ----- rows taken away -----

  lemma AccountRemoved(accounts: map<nat, Account>, next: nat, jobs: map<nat, Job>, a: nat)
    requires AccountsSound(accounts, next) && JobsSound(jobs, accounts)
    ensures AccountsSound(accounts - {a}, next) && JobsSound(jobs - {a}, accounts - {a})
    ensures (accounts - {a}).Keys == accounts.Keys - {a}
  {
  }

  lemma OperationsKept(operations: map<nat, Operation>, kept: map<nat, Operation>, next: nat, invites: set<nat>, accounts: set<nat>, a: nat)
    requires OperationsSound(operations, next) && OperationsRefer(operations, invites, accounts)
    requires forall o :: o in kept ==> o in operations && kept[o] == operations[o] && kept[o].accountId != Some(a)
    ensures OperationsSound(kept, next) && OperationsRefer(kept, invites, accounts - {a})
  {
  }

  lemma RedemptionsKept(redemptions: map<nat, Redemption>, kept: map<nat, Redemption>, next: nat, invites: set<nat>, accounts: set<nat>, a: nat)
    requires RedemptionsSound(redemptions, next, invites, accounts)
    requires forall r :: r in kept ==> r in redemptions && kept[r] == redemptions[r] && kept[r].accountId != a
    ensures RedemptionsSound(kept, next, invites, accounts - {a})
  {
  }

  lemma InviteRemoved(db: Db, i: nat)
    requires Sound(db) && !InviteReferenced(db, i)
    ensures InvitesSound(db.invites - {i}, db.nextInvite)
    ensures RedemptionsSound(db.redemptions, db.nextRedemption, db.invites.Keys - {i}, db.accounts.Keys)
    ensures OperationsRefer(db.operations, db.invites.Keys - {i}, db.accounts.Keys)
    ensures (db.invites - {i}).Keys == db.invites.Keys - {i}
  {
    hide OrdersSound, EventsSound, OrdersRefer, JobsSound, AccountsSound, OperationsSound;
  }

  // Forgetting a reference changes nothing that an event or a unique column sees.
  lemma OrdersForget(orders: map<nat, Order>, orders': map<nat, Order>, next: nat)
    requires OrdersSound(orders, next) && orders'.Keys == orders.Keys
    requires forall o :: o in orders ==> orders'[o] == orders[o].(accountId := orders'[o].accountId, inviteId := orders'[o].inviteId)
    ensures OrdersSound(orders', next)
  {
  }

  lemma EventsForget(events: map<string, Event>, orders: map<nat, Order>, orders': map<nat, Order>)
    requires EventsSound(events, orders) && orders'.Keys == orders.Keys
    requires forall o :: o in orders ==> orders'[o] == orders[o].(accountId := orders'[o].accountId, inviteId := orders'[o].inviteId)
    ensures EventsSound(events, orders')
  {
  }

  lemma OrdersForgetAccount(orders: map<nat, Order>, invites: set<nat>, accounts: set<nat>, a: nat)
    requires OrdersRefer(orders, invites, accounts)
    ensures OrdersRefer(WithoutAccount(orders, a), invites, accounts - {a})
  {
  }

  lemma OrdersForgetInvite(orders: map<nat, Order>, invites: set<nat>, accounts: set<nat>, i: nat)
    requires OrdersRefer(orders, invites, accounts)
    ensures OrdersRefer(WithoutInvite(orders, i), invites - {i}, accounts)
  {
  }

  lemma OrderInserted(orders: map<nat, Order>, next: nat, row: Order)
    requires OrdersSound(orders, next) && row.id == next && OrderChecks(row)
    requires forall o :: o in orders ==> orders[o].publicToken != row.publicToken && orders[o].merchantOrderNo != row.merchantOrderNo
    ensures OrdersSound(orders[next := row], next + 1)
  {
  }

  lemma EventsAfterNewOrder(events: map<string, Event>, orders: map<nat, Order>, o: nat, row: Order)
    requires EventsSound(events, orders) && o !in orders && row.fulfillment != Fulfilled
    ensures EventsSound(events, orders[o := row])
  {
    assert !HasEvent(events, o);
  }

  // ----- every transaction -----

  lemma {:induction false} SoundCreateAccount(db: Db, account: Account)
    requires Sound(db)
    ensures Sound(CreateAccount(db, account).db)
  {
    hide AccountsSound, OperationsSound, InvitesSound, OrdersSound, JobsSound, RedemptionsSound, OperationsRefer, OrdersRefer, EventsSound;
    if AccountFree(db.accounts, account.embyUserId, account.username) {
      var a := db.nextAccount;
      var row := account.(id := a, version := 1);
      NewAccountFacts(db);
      AccountInserted(db.accounts, a, row);
      JobsAfterEdit(db.jobs, db.accounts, a, row);
      ReferencesGrow(db, db.invites.Keys, db.accounts.Keys + {a});
    }
  }

  lemma {:induction false} SoundUpdateAccount(db: Db, account: Account)
    requires Sound(db)
    ensures Sound(UpdateAccount(db, account).db)
  {
    hide AccountsSound, OperationsSound, InvitesSound, OrdersSound, JobsSound, RedemptionsSound, OperationsRefer, OrdersRefer, EventsSound;
    if VersionMatches(db, account) {
      var a, db' := account.id, UpdateAccount(db, account).db;
      var row := db'.accounts[a];
      AccountFacts(db, a);
      AccountReplaced(db.accounts, db.nextAccount, a, row);
      JobsAfterEdit(db.jobs, db.accounts, a, row);
    }
  }

  lemma {:induction false} SoundUpdateAccountAndExpire(db: Db, account: Account, disabledAt: int, now: int)
    requires Sound(db)
    ensures Sound(UpdateAccountAndExpire(db, account, disabledAt, now).db)
  {
    hide AccountsSound, OperationsSound, InvitesSound, OrdersSound, JobsSound, RedemptionsSound, OperationsRefer, OrdersRefer, EventsSound;
    if VersionMatches(db, account) && db.accounts[account.id].status == Active {
      var a, db' := account.id, UpdateAccountAndExpire(db, account, disabledAt, now).db;
      var row := db'.accounts[a];
      AccountFacts(db, a);
      AccountReplaced(db.accounts, db.nextAccount, a, row);
      JobsAfterStatus(db.jobs, db.accounts, a, row, now);
    }
  }

  lemma {:induction false} SoundSetAccountStatus(db: Db, account: Account, status: Status, disabledAt: Option<int>, now: int)
    requires Sound(db)
    ensures Sound(SetAccountStatus(db, account, status, disabledAt, now).db)
  {
    hide AccountsSound, OperationsSound, InvitesSound, OrdersSound, JobsSound, RedemptionsSound, OperationsRefer, OrdersRefer, EventsSound;
    if VersionMatches(db, account) {
      var a, db' := account.id, SetAccountStatus(db, account, status, disabledAt, now).db;
      var row := db'.accounts[a];
      AccountFacts(db, a);
      AccountReplaced(db.accounts, db.nextAccount, a, row);
      JobsAfterStatus(db.jobs, db.accounts, a, row, now);
    }
  }

  lemma {:induction false} SoundDeleteAccount(db: Db, id: nat)
    requires Sound(db)
    ensures Sound(DeleteAccount(db, id).db)
  {
    hide AccountsSound, OperationsSound, InvitesSound, OrdersSound, JobsSound, RedemptionsSound, OperationsRefer, OrdersRefer, EventsSound;
    if id in db.accounts {
      var db' := DeleteAccount(db, id).db;
      AccountRemoved(db.accounts, db.nextAccount, db.jobs, id);
      OperationsKept(db.operations, db'.operations, db.nextOperation, db.invites.Keys, db.accounts.Keys, id);
      RedemptionsKept(db.redemptions, db'.redemptions, db.nextRedemption, db.invites.Keys, db.accounts.Keys, id);
      OrdersForget(db.orders, db'.orders, db.nextOrder);
      EventsForget(db.events, db.orders, db'.orders);
      OrdersForgetAccount(db.orders, db.invites.Keys, db.accounts.Keys, id);
    }
  }

  lemma {:induction false} SoundBeginAccountCreate(db: Db, input: OperationInput)
    requires Sound(db) && input.kind == AccountCreate
    ensures Sound(BeginAccountCreateOperation(db, input).db)
  {
    hide AccountsSound, OperationsSound, InvitesSound, OrdersSound, JobsSound, RedemptionsSound, OperationsRefer, OrdersRefer, EventsSound;
    var r := BeginAccountCreateOperation(db, input);
    if FindOperationByKey(db.operations, input.kind, input.key).None? && r.result.Success? {
      OperationInserted(db.operations, db.nextOperation, r.result.value);
      OperationRefers(db.operations, db.invites.Keys, db.accounts.Keys, db.nextOperation, r.result.value);
    }
  }

  lemma {:induction false} SoundBeginRegistration(db: Db, input: OperationInput, codeHash: string)
    requires Sound(db) && input.kind == Register
    ensures Sound(BeginRegistrationOperation(db, input, codeHash).db)
  {
    hide AccountsSound, OperationsSound, InvitesSound, OrdersSound, JobsSound, RedemptionsSound, OperationsRefer, OrdersRefer, EventsSound;
    var r := BeginRegistrationOperation(db, input, codeHash);
    if FindOperationByKey(db.operations, input.kind, input.key).None? && r.result.Success? {
      var i := FindInviteByHash(db.invites, codeHash).value;
      var row := r.db.invites[i];
      InviteFacts(db, i);
      InviteReplaced(db.invites, db.nextInvite, i, row);
      OperationInserted(db.operations, db.nextOperation, r.result.value);
      OperationRefers(db.operations, db.invites.Keys, db.accounts.Keys, db.nextOperation, r.result.value);
    }
  }

  lemma {:induction false} SoundMark(db: Db, id: nat, now: int)
    requires Sound(db)
    ensures Sound(MarkAccountCreateOperationCreating(db, id, now))
  {
    hide AccountsSound, OperationsSound, InvitesSound, OrdersSound, JobsSound, RedemptionsSound, OperationsRefer, OrdersRefer, EventsSound;
    if id in db.operations && db.operations[id].status == Pending {
      var row := MarkAccountCreateOperationCreating(db, id, now).operations[id];
      OperationFacts(db, id);
      OperationReplaced(db.operations, db.nextOperation, id, row);
      OperationRefers(db.operations, db.invites.Keys, db.accounts.Keys, id, row);
    }
  }

  lemma {:induction false} SoundSaveRemote(db: Db, id: nat, embyUserId: string, now: int)
    requires Sound(db)
    ensures Sound(SaveAccountCreateOperationRemote(db, id, embyUserId, now).db)
  {
    hide AccountsSound, OperationsSound, InvitesSound, OrdersSound, JobsSound, RedemptionsSound, OperationsRefer, OrdersRefer, EventsSound;
    if id in db.operations && db.operations[id].status != Completed {
      var row := SaveAccountCreateOperationRemote(db, id, embyUserId, now).db.operations[id];
      OperationFacts(db, id);
      OperationReplaced(db.operations, db.nextOperation, id, row);
      OperationRefers(db.operations, db.invites.Keys, db.accounts.Keys, id, row);
    }
  }

  lemma {:induction false} SoundComplete(db: Db, id: nat, now: int)
    requires Sound(db)
    ensures Sound(CompleteAccountCreateOperation(db, id, now).db)
  {
    hide AccountsSound, OperationsSound, InvitesSound, OrdersSound, JobsSound, RedemptionsSound, OperationsRefer, OrdersRefer, EventsSound;
    var r := CompleteAccountCreateOperation(db, id, now);
    if id in db.operations && db.operations[id].status != Completed && r.result.Success? {
      var a, account, row := db.nextAccount, r.result.value, r.db.operations[id];
      var accounts := db.accounts.Keys + {a};
      OperationFacts(db, id);
      NewAccountFacts(db);
      AccountInserted(db.accounts, a, account);
      JobsAfterEdit(db.jobs, db.accounts, a, account);
      JobsAfterStatus(db.jobs, db.accounts, a, account, now);
      ReferencesGrow(db, db.invites.Keys, accounts);
      OperationReplaced(db.operations, db.nextOperation, id, row);
      OperationRefers(db.operations, db.invites.Keys, accounts, id, row);
      if row.kind == Register {
        RedemptionAdded(db.redemptions, db.nextRedemption, db.invites.Keys, accounts, r.db.redemptions[db.nextRedemption]);
      }
    }
  }

  lemma {:induction false} SoundCreateInvite(db: Db, invite: Invite)
    requires Sound(db)
    ensures Sound(CreateInvite(db, invite).db)
  {
    hide AccountsSound, OperationsSound, InvitesSound, OrdersSound, JobsSound, RedemptionsSound, OperationsRefer, OrdersRefer, EventsSound;
    var r := CreateInvite(db, invite);
    if r.result.Success? {
      InviteInserted(db.invites, db.nextInvite, r.result.value);
      ReferencesGrow(db, db.invites.Keys + {db.nextInvite}, db.accounts.Keys);
    }
  }

  lemma {:induction false} SoundSetInviteEnabled(db: Db, id: nat, enabled: bool)
    requires Sound(db)
    ensures Sound(SetInviteEnabled(db, id, enabled).db)
  {
    hide AccountsSound, OperationsSound, InvitesSound, OrdersSound, JobsSound, RedemptionsSound, OperationsRefer, OrdersRefer, EventsSound;
    if id in db.invites {
      var i := id;
      var row := SetInviteEnabled(db, id, enabled).db.invites[i];
      InviteFacts(db, i);
      InviteReplaced(db.invites, db.nextInvite, i, row);
    }
  }

  lemma {:induction false} SoundDeleteInvite(db: Db, id: nat)
    requires Sound(db)
    ensures Sound(DeleteInvite(db, id).db)
  {
    hide AccountsSound, OperationsSound, InvitesSound, OrdersSound, JobsSound, RedemptionsSound, OperationsRefer, OrdersRefer, EventsSound;
    var r := DeleteInvite(db, id);
    if r.result.Success? {
      InviteRemoved(db, id);
      OrdersForget(db.orders, r.db.orders, db.nextOrder);
      EventsForget(db.events, db.orders, r.db.orders);
      OrdersForgetInvite(db.orders, db.invites.Keys, db.accounts.Keys, id);
    }
  }

  lemma {:induction false} SoundConsumeInvite(db: Db, codeHash: string, now: int)
    requires Sound(db)
    ensures Sound(ConsumeInvite(db, codeHash, now).db)
  {
    hide AccountsSound, OperationsSound, InvitesSound, OrdersSound, JobsSound, RedemptionsSound, OperationsRefer, OrdersRefer, EventsSound;
    if ConsumeInvite(db, codeHash, now).result.Success? {
      var i := FindInviteByHash(db.invites, codeHash).value;
      var row := ConsumeInvite(db, codeHash, now).db.invites[i];
      InviteFacts(db, i);
      InviteReplaced(db.invites, db.nextInvite, i, row);
    }
  }

  lemma {:induction false} SoundReleaseInvite(db: Db, id: nat)
    requires Sound(db)
    ensures Sound(ReleaseInvite(db, id))
  {
    hide AccountsSound, OperationsSound, InvitesSound, OrdersSound, JobsSound, RedemptionsSound, OperationsRefer, OrdersRefer, EventsSound;
    if id in db.invites {
      var i := id;
      var row := ReleaseInvite(db, id).invites[i];
      InviteFacts(db, i);
      InviteReplaced(db.invites, db.nextInvite, i, row);
    }
  }

  lemma {:induction false} SoundRecordRedemption(db: Db, redemption: Redemption)
    requires Sound(db)
    ensures Sound(RecordRedemption(db, redemption).db)
  {
    hide AccountsSound, OperationsSound, InvitesSound, OrdersSound, JobsSound, RedemptionsSound, OperationsRefer, OrdersRefer, EventsSound;
    if RecordRedemption(db, redemption).result.Success? {
      RedemptionAdded(db.redemptions, db.nextRedemption, db.invites.Keys, db.accounts.Keys, redemption);
    }
  }

  lemma {:induction false} SoundRenewAccount(db: Db, id: nat, minutes: int, now: int)
    requires Sound(db) && id in db.accounts
    ensures Sound(RenewAccount(db, id, minutes, now))
  {
    hide AccountsSound, OperationsSound, InvitesSound, OrdersSound, JobsSound, RedemptionsSound, OperationsRefer, OrdersRefer, EventsSound;
    var row := Renewed(db.accounts[id], minutes, now);
    AccountFacts(db, id);
    AccountReplaced(db.accounts, db.nextAccount, id, row);
    if Reactivated(db.accounts[id], minutes, now) {
      JobsAfterStatus(db.jobs, db.accounts, id, row, now);
    } else {
      JobsAfterEdit(db.jobs, db.accounts, id, row);
    }
  }

  lemma {:induction false} SoundRedeemRenewal(db: Db, codeHash: string, username: string, now: int)
    requires Sound(db)
    ensures Sound(RedeemRenewal(db, codeHash, username, now).db)
  {
    hide AccountsSound, OperationsSound, InvitesSound, OrdersSound, JobsSound, RedemptionsSound, OperationsRefer, OrdersRefer, EventsSound;
    var r := RedeemRenewal(db, codeHash, username, now);
    if r.result.Success? {
      var a := FindAccountByUsername(db.accounts, username).value;
      var i := FindInviteByHash(db.invites, codeHash).value;
      var db1 := db.(invites := UseInvite(db.invites, i));
      var row := db1.invites[i];
      InviteFacts(db, i);
      InviteReplaced(db.invites, db.nextInvite, i, row);
      SoundRenewAccount(db1, a, row.durationMinutes, now);
      SoundRecordRedemption(RenewAccount(db1, a, row.durationMinutes, now), Redemption(i, a, Renewal, row.durationDays, row.durationMinutes, now));
    }
  }

  lemma {:induction false} SoundCreatePaymentOrder(db: Db, order: Order)
    requires Sound(db)
    ensures Sound(CreatePaymentOrder(db, order).db)
  {
    hide AccountsSound, OperationsSound, InvitesSound, OrdersSound, JobsSound, RedemptionsSound, OperationsRefer, OrdersRefer, EventsSound;
    var r := CreatePaymentOrder(db, order);
    if r.result.Success? {
      NewOrderFacts(db);
      OrderInserted(db.orders, db.nextOrder, r.result.value);
      EventsAfterNewOrder(db.events, db.orders, db.nextOrder, r.result.value);
      OrderRefers(db.orders, db.invites.Keys, db.accounts.Keys, db.nextOrder, r.result.value);
    }
  }

  lemma {:induction false} SoundUpdatePaymentProvider(db: Db, id: nat, status: string, url: string, memo: string, expiresAt: int, now: int)
    requires Sound(db)
    ensures Sound(UpdatePaymentProvider(db, id, status, url, memo, expiresAt, now).db)
  {
    hide AccountsSound, OperationsSound, InvitesSound, OrdersSound, JobsSound, RedemptionsSound, OperationsRefer, OrdersRefer, EventsSound;
    if id in db.orders && db.orders[id].fulfillment == FulfillmentPending {
      var row := UpdatePaymentProvider(db, id, status, url, memo, expiresAt, now).db.orders[id];
      OrderFacts(db, id);
      OrderReplaced(db.orders, db.nextOrder, id, row);
      OrderRefers(db.orders, db.invites.Keys, db.accounts.Keys, id, row);
      EventsAfterOrder(db.events, db.orders, id, row);
    }
  }

  lemma {:induction false} SoundSetPaymentOrderState(db: Db, id: nat, status: PaymentStatus, providerStatus: string, reason: string, now: int)
    requires Sound(db) && status != Paid
    ensures Sound(SetPaymentOrderState(db, id, status, providerStatus, reason, now))
  {
    hide AccountsSound, OperationsSound, InvitesSound, OrdersSound, JobsSound, RedemptionsSound, OperationsRefer, OrdersRefer, EventsSound;
    if id in db.orders && db.orders[id].fulfillment == FulfillmentPending {
      var row := SetPaymentOrderState(db, id, status, providerStatus, reason, now).orders[id];
      OrderFacts(db, id);
      OrderReplaced(db.orders, db.nextOrder, id, row);
      OrderRefers(db.orders, db.invites.Keys, db.accounts.Keys, id, row);
      EventsAfterOrder(db.events, db.orders, id, row);
    }
  }

  /** The payment reached the branches that deliver a benefit. */
  ghost predicate Deliverable(db: Db, input: PaymentInput) {
    && input.orderId in db.orders && db.orders[input.orderId].fulfillment != Fulfilled
    && db.orders[input.orderId].amountFen == input.amountFen && input.eventId !in db.events
  }

  // The order and event rows of a delivery, whatever the benefit was.
  lemma PaymentRecorded(db: Db, input: PaymentInput, inviteId: Option<nat>, invites: set<nat>)
    requires Sound(db) && Deliverable(db, input)
    requires OrdersRefer(db.orders, invites, db.accounts.Keys) && (inviteId.Some? ==> inviteId.value in invites)
    ensures var order := db.orders[input.orderId];
      var orders' := db.orders[input.orderId := PaidOrder(order, input, inviteId)];
      && OrdersSound(orders', db.nextOrder) && OrdersRefer(orders', invites, db.accounts.Keys)
      && EventsSound(db.events[input.eventId := PaidEvent(order, input)], orders')
  {
    hide AccountsSound, OperationsSound, InvitesSound, OrdersSound, JobsSound, RedemptionsSound, OperationsRefer, OrdersRefer, EventsSound;
    var order := db.orders[input.orderId];
    var row := PaidOrder(order, input, inviteId);
    OrderFacts(db, input.orderId);
    EventRecorded(db.events, db.orders, input.eventId, PaidEvent(order, input), row);
    OrderReplaced(db.orders, db.nextOrder, input.orderId, row);
    OrderRefers(db.orders, invites, db.accounts.Keys, input.orderId, row);
  }

  lemma {:induction false} SoundFulfillPaymentOrder(db: Db, input: PaymentInput)
    requires Sound(db)
    ensures Sound(FulfillPaymentOrder(db, input).db)
  {
    hide AccountsSound, OperationsSound, InvitesSound, OrdersSound, JobsSound, RedemptionsSound, OperationsRefer, OrdersRefer, EventsSound;
    if Deliverable(db, input) && FulfillPaymentOrder(db, input).result.Success? {
      var order := db.orders[input.orderId];
      OrderFacts(db, input.orderId);
      hide OrderChecks, InvalidPaymentInput, PaidEvent, PaidOrder;
      if order.kind == ActivationOrder {
        var invites := db.invites.Keys + {db.nextInvite};
        InviteInserted(db.invites, db.nextInvite, ActivationInvite(db.nextInvite, order, input));
        ReferencesGrow(db, invites, db.accounts.Keys);
        PaymentRecorded(db, input, Some(db.nextInvite), invites);
      } else {
        var a := order.accountId.value;
        SoundRenewAccount(db, a, order.durationMinutes, input.now);
        PaymentRecorded(db, input, None, db.invites.Keys);
        assert RenewAccount(db, a, order.durationMinutes, input.now).accounts.Keys == db.accounts.Keys;
      }
    }
  }

  /** A delivery of an activation, and of a renewal, in full. */
  lemma SaleEffect(db: Db, input: PaymentInput)
    requires Deliverable(db, input) && FulfillPaymentOrder(db, input).result.Success? && db.orders[input.orderId].kind == ActivationOrder
    ensures var db', order, i := FulfillPaymentOrder(db, input).db, db.orders[input.orderId], db.nextInvite;
      && db'.nextInvite == i + 1 && db'.invites == db.invites[i := ActivationInvite(i, order, input)]
      && db'.orders == db.orders[input.orderId := PaidOrder(order, input, Some(i))]
      && db' == db.(invites := db'.invites, orders := db'.orders, events := db'.events, nextInvite := i + 1)
  {
    hide InvalidPaymentInput, PaidEvent, PaidOrder, ActivationInvite;
  }

  lemma PaidRenewalEffect(db: Db, input: PaymentInput)
    requires Deliverable(db, input) && FulfillPaymentOrder(db, input).result.Success? && db.orders[input.orderId].kind == RenewalOrder
    ensures var db', order := FulfillPaymentOrder(db, input).db, db.orders[input.orderId];
      && order.accountId.Some? && order.accountId.value in db.accounts
      && db' == RenewAccount(db, order.accountId.value, order.durationMinutes, input.now).(
           orders := db.orders[input.orderId := PaidOrder(order, input, None)], events := db'.events)
  {
    hide InvalidPaymentInput, PaidEvent, PaidOrder, RenewAccount;
  }

  /** A delivery that is not deliverable any more changes no table, whatever its event id. */
  lemma UndeliverableChangesNothing(db: Db, input: PaymentInput)
    requires !Deliverable(db, input) || FulfillPaymentOrder(db, input).result.Failure?
    ensures FulfillPaymentOrder(db, input).db == db
  {
    hide InvalidPaymentInput, PaidEvent, PaidOrder, ActivationInvite, RenewAccount;
  }
}
