/** What the books say about the tables in every reachable state: uses of invites, subscription time,
    activation invites sold, and accounts provisioned. Each ledger speaks of the tables it needs. */
module Ledgers {
  import opened Domain
  import opened Totals
  import opened Timestamps
  import opened Transactions
  import opened TableInvariants
  import opened Portal
  import opened Outbox

  // ----- uses of invites -----

  function OpenRegistration(i: nat): Operation -> int {
    (o: Operation) => if o.kind == Register && o.status != Completed && o.inviteId == Some(i) then 1 else 0
  }

  /** used_count = redemptions ever recorded + open registrations + direct registrations in between. */
  ghost predicate Balanced(invite: Invite, i: nat, operations: map<nat, Operation>, recorded: map<nat, int>, held: map<nat, int>) {
    && invite.usedCount == At(recorded, i) + Total(operations, OpenRegistration(i)) + At(held, i)
    && (invite.maxUses > 0 ==> invite.usedCount <= invite.maxUses)
  }

  ghost predicate InviteBooksHold(invites: map<nat, Invite>, operations: map<nat, Operation>, recorded: map<nat, int>, held: map<nat, int>, next: nat) {
    && (forall i :: i in invites ==> Balanced(invites[i], i, operations, recorded, held))
    && (forall i :: i in recorded ==> i < next && recorded[i] >= 0)
    && (forall i :: i in held ==> i < next && held[i] >= 0)
  }

  // ----- subscription time -----

  function RenewalMinutes(a: nat): Redemption -> int {
    (r: Redemption) => if r.kind == Renewal && r.accountId == a then r.durationMinutes else 0
  }

  function PaidMinutes(a: nat): Order -> int {
    (o: Order) => if o.kind == RenewalOrder && o.fulfillment == Fulfilled && o.accountId == Some(a) then o.durationMinutes else 0
  }

  /** An account's expiry is where it began, plus what accepted edits meant to change, plus the minutes
      of its renewal redemptions and of its fulfilled renewal orders. */
  ghost predicate TimeKept(account: Account, a: nat, redemptions: map<nat, Redemption>, orders: map<nat, Order>,
                           initial: map<nat, int>, edits: map<nat, int>) {
    account.expiresAt == At(initial, a) + At(edits, a) + Minutes(Total(redemptions, RenewalMinutes(a)) + Total(orders, PaidMinutes(a)))
  }

  ghost predicate TimeBooksHold(accounts: map<nat, Account>, redemptions: map<nat, Redemption>, orders: map<nat, Order>,
                                initial: map<nat, int>, edits: map<nat, int>, next: nat) {
    && (forall a :: a in accounts ==> TimeKept(accounts[a], a, redemptions, orders, initial, edits))
    && (forall a :: a in edits ==> a < next)
  }

  // ----- activation invites sold -----

  /** One use of what the order sold, at any time. */
  ghost predicate SoldInvite(invite: Invite, order: Order) {
    && invite.maxUses == 1 && invite.durationMinutes == order.durationMinutes && invite.durationDays == order.durationDays
    && invite.startsAt == None && invite.expiresAt == None
  }

  ghost predicate Minted(minted: map<nat, nat>, o: nat) {
    exists i :: i in minted && minted[i] == o
  }

  /** Fulfilled activation orders and the invites minted for them correspond one to one; while such an
      invite exists its order names it and it grants one use of what the order sold. */
  ghost predicate MintedHolds(minted: map<nat, nat>, orders: map<nat, Order>, invites: map<nat, Invite>, next: nat) {
    && (forall i :: i in minted ==>
          && i < next && minted[i] in orders
          && orders[minted[i]].kind == ActivationOrder && orders[minted[i]].fulfillment == Fulfilled
          && (i in invites ==> orders[minted[i]].inviteId == Some(i) && SoldInvite(invites[i], orders[minted[i]])))
    && (forall i, j :: i in minted && j in minted && i != j ==> minted[i] != minted[j])
    && (forall o :: o in orders && orders[o].kind == ActivationOrder && orders[o].fulfillment == Fulfilled ==> Minted(minted, o))
  }

  // ----- accounts provisioned -----

  /** An operation inserts at most one account over the whole run, and has done so when it is completed. */
  ghost predicate CountsHold(provisioned: map<nat, int>, operations: map<nat, Operation>, next: nat) {
    && (forall o :: o in provisioned ==> o < next && 0 <= provisioned[o] <= 1)
    && (forall o :: o in operations ==> (operations[o].status == Completed <==> At(provisioned, o) == 1))
  }

  ghost predicate LedgersHold(s: State) {
    && InviteBooksHold(s.db.invites, s.db.operations, s.books.recorded, s.books.held, s.db.nextInvite)
    && TimeBooksHold(s.db.accounts, s.db.redemptions, s.db.orders, s.books.initialExpiry, s.books.edits, s.db.nextAccount)
    && MintedHolds(s.books.minted, s.db.orders, s.db.invites, s.db.nextInvite)
    && CountsHold(s.books.provisioned, s.db.operations, s.db.nextOperation)
  }

  // ----- invites: operations -----

  // No operation and no booking refers to an invite that does not exist yet.
  lemma NoOpenRegistration(operations: map<nat, Operation>, invites: set<nat>, accounts: set<nat>, i: nat)
    requires OperationsRefer(operations, invites, accounts) && i !in invites
    ensures Total(operations, OpenRegistration(i)) == 0
  {
    TotalZero(operations, OpenRegistration(i));
  }

  lemma OpenRegistrationsNotNegative(operations: map<nat, Operation>, i: nat)
    ensures Total(operations, OpenRegistration(i)) >= 0
  {
    TotalAtLeast(operations, OpenRegistration(i));
  }

  /** An operation that stays open, or stays closed, leaves every balance alone. */
  lemma BooksAfterOperation(invites: map<nat, Invite>, operations: map<nat, Operation>, recorded: map<nat, int>, held: map<nat, int>, next: nat,
                            o: nat, row: Operation)
    requires InviteBooksHold(invites, operations, recorded, held, next) && o in operations
    requires row.kind == operations[o].kind && row.inviteId == operations[o].inviteId
    requires row.status == Completed <==> operations[o].status == Completed
    ensures InviteBooksHold(invites, operations[o := row], recorded, held, next)
  {
    forall i | i in invites
      ensures Balanced(invites[i], i, operations[o := row], recorded, held)
    {
      TotalReplace(operations, OpenRegistration(i), o, row);
    }
  }

  lemma BooksAfterNewOperation(invites: map<nat, Invite>, operations: map<nat, Operation>, recorded: map<nat, int>, held: map<nat, int>, next: nat,
                               o: nat, row: Operation)
    requires InviteBooksHold(invites, operations, recorded, held, next) && o !in operations && row.kind == AccountCreate
    ensures InviteBooksHold(invites, operations[o := row], recorded, held, next)
  {
    forall i | i in invites
      ensures Balanced(invites[i], i, operations[o := row], recorded, held)
    {
      TotalInsert(operations, OpenRegistration(i), o, row);
    }
  }

  /** Beginning a registration uses the invite once and opens one operation on it. */
  lemma BooksAfterReservation(invites: map<nat, Invite>, operations: map<nat, Operation>, recorded: map<nat, int>, held: map<nat, int>, next: nat,
                              o: nat, row: Operation, i: nat)
    requires InviteBooksHold(invites, operations, recorded, held, next) && o !in operations && i in invites
    requires row.kind == Register && row.status != Completed && row.inviteId == Some(i)
    requires invites[i].maxUses > 0 ==> invites[i].usedCount < invites[i].maxUses
    ensures InviteBooksHold(UseInvite(invites, i), operations[o := row], recorded, held, next)
  {
    forall j | j in invites
      ensures Balanced(UseInvite(invites, i)[j], j, operations[o := row], recorded, held)
    {
      TotalInsert(operations, OpenRegistration(j), o, row);
    }
  }

  /** Completing a registration closes its operation and records one redemption. */
  lemma BooksAfterCompletion(invites: map<nat, Invite>, operations: map<nat, Operation>, recorded: map<nat, int>, held: map<nat, int>, next: nat,
                             o: nat, row: Operation, i: nat)
    requires InviteBooksHold(invites, operations, recorded, held, next) && o in operations && i < next
    requires operations[o].kind == Register && operations[o].status != Completed && operations[o].inviteId == Some(i)
    requires row.kind == Register && row.status == Completed && row.inviteId == Some(i)
    ensures InviteBooksHold(invites, operations[o := row], Plus(recorded, i, 1), held, next)
  {
    forall j | j in invites
      ensures Balanced(invites[j], j, operations[o := row], Plus(recorded, i, 1), held)
    {
      TotalReplace(operations, OpenRegistration(j), o, row);
    }
  }

  /** Completing an account creation touches no invite. */
  lemma BooksAfterPlainCompletion(invites: map<nat, Invite>, operations: map<nat, Operation>, recorded: map<nat, int>, held: map<nat, int>, next: nat,
                                  o: nat, row: Operation)
    requires InviteBooksHold(invites, operations, recorded, held, next) && o in operations
    requires operations[o].kind != Register && row.kind == operations[o].kind
    ensures InviteBooksHold(invites, operations[o := row], recorded, held, next)
  {
    forall j | j in invites
      ensures Balanced(invites[j], j, operations[o := row], recorded, held)
    {
      TotalReplace(operations, OpenRegistration(j), o, row);
    }
  }

  // Only completed operations are retired with their account.
  lemma BooksAfterRetirement(invites: map<nat, Invite>, operations: map<nat, Operation>, kept: map<nat, Operation>,
                             recorded: map<nat, int>, held: map<nat, int>, next: nat)
    requires InviteBooksHold(invites, operations, recorded, held, next)
    requires forall o :: o in kept ==> o in operations && kept[o] == operations[o]
    requires forall o :: o in operations && o !in kept ==> operations[o].status == Completed
    ensures InviteBooksHold(invites, kept, recorded, held, next)
  {
    forall i | i in invites
      ensures Balanced(invites[i], i, kept, recorded, held)
    {
      TotalSame(operations, kept, OpenRegistration(i));
    }
  }

  // ----- invites: rows -----

  lemma BooksAfterNewInvite(db: Db, recorded: map<nat, int>, held: map<nat, int>, row: Invite)
    requires Sound(db) && InviteBooksHold(db.invites, db.operations, recorded, held, db.nextInvite) && row.usedCount == 0
    ensures InviteBooksHold(db.invites[db.nextInvite := row], db.operations, recorded, held, db.nextInvite + 1)
  {
    assert db.nextInvite !in db.invites;
    NoOpenRegistration(db.operations, db.invites.Keys, db.accounts.Keys, db.nextInvite);
    hide Sound;
  }

  lemma BooksAfterSwitch(invites: map<nat, Invite>, operations: map<nat, Operation>, recorded: map<nat, int>, held: map<nat, int>, next: nat,
                         i: nat, row: Invite)
    requires InviteBooksHold(invites, operations, recorded, held, next) && i in invites
    requires row.usedCount == invites[i].usedCount && row.maxUses == invites[i].maxUses
    ensures InviteBooksHold(invites[i := row], operations, recorded, held, next)
  {
  }

  /** One more use, booked as held or as recorded. */
  lemma BooksAfterUse(invites: map<nat, Invite>, operations: map<nat, Operation>, recorded: map<nat, int>, held: map<nat, int>, next: nat, i: nat)
    requires InviteBooksHold(invites, operations, recorded, held, next) && i in invites && i < next
    requires invites[i].maxUses > 0 ==> invites[i].usedCount < invites[i].maxUses
    ensures InviteBooksHold(UseInvite(invites, i), operations, recorded, Plus(held, i, 1), next)
    ensures InviteBooksHold(UseInvite(invites, i), operations, Plus(recorded, i, 1), held, next)
  {
  }

  /** A release gives back a use that is still held, so its guard against zero never bites. */
  lemma BooksAfterRelease(db: Db, recorded: map<nat, int>, held: map<nat, int>, i: nat)
    requires InviteBooksHold(db.invites, db.operations, recorded, held, db.nextInvite) && At(held, i) > 0
    ensures i in db.invites ==> db.invites[i].usedCount > 0
    ensures InviteBooksHold(ReleaseInvite(db, i).invites, db.operations, recorded, Plus(held, i, -1), db.nextInvite)
  {
    OpenRegistrationsNotNegative(db.operations, i);
    assert i in db.invites ==> Balanced(db.invites[i], i, db.operations, recorded, held);
  }

  lemma BooksAfterRecord(invites: map<nat, Invite>, operations: map<nat, Operation>, recorded: map<nat, int>, held: map<nat, int>, next: nat, i: nat)
    requires InviteBooksHold(invites, operations, recorded, held, next) && At(held, i) > 0
    ensures InviteBooksHold(invites, operations, Plus(recorded, i, 1), Plus(held, i, -1), next)
  {
  }

  // ----- time -----

  lemma TimeAfterEdit(accounts: map<nat, Account>, redemptions: map<nat, Redemption>, orders: map<nat, Order>,
                      initial: map<nat, int>, edits: map<nat, int>, next: nat, a: nat, row: Account, change: int)
    requires TimeBooksHold(accounts, redemptions, orders, initial, edits, next) && a in accounts && a < next
    requires row.expiresAt == accounts[a].expiresAt + change
    ensures TimeBooksHold(accounts[a := row], redemptions, orders, initial, Plus(edits, a, change), next)
    ensures change == 0 ==> TimeBooksHold(accounts[a := row], redemptions, orders, initial, edits, next)
  {
  }

  lemma TimeAfterRenewal(accounts: map<nat, Account>, redemptions: map<nat, Redemption>, orders: map<nat, Order>,
                         initial: map<nat, int>, edits: map<nat, int>, next: nat, a: nat, row: Account, r: nat, redemption: Redemption)
    requires TimeBooksHold(accounts, redemptions, orders, initial, edits, next) && a in accounts && r !in redemptions
    requires redemption.kind == Renewal && redemption.accountId == a
    requires row.expiresAt == accounts[a].expiresAt + Minutes(redemption.durationMinutes)
    ensures TimeBooksHold(accounts[a := row], redemptions[r := redemption], orders, initial, edits, next)
  {
    forall b | b in accounts
      ensures TimeKept(accounts[a := row][b], b, redemptions[r := redemption], orders, initial, edits)
    {
      TotalInsert(redemptions, RenewalMinutes(b), r, redemption);
    }
  }

  lemma TimeAfterRegistration(accounts: map<nat, Account>, redemptions: map<nat, Redemption>, orders: map<nat, Order>,
                              initial: map<nat, int>, edits: map<nat, int>, next: nat, r: nat, redemption: Redemption)
    requires TimeBooksHold(accounts, redemptions, orders, initial, edits, next) && r !in redemptions && redemption.kind == Registration
    ensures TimeBooksHold(accounts, redemptions[r := redemption], orders, initial, edits, next)
  {
    forall b | b in accounts
      ensures TimeKept(accounts[b], b, redemptions[r := redemption], orders, initial, edits)
    {
      TotalInsert(redemptions, RenewalMinutes(b), r, redemption);
    }
  }

  // Neither redemptions nor orders know an account that does not exist yet.
  lemma TimeAfterInsert(db: Db, initial: map<nat, int>, edits: map<nat, int>, row: Account)
    requires Sound(db) && TimeBooksHold(db.accounts, db.redemptions, db.orders, initial, edits, db.nextAccount)
    ensures TimeBooksHold(db.accounts[db.nextAccount := row], db.redemptions, db.orders, initial[db.nextAccount := row.expiresAt], edits, db.nextAccount + 1)
  {
    var a := db.nextAccount;
    NewAccountFacts(db);
    NoTimeYet(db, a);
    hide Sound;
  }

  lemma NoTimeYet(db: Db, a: nat)
    requires Sound(db) && a !in db.accounts
    ensures Total(db.redemptions, RenewalMinutes(a)) == 0 && Total(db.orders, PaidMinutes(a)) == 0
  {
    assert forall r :: r in db.redemptions ==> db.redemptions[r].accountId != a;
    assert forall o :: o in db.orders ==> db.orders[o].accountId != Some(a);
    hide Sound;
    TotalZero(db.redemptions, RenewalMinutes(a));
    TotalZero(db.orders, PaidMinutes(a));
  }

  lemma TimeAfterDelete(db: Db, initial: map<nat, int>, edits: map<nat, int>, a: nat)
    requires TimeBooksHold(db.accounts, db.redemptions, db.orders, initial, edits, db.nextAccount)
    ensures var db' := DeleteAccount(db, a).db;
      TimeBooksHold(db'.accounts, db'.redemptions, db'.orders, initial, edits, db'.nextAccount)
  {
    var db' := DeleteAccount(db, a).db;
    if a in db.accounts {
      forall b | b in db'.accounts
        ensures TimeKept(db'.accounts[b], b, db'.redemptions, db'.orders, initial, edits)
      {
        MinutesAfterDelete(db, a, b);
      }
    }
  }

  lemma MinutesAfterDelete(db: Db, a: nat, b: nat)
    requires a in db.accounts && a != b
    ensures Total(DeleteAccount(db, a).db.redemptions, RenewalMinutes(b)) == Total(db.redemptions, RenewalMinutes(b))
    ensures Total(DeleteAccount(db, a).db.orders, PaidMinutes(b)) == Total(db.orders, PaidMinutes(b))
  {
    var db' := DeleteAccount(db, a).db;
    TotalSame(db.redemptions, db'.redemptions, RenewalMinutes(b));
    TotalSame(db.orders, db'.orders, PaidMinutes(b));
  }

  ghost predicate SameMinutes(orders: map<nat, Order>, orders': map<nat, Order>) {
    orders'.Keys == orders.Keys &&
    forall o :: o in orders ==>
      orders'[o].kind == orders[o].kind && orders'[o].durationMinutes == orders[o].durationMinutes &&
      orders'[o].fulfillment == orders[o].fulfillment && orders'[o].accountId == orders[o].accountId
  }

  lemma TimeAfterOrders(accounts: map<nat, Account>, redemptions: map<nat, Redemption>, orders: map<nat, Order>, orders': map<nat, Order>,
                        initial: map<nat, int>, edits: map<nat, int>, next: nat)
    requires TimeBooksHold(accounts, redemptions, orders, initial, edits, next) && SameMinutes(orders, orders')
    ensures TimeBooksHold(accounts, redemptions, orders', initial, edits, next)
  {
    forall b | b in accounts
      ensures TimeKept(accounts[b], b, redemptions, orders', initial, edits)
    {
      TotalSame(orders, orders', PaidMinutes(b));
    }
  }

  lemma TimeAfterNewOrder(accounts: map<nat, Account>, redemptions: map<nat, Redemption>, orders: map<nat, Order>,
                          initial: map<nat, int>, edits: map<nat, int>, next: nat, o: nat, row: Order)
    requires TimeBooksHold(accounts, redemptions, orders, initial, edits, next) && o !in orders && row.fulfillment != Fulfilled
    ensures TimeBooksHold(accounts, redemptions, orders[o := row], initial, edits, next)
  {
    forall b | b in accounts
      ensures TimeKept(accounts[b], b, redemptions, orders[o := row], initial, edits)
    {
      TotalInsert(orders, PaidMinutes(b), o, row);
    }
  }

  /** A fulfilled activation order adds no time; a fulfilled renewal order adds its minutes to its account. */
  lemma TimeAfterActivation(accounts: map<nat, Account>, redemptions: map<nat, Redemption>, orders: map<nat, Order>,
                            initial: map<nat, int>, edits: map<nat, int>, next: nat, o: nat, row: Order)
    requires TimeBooksHold(accounts, redemptions, orders, initial, edits, next) && o in orders
    requires row.kind == orders[o].kind == ActivationOrder
    ensures TimeBooksHold(accounts, redemptions, orders[o := row], initial, edits, next)
  {
    forall b | b in accounts
      ensures TimeKept(accounts[b], b, redemptions, orders[o := row], initial, edits)
    {
      TotalReplace(orders, PaidMinutes(b), o, row);
    }
  }

  lemma TimeAfterPaidRenewal(accounts: map<nat, Account>, redemptions: map<nat, Redemption>, orders: map<nat, Order>,
                             initial: map<nat, int>, edits: map<nat, int>, next: nat, a: nat, account: Account, o: nat, row: Order)
    requires TimeBooksHold(accounts, redemptions, orders, initial, edits, next) && o in orders && a in accounts
    requires orders[o].fulfillment != Fulfilled && row.fulfillment == Fulfilled && row.kind == RenewalOrder && row.accountId == Some(a)
    requires account.expiresAt == accounts[a].expiresAt + Minutes(row.durationMinutes)
    ensures TimeBooksHold(accounts[a := account], redemptions, orders[o := row], initial, edits, next)
  {
    forall b | b in accounts
      ensures TimeKept(accounts[a := account][b], b, redemptions, orders[o := row], initial, edits)
    {
      TotalReplace(orders, PaidMinutes(b), o, row);
    }
  }

  // ----- sold invites -----

  /** Invites may go, be used, or be switched; their codes, durations, periods and limits stay. */
  ghost predicate SameTerms(invites: map<nat, Invite>, invites': map<nat, Invite>) {
    forall i :: i in invites' ==>
      i in invites && invites'[i] == invites[i].(usedCount := invites'[i].usedCount, enabled := invites'[i].enabled)
  }

  lemma MintedAfterInvites(minted: map<nat, nat>, orders: map<nat, Order>, invites: map<nat, Invite>, invites': map<nat, Invite>, next: nat)
    requires MintedHolds(minted, orders, invites, next) && SameTerms(invites, invites')
    ensures MintedHolds(minted, orders, invites', next)
  {
  }

  lemma MintedAfterNewInvite(minted: map<nat, nat>, orders: map<nat, Order>, invites: map<nat, Invite>, next: nat, row: Invite)
    requires MintedHolds(minted, orders, invites, next)
    ensures MintedHolds(minted, orders, invites[next := row], next + 1)
  {
  }

  ghost predicate SameSales(orders: map<nat, Order>, orders': map<nat, Order>, invites: set<nat>) {
    orders'.Keys == orders.Keys &&
    forall o :: o in orders ==>
      orders'[o].kind == orders[o].kind && orders'[o].fulfillment == orders[o].fulfillment &&
      orders'[o].durationMinutes == orders[o].durationMinutes && orders'[o].durationDays == orders[o].durationDays &&
      (orders[o].inviteId.Some? && orders[o].inviteId.value in invites ==> orders'[o].inviteId == orders[o].inviteId)
  }

  lemma MintedAfterOrders(minted: map<nat, nat>, orders: map<nat, Order>, orders': map<nat, Order>, invites: map<nat, Invite>, next: nat)
    requires MintedHolds(minted, orders, invites, next) && SameSales(orders, orders', invites.Keys)
    ensures MintedHolds(minted, orders', invites, next)
  {
  }

  lemma MintedAfterNewOrder(minted: map<nat, nat>, orders: map<nat, Order>, invites: map<nat, Invite>, next: nat, o: nat, row: Order)
    requires MintedHolds(minted, orders, invites, next) && o !in orders && row.fulfillment != Fulfilled
    ensures MintedHolds(minted, orders[o := row], invites, next)
  {
  }

  lemma MintedAfterRenewal(minted: map<nat, nat>, orders: map<nat, Order>, invites: map<nat, Invite>, next: nat, o: nat, row: Order)
    requires MintedHolds(minted, orders, invites, next) && o in orders && orders[o].fulfillment != Fulfilled
    requires row.kind == RenewalOrder
    ensures MintedHolds(minted, orders[o := row], invites, next)
  {
  }

  lemma MintedAfterSale(minted: map<nat, nat>, orders: map<nat, Order>, invites: map<nat, Invite>, next: nat, o: nat, row: Order, invite: Invite)
    requires MintedHolds(minted, orders, invites, next) && o in orders && orders[o].fulfillment != Fulfilled
    requires row.kind == ActivationOrder && row.fulfillment == Fulfilled && row.inviteId == Some(next) && SoldInvite(invite, row)
    ensures MintedHolds(minted[next := o], orders[o := row], invites[next := invite], next + 1)
  {
    var minted' := minted[next := o];
    forall p | p in orders[o := row] && orders[o := row][p].kind == ActivationOrder && orders[o := row][p].fulfillment == Fulfilled
      ensures Minted(minted', p)
    {
      if p == o {
        assert minted'[next] == o;
      } else {
        assert Minted(minted, p);
        var i :| i in minted && minted[i] == p;
        assert minted'[i] == p;
      }
    }
  }
}
