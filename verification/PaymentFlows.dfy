/** The callers of the payment tables: order creation, the webhook, the public order page and the
    reconciliation. They race for the same delivery with different event ids and stale snapshots. */
module PaymentFlows {
  import opened Domain
  import opened TableInvariants
  import opened Listing
  import opened Portal
  import opened Persistence
  import opened Remote
  import opened StepEffects
  import opened Services
  import opened Promises
  import T = Transactions

  // ----- what a delivery means for the order -----

  /** Only order `id` has changed, and its terms have not. */
  ghost predicate OnlyOrder(db: Db, db': Db, id: nat) {
    && id in db.orders && id in db'.orders
    && db'.orders == db.orders[id := db'.orders[id]]
    && SameTerms(db.orders[id], db'.orders[id])
  }

  ghost predicate SameTerms(order: Order, order': Order) {
    && order'.id == order.id && order'.merchantOrderNo == order.merchantOrderNo && order'.publicToken == order.publicToken
    && order'.kind == order.kind && order'.amountFen == order.amountFen && order'.currency == order.currency
    && order'.durationDays == order.durationDays && order'.durationMinutes == order.durationMinutes && order'.accountId == order.accountId
    && (order.fulfillment == Fulfilled ==> order' == order)
  }

  lemma UnchangedOrder(db: Db, id: nat)
    requires id in db.orders
    ensures OnlyOrder(db, db, id)
  {
  }

  lemma SoldOrder(db: Db, input: T.PaymentInput)
    requires Deliverable(db, input) && db.orders[input.orderId].id == input.orderId
    requires T.FulfillPaymentOrder(db, input).result.Success?
    ensures var tx := T.FulfillPaymentOrder(db, input);
      && OnlyOrder(db, tx.db, input.orderId)
      && tx.result.value == tx.db.orders[input.orderId] && tx.result.value.fulfillment == Fulfilled
  {
    hide T.InvalidPaymentInput, T.PaidEvent, T.ActivationInvite, T.RenewAccount;
  }

  lemma DeliveredOrder(db: Db, input: T.PaymentInput)
    requires Sound(db) && input.orderId in db.orders
    ensures var tx := T.FulfillPaymentOrder(db, input);
      && OnlyOrder(db, tx.db, input.orderId)
      && (tx.result.Success? ==> tx.db.orders[input.orderId].fulfillment == Fulfilled && tx.result.value == tx.db.orders[input.orderId])
      && (tx.result.Failure? ==> tx.db == db)
  {
    OrderFacts(db, input.orderId);
    if Deliverable(db, input) && T.FulfillPaymentOrder(db, input).result.Success? {
      SoldOrder(db, input);
    } else {
      UndeliverableChangesNothing(db, input);
      EventOfPending(db, input.eventId);
    }
    hide Sound, T.RecordPayment, OnlyOrder;
    UnchangedOrder(db, input.orderId);
  }

  lemma EventOfPending(db: Db, e: string)
    requires Sound(db)
    ensures e in db.events && db.events[e].orderId in db.orders ==> db.orders[db.events[e].orderId].fulfillment == Fulfilled
  {
    assert EventsSound(db.events, db.orders);
    hide Sound;
    if e in db.events {
      assert HasEvent(db.events, db.events[e].orderId);
    }
  }

  lemma ClosedOrder(db: Db, id: nat, status: PaymentStatus, providerStatus: string, reason: string, now: int)
    requires id in db.orders && status != Paid
    ensures var db' := T.SetPaymentOrderState(db, id, status, providerStatus, reason, now);
      && OnlyOrder(db, db', id)
      && db'.orders[id].fulfillment == db.orders[id].fulfillment
      && (db'.orders[id].fulfillment == Fulfilled || db'.orders[id].paymentStatus == Paid || db'.orders[id].paymentStatus == status)
  {
    hide TrimSpace;
  }

  lemma OrderId(s: State, id: nat)
    requires Healthy(s) && id in s.db.orders
    ensures s.db.orders[id].id == id
  {
    OrderFacts(s.db, id);
  }

  lemma OrderNumbersAreUnique(s: State)
    requires Healthy(s)
    ensures forall o, q :: o in s.db.orders && q in s.db.orders && s.db.orders[o].merchantOrderNo == s.db.orders[q].merchantOrderNo ==> o == q
  {
    assert OrdersSound(s.db.orders, s.db.nextOrder);
  }

  lemma PaidIsFulfilled(s: State, id: nat)
    requires Healthy(s) && id in s.db.orders
    ensures s.db.orders[id].paymentStatus == Paid <==> s.db.orders[id].fulfillment == Fulfilled
  {
    OrderFacts(s.db, id);
  }

  // ----- payments/service.go -----

  datatype Notification = Notification(
    eventId: string, merchantOrderNo: string, amountFen: int, currency: string, paidAt: int, paymentKey: string, payloadHash: string)

  method FindOrder(p: Process, id: nat) returns (r: Option<Order>, ghost steps: seq<Step>)
    requires p.Valid()
    modifies p`state
    ensures p.Valid() && p.state == Run(old(p.state), steps) && p.state.db == old(p.state).db
    ensures old(p.state).readOrders <= p.state.readOrders
    ensures r == if id in p.state.db.orders then Some(p.state.db.orders[id]) else None
    ensures r.Some? ==> r.value in p.state.readOrders && r.value.id == id
  {
    hide Healthy, Next, Run;
    steps := [];
    RunNothing(p.state);
    if id !in p.store.orders {
      return None, steps;
    }
    OrderId(p.state, id);
    StepDoes(p.state, OfPayments(ReadOrder(id)));
    p.Take(OfPayments(ReadOrder(id)));
    RunSingle(old(p.state), OfPayments(ReadOrder(id)));
    r, steps := Some(p.store.orders[id]), [OfPayments(ReadOrder(id))];
  }

  method Close(p: Process, id: nat, canceled: bool, providerStatus: string, reason: string, now: int) returns (ghost step: Step)
    requires p.Valid() && id in p.state.db.orders
    modifies p`state, p.store
    ensures p.Valid() && p.state == Next(old(p.state), step) && old(p.state).readOrders <= p.state.readOrders
    ensures OnlyOrder(old(p.state).db, p.state.db, id)
    ensures ClosedAs(p.state.db.orders[id], canceled) && Grew(old(p.state).db, p.state.db)
    ensures p.state.db.orders[id].fulfillment == old(p.state).db.orders[id].fulfillment
  {
    hide Healthy, Next, T.SetPaymentOrderState;
    var status := if canceled then Canceled else PaymentExpired;
    p.store.SetPaymentOrderState(id, status, providerStatus, reason, now);
    ClosedOrder(p.state.db, id, status, providerStatus, reason, now);
    ClosingGrows(p.state.db, id, status, providerStatus, reason, now);
    StepDoes(p.state, OfPayments(CloseOrder(id, canceled, providerStatus, reason, now)));
    step := OfPayments(CloseOrder(id, canceled, providerStatus, reason, now));
    p.Take(step);
  }

  ghost predicate ClosedAs(order: Order, canceled: bool) {
    order.fulfillment == Fulfilled || order.paymentStatus == Paid || order.paymentStatus == if canceled then Canceled else PaymentExpired
  }

  predicate ValidNotification(id: nat, n: Notification, now: int) {
    id >= 1 && TrimSpace(n.eventId) != "" && n.amountFen >= 1 && n.currency != "" && n.paidAt != ZERO_TIME && now != ZERO_TIME
  }

  /** What a notification must be for the order to be delivered: valid, at the order's price and under a new
      event, with an account to renew or a code that is not taken; an order that is fulfilled already only
      takes a valid one. */
  ghost predicate Payable(db: Db, id: nat, n: Notification, now: int, codeHash: string) {
    && ValidNotification(id, n, now) && id in db.orders
    && var order := db.orders[id];
       order.fulfillment == Fulfilled ||
       (order.amountFen == n.amountFen && order.currency == n.currency && n.eventId !in db.events && CanDeliver(db, order, codeHash))
  }

  ghost predicate CanDeliver(db: Db, order: Order, codeHash: string) {
    match order.kind
    case ActivationOrder => forall i :: i in db.invites ==> db.invites[i].codeHash != codeHash
    case RenewalOrder => order.accountId.Some? && order.accountId.value in db.accounts
  }

  ghost predicate RequestFor(order: Order, n: Notification, now: int, input: T.PaymentInput) {
    && input.orderId == order.id && input.eventId == n.eventId && input.amountFen == n.amountFen && input.currency == n.currency
    && input.paidAt == n.paidAt && input.now == now
    && (order.kind == ActivationOrder ==> TrimSpace(input.code) != "" && TrimSpace(input.codeHash) != "" && TrimSpace(input.codePrefix) != "")
  }

  lemma PayableExactly(db: Db, order: Order, n: Notification, now: int, input: T.PaymentInput)
    requires Sound(db) && RequestFor(order, n, now, input)
    requires order.id in db.orders && order.kind == db.orders[order.id].kind
    ensures T.FulfillPaymentOrder(db, input).result.Success? <==> Payable(db, order.id, n, now, input.codeHash)
  {
    OrderFacts(db, order.id);
    EventOfPending(db, n.eventId);
    hide Sound, TrimSpace, T.PaidEvent, T.PaidOrder, T.RenewAccount, T.ActivationInvite;
  }

  lemma {:induction false} TrimRightStops(s: string)
    requires s != "" && !IsSpace(s[0])
    ensures TrimRight(s) != ""
  {
    if IsSpace(s[|s| - 1]) {
      TrimRightStops(s[..|s| - 1]);
    }
  }

  lemma NotBlank(s: string)
    requires s != "" && !IsSpace(s[0])
    ensures TrimSpace(s) != ""
  {
    TrimRightStops(s);
  }

  // The request to the store; an activation comes with a new code, and a hash is never blank.
  method PaymentFor(order: Order, n: Notification, now: int) returns (input: T.PaymentInput)
    ensures Sent(order, input) == input && RequestFor(order, n, now, input)
  {
    var code, codeHash, prefix := "", "", "";
    if order.kind == ActivationOrder {
      var random: string := *;
      code := "ESP-ACT-" + random;
      var digest: string := *;
      codeHash := if digest == "" || IsSpace(digest[0]) then "0" else digest;
      prefix := code[..8];
      NotBlank(code);
      NotBlank(codeHash);
      NotBlank(prefix);
    }
    input := T.PaymentInput(order.id, n.eventId, "order.paid", n.amountFen, n.currency, n.paymentKey, n.payloadHash, n.paidAt, now,
      code, codeHash, prefix);
  }

  method DeliverNow(p: Process, order: Order, input: T.PaymentInput) returns (r: Result<Order>)
    requires p.Valid() && order in p.state.readOrders && order.fulfillment != Fulfilled && Sent(order, input) == input
    modifies p`state, p.store
    ensures p.Valid() && p.state == Next(old(p.state), OfPayments(Deliver(order, input)))
    ensures Tx(p.state.db, r) == T.FulfillPaymentOrder(old(p.state).db, input) && old(p.state).readOrders <= p.state.readOrders
  {
    hide Healthy, Next, Sound, T.FulfillPaymentOrder, Sent;
    HealthyFacts(p.state);
    r := p.store.FulfillPaymentOrder(input);
    StepDoes(p.state, OfPayments(Deliver(order, input)));
    p.Take(OfPayments(Deliver(order, input)));
  }

  /** What a successful payment leaves: nothing new for an order that was fulfilled, otherwise what it paid for. */
  ghost predicate Pays(db: Db, db': Db, order: Order, n: Notification, now: int, codeHash: string, sent: Option<T.PaymentInput>)
    requires order.id in db.orders
  {
    if db.orders[order.id].fulfillment == Fulfilled then db' == db
    else
      && sent.Some? && RequestFor(order, n, now, sent.value) && sent.value.codeHash == codeHash
      && sent.value.orderId in db.orders && Delivered(db, db', sent.value)
  }

  lemma PaysOnce(db: Db, order: Order, n: Notification, now: int, input: T.PaymentInput)
    requires Sound(db) && order.id in db.orders && RequestFor(order, n, now, input)
    ensures var tx := T.FulfillPaymentOrder(db, input);
      tx.result.Success? ==> Pays(db, tx.db, order, n, now, input.codeHash, Some(input))
  {
    RequestIsFor(order, n, now, input);
    if db.orders[order.id].fulfillment != Fulfilled {
      PaymentDelivers(db, input);
    }
    hide Sound, T.RecordPayment, Delivered, RequestFor, TrimSpace;
  }

  /** Delivers what a notification pays for, from a snapshot of the order that may be stale. Success means
      that the order is fulfilled, by this call or an earlier one; a failure has changed nothing. It succeeds
      exactly when the snapshot was fulfilled already or the notification is payable under the new code. */
  method FulfillWithHash(p: Process, order: Order, n: Notification, now: int)
    returns (r: Result<Order>, ghost codeHash: string, ghost sent: Option<T.PaymentInput>, ghost steps: seq<Step>)
    requires p.Valid() && order in p.state.readOrders && order.id in p.state.db.orders
    requires order.fulfillment == Fulfilled ==> p.state.db.orders[order.id].fulfillment == Fulfilled
    modifies p`state, p.store
    ensures p.Valid() && p.state == Run(old(p.state), steps) && old(p.state).readOrders <= p.state.readOrders
    ensures OnlyOrder(old(p.state).db, p.state.db, order.id)
    ensures r.Success? ==> r.value == p.state.db.orders[order.id] && r.value.fulfillment == Fulfilled
    ensures (r.Failure? ==> p.state.db == old(p.state).db) && Grew(old(p.state).db, p.state.db)
    ensures order.kind == old(p.state).db.orders[order.id].kind ==>
      (r.Success? <==> order.fulfillment == Fulfilled || Payable(old(p.state).db, order.id, n, now, codeHash))
    ensures r.Success? ==> Pays(old(p.state).db, p.state.db, order, n, now, codeHash, sent)
  {
    hide Healthy, Next, Run, Sound, OnlyOrder, T.FulfillPaymentOrder, Payable, Sent, RequestFor, Grew, Delivered;
    UnchangedOrder(p.state.db, order.id);
    GrewNot(p.state.db);
    if order.fulfillment == Fulfilled {
      RunNothing(p.state);
      return Success(p.store.orders[order.id]), "", None, [];
    }
    var input := PaymentFor(order, n, now);
    codeHash, sent := input.codeHash, Some(input);
    HealthyFacts(p.state);
    RequestIsFor(order, n, now, input);
    DeliveredOrder(p.state.db, input);
    DeliveryGrows(p.state.db, input);
    PaysOnce(p.state.db, order, n, now, input);
    if order.kind == p.state.db.orders[order.id].kind {
      PayableExactly(p.state.db, order, n, now, input);
    }
    r := DeliverNow(p, order, input);
    RunSingle(old(p.state), OfPayments(Deliver(order, input)));
    steps := [OfPayments(Deliver(order, input))];
  }

  lemma RequestIsFor(order: Order, n: Notification, now: int, input: T.PaymentInput)
    requires RequestFor(order, n, now, input)
    ensures input.orderId == order.id
  {
  }

  /** No account has gone, and events and invites have only been added. */
  ghost predicate Grew(db: Db, db': Db) {
    && db'.accounts.Keys == db.accounts.Keys && (forall e :: e in db.events ==> e in db'.events)
    && (forall i :: i in db.invites ==> i in db'.invites && db'.invites[i].codeHash == db.invites[i].codeHash)
  }

  lemma GrewNot(db: Db)
    ensures Grew(db, db)
  {
  }

  lemma ClosingGrows(db: Db, id: nat, status: PaymentStatus, providerStatus: string, reason: string, now: int)
    ensures Grew(db, T.SetPaymentOrderState(db, id, status, providerStatus, reason, now))
  {
  }

  lemma RecordingGrows(db: Db, order: Order, input: T.PaymentInput)
    requires db.nextInvite !in db.invites
    ensures Grew(db, T.RecordPayment(db, order, input).db)
  {
    hide TrimSpace, T.PaidEvent, T.PaidOrder, T.Renewed, T.Reactivated, T.UpsertAccessSyncJob, T.FindInviteByHash, T.ActivationInvite;
  }

  lemma DeliveryGrows(db: Db, input: T.PaymentInput)
    requires Sound(db)
    ensures Grew(db, T.FulfillPaymentOrder(db, input).db)
  {
    assert InvitesSound(db.invites, db.nextInvite);
    assert db.nextInvite !in db.invites;
    hide Sound, TrimSpace, T.RecordPayment, Grew, InvitesSound;
    GrewNot(db);
    if input.orderId in db.orders {
      RecordingGrows(db, db.orders[input.orderId], input);
    }
  }

  // What cannot be paid for an unfulfilled order stays so while nothing of the order changes.
  lemma StaysUnpayable(db: Db, db': Db, id: nat, n: Notification, now: int, codeHash: string)
    requires Grew(db, db') && id in db.orders && id in db'.orders && db'.orders[id] == db.orders[id]
    requires !Payable(db, id, n, now, codeHash)
    ensures !Payable(db', id, n, now, codeHash)
  {
  }

  method SelectOrderByMerchantNo(p: Process, merchantOrderNo: string) returns (id: Option<nat>)
    ensures id.Some? ==> id.value in p.store.orders && p.store.orders[id.value].merchantOrderNo == merchantOrderNo
    ensures id.None? ==> forall o :: o in p.store.orders ==> p.store.orders[o].merchantOrderNo != merchantOrderNo
  {
    if o :| o in p.store.orders && p.store.orders[o].merchantOrderNo == merchantOrderNo {
      id := Some(o);
    } else {
      id := None;
    }
  }

  /** A verified notification. It succeeds exactly when its number is that of an order that is fulfilled
      already, so that repeating it is a success that changes nothing, or that it pays for. */
  method HandleWebhook(p: Process, n: Notification, now: int)
    returns (r: Result<Order>, ghost codeHash: string, ghost sent: Option<T.PaymentInput>, ghost steps: seq<Step>)
    requires p.Valid()
    modifies p`state, p.store
    ensures p.Valid() && p.state == Run(old(p.state), steps)
    ensures r.Success? ==> r.value.merchantOrderNo == n.merchantOrderNo && r.value.fulfillment == Fulfilled
    ensures r.Success? ==> r.value.id in p.state.db.orders && p.state.db.orders[r.value.id] == r.value
    ensures r.Failure? ==> p.state.db == old(p.state).db
    ensures r.Success? <==> exists o :: Settles(old(p.state).db, o, n, now, codeHash)
    ensures r.Success? ==>
      r.value.id in old(p.state).db.orders && Pays(old(p.state).db, p.state.db, old(p.state).db.orders[r.value.id], n, now, codeHash, sent)
    ensures forall o :: o in old(p.state).db.orders && (old(p.state).db.orders[o].fulfillment == Fulfilled || old(p.state).db.orders[o].merchantOrderNo != n.merchantOrderNo) ==>
      o in p.state.db.orders && p.state.db.orders[o] == old(p.state).db.orders[o]
  {
    hide Healthy, Next, Run, Payable, RequestFor, Delivered, Pays;
    OrderNumbersAreUnique(p.state);
    steps, codeHash, sent := [], "", None;
    RunNothing(p.state);
    var id := SelectOrderByMerchantNo(p, n.merchantOrderNo);
    if id.None? {
      return Failure(NotFound), codeHash, sent, steps;
    }
    var order;
    order, steps := FindOrder(p, id.value);
    ghost var taken;
    r, codeHash, sent, taken := FulfillWithHash(p, order.value, n, now);
    RunAppend(old(p.state), steps, taken);
    steps := steps + taken;
    assert Settles(old(p.state).db, id.value, n, now, codeHash) <==> r.Success?;
  }

  ghost predicate Settles(db: Db, o: nat, n: Notification, now: int, codeHash: string) {
    o in db.orders && db.orders[o].merchantOrderNo == n.merchantOrderNo && (db.orders[o].fulfillment == Fulfilled || Payable(db, o, n, now, codeHash))
  }

  predicate OverFor(order: Order, token: string, now: int) {
    order.publicToken == token && order.paymentStatus == PaymentPending && order.expiresAt <= now
  }

  /** The public page closes the order of its token when that is pending and over, and changes nothing else. */
  method PublicOrder(p: Process, token: string, now: int) returns (r: Result<Order>, ghost steps: seq<Step>)
    requires p.Valid()
    modifies p`state, p.store
    ensures p.Valid() && p.state == Run(old(p.state), steps)
    ensures p.state.db.orders.Keys == old(p.state).db.orders.Keys
    ensures r.Success? ==> r.value.publicToken == token && r.value.id in p.state.db.orders && p.state.db.orders[r.value.id] == r.value
    ensures r.Success? ==> r.value.paymentStatus == PaymentPending ==> now < r.value.expiresAt
    ensures r.Failure? ==> p.state.db == old(p.state).db && forall o :: o in p.state.db.orders ==> p.state.db.orders[o].publicToken != token
    ensures forall o :: o in old(p.state).db.orders && !OverFor(old(p.state).db.orders[o], token, now) ==>
      o in p.state.db.orders && p.state.db.orders[o] == old(p.state).db.orders[o]
    ensures r.Success? && OverFor(old(p.state).db.orders[r.value.id], token, now) ==> r.value.paymentStatus == PaymentExpired
  {
    hide Healthy, Next, Run;
    steps := [];
    RunNothing(p.state);
    if id :| id in p.store.orders && p.store.orders[id].publicToken == token {
      OrderId(p.state, id);
      PaidIsFulfilled(p.state, id);
      var order := p.store.orders[id];
      if order.paymentStatus == PaymentPending && order.expiresAt <= now {
        ghost var step := Close(p, id, false, "EXPIRED", "订单已过期", now);
        RunSnoc(old(p.state), steps, step);
        steps := steps + [step];
        PaidIsFulfilled(p.state, id);
      }
      r := Success(p.store.orders[id]);
    } else {
      r := Failure(NotFound);
    }
  }

  // ----- reconciliation -----

  predicate IsProviderCanceled(status: string) {
    status == "CANCELED" || status == "CANCELLED"
  }

  predicate Final(status: string) {
    status == "PAID" || status == "EXPIRED" || IsProviderCanceled(status)
  }

  predicate Matches(answer: ProviderOrder, order: Order) {
    answer.merchantOrderNo == order.merchantOrderNo && answer.amountFen == order.amountFen && answer.currency == order.currency
  }

  /** The order as the centre's answer demands it; a payment that came first stays. */
  ghost predicate SettledBy(order: Order, answer: ProviderOrder) {
    && (answer.status == "PAID" ==> order.fulfillment == Fulfilled)
    && (IsProviderCanceled(answer.status) ==> ClosedAs(order, true))
    && (answer.status == "EXPIRED" ==> ClosedAs(order, false))
  }

  function ReconcileNotification(order: Order, answer: ProviderOrder): Notification {
    Notification("reconcile-" + order.merchantOrderNo, order.merchantOrderNo, answer.amountFen, answer.currency, answer.paidAt,
      "reconcile-" + order.merchantOrderNo, "")
  }

  // A live row, read by this caller.
  ghost predicate LiveRead(s: State, order: Order) {
    order in s.readOrders && order.id in s.db.orders && s.db.orders[order.id] == order
  }

  /** Only a payment that cannot be delivered is not concluded. */
  ghost predicate CanConclude(db: Db, order: Order, answer: ProviderOrder, paid: Notification, now: int, codeHash: string) {
    answer.status != "PAID" || order.fulfillment == Fulfilled || Payable(db, order.id, paid, now, codeHash)
  }

  // What a matching answer leads to; `paid` stands for the payment that the answer may report.
  method Conclude(p: Process, order: Order, answer: ProviderOrder, paid: Notification, now: int)
    returns (error: Option<Error>, ghost codeHash: string, ghost steps: seq<Step>)
    requires p.Valid() && LiveRead(p.state, order)
    modifies p`state, p.store
    ensures p.Valid() && p.state == Run(old(p.state), steps) && old(p.state).readOrders <= p.state.readOrders
    ensures OnlyOrder(old(p.state).db, p.state.db, order.id)
    ensures error.None? ==> SettledBy(p.state.db.orders[order.id], answer)
    ensures !Final(answer.status) || error.Some? ==> p.state.db == old(p.state).db
    ensures error.None? <==> CanConclude(old(p.state).db, order, answer, paid, now, codeHash)
    ensures Grew(old(p.state).db, p.state.db)
  {
    hide Healthy, Next, Run, SameTerms, ClosedAs, Payable, Grew, Pays;
    UnchangedOrder(p.state.db, order.id);
    codeHash := "";
    if answer.status == "PAID" {
      var r;
      ghost var sent;
      r, codeHash, sent, steps := FulfillWithHash(p, order, paid, now);
      return if r.Failure? then Some(r.error) else None, codeHash, steps;
    }
    if IsProviderCanceled(answer.status) || answer.status == "EXPIRED" {
      ghost var step := Close(p, order.id, IsProviderCanceled(answer.status), answer.status, "", now);
      RunSingle(old(p.state), step);
      return None, codeHash, [step];
    }
    RunNothing(p.state);
    GrewNot(p.state.db);
    error, steps := None, [];
  }

  /** The order is over here and still open at the centre. */
  predicate Overdue(answer: Option<ProviderOrder>, order: Order, now: int) {
    answer.Some? && Matches(answer.value, order) && answer.value.status == "PENDING" && order.expiresAt <= now
  }

  /** What the centre says of one order: its first answer, the one that counts after a cancellation if there
      was one, and the hash of the code that a delivery made. */
  datatype Settlement = Settlement(first: Option<ProviderOrder>, answer: Option<ProviderOrder>, codeHash: string)

  function QuestionsFor(reported: map<string, ProviderOrder>, said: Settlement, order: Order, now: int): seq<Question> {
    (if order.merchantOrderNo in reported then [] else [Query(order.merchantOrderNo, said.first)])
    + (if Overdue(said.first, order, now) then [Cancellation(order.merchantOrderNo, said.answer)] else [])
  }

  /** The centre's answers are there, have the order's terms, and an overdue order is over at the centre too. */
  ghost predicate Answered(order: Order, said: Settlement, now: int) {
    && said.first.Some? && Matches(said.first.value, order) && said.answer.Some? && Matches(said.answer.value, order)
    && if Overdue(said.first, order, now) then Final(said.answer.value.status) else said.answer == said.first
  }

  /** One order. The centre is queried exactly for an order that its list did not report, and asked to cancel
      exactly one that is overdue. Without the centre's answers, or with other terms, nothing changes; else
      the order is settled, unless it was paid and cannot be delivered. */
  method SettleOne(p: Process, center: PaymentCenter, reported: map<string, ProviderOrder>, order: Order, now: int)
    returns (error: Option<Error>, ghost said: Settlement, ghost steps: seq<Step>)
    requires p.Valid() && LiveRead(p.state, order)
    modifies p`state, p.store, center`asked
    ensures p.Valid() && p.state == Run(old(p.state), steps) && old(p.state).readOrders <= p.state.readOrders
    ensures OnlyOrder(old(p.state).db, p.state.db, order.id) && Grew(old(p.state).db, p.state.db)
    ensures order.merchantOrderNo in reported ==> said.first == Some(reported[order.merchantOrderNo])
    ensures center.asked == old(center.asked) + QuestionsFor(reported, said, order, now)
    ensures !Overdue(said.first, order, now) ==> said.answer == said.first
    ensures !Answered(order, said, now) ==> error.Some? && p.state.db == old(p.state).db
    ensures Answered(order, said, now) ==>
      (error.None? <==> CanConclude(old(p.state).db, order, said.answer.value, ReconcileNotification(order, said.answer.value), now, said.codeHash))
    ensures error.None? ==> SettledBy(p.state.db.orders[order.id], said.answer.value)
    ensures error.Some? || !Final(said.answer.value.status) ==> p.state.db == old(p.state).db
  {
    hide Healthy, Next, Run, OnlyOrder, SettledBy, Payable, Grew;
    UnchangedOrder(p.state.db, order.id);
    GrewNot(p.state.db);
    steps := [];
    RunNothing(p.state);
    var current;
    if order.merchantOrderNo in reported {
      current := Some(reported[order.merchantOrderNo]);
    } else {
      current := center.QueryOrder(order.merchantOrderNo);
    }
    said := Settlement(current, current, "");
    if current.None? {
      return Some(RemoteFailure), said, steps;
    }
    if !Matches(current.value, order) {
      return Some(AmountMismatch), said, steps;
    }
    if current.value.status == "PENDING" && order.expiresAt <= now {
      current := center.CancelOrder(order.merchantOrderNo);
      said := said.(answer := current);
      if current.None? {
        return Some(RemoteFailure), said, steps;
      }
      if !Matches(current.value, order) || !Final(current.value.status) {
        return Some(AmountMismatch), said, steps;
      }
    }
    ghost var codeHash;
    error, codeHash, steps := Conclude(p, order, current.value, ReconcileNotification(order, current.value), now);
    said := said.(codeHash := codeHash);
  }

  /** The pending orders whose last change is longest ago, in that order. */
  method ListPendingOrders(p: Process, limit: int) returns (listed: seq<Order>, ghost steps: seq<Step>)
    requires p.Valid()
    modifies p`state
    ensures p.Valid() && p.state == Run(old(p.state), steps) && p.state.db == old(p.state).db
    ensures IsListing(PendingStamps(p.state.db.orders), if limit < 1 then 0 else limit, OrderIds(listed))
    ensures forall i :: 0 <= i < |listed| ==> LiveRead(p.state, listed[i])
  {
    hide Healthy, Next, Run, IsListing, OrdersSound, Sound;
    HealthyFacts(p.state);
    listed := p.store.ListPendingPaymentOrders(limit);
    steps := [];
    RunNothing(p.state);
    for i := 0 to |listed|
      invariant p.Valid() && p.state == Run(old(p.state), steps) && p.state.db == old(p.state).db
      invariant forall j :: 0 <= j < i ==> LiveRead(p.state, listed[j])
    {
      var found; ghost var taken;
      found, taken := FindOrder(p, listed[i].id);
      RunAppend(old(p.state), steps, taken);
      steps := steps + taken;
    }
  }

  /** The fifty orders that are neither closed, paid nor fulfilled and whose last change is longest ago, in that
      order; all of them when they are fewer. */
  ghost predicate OldestPending(orders: map<nat, Order>, limit: nat, listed: seq<Order>) {
    && |listed| <= limit && (forall i :: 0 <= i < |listed| ==> listed[i].id in orders && orders[listed[i].id] == listed[i])
    && (forall i :: 0 <= i < |listed| ==> listed[i].paymentStatus == PaymentPending && listed[i].fulfillment == FulfillmentPending)
    && (forall i, j :: 0 <= i < j < |listed| ==> Earlier(listed[i].updatedAt, listed[i].id, listed[j].updatedAt, listed[j].id))
    && (forall o :: o in orders && orders[o].paymentStatus == PaymentPending && orders[o].fulfillment == FulfillmentPending && o !in OrderIds(listed) ==>
          |listed| == limit && forall i :: 0 <= i < |listed| ==> Earlier(listed[i].updatedAt, listed[i].id, orders[o].updatedAt, o))
  }

  lemma ListedArePending(orders: map<nat, Order>, limit: nat, listed: seq<Order>)
    requires IsListing(PendingStamps(orders), limit, OrderIds(listed))
    requires forall i :: 0 <= i < |listed| ==> listed[i].id in orders && orders[listed[i].id] == listed[i]
    ensures OldestPending(orders, limit, listed)
  {
    var stamps, ids := PendingStamps(orders), OrderIds(listed);
    ListingFull(stamps, limit, ids);
    hide Earlier;
    assert forall i :: 0 <= i < |listed| ==> ids[i] == listed[i].id && ids[i] in stamps;
    forall o, i | o in stamps && o !in ids && 0 <= i < |listed|
      ensures Earlier(listed[i].updatedAt, listed[i].id, orders[o].updatedAt, o)
    {
      assert ids[i] in ids && stamps[ids[i]] == listed[i].updatedAt;
    }
    hide IsListing, PendingStamps, OrderIds;
  }

  lemma PendingListed(orders: map<nat, Order>, limit: nat, listed: seq<Order>)
    requires IsListing(PendingStamps(orders), limit, OrderIds(listed))
    ensures forall i :: 0 <= i < |listed| ==> listed[i].id in orders && IsPending(orders[listed[i].id])
    ensures forall i, j :: 0 <= i < j < |listed| ==> listed[i].id != listed[j].id
  {
    ListingDistinct(PendingStamps(orders), limit, OrderIds(listed));
    var ids := OrderIds(listed);
    assert forall i :: 0 <= i < |listed| ==> ids[i] == listed[i].id;
    assert forall i, j :: 0 <= i < j < |listed| ==> ids[i] != ids[j];
  }

  /** The last report with this number. */
  ghost predicate LastOf(newest: seq<ProviderOrder>, no: string, report: ProviderOrder) {
    exists i :: 0 <= i < |newest| && newest[i] == report && report.merchantOrderNo == no &&
      forall j :: i < j < |newest| ==> newest[j].merchantOrderNo != no
  }

  lemma LastOfMore(newest: seq<ProviderOrder>, more: ProviderOrder, no: string, report: ProviderOrder)
    requires LastOf(newest, no, report) && more.merchantOrderNo != no
    ensures LastOf(newest + [more], no, report)
  {
    var i :| 0 <= i < |newest| && newest[i] == report && report.merchantOrderNo == no &&
      forall j :: i < j < |newest| ==> newest[j].merchantOrderNo != no;
    assert (newest + [more])[i] == report;
  }

  /** Each number of the list with its last report. */
  ghost predicate LastReports(newest: seq<ProviderOrder>, reported: map<string, ProviderOrder>) {
    && (forall i :: 0 <= i < |newest| ==> newest[i].merchantOrderNo in reported)
    && (forall no :: no in reported ==> LastOf(newest, no, reported[no]))
  }

  lemma ReportedMore(newest: seq<ProviderOrder>, more: ProviderOrder, reported: map<string, ProviderOrder>)
    requires LastReports(newest, reported)
    ensures LastReports(newest + [more], reported[more.merchantOrderNo := more])
  {
    var all, reported' := newest + [more], reported[more.merchantOrderNo := more];
    forall no | no in reported'
      ensures LastOf(all, no, reported'[no])
    {
      if no == more.merchantOrderNo {
        assert all[|newest|] == more;
      } else {
        LastOfMore(newest, more, no, reported[no]);
      }
    }
    hide LastOf;
    forall i | 0 <= i < |all|
      ensures all[i].merchantOrderNo in reported'
    {
      if i < |newest| {
        assert all[i] == newest[i];
      }
    }
  }

  // The centre's newest orders by their merchant number.
  method ByMerchantNo(newest: seq<ProviderOrder>) returns (reported: map<string, ProviderOrder>)
    ensures LastReports(newest, reported) && (newest == [] ==> reported == map[])
  {
    reported := map[];
    assert LastReports([], reported);
    hide LastReports;
    for i := 0 to |newest|
      invariant LastReports(newest[..i], reported) && (i == 0 ==> reported == map[])
    {
      assert newest[..i + 1] == newest[..i] + [newest[i]];
      ReportedMore(newest[..i], newest[i], reported);
      reported := reported[newest[i].merchantOrderNo := newest[i]];
    }
    assert newest[..|newest|] == newest;
  }

  /** Since `before` the centre was asked to cancel nothing but orders of the list that were over. */
  ghost predicate CancelsOverdue(before: nat, asked: seq<Question>, listed: seq<Order>, now: int) {
    forall k :: before <= k < |asked| && asked[k].Cancellation? ==>
      exists i :: 0 <= i < |listed| && listed[i].merchantOrderNo == asked[k].merchantOrderNo && listed[i].expiresAt <= now
  }

  lemma StillCancelsOverdue(before: nat, asked: seq<Question>, listed: seq<Order>, i: nat, reported: map<string, ProviderOrder>,
                            said: Settlement, now: int)
    requires CancelsOverdue(before, asked, listed, now) && i < |listed|
    ensures CancelsOverdue(before, asked + QuestionsFor(reported, said, listed[i], now), listed, now)
  {
    var asked' := asked + QuestionsFor(reported, said, listed[i], now);
    forall k | before <= k < |asked'| && asked'[k].Cancellation?
      ensures exists j :: 0 <= j < |listed| && listed[j].merchantOrderNo == asked'[k].merchantOrderNo && listed[j].expiresAt <= now
    {
      if k < |asked| {
        assert asked'[k] == asked[k];
      } else {
        assert listed[i].merchantOrderNo == asked'[k].merchantOrderNo;
      }
    }
  }

  function AllQuestions(reported: map<string, ProviderOrder>, said: seq<Settlement>, listed: seq<Order>, now: int): seq<Question>
    requires |said| <= |listed|
  {
    if said == [] then []
    else AllQuestions(reported, said[..|said| - 1], listed, now) + QuestionsFor(reported, said[|said| - 1], listed[|said| - 1], now)
  }

  lemma NoQuestions(reported: map<string, ProviderOrder>, listed: seq<Order>, now: int)
    ensures AllQuestions(reported, [], listed, now) == []
  {
  }

  lemma QuestionsMore(reported: map<string, ProviderOrder>, said: seq<Settlement>, more: Settlement, listed: seq<Order>, now: int)
    requires |said| < |listed|
    ensures AllQuestions(reported, said + [more], listed, now) ==
      AllQuestions(reported, said, listed, now) + QuestionsFor(reported, more, listed[|said|], now)
  {
    assert (said + [more])[..|said|] == said;
  }

  /** How one order of the list came out: without the centre's answers it is as it was; with them it is
      settled, or it was paid, cannot be delivered, and is as it was. */
  ghost predicate CameOut(reported: map<string, ProviderOrder>, order: Order, said: Settlement, db': Db, now: int, failed: bool) {
    && order.id in db'.orders && (order.merchantOrderNo in reported ==> said.first == Some(reported[order.merchantOrderNo]))
    && (!Overdue(said.first, order, now) ==> said.answer == said.first)
    && (!Answered(order, said, now) ==> failed)
    && (failed ==> db'.orders[order.id] == order)
    && (!failed ==> SettledBy(db'.orders[order.id], said.answer.value))
    && (failed && Answered(order, said, now) ==>
          !CanConclude(db', order, said.answer.value, ReconcileNotification(order, said.answer.value), now, said.codeHash))
  }

  lemma CameOutNow(reported: map<string, ProviderOrder>, order: Order, said: Settlement, db: Db, db': Db, now: int, failed: bool)
    requires order.id in db.orders && db.orders[order.id] == order && OnlyOrder(db, db', order.id)
    requires order.merchantOrderNo in reported ==> said.first == Some(reported[order.merchantOrderNo])
    requires !Overdue(said.first, order, now) ==> said.answer == said.first
    requires !Answered(order, said, now) ==> failed
    requires Answered(order, said, now) ==>
      (!failed <==> CanConclude(db, order, said.answer.value, ReconcileNotification(order, said.answer.value), now, said.codeHash))
    requires if failed then db' == db else SettledBy(db'.orders[order.id], said.answer.value)
    ensures CameOut(reported, order, said, db', now, failed)
  {
    hide SettledBy, Payable, Matches;
  }

  lemma StillOut(reported: map<string, ProviderOrder>, order: Order, said: Settlement, db: Db, db': Db, now: int, failed: bool)
    requires CameOut(reported, order, said, db, now, failed) && Grew(db, db')
    requires order.id in db'.orders && db'.orders[order.id] == db.orders[order.id]
    ensures CameOut(reported, order, said, db', now, failed)
  {
    hide SettledBy, Matches, Payable, Grew;
    if failed && Answered(order, said, now) {
      StaysUnpayable(db, db', order.id, ReconcileNotification(order, said.answer.value), now, said.codeHash);
    }
  }

  ghost predicate AllOut(reported: map<string, ProviderOrder>, listed: seq<Order>, said: seq<Settlement>, db': Db, now: int, failed: seq<bool>) {
    |said| == |failed| <= |listed| && forall i :: 0 <= i < |said| ==> CameOut(reported, listed[i], said[i], db', now, failed[i])
  }

  lemma NoneOut(reported: map<string, ProviderOrder>, listed: seq<Order>, db': Db, now: int)
    ensures AllOut(reported, listed, [], db', now, [])
  {
  }

  lemma AllOutMore(reported: map<string, ProviderOrder>, listed: seq<Order>, said: seq<Settlement>, says: Settlement, db: Db, db': Db, now: int,
                   failed: seq<bool>, fails: bool)
    requires |said| < |listed| && AllOut(reported, listed, said, db, now, failed)
    requires forall i, j :: 0 <= i < j < |listed| ==> listed[i].id != listed[j].id
    requires CameOut(reported, listed[|said|], says, db', now, fails) && Grew(db, db')
    requires forall o :: o in db.orders && o != listed[|said|].id ==> o in db'.orders && db'.orders[o] == db.orders[o]
    ensures AllOut(reported, listed, said + [says], db', now, failed + [fails])
  {
    forall i | 0 <= i < |said|
      ensures CameOut(reported, listed[i], said[i], db', now, failed[i])
    {
      assert listed[i].id in db.orders && listed[i].id != listed[|said|].id;
      StillOut(reported, listed[i], said[i], db, db', now, failed[i]);
    }
    hide CameOut, Grew;
  }

  ghost predicate NoneFailed(failed: seq<bool>) {
    forall i :: 0 <= i < |failed| ==> !failed[i]
  }

  lemma NoneFailedMore(failed: seq<bool>, fails: bool)
    ensures NoneFailed(failed + [fails]) <==> NoneFailed(failed) && !fails
  {
    var more := failed + [fails];
    assert forall i :: 0 <= i < |failed| ==> more[i] == failed[i];
    assert more[|failed|] == fails;
  }

  method SettleAll(p: Process, center: PaymentCenter, reported: map<string, ProviderOrder>, listed: seq<Order>, now: int, ghost since: nat)
    returns (firstError: Option<Error>, ghost said: seq<Settlement>, ghost failed: seq<bool>, ghost steps: seq<Step>)
    requires p.Valid() && forall i :: 0 <= i < |listed| ==> LiveRead(p.state, listed[i])
    requires forall i, j :: 0 <= i < j < |listed| ==> listed[i].id != listed[j].id
    requires CancelsOverdue(since, center.asked, listed, now)
    modifies p`state, p.store, center`asked
    ensures p.Valid() && p.state == Run(old(p.state), steps) && p.state.db.orders.Keys == old(p.state).db.orders.Keys
    ensures |said| == |failed| == |listed|
    ensures AllOut(reported, listed, said, p.state.db, now, failed)
    ensures firstError.None? <==> NoneFailed(failed)
    ensures CancelsOverdue(since, center.asked, listed, now)
    ensures center.asked == old(center.asked) + AllQuestions(reported, said, listed, now)
    ensures forall o :: o in old(p.state).db.orders && (forall i :: 0 <= i < |listed| ==> listed[i].id != o) ==>
      p.state.db.orders[o] == old(p.state).db.orders[o]
  {
    hide Healthy, Next, Run, SettledBy, SameTerms, CancelsOverdue, QuestionsFor, Matches, CameOut, AllOut, Answered, Payable, Grew, Overdue, AllQuestions,
      OnlyOrder;
    said, failed, firstError, steps := [], [], None, [];
    RunNothing(p.state);
    NoQuestions(reported, listed, now);
    NoneOut(reported, listed, p.state.db, now);
    ghost var before := p.state.db.orders;
    for i := 0 to |listed|
      invariant p.Valid() && p.state == Run(old(p.state), steps)
      invariant |said| == |failed| == i && p.state.db.orders.Keys == before.Keys
      invariant forall j :: i <= j < |listed| ==> LiveRead(p.state, listed[j])
      invariant forall o :: o in before && (forall j :: 0 <= j < |listed| ==> listed[j].id != o) ==> p.state.db.orders[o] == before[o]
      invariant AllOut(reported, listed, said, p.state.db, now, failed)
      invariant firstError.None? <==> NoneFailed(failed)
      invariant CancelsOverdue(since, center.asked, listed, now)
      invariant center.asked == old(center.asked) + AllQuestions(reported, said, listed, now)
    {
      ghost var asked, db := center.asked, p.state.db;
      var error; ghost var says; ghost var taken;
      error, says, taken := SettleOne(p, center, reported, listed[i], now);
      StillCancelsOverdue(since, asked, listed, i, reported, says, now);
      QuestionsMore(reported, said, says, listed, now);
      CameOutNow(reported, listed[i], says, db, p.state.db, now, error.Some?);
      OnlyOrderKeeps(db, p.state.db, listed[i].id);
      AllOutMore(reported, listed, said, says, db, p.state.db, now, failed, error.Some?);
      NoneFailedMore(failed, error.Some?);
      RunAppend(old(p.state), steps, taken);
      steps, said, failed := steps + taken, said + [says], failed + [error.Some?];
      if error.Some? && firstError.None? {
        firstError := error;
      }
    }
  }

  /** One pass over the fifty pending orders whose last change is longest ago. The centre's newest orders are
      asked for once, the others one by one, and only overdue orders are cancelled. Each order of the list
      comes out as the centre's answers demand, and there is no error exactly when all are settled. No order
      that was fulfilled before the pass has changed, and no row outside the list has. */
  method Reconcile(p: Process, center: PaymentCenter, now: int)
    returns (firstError: Option<Error>, ghost listed: seq<Order>, ghost newest: Option<seq<ProviderOrder>>,
             ghost reported: map<string, ProviderOrder>, ghost said: seq<Settlement>, ghost failed: seq<bool>, ghost steps: seq<Step>)
    requires p.Valid()
    modifies p`state, p.store, center`asked
    ensures p.Valid() && p.state == Run(old(p.state), steps)
    ensures OldestPending(old(p.state).db.orders, 50, listed) && |said| == |failed| == |listed|
    ensures forall i :: 0 <= i < |listed| ==>
      listed[i].id in old(p.state).db.orders && listed[i] == old(p.state).db.orders[listed[i].id]
    ensures center.asked == old(center.asked) + [NewestOrders(newest)] + AllQuestions(reported, said, listed, now)
    ensures newest.None? ==> reported == map[]
    ensures newest.Some? ==> forall no ::
      if no in reported then LastOf(newest.value, no, reported[no]) else forall i :: 0 <= i < |newest.value| ==> newest.value[i].merchantOrderNo != no
    ensures AllOut(reported, listed, said, p.state.db, now, failed)
    ensures firstError.None? <==> forall i :: 0 <= i < |listed| ==> !failed[i]
    ensures CancelsOverdue(|old(center.asked)|, center.asked, listed, now)
    ensures forall o :: o in old(p.state).db.orders && (forall i :: 0 <= i < |listed| ==> listed[i].id != o) ==>
      o in p.state.db.orders && p.state.db.orders[o] == old(p.state).db.orders[o]
    ensures forall o :: o in old(p.state).db.orders && old(p.state).db.orders[o].fulfillment == Fulfilled ==>
      o in p.state.db.orders && p.state.db.orders[o] == old(p.state).db.orders[o]
  {
    hide Healthy, Next, Run, SettledBy, SameTerms, IsListing, PendingStamps, CancelsOverdue, Matches, OrderIds, AllOut, LastOf, AllQuestions, OldestPending;
    var orders;
    orders, steps := ListPendingOrders(p, 50);
    PendingListed(p.state.db.orders, 50, orders);
    ListedArePending(p.state.db.orders, 50, orders);
    listed := orders;
    var answer := center.ListOrders();
    var byNumber := ByMerchantNo(if answer.Some? then answer.value else []);
    newest, reported := answer, byNumber;
    NoCancellation(old(center.asked), newest, orders, now);
    ghost var taken;
    firstError, said, failed, taken := SettleAll(p, center, byNumber, orders, now, |old(center.asked)|);
    RunAppend(old(p.state), steps, taken);
    steps := steps + taken;
  }

  lemma NoCancellation(asked: seq<Question>, newest: Option<seq<ProviderOrder>>, listed: seq<Order>, now: int)
    ensures CancelsOverdue(|asked|, asked + [NewestOrders(newest)], listed, now)
  {
  }

  // ----- a new order -----

  method ProviderUpdated(p: Process, id: nat, answer: ProviderOrder, now: int) returns (ghost step: Step)
    requires p.Valid() && id in p.state.db.orders
    modifies p`state, p.store
    ensures p.Valid() && p.state == Next(old(p.state), step) && old(p.state).readOrders <= p.state.readOrders
    ensures OnlyOrder(old(p.state).db, p.state.db, id)
    ensures IsPending(old(p.state).db.orders[id]) ==> IsPending(p.state.db.orders[id])
  {
    hide Healthy, Next, T.UpdatePaymentProvider;
    var r := p.store.UpdatePaymentProvider(id, answer.status, answer.paymentUrl, answer.paymentMemo, answer.expiresAt, now);
    ProviderUpdateOnly(p.state.db, id, answer, now);
    StepDoes(p.state, OfPayments(ProviderUpdate(id, answer.status, answer.paymentUrl, answer.paymentMemo, answer.expiresAt, now)));
    step := OfPayments(ProviderUpdate(id, answer.status, answer.paymentUrl, answer.paymentMemo, answer.expiresAt, now));
    p.Take(step);
  }

  lemma ProviderUpdateOnly(db: Db, id: nat, answer: ProviderOrder, now: int)
    requires id in db.orders
    ensures var db' := T.UpdatePaymentProvider(db, id, answer.status, answer.paymentUrl, answer.paymentMemo, answer.expiresAt, now).db;
      OnlyOrder(db, db', id) && (IsPending(db.orders[id]) ==> IsPending(db'.orders[id]))
  {
  }

  lemma CreatedOrder(db: Db, draft: Order)
    ensures var tx := T.CreatePaymentOrder(db, draft);
      if tx.result.Failure? then tx.db == db
      else
        && tx.result.value.id == db.nextOrder && tx.db.orders == db.orders[db.nextOrder := tx.result.value]
        && AsDrafted(tx.result.value, draft) && IsPending(tx.result.value)
  {
  }

  method InsertOrder(p: Process, draft: Order) returns (r: Result<Order>)
    requires p.Valid()
    modifies p`state, p.store
    ensures p.Valid() && p.state == Next(old(p.state), OfPayments(NewOrder(draft)))
    ensures Tx(p.state.db, r) == T.CreatePaymentOrder(old(p.state).db, draft)
  {
    hide Healthy, Next, T.CreatePaymentOrder;
    r := p.store.CreatePaymentOrder(draft);
    StepDoes(p.state, OfPayments(NewOrder(draft)));
    p.Take(OfPayments(NewOrder(draft)));
  }

  function PaidAtOnce(order: Order, answer: ProviderOrder): Notification {
    Notification("provider-paid-" + order.merchantOrderNo, order.merchantOrderNo, answer.amountFen, answer.currency, answer.paidAt,
      "provider-paid-" + order.merchantOrderNo, "")
  }

  /** An order is stored before the centre hears of it. If the answer is lost or does not repeat the
      order's terms, the order is there and pending exactly as it was stored, for the webhook and the
      reconciliation; a matching answer that is PAID is delivered at once, a closed one closes the order,
      and after a failed delivery the order is pending still. No other order changes. */
  method CreateOrder(p: Process, center: PaymentCenter, draft: Order, now: int)
    returns (r: Result<Order>, ghost answer: Option<ProviderOrder>, ghost codeHash: string, ghost steps: seq<Step>)
    requires p.Valid()
    modifies p`state, p.store, center`asked
    ensures p.Valid() && p.state == Run(old(p.state), steps)
    ensures var tx := T.CreatePaymentOrder(old(p.state).db, draft);
      if tx.result.Failure? then r == Failure(tx.result.error) && p.state.db == old(p.state).db && center.asked == old(center.asked)
      else
        && center.asked == old(center.asked) + [Creation(draft.merchantOrderNo, answer)]
        && CreatedAs(old(p.state).db, p.state.db, tx.result.value)
        && (answer.None? || !Matches(answer.value, draft) ==> r.Failure? && p.state.db == tx.db)
        && (r.Failure? ==> IsPending(p.state.db.orders[tx.result.value.id]))
        && (r.Success? ==> r.value == p.state.db.orders[tx.result.value.id] && answer.Some? && Matches(answer.value, draft))
        && AsDrafted(p.state.db.orders[tx.result.value.id], draft)
        && (r.Failure? && answer.Some? && Matches(answer.value, draft) ==>
              var order := p.state.db.orders[tx.result.value.id];
              order.id == tx.result.value.id && !CanConclude(p.state.db, order, answer.value, PaidAtOnce(order, answer.value), now, codeHash))
    ensures r.Success? && answer.Some? && answer.value.status == "PAID" ==> r.value.fulfillment == Fulfilled
    ensures r.Success? && answer.Some? && answer.value.status == "EXPIRED" ==> ClosedAs(r.value, false)
    ensures r.Success? && answer.Some? && IsProviderCanceled(answer.value.status) ==> ClosedAs(r.value, true)
  {
    hide Healthy, Next, Run, T.CreatePaymentOrder, OnlyOrder, ClosedAs, SameTerms, PaidAtOnce;
    answer, codeHash := None, "";
    CreatedOrder(p.state.db, draft);
    SameOrder(p.state.db, draft);
    var created := InsertOrder(p, draft);
    steps := [OfPayments(NewOrder(draft))];
    RunSingle(old(p.state), steps[0]);
    if created.Failure? {
      return Failure(created.error), answer, codeHash, steps;
    }
    var id := created.value.id;
    var reported := center.CreateOrder(draft.merchantOrderNo);
    answer := reported;
    if reported.None? {
      return Failure(RemoteFailure), answer, codeHash, steps;
    }
    if !Matches(reported.value, draft) {
      return Failure(AmountMismatch), answer, codeHash, steps;
    }
    ghost var inserted := p.state.db;
    ghost var step := ProviderUpdated(p, id, reported.value, now);
    RunSnoc(old(p.state), steps, step);
    steps := steps + [step];
    OnlyOrderKeeps(inserted, p.state.db, id);
    ghost var updated := p.state.db;
    var order; ghost var taken;
    order, taken := FindOrder(p, id);
    RunAppend(old(p.state), steps, taken);
    steps := steps + taken;
    var error;
    error, codeHash, taken := Conclude(p, order.value, reported.value, PaidAtOnce(order.value, reported.value), now);
    RunAppend(old(p.state), steps, taken);
    steps := steps + taken;
    OnlyOrderTwice(inserted, updated, p.state.db, id);
    OnlyOrderKeeps(inserted, p.state.db, id);
    r := if error.Some? then Failure(error.value) else Success(p.store.orders[id]);
  }

  /** The order as it was asked for. */
  ghost predicate AsDrafted(order: Order, draft: Order) {
    && order.publicToken == draft.publicToken && order.merchantOrderNo == draft.merchantOrderNo && order.kind == draft.kind
    && order.accountId == draft.accountId && order.durationDays == draft.durationDays && order.durationMinutes == draft.durationMinutes
    && order.amountFen == draft.amountFen && order.currency == draft.currency
  }

  /** The new order is there under its terms, and no other has changed. */
  ghost predicate CreatedAs(db: Db, db': Db, order: Order) {
    && order.id in db'.orders && SameTerms(order, db'.orders[order.id])
    && forall o :: o in db.orders && o != order.id ==> o in db'.orders && db'.orders[o] == db.orders[o]
  }

  lemma SameOrder(db: Db, draft: Order)
    ensures var tx := T.CreatePaymentOrder(db, draft); tx.result.Success? ==> SameTerms(tx.result.value, tx.result.value)
  {
    hide T.CreatePaymentOrder;
  }

  lemma OnlyOrderTwice(db: Db, db': Db, db'': Db, id: nat)
    requires OnlyOrder(db, db', id) && OnlyOrder(db', db'', id)
    ensures OnlyOrder(db, db'', id)
  {
  }

  lemma OnlyOrderKeeps(db: Db, db': Db, id: nat)
    requires OnlyOrder(db, db', id)
    ensures id in db.orders && id in db'.orders && db'.orders[id].id == db.orders[id].id && SameTerms(db.orders[id], db'.orders[id])
    ensures forall o :: o in db.orders && o != id ==> o in db'.orders && db'.orders[o] == db.orders[o]
    ensures db'.orders.Keys == db.orders.Keys
  {
  }
}
