/** The rows of the portal's tables, and the small vocabulary the modules share. */
module Domain {

  datatype Option<+T> = None | Some(value: T)

  datatype Result<+T> = Success(value: T) | Failure(error: Error)

  datatype Error =
    | NotFound
    | AccountVersionConflict
    | AccountAlreadyExists
    | IdempotencyKeyConflict
    | InviteNotRedeemable
    | InviteUnavailable
    | ConstraintViolation      // a UNIQUE, CHECK or FOREIGN KEY constraint refused the statement
    | NoEmbyUser
    | DifferentEmbyUser
    | NoInvite
    | InvalidFulfillment
    | AmountMismatch
    | EventOfAnotherOrder
    | NoActivationCode
    | NoRenewalAccount
    | ExpiredAccount
    | InvalidRequest           // refused before anything was stored
    | RemoteFailure            // a call to another server failed or its reply was lost

  datatype Status = Active | Disabled | Expired

  /** A business account. Its id is its key in the accounts table. */
  datatype Account = Account(
    id: nat, version: nat, embyUserId: string, username: string, status: Status,
    expiresAt: int, note: string, createdAt: int, updatedAt: int, disabledAt: Option<int>)

  /** A queued Emby access policy; the queue holds at most one per account. */
  datatype Job = Job(
    desiredDisabled: bool, revision: nat, attempts: nat, lastError: string, createdAt: int, updatedAt: int)

  datatype OperationKind = AccountCreate | Register
  datatype OperationStatus = Pending | Creating | RemoteCreated | Completed

  datatype Operation = Operation(
    id: nat, kind: OperationKind, key: string, fingerprint: string, username: string, passwordCiphertext: string,
    expiresAt: int, note: string,
    inviteCodeHash: Option<string>, inviteId: Option<nat>, inviteDays: int, inviteMinutes: int,
    embyUserId: Option<string>, accountId: Option<nat>, status: OperationStatus,
    createdAt: int, updatedAt: int, completedAt: Option<int>)

  datatype Invite = Invite(
    id: nat, codeHash: string, code: string, codePrefix: string, durationDays: int, durationMinutes: int,
    maxUses: int, usedCount: int, startsAt: Option<int>, expiresAt: Option<int>, enabled: bool,
    note: string, createdAt: int)

  datatype RedemptionKind = Registration | Renewal

  datatype Redemption = Redemption(
    inviteId: nat, accountId: nat, kind: RedemptionKind, durationDays: int, durationMinutes: int, redeemedAt: int)

  datatype OrderKind = ActivationOrder | RenewalOrder
  datatype PaymentStatus = PaymentPending | Paid | PaymentExpired | Canceled | PaymentFailed
  datatype Fulfillment = FulfillmentPending | Fulfilled

  datatype Order = Order(
    id: nat, publicToken: string, merchantOrderNo: string, kind: OrderKind, planName: string,
    accountId: Option<nat>, accountUsername: string, durationDays: int, durationMinutes: int,
    amountFen: int, currency: string, paymentStatus: PaymentStatus, fulfillment: Fulfillment,
    providerStatus: string, paymentUrl: string, paymentMemo: string, providerPaymentKey: string,
    inviteId: Option<nat>, failureReason: string, expiresAt: int, paidAt: Option<int>, createdAt: int, updatedAt: int)

  /** A processed payment event, stored under its event id. */
  datatype Event = Event(
    orderId: nat, eventType: string, amountFen: int, currency: string, payloadHash: string, receivedAt: int)

  /** The store's tables and the next value of each AUTOINCREMENT key; keys are never used twice. */
  datatype Db = Db(
    accounts: map<nat, Account>, jobs: map<nat, Job>, operations: map<nat, Operation>,
    invites: map<nat, Invite>, redemptions: map<nat, Redemption>,
    orders: map<nat, Order>, events: map<string, Event>,
    nextAccount: nat, nextOperation: nat, nextInvite: nat, nextRedemption: nat, nextOrder: nat)

  /** What one transaction leaves behind: the tables, unchanged when it was rolled back, and its answer. */
  datatype Tx<+T> = Tx(db: Db, result: Result<T>)

  const EmptyDb := Db(map[], map[], map[], map[], map[], map[], map[], 1, 1, 1, 1, 1)

  // Go's zero time.Time, the first of January of year 1, in nanoseconds from the start of year 0. The
  // callers must not pass it as an instant.
  const ZERO_TIME: int := 31_622_400_000_000_000

  // ----- text -----

  predicate IsSpace(c: char) {
    c == ' ' || c == '\t' || c == '\n' || c == '\r' || c == 11 as char || c == 12 as char
  }

  function TrimLeft(s: string): string {
    if s != "" && IsSpace(s[0]) then TrimLeft(s[1..]) else s
  }

  function TrimRight(s: string): string {
    if s != "" && IsSpace(s[|s| - 1]) then TrimRight(s[..|s| - 1]) else s
  }

  function TrimSpace(s: string): string {
    TrimRight(TrimLeft(s))
  }

  function LowerChar(c: char): char {
    if 'A' <= c <= 'Z' then (c as int + 32) as char else c
  }

  // The ASCII case folding of SQLite's NOCASE collation.
  function NoCase(s: string): string {
    seq(|s|, i requires 0 <= i < |s| => LowerChar(s[i]))
  }

  predicate SameName(a: string, b: string) {
    NoCase(a) == NoCase(b)
  }
}
