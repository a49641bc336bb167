/** The versioned edits of the accounts service, and its batch over a selection of accounts. */
module AccountEdits {
  import opened Domain
  import opened TableInvariants
  import opened Portal
  import opened Remote
  import opened StepEffects
  import opened Services
  import T = Transactions

  // ----- what an edit does to a row -----

  ghost function Edited(row: Account, expiresAt: int, note: string, now: int): Account {
    var edited := row.(expiresAt := expiresAt, note := TrimSpace(note), updatedAt := now, version := row.version + 1);
    if row.status == Active && expiresAt <= now then edited.(status := Expired, disabledAt := Some(now)) else edited
  }

  ghost function Switched(row: Account, status: Status, now: int): Account {
    row.(status := status, disabledAt := if status == Disabled then Some(now) else None, updatedAt := now, version := row.version + 1)
  }

  /** The row after an edit: the new expiry and note under the next version; an active account whose new
      expiry is over has expired. */
  ghost predicate EditedTo(before: Account, after: Account, expiresAt: int, note: string, now: int) {
    && after.id == before.id && after.embyUserId == before.embyUserId && after.username == before.username && after.createdAt == before.createdAt
    && after.expiresAt == expiresAt && after.note == TrimSpace(note) && after.updatedAt == now && after.version == before.version + 1
    && if before.status == Active && expiresAt <= now then after.status == Expired && after.disabledAt == Some(now)
       else after.status == before.status && after.disabledAt == before.disabledAt
  }

  ghost predicate SwitchedTo(before: Account, after: Account, status: Status, now: int) {
    && after.id == before.id && after.embyUserId == before.embyUserId && after.username == before.username && after.createdAt == before.createdAt
    && after.expiresAt == before.expiresAt && after.note == before.note && after.updatedAt == now && after.version == before.version + 1
    && after.status == status && after.disabledAt == if status == Disabled then Some(now) else None
  }

  /** An edit queues a job exactly when it lets an active account expire. */
  ghost predicate EditQueues(jobs: map<nat, Job>, jobs': map<nat, Job>, before: Account, expiresAt: int, now: int) {
    if before.status == Active && expiresAt <= now then JobQueued(jobs, jobs', before.id, true, now) else jobs' == jobs
  }

  lemma EditMeans(row: Account, expiresAt: int, note: string, now: int)
    ensures EditedTo(row, Edited(row, expiresAt, note, now), expiresAt, note, now)
  {
    hide TrimSpace;
  }

  lemma SwitchMeans(row: Account, status: Status, now: int)
    ensures SwitchedTo(row, Switched(row, status, now), status, now)
  {
  }

  predicate VersionAccepted(account: Account, expected: nat) {
    expected == 0 || expected == account.version
  }

  /** One step that replaces a row, and queues its flag when the status is written. */
  ghost predicate Replaces(s: State, s': State, row: Account, row': Account) {
    && s'.users == s.users && s'.usedIds == s.usedIds && s.readAccounts <= s'.readAccounts
    && row.id in s.db.accounts && s.db.accounts[row.id] == row && row'.id == row.id
    && s'.db.accounts == s.db.accounts[row.id := row']
    && s'.db == s.db.(accounts := s'.db.accounts, jobs := s'.db.jobs)
  }

  ghost predicate IsEditOf(step: AccountAction, snap: Account, expiresAt: int, note: string, now: int) {
    || step == AccountAction.Update(snap, expiresAt, note, now)
    || (step.BatchShift? && step.second == snap && step.now == now && step.first == snap && expiresAt == snap.expiresAt + step.shift && note == snap.note)
  }

  ghost function EditTx(db: Db, snap: Account, expiresAt: int, note: string, now: int): Tx<Account> {
    var account := snap.(expiresAt := expiresAt, note := TrimSpace(note), updatedAt := now);
    if snap.status == Active && expiresAt <= now then T.UpdateAccountAndExpire(db, account, now, now) else T.UpdateAccount(db, account)
  }

  lemma EditTransaction(db: Db, snap: Account, expiresAt: int, note: string, now: int)
    requires snap.id in db.accounts && db.accounts[snap.id] == snap
    ensures var tx, row := EditTx(db, snap, expiresAt, note, now), Edited(snap, expiresAt, note, now);
      tx.result == Success(row) && tx.db == db.(accounts := db.accounts[snap.id := row], jobs := tx.db.jobs)
      && EditQueues(db.jobs, tx.db.jobs, snap, expiresAt, now)
  {
    UpsertQueues(db.jobs, snap.id, true, now);
    hide TrimSpace, T.UpsertAccessSyncJob, JobQueued;
  }

  lemma EditDoes(s: State, step: AccountAction, snap: Account, expiresAt: int, note: string, now: int)
    requires snap in s.readAccounts && snap.id in s.db.accounts && s.db.accounts[snap.id] == snap && expiresAt != ZERO_TIME
    requires IsEditOf(step, snap, expiresAt, note, now)
    ensures var s' := Next(s, OfAccounts(step));
      EditTx(s.db, snap, expiresAt, note, now) == Tx(s'.db, Success(Edited(snap, expiresAt, note, now)))
      && Replaces(s, s', snap, Edited(snap, expiresAt, note, now)) && EditQueues(s.db.jobs, s'.db.jobs, snap, expiresAt, now)
  {
    EditTransaction(s.db, snap, expiresAt, note, now);
    hide TrimSpace, T.UpdateAccountAndExpire, T.UpdateAccount, EditQueues;
  }

  lemma SwitchDoes(s: State, snap: Account, status: Status, checkedAt: int, now: int)
    requires snap in s.readAccounts && snap.id in s.db.accounts && s.db.accounts[snap.id] == snap
    requires status == Disabled || (status == Active && checkedAt < snap.expiresAt)
    ensures var step := if status == Disabled then Disable(snap, now) else Enable(snap, checkedAt, now);
      && Replaces(s, Next(s, OfAccounts(step)), snap, Switched(snap, status, now))
      && T.SetAccountStatus(s.db, snap, status, if status == Disabled then Some(now) else None, now)
         == Tx(Next(s, OfAccounts(step)).db, Success(Switched(snap, status, now)))
      && JobQueued(s.db.jobs, Next(s, OfAccounts(step)).db.jobs, snap.id, status == Disabled, now)
  {
    UpsertQueues(s.db.jobs, snap.id, status != Active, now);
    hide T.UpsertAccessSyncJob, JobQueued;
  }

  lemma RowId(s: State, id: nat)
    requires Healthy(s) && id in s.db.accounts
    ensures s.db.accounts[id].id == id
  {
    AccountFacts(s.db, id);
  }

  lemma RowIds(s: State)
    requires Healthy(s)
    ensures forall id :: id in s.db.accounts ==> s.db.accounts[id].id == id
  {
  }

  // ----- accounts/service.go -----

  method Get(p: Process, id: nat) returns (r: Result<Account>, ghost steps: seq<Step>)
    requires p.Valid()
    modifies p`state
    ensures p.Valid() && p.state == Run(old(p.state), steps) && p.state.db == old(p.state.db)
    ensures old(p.state).readAccounts <= p.state.readAccounts
    ensures r == if id in p.state.db.accounts then Success(p.state.db.accounts[id]) else Failure(NotFound)
    ensures r.Success? ==> r.value in p.state.readAccounts && r.value.id == id
  {
    hide Healthy, Next, Run;
    steps := [];
    RunNothing(p.state);
    if id !in p.store.accounts {
      return Failure(NotFound), steps;
    }
    RowId(p.state, id);
    StepDoes(p.state, OfAccounts(ReadAccount(id)));
    p.Take(OfAccounts(ReadAccount(id)));
    RunSingle(old(p.state), OfAccounts(ReadAccount(id)));
    r, steps := Success(p.store.accounts[id]), [OfAccounts(ReadAccount(id))];
  }

  /** The compare-and-swap edit of a row that was just read. */
  method WriteEdit(p: Process, snap: Account, expiresAt: int, note: string, now: int, ghost step: AccountAction) returns (r: Result<Account>)
    requires p.Valid() && snap in p.state.readAccounts && snap.id in p.state.db.accounts && p.state.db.accounts[snap.id] == snap
    requires expiresAt != ZERO_TIME && IsEditOf(step, snap, expiresAt, note, now)
    modifies p`state, p.store
    ensures p.Valid() && p.state == Next(old(p.state), OfAccounts(step))
    ensures Replaces(old(p.state), p.state, snap, Edited(snap, expiresAt, note, now)) && r == Success(Edited(snap, expiresAt, note, now))
    ensures EditQueues(old(p.state).db.jobs, p.state.db.jobs, snap, expiresAt, now)
  {
    hide Healthy, Next, Edited, EditQueues, IsEditOf, TrimSpace, T.UpdateAccountAndExpire, T.UpdateAccount;
    EditDoes(p.state, step, snap, expiresAt, note, now);
    var account := snap.(expiresAt := expiresAt, note := TrimSpace(note), updatedAt := now);
    if snap.status == Active && expiresAt <= now {
      r := p.store.UpdateAccountAndExpire(account, now, now);
    } else {
      r := p.store.UpdateAccount(account);
    }
    p.Take(OfAccounts(step));
  }

  method WriteSwitch(p: Process, snap: Account, status: Status, checkedAt: int, now: int) returns (ghost step: Step)
    requires p.Valid() && snap in p.state.readAccounts && snap.id in p.state.db.accounts && p.state.db.accounts[snap.id] == snap
    requires status == Disabled || (status == Active && checkedAt < snap.expiresAt)
    modifies p`state, p.store
    ensures p.Valid() && p.state == Next(old(p.state), step)
    ensures Replaces(old(p.state), p.state, snap, Switched(snap, status, now))
    ensures JobQueued(old(p.state).db.jobs, p.state.db.jobs, snap.id, status == Disabled, now)
  {
    hide Healthy, Next, Switched, JobQueued, T.SetAccountStatus;
    SwitchDoes(p.state, snap, status, checkedAt, now);
    var r := p.store.SetAccountStatus(snap, status, if status == Disabled then Some(now) else None, now);
    step := OfAccounts(if status == Disabled then Disable(snap, now) else Enable(snap, checkedAt, now));
    p.Take(step);
  }

  /** An edit is refused for a missing account, another version or no expiry, and changes nothing then. */
  method Update(p: Process, id: nat, expected: nat, expiresAt: int, note: string, now: int) returns (r: Result<Account>, ghost steps: seq<Step>)
    requires p.Valid()
    modifies p`state, p.store
    ensures p.Valid() && p.state == Run(old(p.state), steps)
    ensures var db, db' := old(p.state).db, p.state.db;
      if id !in db.accounts then r == Failure(NotFound)
      else if expected != 0 && expected != db.accounts[id].version then r == Failure(AccountVersionConflict)
      else if expiresAt == ZERO_TIME then r == Failure(InvalidRequest)
      else r.Success? && EditedTo(db.accounts[id], r.value, expiresAt, note, now) && EditQueues(db.jobs, db'.jobs, db.accounts[id], expiresAt, now)
    ensures r.Failure? ==> p.state.db == old(p.state).db
    ensures r.Success? ==> p.state.db.accounts == old(p.state).db.accounts[id := r.value]
  {
    hide Healthy, Next, Run, Edited, EditedTo, EditQueues;
    r, steps := Get(p, id);
    if r.Failure? {
      return;
    }
    var account := r.value;
    if expected != 0 && expected != account.version {
      return Failure(AccountVersionConflict), steps;
    }
    if expiresAt == ZERO_TIME {
      return Failure(InvalidRequest), steps;
    }
    ghost var step := AccountAction.Update(account, expiresAt, note, now);
    EditMeans(account, expiresAt, note, now);
    r := WriteEdit(p, account, expiresAt, note, now, step);
    RunSnoc(old(p.state), steps, OfAccounts(step));
    steps := steps + [OfAccounts(step)];
  }

  /** Disabling and enabling. An account whose subscription has ended cannot be enabled. */
  method Switch(p: Process, id: nat, expected: nat, status: Status, checkedAt: int, now: int) returns (r: Result<()>, ghost steps: seq<Step>)
    requires p.Valid() && (status == Disabled || status == Active)
    modifies p`state, p.store
    ensures p.Valid() && p.state == Run(old(p.state), steps)
    ensures var db := old(p.state).db;
      r == if id !in db.accounts then Failure(NotFound)
           else if expected != 0 && expected != db.accounts[id].version then Failure(AccountVersionConflict)
           else if status == Active && db.accounts[id].expiresAt <= checkedAt then Failure(ExpiredAccount)
           else Success(())
    ensures r.Failure? ==> p.state.db == old(p.state).db
    ensures r.Success? ==>
      var db, db' := old(p.state).db, p.state.db;
      && id in db'.accounts && db'.accounts == db.accounts[id := db'.accounts[id]]
      && SwitchedTo(db.accounts[id], db'.accounts[id], status, now) && JobQueued(db.jobs, db'.jobs, id, status == Disabled, now)
  {
    hide Healthy, Next, Run, Switched, SwitchedTo, JobQueued;
    var got;
    got, steps := Get(p, id);
    if got.Failure? {
      return Failure(got.error), steps;
    }
    var account := got.value;
    if expected != 0 && expected != account.version {
      return Failure(AccountVersionConflict), steps;
    }
    SwitchMeans(account, status, now);
    if status == Active && account.expiresAt <= checkedAt {
      return Failure(ExpiredAccount), steps;
    }
    ghost var step := WriteSwitch(p, account, status, checkedAt, now);
    RunSnoc(old(p.state), steps, step);
    steps := steps + [step];
    r := Success(());
  }

  // ----- deletion -----

  /** The account is gone with all that was its own; orders forget it and keep their terms. */
  ghost predicate Forgotten(db: Db, db': Db, id: nat) {
    && db'.accounts == db.accounts - {id} && db'.jobs == db.jobs - {id}
    && (forall o :: o in db'.operations <==> o in db.operations && db.operations[o].accountId != Some(id))
    && (forall o :: o in db'.operations ==> db'.operations[o] == db.operations[o])
    && (forall r :: r in db'.redemptions <==> r in db.redemptions && db.redemptions[r].accountId != id)
    && (forall r :: r in db'.redemptions ==> db'.redemptions[r] == db.redemptions[r])
    && db'.orders.Keys == db.orders.Keys && db'.invites == db.invites && db'.events == db.events
    && (forall o :: o in db.orders ==> db'.orders[o] == db.orders[o].(accountId := db'.orders[o].accountId))
    && (forall o :: o in db.orders ==> db'.orders[o].accountId == if db.orders[o].accountId == Some(id) then None else db.orders[o].accountId)
  }

  lemma DeletedIsForgotten(db: Db, id: nat)
    requires id in db.accounts
    ensures T.DeleteAccount(db, id).result.Success? && Forgotten(db, T.DeleteAccount(db, id).db, id)
  {
  }

  /** The Emby user goes first; the rows go once Emby has answered that it is gone, and all together. An
      existing account stays only if Emby's answer failed. */
  method Delete(p: Process, id: nat) returns (r: Result<()>, ghost steps: seq<Step>)
    requires p.Valid()
    modifies p`state, p.store, p.emby`users, p.emby`log
    ensures p.Valid() && p.state == Run(old(p.state), steps)
    ensures r.Failure? ==> p.state.db == old(p.state).db
    ensures id !in old(p.state).db.accounts ==> r == Failure(NotFound) && p.emby.log == old(p.emby.log)
    ensures id in old(p.state).db.accounts ==>
      p.emby.log == old(p.emby.log) + [Deleted(old(p.state).db.accounts[id].embyUserId, r.Success?)]
    ensures r.Success? ==> id in old(p.state).db.accounts && Forgotten(old(p.state).db, p.state.db, id)
    ensures r.Success? ==> old(p.state).db.accounts[id].embyUserId !in p.emby.users
  {
    hide Healthy, Next, Run, Forgotten, T.DeleteAccount;
    var got;
    got, steps := Get(p, id);
    if got.Failure? {
      return Failure(got.error), steps;
    }
    var account := got.value;
    var ok; ghost var effect;
    ok, effect := p.emby.DeleteUser(account.embyUserId);
    StepDoes(p.state, OfAccounts(DeleteRemotely(account, effect, ok)));
    p.Take(OfAccounts(DeleteRemotely(account, effect, ok)));
    RunSnoc(old(p.state), steps, OfAccounts(DeleteRemotely(account, effect, ok)));
    steps := steps + [OfAccounts(DeleteRemotely(account, effect, ok))];
    if !ok {
      return Failure(RemoteFailure), steps;
    }
    DeletedIsForgotten(p.state.db, id);
    StepDoes(p.state, OfAccounts(DeleteLocally(id)));
    r := p.store.DeleteAccount(id);
    p.Take(OfAccounts(DeleteLocally(id)));
    RunSnoc(old(p.state), steps, OfAccounts(DeleteLocally(id)));
    steps := steps + [OfAccounts(DeleteLocally(id))];
  }

  // ----- a batch -----

  datatype BatchAction = SetExpiry(at: int) | Extend(duration: int) | Reduce(duration: int) | EnableAll | DisableAll

  /** A set expiry is not missing, and a duration is positive. */
  predicate ValidAction(action: BatchAction) {
    (action.SetExpiry? ==> action.at != ZERO_TIME) && (action.Extend? ==> action.duration > 0) && (action.Reduce? ==> action.duration > 0)
  }

  /** The selected ids without repetitions, in their first order; nothing for an empty or invalid selection. */
  method UniqueAccountIDs(ids: seq<int>) returns (r: Option<seq<nat>>)
    ensures r.Some? <==> ids != [] && forall i :: 0 <= i < |ids| ==> ids[i] >= 1
    ensures r.Some? ==> (forall id :: id in r.value <==> id in ids) && (forall i, j :: 0 <= i < j < |r.value| ==> r.value[i] != r.value[j])
    ensures r.Some? ==> forall i, j :: 0 <= i < j < |r.value| ==> FirstAt(ids, r.value[i]) < FirstAt(ids, r.value[j])
  {
    if ids == [] {
      return None;
    }
    var seen: set<int>, result: seq<nat> := {}, [];
    for k := 0 to |ids|
      invariant forall i :: 0 <= i < k ==> ids[i] >= 1
      invariant forall id :: id in seen <==> id in ids[..k]
      invariant forall id :: id in result <==> id in ids[..k]
      invariant forall i, j :: 0 <= i < j < |result| ==> FirstAt(ids, result[i]) < FirstAt(ids, result[j])
      invariant forall i :: 0 <= i < |result| ==> FirstAt(ids, result[i]) < k
    {
      if ids[k] < 1 {
        return None;
      }
      if ids[k] !in seen {
        FirstAtIs(ids, k);
        seen, result := seen + {ids[k]}, result + [ids[k]];
      }
    }
    assert ids[..|ids|] == ids;
    r := Some(result);
  }

  function FirstAt(ids: seq<int>, id: int): nat {
    if ids == [] || ids[0] == id then 0 else 1 + FirstAt(ids[1..], id)
  }

  lemma {:induction false} FirstAtIs(ids: seq<int>, k: nat)
    requires k < |ids| && ids[k] !in ids[..k]
    ensures FirstAt(ids, ids[k]) == k
  {
    if k > 0 {
      assert ids[..k] == [ids[0]] + ids[1..][..k - 1];
      FirstAtIs(ids[1..], k - 1);
    }
  }

  /** A row after the action was applied to it once. */
  ghost function Applied(row: Account, action: BatchAction, now: int): Account {
    match action
    case SetExpiry(at) => Edited(row, at, row.note, now)
    case Extend(duration) => Edited(row, row.expiresAt + duration, row.note, now)
    case Reduce(duration) => Edited(row, row.expiresAt - duration, row.note, now)
    case EnableAll => Switched(row, Active, now)
    case DisableAll => Switched(row, Disabled, now)
  }

  ghost function AppliedTo(accounts: map<nat, Account>, ids: seq<nat>, action: BatchAction, now: int): map<nat, Account> {
    map a | a in accounts :: if a in ids then Applied(accounts[a], action, now) else accounts[a]
  }

  lemma AppliedOneMore(accounts: map<nat, Account>, ids: seq<nat>, k: nat, action: BatchAction, now: int)
    requires k < |ids| && ids[k] in accounts && ids[k] !in ids[..k]
    ensures var before := AppliedTo(accounts, ids[..k], action, now);
      ids[k] in before && before[ids[k]] == accounts[ids[k]] &&
      before[ids[k] := Applied(accounts[ids[k]], action, now)] == AppliedTo(accounts, ids[..k + 1], action, now)
  {
    hide Applied;
    assert ids[..k + 1] == ids[..k] + [ids[k]];
  }

  lemma AppliedToNone(accounts: map<nat, Account>, action: BatchAction, now: int)
    ensures AppliedTo(accounts, [], action, now) == accounts
  {
  }

  /** What each action does to a row: the note stays, and the expiry is set, moved, or left to a switch. */
  ghost predicate ActedRight(before: Account, after: Account, action: BatchAction, now: int) {
    match action
    case SetExpiry(at) => EditedTo(before, after, at, before.note, now)
    case Extend(duration) => EditedTo(before, after, before.expiresAt + duration, before.note, now)
    case Reduce(duration) => EditedTo(before, after, before.expiresAt - duration, before.note, now)
    case EnableAll => SwitchedTo(before, after, Active, now)
    case DisableAll => SwitchedTo(before, after, Disabled, now)
  }

  /** The action was applied once to each of these accounts, and to no other. */
  ghost predicate ActedOn(accounts: map<nat, Account>, accounts': map<nat, Account>, ids: seq<nat>, action: BatchAction, now: int) {
    && accounts'.Keys == accounts.Keys
    && (forall a :: a in accounts && a !in ids ==> accounts'[a] == accounts[a])
    && (forall a :: a in accounts && a in ids ==> ActedRight(accounts[a], accounts'[a], action, now))
  }

  lemma AppliedMeans(accounts: map<nat, Account>, ids: seq<nat>, action: BatchAction, now: int)
    ensures ActedOn(accounts, AppliedTo(accounts, ids, action, now), ids, action, now)
  {
    hide Edited, Switched, EditedTo, SwitchedTo;
    forall a | a in accounts
      ensures ActedRight(accounts[a], Applied(accounts[a], action, now), action, now)
    {
      match action
      case SetExpiry(at) => EditMeans(accounts[a], at, accounts[a].note, now);
      case Extend(duration) => EditMeans(accounts[a], accounts[a].expiresAt + duration, accounts[a].note, now);
      case Reduce(duration) => EditMeans(accounts[a], accounts[a].expiresAt - duration, accounts[a].note, now);
      case EnableAll => SwitchMeans(accounts[a], Active, now);
      case DisableAll => SwitchMeans(accounts[a], Disabled, now);
    }
  }

  // Whether the whole selection can be acted on.
  ghost predicate Acceptable(account: Account, versions: map<nat, nat>, action: BatchAction, now: int) {
    && (account.id in versions ==> versions[account.id] == 0 || versions[account.id] == account.version)
    && (action.EnableAll? ==> now < account.expiresAt)
  }

  predicate Refused(accounts: map<nat, Account>, versions: map<nat, nat>, id: nat) {
    id !in accounts || (id in versions && !VersionAccepted(accounts[id], versions[id]))
  }

  /** The edit would leave an expiry; a missing one is refused. */
  predicate HasExpiry(account: Account, action: BatchAction) {
    && (action.SetExpiry? ==> action.at != ZERO_TIME)
    && (action.Extend? ==> account.expiresAt + action.duration != ZERO_TIME)
    && (action.Reduce? ==> account.expiresAt - action.duration != ZERO_TIME)
  }

  /** A selection that the action can be applied to in full. */
  ghost predicate Selectable(accounts: map<nat, Account>, selection: seq<int>, versions: map<nat, nat>, action: BatchAction, now: int) {
    && selection != [] && ValidAction(action)
    && forall id: int :: id in selection ==>
         id >= 1 && id in accounts && Acceptable(accounts[id], versions, action, now) && HasExpiry(accounts[id], action)
  }

  ghost predicate AllowedAt(accounts: map<nat, Account>, ids: seq<nat>, i: nat, versions: map<nat, nat>, action: BatchAction, now: int)
    requires i < |ids|
  {
    ids[i] in accounts && Acceptable(accounts[ids[i]], versions, action, now) && HasExpiry(accounts[ids[i]], action)
  }

  // A selection is what its unique ids are.
  lemma SelectionByIds(accounts: map<nat, Account>, selection: seq<int>, ids: seq<nat>, versions: map<nat, nat>, action: BatchAction, now: int)
    requires selection != [] && ValidAction(action) && (forall i :: 0 <= i < |selection| ==> selection[i] >= 1)
    requires forall id :: id in ids <==> id in selection
    ensures Selectable(accounts, selection, versions, action, now) <==> forall i :: 0 <= i < |ids| ==> AllowedAt(accounts, ids, i, versions, action, now)
  {
    hide Acceptable, HasExpiry;
    if Selectable(accounts, selection, versions, action, now) {
      forall i | 0 <= i < |ids|
        ensures AllowedAt(accounts, ids, i, versions, action, now)
      {
        assert ids[i] in selection;
      }
    }
    if forall i :: 0 <= i < |ids| ==> AllowedAt(accounts, ids, i, versions, action, now) {
      forall id: int | id in selection
        ensures id >= 1 && id in accounts && Acceptable(accounts[id], versions, action, now) && HasExpiry(accounts[id], action)
      {
        assert id in ids;
        var i :| 0 <= i < |ids| && ids[i] == id;
        assert AllowedAt(accounts, ids, i, versions, action, now);
      }
    }
  }

  method ReadSelection(p: Process, ids: seq<nat>, versions: map<nat, nat>) returns (r: Result<seq<Account>>, ghost steps: seq<Step>)
    requires p.Valid()
    modifies p`state
    ensures p.Valid() && p.state == Run(old(p.state), steps) && p.state.db == old(p.state).db
    ensures r.Success? ==> |r.value| == |ids|
    ensures r.Success? ==> forall i :: 0 <= i < |ids| ==> ids[i] in p.state.db.accounts && r.value[i] == p.state.db.accounts[ids[i]]
    ensures r.Success? ==> forall i :: 0 <= i < |ids| ==> r.value[i].id == ids[i] && r.value[i] in p.state.readAccounts
    ensures r.Success? ==> forall i :: 0 <= i < |ids| && ids[i] in versions ==> VersionAccepted(r.value[i], versions[ids[i]])
    ensures r.Failure? ==> r.error == NotFound || r.error == AccountVersionConflict
    ensures r.Failure? ==> exists i :: 0 <= i < |ids| && Refused(p.state.db.accounts, versions, ids[i])
  {
    hide Healthy, Next, Run;
    var accounts := [];
    steps := [];
    RunNothing(p.state);
    for i := 0 to |ids|
      invariant p.Valid() && p.state == Run(old(p.state), steps) && p.state.db == old(p.state).db
      invariant |accounts| == i
      invariant forall j :: 0 <= j < i ==> ids[j] in p.state.db.accounts && accounts[j] == p.state.db.accounts[ids[j]]
      invariant forall j :: 0 <= j < i ==> accounts[j].id == ids[j] && accounts[j] in p.state.readAccounts
      invariant forall j :: 0 <= j < i && ids[j] in versions ==> VersionAccepted(accounts[j], versions[ids[j]])
    {
      var got; ghost var taken;
      got, taken := Get(p, ids[i]);
      RunAppend(old(p.state), steps, taken);
      steps := steps + taken;
      if got.Failure? {
        return Failure(got.error), steps;
      }
      if ids[i] in versions && !VersionAccepted(got.value, versions[ids[i]]) {
        return Failure(AccountVersionConflict), steps;
      }
      accounts := accounts + [got.value];
    }
    r := Success(accounts);
  }

  /** The whole selection is read and checked before anything changes. */
  method CheckSelection(p: Process, ids: seq<nat>, versions: map<nat, nat>, action: BatchAction, now: int)
    returns (r: Result<seq<Account>>, ghost steps: seq<Step>)
    requires p.Valid()
    modifies p`state
    ensures p.Valid() && p.state == Run(old(p.state), steps) && p.state.db == old(p.state).db
    ensures r.Success? ==> |r.value| == |ids|
    ensures r.Success? ==> forall i :: 0 <= i < |ids| ==>
      && ids[i] in p.state.db.accounts && r.value[i] == p.state.db.accounts[ids[i]]
      && r.value[i].id == ids[i] && r.value[i] in p.state.readAccounts && Acceptable(r.value[i], versions, action, now)
    ensures r.Success? && action.EnableAll? ==> forall i :: 0 <= i < |ids| ==> now < r.value[i].expiresAt
    ensures r.Failure? ==> exists i :: 0 <= i < |ids| && !AllowedAt(p.state.db.accounts, ids, i, versions, action, now)
  {
    hide Healthy, Next, Run, HasExpiry;
    ghost var before := p.state.db.accounts;
    RowIds(p.state);
    r, steps := ReadSelection(p, ids, versions);
    if r.Failure? {
      ghost var i :| 0 <= i < |ids| && Refused(before, versions, ids[i]);
      RefusedIsNotAllowed(before, ids, i, versions, action, now);
      return;
    }
    var accounts := r.value;
    if action.EnableAll? && exists i :: 0 <= i < |accounts| && accounts[i].expiresAt <= now {
      ghost var i :| 0 <= i < |accounts| && accounts[i].expiresAt <= now;
      OverIsNotAllowed(before, ids, i, versions, action, now);
      return Failure(ExpiredAccount), steps;
    }
    AcceptedSelection(before, ids, versions, action, now);
  }

  /** One account of a batch; the action's new expiry was computed from the first read of the row. */
  method ApplyOne(p: Process, first: Account, action: BatchAction, now: int) returns (done: bool, ghost steps: seq<Step>)
    requires p.Valid() && first in p.state.readAccounts && first.id in p.state.db.accounts && p.state.db.accounts[first.id] == first
    requires action.EnableAll? ==> now < first.expiresAt
    modifies p`state, p.store
    ensures p.Valid() && p.state == Run(old(p.state), steps) && old(p.state).readAccounts <= p.state.readAccounts
    ensures done <==> HasExpiry(first, action)
    ensures p.state.db.accounts == if done then old(p.state).db.accounts[first.id := Applied(first, action, now)] else old(p.state).db.accounts
  {
    hide Healthy, Next, Run, Edited, Switched;
    if action.EnableAll? || action.DisableAll? {
      ghost var step := WriteSwitch(p, first, if action.EnableAll? then Active else Disabled, now, now);
      RunSingle(old(p.state), step);
      return true, [step];
    }
    var shift := match action case SetExpiry(at) => at - first.expiresAt case Extend(d) => d case _ => -action.duration;
    var expiresAt := first.expiresAt + shift;
    if expiresAt == ZERO_TIME {
      RunNothing(p.state);
      return false, [];
    }
    ghost var step := BatchShift(first, first, shift, now);
    var r := WriteEdit(p, first, expiresAt, first.note, now, step);
    RunSingle(old(p.state), OfAccounts(step));
    done, steps := true, [OfAccounts(step)];
  }

  // One account after the other, until one would be left without an expiry.
  method ApplyAll(p: Process, accounts: seq<Account>, ghost ids: seq<nat>, action: BatchAction, now: int)
    returns (completed: nat, ghost steps: seq<Step>)
    requires p.Valid() && |accounts| == |ids| && forall i, j :: 0 <= i < j < |ids| ==> ids[i] != ids[j]
    requires forall i :: 0 <= i < |ids| ==> ids[i] in p.state.db.accounts && accounts[i] == p.state.db.accounts[ids[i]]
    requires forall i :: 0 <= i < |ids| ==> accounts[i].id == ids[i] && accounts[i] in p.state.readAccounts
    requires action.EnableAll? ==> forall i :: 0 <= i < |ids| ==> now < accounts[i].expiresAt
    modifies p`state, p.store
    ensures p.Valid() && p.state == Run(old(p.state), steps)
    ensures completed <= |ids| && p.state.db.accounts == AppliedTo(old(p.state).db.accounts, ids[..completed], action, now)
    ensures forall i :: 0 <= i < completed ==> HasExpiry(accounts[i], action)
    ensures completed < |ids| ==> !HasExpiry(accounts[completed], action)
  {
    hide Healthy, Next, Run, AppliedTo, Applied, HasExpiry;
    completed, steps := 0, [];
    RunNothing(p.state);
    AppliedToNone(p.state.db.accounts, action, now);
    assert ids[..0] == [];
    ghost var before := p.state.db.accounts;
    while completed < |accounts|
      invariant completed <= |accounts| && p.Valid() && p.state == Run(old(p.state), steps)
      invariant p.state.db.accounts == AppliedTo(before, ids[..completed], action, now)
      invariant forall i :: 0 <= i < |accounts| ==> accounts[i] in p.state.readAccounts
      invariant forall i :: 0 <= i < completed ==> HasExpiry(accounts[i], action)
    {
      AppliedOneMore(before, ids, completed, action, now);
      var done; ghost var taken;
      done, taken := ApplyOne(p, accounts[completed], action, now);
      RunAppend(old(p.state), steps, taken);
      steps := steps + taken;
      if !done {
        return;
      }
      completed := completed + 1;
    }
  }

  /** A batch checks the whole selection before it changes anything; it acts once on each account,
      however often that was listed, and when it stops early the accounts after that are untouched. It is
      applied in full exactly when the selection allows it. */
  method Batch(p: Process, selection: seq<int>, versions: map<nat, nat>, action: BatchAction, now: int)
    returns (completed: nat, error: Option<Error>, ghost ids: seq<nat>, ghost steps: seq<Step>)
    requires p.Valid()
    modifies p`state, p.store
    ensures p.Valid() && p.state == Run(old(p.state), steps)
    ensures completed <= |ids| && p.state.db.accounts == AppliedTo(old(p.state).db.accounts, ids[..completed], action, now)
    ensures error.None? ==> completed == |ids|
    ensures completed > 0 || error.None? ==> forall id :: id in ids <==> id in selection
    ensures error.None? <==> Selectable(old(p.state).db.accounts, selection, versions, action, now)
    ensures completed > 0 ==> forall i :: 0 <= i < |ids| ==>
      ids[i] in old(p.state).db.accounts && Acceptable(old(p.state).db.accounts[ids[i]], versions, action, now)
    ensures ActedOn(old(p.state).db.accounts, p.state.db.accounts, ids[..completed], action, now)
  {
    hide Healthy, Next, Run, AppliedTo, Applied, ActedOn;
    AppliedMeans(p.state.db.accounts, [], action, now);
    completed, ids, steps := 0, [], [];
    RunNothing(p.state);
    AppliedToNone(p.state.db.accounts, action, now);
    var unique := UniqueAccountIDs(selection);
    if unique.None? || (action.SetExpiry? && action.at == ZERO_TIME) || ((action.Extend? || action.Reduce?) && action.duration <= 0) {
      assert forall i :: 0 <= i < |selection| ==> selection[i] in selection;
      return 0, Some(InvalidRequest), ids, steps;
    }
    ids := unique.value;
    assert ids[..0] == [];
    ghost var before := p.state.db.accounts;
    SelectionByIds(before, selection, ids, versions, action, now);
    hide Selectable, Acceptable, AllowedAt, ActedRight;
    var read;
    read, steps := CheckSelection(p, unique.value, versions, action, now);
    if read.Failure? {
      return 0, Some(read.error), ids, steps;
    }
    var accounts := read.value;
    ghost var taken;
    completed, taken := ApplyAll(p, accounts, ids, action, now);
    RunAppend(old(p.state), steps, taken);
    steps := steps + taken;
    AppliedMeans(before, ids[..completed], action, now);
    CompletedAsAllowed(before, accounts, ids, completed, versions, action, now);
    if completed < |accounts| {
      return completed, Some(InvalidRequest), ids, steps;
    }
    error := None;
  }

  // A batch stops exactly at the first account that would be left without an expiry.
  lemma CompletedAsAllowed(before: map<nat, Account>, accounts: seq<Account>, ids: seq<nat>, completed: nat, versions: map<nat, nat>,
                           action: BatchAction, now: int)
    requires |accounts| == |ids| && completed <= |ids|
    requires forall i :: 0 <= i < |ids| ==> ids[i] in before && accounts[i] == before[ids[i]] && Acceptable(before[ids[i]], versions, action, now)
    requires forall i :: 0 <= i < completed ==> HasExpiry(accounts[i], action)
    requires completed < |ids| ==> !HasExpiry(accounts[completed], action)
    ensures completed == |ids| <==> forall i :: 0 <= i < |ids| ==> AllowedAt(before, ids, i, versions, action, now)
  {
    hide Acceptable, HasExpiry;
    if completed < |ids| {
      assert !AllowedAt(before, ids, completed, versions, action, now);
    }
  }

  lemma RefusedIsNotAllowed(accounts: map<nat, Account>, ids: seq<nat>, i: nat, versions: map<nat, nat>, action: BatchAction, now: int)
    requires i < |ids| && Refused(accounts, versions, ids[i]) && forall a :: a in accounts ==> accounts[a].id == a
    ensures !AllowedAt(accounts, ids, i, versions, action, now)
  {
  }

  lemma OverIsNotAllowed(accounts: map<nat, Account>, ids: seq<nat>, i: nat, versions: map<nat, nat>, action: BatchAction, now: int)
    requires i < |ids| && ids[i] in accounts && action.EnableAll? && accounts[ids[i]].expiresAt <= now
    ensures !AllowedAt(accounts, ids, i, versions, action, now)
  {
  }

  lemma AcceptedSelection(accounts: map<nat, Account>, ids: seq<nat>, versions: map<nat, nat>, action: BatchAction, now: int)
    requires forall a :: a in accounts ==> accounts[a].id == a
    requires forall i :: 0 <= i < |ids| ==> ids[i] in accounts && !Refused(accounts, versions, ids[i])
    requires action.EnableAll? ==> forall i :: 0 <= i < |ids| ==> now < accounts[ids[i]].expiresAt
    ensures forall i :: 0 <= i < |ids| ==> Acceptable(accounts[ids[i]], versions, action, now)
  {
  }
}
