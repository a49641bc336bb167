/** Where a guarantee ends: runs of the portal that show why its conditions are there. */
module Limits {
  import opened Domain
  import opened Portal
  import opened Outbox
  import opened StepEffects
  import opened Guarantees
  import T = Transactions

  const REQUEST := T.OperationInput(AccountCreate, "key", "fingerprint", "name", "sealed", 10, "", 1)
  const FOREIGN := EmbyUser("name", true, true, None)

  ghost function Asked(): State {
    Run(Start, [OfOthers(ForeignUser("user", "name", true)), OfSaga(BeginCreate(REQUEST))])
  }

  // Emby has a disabled user of the requested name, and the request is stored.
  lemma AskedIs()
    ensures var s := Asked();
      && s.users == map["user" := FOREIGN] && s.driver == NoDriver && s.db.accounts == map[] && s.db.jobs == map[]
      && s.db.operations == map[1 := T.NewOperation(1, REQUEST)] && s.db.nextAccount == 1
  {
    var foreign := OfOthers(ForeignUser("user", "name", true));
    RunTwice(Start, foreign, OfSaga(BeginCreate(REQUEST)));
    var s1 := Next(Start, foreign);
    assert s1.db == EmptyDb && s1.users == map["user" := FOREIGN] && s1.driver == NoDriver;
    StepDoes(s1, OfSaga(BeginCreate(REQUEST)));
    assert T.BeginAccountCreateOperation(EmptyDb, REQUEST).db == T.InsertOperation(EmptyDb, T.NewOperation(1, REQUEST));
  }

  lemma MarkAndCrash(s: State, now: int)
    requires s.driver == MarkingCreate(1)
    ensures var s1 := Next(s, OfSaga(MarkCreating(now)));
      var s2 := Next(s1, OfSaga(DriverCrash));
      s2.driver == NoDriver && s2.users == s.users && s2.db == T.MarkAccountCreateOperationCreating(s.db, 1, now)
  {
  }

  // The driver marks the operation and crashes before its create call.
  lemma CrashedBeforeCreate(s: State) returns (s': State, steps: seq<Step>)
    requires s.driver == NoDriver && s.db.operations == map[1 := T.NewOperation(1, REQUEST)]
    ensures s' == Run(s, steps) && s'.driver == NoDriver && s'.users == s.users
    ensures s'.db == s.db.(operations := map[1 := T.NewOperation(1, REQUEST).(status := Creating, updatedAt := 2)])
  {
    hide Next, Run;
    var s1 := Next(s, OfSaga(Drive(1)));
    DriveDoes(s, 1);
    MarkAndCrash(s1, 2);
    s' := Next(Next(s1, OfSaga(MarkCreating(2))), OfSaga(DriverCrash));
    steps := [OfSaga(Drive(1)), OfSaga(MarkCreating(2))];
    RunTwice(s, steps[0], steps[1]);
    RunSnoc(s, steps, OfSaga(DriverCrash));
    steps := steps + [OfSaga(DriverCrash)];
  }

  // The retry finds the foreign user under the operation's name and takes it for its own.
  lemma Found(s: State, operation: Operation) returns (s': State, steps: seq<Step>)
    requires s.driver == NoDriver && operation == T.NewOperation(1, REQUEST).(status := Creating, updatedAt := 2)
    requires s.db.operations == map[1 := operation] && s.users == map["user" := FOREIGN]
    ensures s' == Run(s, steps) && s'.users == s.users && s'.driver == SavingRemote(1, "user") && s'.db == s.db
  {
    hide Next, Run, TrimSpace;
    var s1 := Next(s, OfSaga(Drive(1)));
    DriveDoes(s, 1);
    assert NamedLikeOperation(s1, "user", 1);
    s' := Next(s1, OfSaga(Lookup(Some("user"))));
    hide NamedLikeOperation;
    StepDoes(s1, OfSaga(Lookup(Some("user"))));
    steps := [OfSaga(Drive(1)), OfSaga(Lookup(Some("user")))];
    RunTwice(s, steps[0], steps[1]);
  }

  lemma Adopted(s: State, operation: Operation) returns (s': State, steps: seq<Step>)
    requires s.driver == NoDriver && operation == T.NewOperation(1, REQUEST).(status := Creating, updatedAt := 2)
    requires s.db.operations == map[1 := operation] && s.users == map["user" := FOREIGN]
    ensures s' == Run(s, steps) && s'.users == s.users && s'.driver == Finishing(1)
    ensures s'.db == s.db.(operations := map[1 := operation.(embyUserId := Some("user"), status := RemoteCreated, updatedAt := 3)])
  {
    hide Next, Run, TrimSpace;
    var s1;
    s1, steps := Found(s, operation);
    s' := Next(s1, OfSaga(SaveRemote(3)));
    StepDoes(s1, OfSaga(SaveRemote(3)));
    RunSnoc(s, steps, OfSaga(SaveRemote(3)));
    steps := steps + [OfSaga(SaveRemote(3))];
  }

  lemma AdoptedAndFinished(s: State, operation: Operation) returns (s': State, steps: seq<Step>)
    requires s.driver == NoDriver && operation == T.NewOperation(1, REQUEST).(status := Creating, updatedAt := 2)
    requires s.db.operations == map[1 := operation] && s.db.accounts == map[] && s.db.jobs == map[] && s.db.nextAccount == 1
    requires s.users == map["user" := FOREIGN]
    ensures s' == Run(s, steps) && s'.users == s.users && s'.db.jobs == map[]
    ensures 1 in s'.db.accounts && s'.db.accounts[1].status == Active && s'.db.accounts[1].embyUserId == "user"
    ensures 1 in s'.db.operations && s'.db.operations[1].accountId == Some(1)
  {
    hide Next, Run, TrimSpace;
    var s1;
    s1, steps := Adopted(s, operation);
    s' := Next(s1, OfSaga(Finish(4)));
    StepDoes(s1, OfSaga(Finish(4)));
    ProvisionEffect(s1.db, 1, 4);
    RunSnoc(s, steps, OfSaga(Finish(4)));
    steps := steps + [OfSaga(Finish(4))];
  }

  /** An operation that recovers by name may take over a user that somebody else made and disabled. Its
      account is then active with nothing queued while Emby refuses the user, until its first job: the case
      of a user that appeared disabled in Guarantees.OutboxSafety. */
  lemma AdoptionKeepsAForeignFlag() returns (h: History, a: nat)
    ensures IsRun(h)
    ensures var s := h.states[|h.steps|];
      && a in s.db.accounts && a !in s.db.jobs && s.db.accounts[a].status == Active
      && (exists o :: o in s.db.operations && s.db.operations[o].accountId == Some(a))
      && a !in s.everQueued && s.db.accounts[a].embyUserId in s.users && s.users[s.db.accounts[a].embyUserId] == FOREIGN
  {
    AskedIs();
    var first := [OfOthers(ForeignUser("user", "name", true)), OfSaga(BeginCreate(REQUEST))];
    var s := Run(Start, first);
    hide Run, Follows;
    var crashed, second := CrashedBeforeCreate(s);
    var finished, third := AdoptedAndFinished(crashed, T.NewOperation(1, REQUEST).(status := Creating, updatedAt := 2));
    RunAppend(Start, first, second);
    RunAppend(Start, first + second, third);
    h := EveryRunHasAHistory(first + second + third);
    a := 1;
    assert finished.db.operations[1].accountId == Some(1);
    OutboxSafety(h, |h.steps|, a);
  }
}
