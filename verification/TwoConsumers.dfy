/** Why the access queue has one consumer: the portal with a second worker, and a run of it that loses an
    access for good. Revisions start at 1 again after a job is gone, so they cannot tell a later job from
    the one that a second worker still holds. */
module TwoConsumers {
  import opened Domain
  import opened Listing
  import opened Timestamps
  import opened AccessQueue
  import opened Portal
  import opened StepEffects
  import T = Transactions

  /** The portal, whose own worker is the first one, and where the second one stands. */
  datatype Two = Two(portal: State, second: Worker)

  datatype TwoStep = OfPortal(step: Step) | OfSecond(action: WorkerAction)

  /** The second worker takes the same steps on the same store and the same Emby server. */
  ghost function NextTwo(w: Two, step: TwoStep): Two {
    match step
    case OfPortal(step) => w.(portal := Next(w.portal, step))
    case OfSecond(action) =>
      var s := Next(w.portal.(worker := w.second), OfWorker(action));
      Two(s.(worker := w.portal.worker), s.worker)
  }

  ghost function RunTwo(w: Two, steps: seq<TwoStep>): Two {
    if steps == [] then w else NextTwo(RunTwo(w, steps[..|steps| - 1]), steps[|steps| - 1])
  }

  lemma RunTwoSnoc(w: Two, steps: seq<TwoStep>, step: TwoStep)
    ensures RunTwo(w, steps + [step]) == NextTwo(RunTwo(w, steps), step)
  {
    assert (steps + [step])[..|steps|] == steps;
  }

  // ----- one account and its user -----

  const NEW := Account(1, 1, "user", "name", Active, 10, "", 1, 1, None)
  const BARRED := NEW.(status := Disabled, disabledAt := Some(1), version := 2)
  const READMITTED := BARRED.(status := Active, disabledAt := None, updatedAt := 2, version := 3)

  const BARRING := Job(true, 1, 0, "", 1, 1)
  const READMITTING := Job(false, 1, 0, "", 2, 2)
  const SNAPSHOT := JobSnapshot(1, "user", true, 1)

  function User(disabled: bool): EmbyUser {
    EmbyUser("name", disabled, false, None)
  }

  /** The portal holds one account, perhaps its job, and Emby its user. */
  ghost predicate Holds(s: State, account: Account, jobs: map<nat, Job>, disabled: bool) {
    && s.db.accounts == map[1 := account] && s.db.jobs == jobs && s.users == map["user" := User(disabled)]
    && account in s.readAccounts
  }

  // The account is created, with an enabled user.
  lemma Created() returns (s: State, steps: seq<Step>)
    ensures s == Run(Start, steps) && Holds(s, NEW, map[], false) && s.worker == Resting
  {
    var foreign, draft := OfOthers(ForeignUser("user", "name", false)), NEW.(id := 0, version := 0);
    var s1 := Next(Start, foreign);
    StepDoes(Start, foreign);
    assert s1.db == EmptyDb && s1.worker == Resting;
    s := Next(s1, OfAccounts(InsertDirectly(draft)));
    StepDoes(s1, OfAccounts(InsertDirectly(draft)));
    steps := [foreign, OfAccounts(InsertDirectly(draft))];
    RunTwice(Start, foreign, steps[1]);
  }

  lemma Barred(s: State)
    requires Holds(s, NEW, map[], false)
    ensures var s' := Next(s, OfAccounts(Disable(NEW, 1)));
      Holds(s', BARRED, map[1 := BARRING], false) && 1 in s'.everQueued && s'.worker == s.worker
  {
  }

  lemma OneJobIsABatch(jobs: map<nat, Job>)
    requires jobs == map[1 := BARRING]
    ensures IsBatch(jobs, BATCH, [1])
  {
    assert Stamps(jobs) == map[1 := BARRING.updatedAt] && |Stamps(jobs)| == 1;
  }

  lemma Listed(s: State)
    requires Holds(s, BARRED, map[1 := BARRING], false) && s.worker == Resting
    ensures var s' := Next(Next(s, OfWorker(ListDue([], 1))), OfWorker(ListJobs([1])));
      Holds(s', BARRED, map[1 := BARRING], false) && s.everQueued <= s'.everQueued && s'.worker == Syncing([SNAPSHOT], 1)
  {
    var s1 := Next(s, OfWorker(ListDue([], 1)));
    assert IsDueList(s.db, [], 1);
    StepDoes(s, OfWorker(ListDue([], 1)));
    assert Holds(s1, BARRED, map[1 := BARRING], false) && s.everQueued <= s1.everQueued;
    OneJobIsABatch(s.db.jobs);
    StepDoes(s1, OfWorker(ListJobs([1])));
    assert Snapshots(s1.db, [1]) == [SNAPSHOT];
  }

  // The call bars the user, and completing it retires whatever job has revision 1.
  lemma Synchronised(s: State, account: Account, job: Job, disabled: bool)
    requires Holds(s, account, map[1 := job], disabled) && s.worker == Syncing([SNAPSHOT], 1) && job.revision == 1
    ensures var s' := Next(Next(s, OfWorker(CallNext(true, true))), OfWorker(RecordCall(true, "")));
      Holds(s', account, map[], true) && s.everQueued <= s'.everQueued && s'.worker == Syncing([], 1)
  {
    hide Next;
    assert [SNAPSHOT] + [] == [SNAPSHOT];
    var s1 := Next(s, OfWorker(CallNext(true, true)));
    StepDoes(s, OfWorker(CallNext(true, true)));
    StepDoes(s1, OfWorker(RecordCall(true, "")));
  }

  lemma Readmitted(s: State)
    requires Holds(s, BARRED, map[], true)
    ensures var s' := Next(s, OfAccounts(Enable(BARRED, 0, 2)));
      Holds(s', READMITTED, map[1 := READMITTING], true) && s.everQueued <= s'.everQueued && s'.worker == s.worker
  {
  }

  // ----- the run -----

  lemma {:induction false} FirstAlone(steps: seq<Step>, second: Worker) returns (taken: seq<TwoStep>)
    ensures RunTwo(Two(Start, second), taken) == Two(Run(Start, steps), second)
  {
    hide Next;
    if steps == [] {
      taken := [];
    } else {
      var front, last := steps[..|steps| - 1], steps[|steps| - 1];
      var earlier := FirstAlone(front, second);
      taken := earlier + [OfPortal(last)];
      RunTwoSnoc(Two(Start, second), earlier, OfPortal(last));
    }
  }

  lemma TwoMore(w: Two, steps: seq<TwoStep>, first: TwoStep, second: TwoStep)
    ensures RunTwo(w, steps + [first] + [second]) == NextTwo(NextTwo(RunTwo(w, steps), first), second)
  {
    RunTwoSnoc(w, steps, first);
    RunTwoSnoc(w, steps + [first], second);
  }

  /** Both workers list the job that bars the user. The first one calls and completes it, and the account
      is enabled again; then the second one makes its call, and completing it under revision 1 takes the
      enabling job away. The account is active, nothing is queued, and Emby keeps its user out. With one
      worker this cannot be: Guarantees.OutboxSafety. */
  lemma TwoConsumersBreakIt() returns (steps: seq<TwoStep>, a: nat)
    ensures var s := RunTwo(Two(Start, Resting), steps).portal;
      && a in s.db.accounts && s.db.accounts[a].status == Active && a !in s.db.jobs && a in s.everQueued
      && s.db.accounts[a].embyUserId in s.users && s.users[s.db.accounts[a].embyUserId].disabled
  {
    var created, taken := Created();
    steps := FirstAlone(taken, Resting);
    hide Next, Run, RunTwo;
    var w := Two(Start, Resting);
    Barred(created);
    RunTwoSnoc(w, steps, OfPortal(OfAccounts(Disable(NEW, 1))));
    steps := steps + [OfPortal(OfAccounts(Disable(NEW, 1)))];
    var w1 := RunTwo(w, steps);
    Listed(w1.portal);
    TwoMore(w, steps, OfPortal(OfWorker(ListDue([], 1))), OfPortal(OfWorker(ListJobs([1]))));
    steps := steps + [OfPortal(OfWorker(ListDue([], 1)))] + [OfPortal(OfWorker(ListJobs([1])))];
    var w2 := RunTwo(w, steps);
    SecondLists(w2);
    TwoMore(w, steps, OfSecond(ListDue([], 1)), OfSecond(ListJobs([1])));
    steps := steps + [OfSecond(ListDue([], 1))] + [OfSecond(ListJobs([1]))];
    var w3 := RunTwo(w, steps);
    Synchronised(w3.portal, BARRED, BARRING, false);
    TwoMore(w, steps, OfPortal(OfWorker(CallNext(true, true))), OfPortal(OfWorker(RecordCall(true, ""))));
    steps := steps + [OfPortal(OfWorker(CallNext(true, true)))] + [OfPortal(OfWorker(RecordCall(true, "")))];
    var w4 := RunTwo(w, steps);
    Readmitted(w4.portal);
    RunTwoSnoc(w, steps, OfPortal(OfAccounts(Enable(BARRED, 0, 2))));
    steps := steps + [OfPortal(OfAccounts(Enable(BARRED, 0, 2)))];
    var w5 := RunTwo(w, steps);
    SecondSynchronises(w5);
    TwoMore(w, steps, OfSecond(CallNext(true, true)), OfSecond(RecordCall(true, "")));
    steps := steps + [OfSecond(CallNext(true, true))] + [OfSecond(RecordCall(true, ""))];
    a := 1;
  }

  lemma SecondLists(w: Two)
    requires Holds(w.portal, BARRED, map[1 := BARRING], false) && w.second == Resting
    ensures var w' := NextTwo(NextTwo(w, OfSecond(ListDue([], 1))), OfSecond(ListJobs([1])));
      && Holds(w'.portal, BARRED, map[1 := BARRING], false) && w.portal.everQueued <= w'.portal.everQueued
      && w'.portal.worker == w.portal.worker && w'.second == Syncing([SNAPSHOT], 1)
  {
    hide Next;
    var s := w.portal.(worker := w.second);
    Listed(s);
    var s1 := Next(s, OfWorker(ListDue([], 1)));
    assert s1 == s1.(worker := w.portal.worker).(worker := s1.worker);
  }

  lemma SecondSynchronises(w: Two)
    requires Holds(w.portal, READMITTED, map[1 := READMITTING], true) && w.second == Syncing([SNAPSHOT], 1)
    ensures var w' := NextTwo(NextTwo(w, OfSecond(CallNext(true, true))), OfSecond(RecordCall(true, "")));
      Holds(w'.portal, READMITTED, map[], true) && w.portal.everQueued <= w'.portal.everQueued
  {
    hide Next;
    var s := w.portal.(worker := w.second);
    Synchronised(s, READMITTED, READMITTING, true);
    var s1 := Next(s, OfWorker(CallNext(true, true)));
    assert s1 == s1.(worker := w.portal.worker).(worker := s1.worker);
  }
}
