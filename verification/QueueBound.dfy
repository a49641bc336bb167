/** How long a queued access job can be passed over: the bound, on the histories of the portal.

    A pass of the worker lists the first hundred jobs and attempts each of them once. Between any two of
    its steps other transactions may queue jobs, and accounts may be deleted with theirs; passes may crash
    or fail to store a result, and then do not count. */
module QueueBound {
  import opened Domain
  import opened Listing
  import opened Timestamps
  import opened Transactions
  import opened AccessQueue
  import opened Portal
  import opened Outbox
  import opened Guarantees
  import opened StepEffects

  // ----- passes -----

  /** A pass: the step that listed its batch, and the point where nothing listed is left. */
  datatype Pass = Pass(first: nat, end: nat)

  /** A step that cuts a pass short, or leaves the result of an attempt unrecorded. */
  predicate Interrupts(step: Step) {
    step.OfWorker? && (step.worker.WorkerCrash? || step.worker.EndRun? || (step.worker.RecordCall? && !step.worker.stored))
  }

  ghost predicate Lists(h: History, k: nat)
    requires IsRun(h) && k < |h.steps|
  {
    h.steps[k].OfWorker? && h.steps[k].worker.ListJobs? && h.states[k].worker.Expiring? && h.states[k + 1].worker.Syncing?
  }

  ghost predicate CompletePass(h: History, p: Pass)
    requires IsRun(h)
  {
    && p.first < p.end <= |h.steps| && Lists(h, p.first)
    && (forall k: nat :: p.first < k < p.end ==> !Interrupts(h.steps[k]))
    && h.states[p.end].worker.Syncing? && h.states[p.end].worker.jobs == []
  }

  /** The call for the job of account x. */
  ghost predicate Attempts(h: History, k: nat, x: nat)
    requires IsRun(h) && k < |h.steps|
  {
    && h.steps[k].OfWorker? && h.steps[k].worker.CallNext?
    && h.states[k].worker.Syncing? && h.states[k].worker.jobs != [] && h.states[k].worker.jobs[0].accountId == x
  }

  ghost predicate NeverAttempted(h: History, n: nat, m: nat, x: nat)
    requires IsRun(h) && m <= |h.steps|
  {
    forall k: nat :: n <= k < m ==> !Attempts(h, k, x)
  }

  /** A step that leaves x's job to the worker, and in which every other row that is new or changed gets a
      stored time after t. */
  ghost predicate Calm(h: History, k: nat, x: nat, t: int)
    requires IsRun(h) && k < |h.steps|
  {
    var before, after := h.states[k].db.jobs, h.states[k + 1].db.jobs;
    && (x in before ==> (h.steps[k].OfWorker? && h.steps[k].worker.RecordCall?) || (x in after && after[x] == before[x]))
    && (forall a :: a in after && a != x && (a !in before || after[a] != before[a]) ==> Late(after, a, t))
  }

  ghost predicate AllCalm(h: History, n: nat, m: nat, x: nat, t: int)
    requires IsRun(h) && m <= |h.steps|
  {
    forall k: nat :: n <= k < m ==> Calm(h, k, x, t)
  }

  // ----- the passes of the worker's own program -----

  lemma {:induction false} HistoryRuns(h: History, n: nat, steps: seq<Step>, k: nat)
    requires IsRun(h) && n + |steps| <= |h.steps| && h.steps[n..n + |steps|] == steps && k <= |steps|
    ensures h.states[n + k] == Run(h.states[n], steps[..k])
  {
    hide Next;
    if k > 0 {
      HistoryRuns(h, n, steps, k - 1);
      StepTaken(h, n + k - 1);
      assert h.steps[n + k - 1] == h.steps[n..n + |steps|][k - 1] == steps[k - 1];
      assert steps[..k][..k - 1] == steps[..k - 1];
    }
  }

  lemma StepInHistory(h: History, n: nat, steps: seq<Step>, i: nat)
    requires n + |steps| <= |h.steps| && h.steps[n..n + |steps|] == steps && i < |steps|
    ensures h.steps[n + i] == steps[i]
  {
    assert h.steps[n + i] == h.steps[n..n + |steps|][i];
  }

  lemma NotInterrupted(s: State, steps: seq<Step>, first: nat, i: nat)
    requires IsPass(s, steps, first) && AllStored(steps) && first < i < |steps| - 1
    ensures !Interrupts(steps[i])
  {
    hide Run;
    var synced := steps[first + 1..|steps| - 1];
    assert steps[i] == synced[i - first - 1];
  }

  lemma PassShape(s: State, steps: seq<Step>, first: nat)
    requires IsPass(s, steps, first)
    ensures first + 2 <= |steps| && steps[first].OfWorker? && steps[first].worker.ListJobs?
    ensures Run(s, steps[..first]).worker.Expiring? && Run(s, steps[..first + 1]).worker.Syncing?
    ensures Run(s, steps[..|steps| - 1]).worker.Syncing? && Run(s, steps[..|steps| - 1]).worker.jobs == []
  {
    hide Run, Synchronises;
  }

  /** Wherever the steps of Process.RunOnce stand in a history, they are a complete pass if its results
      were stored, and in particular if it met no failure. */
  lemma RunOnceIsAPass(h: History, n: nat, steps: seq<Step>, first: nat)
    requires IsRun(h) && n + |steps| <= |h.steps| && h.steps[n..n + |steps|] == steps
    requires IsPass(h.states[n], steps, first) && AllStored(steps)
    ensures CompletePass(h, Pass(n + first, n + |steps| - 1))
  {
    hide Run, Next, Interrupts, IsPass, AllStored, Follows;
    var s := h.states[n];
    PassShape(s, steps, first);
    HistoryRuns(h, n, steps, first);
    HistoryRuns(h, n, steps, first + 1);
    HistoryRuns(h, n, steps, |steps| - 1);
    StepInHistory(h, n, steps, first);
    forall k: nat | n + first < k < n + |steps| - 1
      ensures !Interrupts(h.steps[k])
    {
      NotInterrupted(s, steps, first, k - n);
      StepInHistory(h, n, steps, k - n);
    }
  }

  // ----- what moves the worker -----

  lemma AccountStepKeepsWorker(s: State, action: AccountAction)
    ensures DoAccounts(s, action).worker == s.worker
  {
    hide CreateAccount, SetAccountStatus, DeleteAccount, UpdateAccount, UpdateAccountAndExpire;
  }

  lemma SagaStepKeepsWorker(s: State, action: SagaAction)
    ensures DoSaga(s, action).worker == s.worker
  {
    hide BeginAccountCreateOperation, BeginRegistrationOperation, MarkAccountCreateOperationCreating, SaveAccountCreateOperationRemote,
      CompleteAccountCreateOperation, NamedLikeOperation;
  }

  lemma InviteStepKeepsWorker(s: State, action: InviteAction)
    ensures DoInvites(s, action).worker == s.worker
  {
    hide CreateInvite, SetInviteEnabled, DeleteInvite, ConsumeInvite, ReleaseInvite, RecordRedemption, RedeemRenewal;
  }

  lemma PaymentStepKeepsWorker(s: State, action: PaymentAction)
    ensures DoPayments(s, action).worker == s.worker
  {
    hide CreatePaymentOrder, UpdatePaymentProvider, SetPaymentOrderState, FulfillPaymentOrder;
  }

  lemma OthersKeepWorker(s: State, step: Step)
    requires !step.OfWorker?
    ensures Next(s, step).worker == s.worker
  {
    hide DoAccounts, DoSaga, DoInvites, DoPayments;
    match step
    case OfAccounts(action) => AccountStepKeepsWorker(s, action);
    case OfSaga(action) => SagaStepKeepsWorker(s, action);
    case OfInvites(action) => InviteStepKeepsWorker(s, action);
    case OfPayments(action) => PaymentStepKeepsWorker(s, action);
    case OfOthers(_) =>
  }

  /** Where a worker inside a pass stands after a step that does not interrupt it. */
  ghost predicate MovesOn(worker: Worker, step: Step, worker': Worker) {
    match worker
    case Syncing(js, now) =>
      worker' == worker || (step.OfWorker? && step.worker.CallNext? && js != [] && exists ok :: worker' == Called(js[0], ok, js[1..], now))
    case Called(job, ok, rest, now) =>
      worker' == worker || (step.OfWorker? && step.worker.RecordCall? && step.worker.stored && worker' == Syncing(rest, now))
    case _ => true
  }

  lemma WorkerMovesOn(s: State, step: Step)
    requires !Interrupts(step)
    ensures MovesOn(s.worker, step, Next(s, step).worker)
  {
    if step.OfWorker? {
      WorkerStepMovesOn(s, step.worker);
    } else {
      OthersKeepWorker(s, step);
    }
  }

  lemma WorkerStepMovesOn(s: State, action: WorkerAction)
    requires !Interrupts(OfWorker(action))
    ensures MovesOn(s.worker, OfWorker(action), Next(s, OfWorker(action)).worker)
  {
    hide SetAccountStatus, IsDueList, IsBatch, Snapshots, CompleteAccessSync, FailAccessSync;
  }

  // Only recording a call writes the queue from within a pass.
  lemma RecordedJobs(s: State, action: WorkerAction)
    requires s.worker.Called?
    ensures Next(s, OfWorker(action)).db.jobs ==
      if action.RecordCall? && action.stored then
        if s.worker.ok then CompleteAccessSync(s.db.jobs, s.worker.job.accountId, s.worker.job.revision)
        else FailAccessSync(s.db.jobs, s.worker.job.accountId, s.worker.job.revision, action.message, s.worker.now)
      else s.db.jobs
  {
    hide IsDueList, IsBatch, Snapshots, CompleteAccessSync, FailAccessSync;
  }

  // ----- the job's own row -----

  predicate CalledFor(worker: Worker, x: nat) {
    worker.Called? && worker.job.accountId == x
  }

  lemma OnlyCallsCall(s: State, step: Step, x: nat)
    requires !CalledFor(s.worker, x) && CalledFor(Next(s, step).worker, x)
    ensures step.OfWorker? && step.worker.CallNext? && s.worker.Syncing? && s.worker.jobs != [] && s.worker.jobs[0].accountId == x
  {
    if step.OfWorker? {
      hide SetAccountStatus, IsDueList, IsBatch, Snapshots, CompleteAccessSync, FailAccessSync;
    } else {
      OthersKeepWorker(s, step);
    }
  }

  lemma RecordingKeepsOthers(s: State, step: Step, x: nat)
    requires step.OfWorker? && step.worker.RecordCall? && !CalledFor(s.worker, x) && x in s.db.jobs
    ensures x in Next(s, step).db.jobs && Next(s, step).db.jobs[x] == s.db.jobs[x]
  {
    if s.worker.Called? {
      RecordedJobs(s, step.worker);
    }
  }

  /** While it is not attempted, and nobody else touches it, a job's row stays. */
  lemma {:induction false} RowKept(h: History, n: nat, m: nat, x: nat, t: int)
    requires IsRun(h) && n <= m <= |h.steps| && x in h.states[n].db.jobs && !CalledFor(h.states[n].worker, x)
    requires AllCalm(h, n, m, x, t) && NeverAttempted(h, n, m, x)
    ensures x in h.states[m].db.jobs && h.states[m].db.jobs[x] == h.states[n].db.jobs[x] && !CalledFor(h.states[m].worker, x)
  {
    hide Next;
    if n < m {
      var k := m - 1;
      RowKept(h, n, k, x, t);
      StepTaken(h, k);
      assert Calm(h, k, x, t) && !Attempts(h, k, x);
      if h.steps[k].OfWorker? && h.steps[k].worker.RecordCall? {
        RecordingKeepsOthers(h.states[k], h.steps[k], x);
      }
      if CalledFor(h.states[m].worker, x) {
        OnlyCallsCall(h.states[k], h.steps[k], x);
      }
    }
  }

  // ----- one pass -----

  lemma Listed(h: History, k: nat)
    requires IsRun(h) && k < |h.steps| && Lists(h, k)
    ensures var s, s', batch := h.states[k], h.states[k + 1], h.steps[k].worker.batch;
      && IsBatch(s.db.jobs, BATCH, batch) && s'.db == s.db && (forall a :: a in batch ==> a in s.db.jobs && a in s.db.accounts)
      && s'.worker == Syncing(Snapshots(s.db, batch), s.worker.now)
  {
    StepTaken(h, k);
    hide Snapshots;
  }

  /** The accounts of the batch that are not, or no longer, waiting to be recorded. */
  ghost function Done(batch: seq<nat>, worker: Worker): set<nat> {
    set a | a in batch && forall i :: 0 <= i < |Outstanding(worker)| ==> Outstanding(worker)[i].accountId != a
  }

  ghost predicate FromStart(js: seq<JobSnapshot>, start: map<nat, Job>) {
    forall i :: 0 <= i < |js| ==> js[i].accountId in start && js[i].revision == start[js[i].accountId].revision
  }

  /** Inside a pass, whatever is still where it was when the pass began has not been attempted yet. */
  ghost predicate PassKeeps(start: map<nat, Job>, batch: seq<nat>, s: State, t: int) {
    (s.worker.Syncing? || s.worker.Called?) && FromStart(Outstanding(s.worker), start) && Since(start, s.db.jobs, Done(batch, s.worker), t)
  }

  lemma PassBegins(s: State, batch: seq<nat>, worker: Worker, t: int)
    requires forall a :: a in batch ==> a in s.db.jobs && a in s.db.accounts
    requires worker.Syncing? && worker.jobs == Snapshots(s.db, batch)
    ensures FromStart(Outstanding(worker), s.db.jobs) && Done(batch, worker) == {}
  {
    forall i | 0 <= i < |batch|
      ensures Outstanding(worker)[i].accountId == batch[i]
    {
      assert batch[i] in batch;
    }
  }

  // Rows that a calm step leaves alone are where they were; the others are late.
  lemma SinceStep(start: map<nat, Job>, jobs: map<nat, Job>, jobs': map<nat, Job>, done: set<nat>, x: nat, t: int)
    requires Since(start, jobs, done, t) && x in start && x !in done && (x in jobs' ==> jobs'[x] == start[x])
    requires forall a :: a in jobs' && a != x && (a !in jobs || jobs'[a] != jobs[a]) ==> Late(jobs', a, t)
    ensures Since(start, jobs', done, t)
  {
  }

  // A snapshot that is recorded either finds its row, and retires it from its place, or finds a late one.
  lemma RecordedIsLate(start: map<nat, Job>, s: State, action: WorkerAction, done: set<nat>, x: nat, t: int)
    requires s.worker.Called? && action.RecordCall? && action.stored && s.worker.job.accountId != x
    requires Since(start, s.db.jobs, done, t)
    requires s.worker.job.accountId in start && s.worker.job.revision == start[s.worker.job.accountId].revision
    requires var jobs, jobs' := s.db.jobs, Next(s, OfWorker(action)).db.jobs;
      forall a :: a in jobs' && a != x && (a !in jobs || jobs'[a] != jobs[a]) ==> Late(jobs', a, t)
    ensures var a, jobs' := s.worker.job.accountId, Next(s, OfWorker(action)).db.jobs; a in jobs' ==> Late(jobs', a, t)
  {
    RecordedJobs(s, action);
    hide Next;
  }

  lemma DoneAfterRecord(batch: seq<nat>, job: JobSnapshot, ok: bool, rest: seq<JobSnapshot>, now: int)
    ensures Done(batch, Syncing(rest, now)) <= Done(batch, Called(job, ok, rest, now)) + {job.accountId}
  {
    var all := [job] + rest;
    forall a | a in Done(batch, Syncing(rest, now)) && a != job.accountId
      ensures a in Done(batch, Called(job, ok, rest, now))
    {
      forall i | 0 <= i < |all|
        ensures all[i].accountId != a
      {
        if i > 0 {
          assert all[i] == rest[i - 1] == Outstanding(Syncing(rest, now))[i - 1];
        }
      }
    }
  }

  lemma FromStartOfRest(job: JobSnapshot, rest: seq<JobSnapshot>, start: map<nat, Job>)
    requires FromStart([job] + rest, start)
    ensures FromStart(rest, start) && job.accountId in start && job.revision == start[job.accountId].revision
  {
    var all := [job] + rest;
    assert all[0] == job;
    forall i | 0 <= i < |rest|
      ensures rest[i].accountId in start && rest[i].revision == start[rest[i].accountId].revision
    {
      assert rest[i] == all[i + 1];
    }
  }

  lemma PassStep(start: map<nat, Job>, batch: seq<nat>, h: History, k: nat, x: nat, t: int)
    requires IsRun(h) && k < |h.steps| && PassKeeps(start, batch, h.states[k], t)
    requires !Interrupts(h.steps[k]) && Calm(h, k, x, t) && !CalledFor(h.states[k].worker, x)
    requires x in start && x !in batch && x in h.states[k + 1].db.jobs && h.states[k + 1].db.jobs[x] == start[x]
    ensures PassKeeps(start, batch, h.states[k + 1], t)
  {
    hide Next, Since, FromStart, Late;
    var s, s' := h.states[k], h.states[k + 1];
    StepTaken(h, k);
    WorkerMovesOn(s, h.steps[k]);
    var done := Done(batch, s.worker);
    SinceStep(start, s.db.jobs, s'.db.jobs, done, x, t);
    if s.worker.Syncing? {
      assert Outstanding(s'.worker) == Outstanding(s.worker);
    } else if s'.worker != s.worker {
      var job, rest := s.worker.job, s.worker.rest;
      FromStartOfRest(job, rest, start);
      RecordedIsLate(start, s, h.steps[k].worker, done, x, t);
      DoneAfterRecord(batch, job, s.worker.ok, rest, s.worker.now);
      SinceMore(start, s'.db.jobs, done, Done(batch, s'.worker), job.accountId, t);
    }
  }

  lemma SinceMore(start: map<nat, Job>, jobs: map<nat, Job>, done: set<nat>, done': set<nat>, a: nat, t: int)
    requires Since(start, jobs, done, t) && done' <= done + {a} && (a in jobs ==> Late(jobs, a, t))
    ensures Since(start, jobs, done', t)
  {
  }

  lemma {:induction false} PassInvariant(h: History, p: Pass, k: nat, x: nat, t: int)
    requires IsRun(h) && CompletePass(h, p) && p.first < k <= p.end && x in h.states[p.first].db.jobs
    requires !CalledFor(h.states[p.first].worker, x) && x !in h.steps[p.first].worker.batch
    requires AllCalm(h, p.first, p.end, x, t) && NeverAttempted(h, p.first, p.end, x)
    ensures PassKeeps(h.states[p.first].db.jobs, h.steps[p.first].worker.batch, h.states[k], t)
  {
    var start, batch := h.states[p.first].db.jobs, h.steps[p.first].worker.batch;
    hide Next, Calm, Attempts, Since, Done, FromStart, IsBatch, Snapshots;
    if k == p.first + 1 {
      Listed(h, p.first);
      PassBegins(h.states[p.first], batch, h.states[k].worker, t);
      SinceStart(start, t);
    } else {
      PassInvariant(h, p, k - 1, x, t);
      RowKept(h, p.first, k - 1, x, t);
      RowKept(h, p.first, k, x, t);
      PassStep(start, batch, h, k - 1, x, t);
    }
  }

  lemma SinceStart(start: map<nat, Job>, t: int)
    ensures Since(start, start, {}, t)
  {
  }

  ghost function Waiting(worker: Worker): seq<JobSnapshot> {
    match worker
    case Syncing(js, _) => js
    case Called(_, _, rest, _) => rest
    case _ => []
  }

  ghost predicate Waits(worker: Worker, x: nat) {
    exists i :: 0 <= i < |Waiting(worker)| && Waiting(worker)[i].accountId == x
  }

  lemma StillWaits(worker: Worker, step: Step, worker': Worker, x: nat)
    requires worker.Syncing? || worker.Called?
    requires MovesOn(worker, step, worker') && Waits(worker, x)
    requires worker.Syncing? && worker.jobs != [] && step.OfWorker? && step.worker.CallNext? ==> worker.jobs[0].accountId != x
    ensures (worker'.Syncing? || worker'.Called?) && Waits(worker', x)
  {
    var i :| 0 <= i < |Waiting(worker)| && Waiting(worker)[i].accountId == x;
    if worker.Syncing? && worker' != worker {
      assert Waiting(worker')[i - 1] == Waiting(worker)[i];
    } else {
      assert Waiting(worker')[i].accountId == x;
    }
  }

  lemma {:induction false} ListedWaits(h: History, p: Pass, k: nat, x: nat)
    requires IsRun(h) && CompletePass(h, p) && p.first < k <= p.end && x in h.steps[p.first].worker.batch
    requires NeverAttempted(h, p.first, p.end, x)
    ensures (h.states[k].worker.Syncing? || h.states[k].worker.Called?) && Waits(h.states[k].worker, x)
  {
    hide Next, IsBatch;
    if k == p.first + 1 {
      Listed(h, p.first);
      var batch := h.steps[p.first].worker.batch;
      var i :| 0 <= i < |batch| && batch[i] == x;
      assert Waiting(h.states[k].worker)[i].accountId == x;
    } else {
      ListedWaits(h, p, k - 1, x);
      StepTaken(h, k - 1);
      WorkerMovesOn(h.states[k - 1], h.steps[k - 1]);
      assert !Attempts(h, k - 1, x);
      StillWaits(h.states[k - 1].worker, h.steps[k - 1], h.states[k].worker, x);
    }
  }

  ghost function Front(h: History, k: nat, x: nat): set<nat>
    requires k < |h.states| && x in h.states[k].db.jobs
  {
    JobsAhead(h.states[k].db.jobs, x)
  }

  /** A complete pass that does not attempt a job takes a hundred others from ahead of it for good. */
  lemma PassTakesABatch(h: History, p: Pass, x: nat)
    requires IsRun(h) && CompletePass(h, p) && x in h.states[p.first].db.jobs && !CalledFor(h.states[p.first].worker, x)
    requires AllCalm(h, p.first, p.end, x, h.states[p.first].db.jobs[x].updatedAt) && NeverAttempted(h, p.first, p.end, x)
    ensures x in h.states[p.end].db.jobs && |Front(h, p.end, x)| + 100 <= |Front(h, p.first, x)|
  {
    var start, end, batch := h.states[p.first].db.jobs, h.states[p.end].db.jobs, h.steps[p.first].worker.batch;
    var t := start[x].updatedAt;
    if x in batch {
      ListedWaits(h, p, p.end, x);
    }
    PassInvariant(h, p, p.end, x, t);
    RowKept(h, p.first, p.end, x, t);
    Listed(h, p.first);
    hide Next, Calm, Attempts, Since, IsBatch;
    assert Done(batch, h.states[p.end].worker) == Members(batch);
    AheadShrinks(start, end, Members(batch), x);
    FullBatchAhead(start, batch, x);
    SmallerSet(JobsAhead(end, x), JobsAhead(start, x) - Members(batch));
    assert |JobsAhead(start, x) - Members(batch)| == |JobsAhead(start, x)| - |Members(batch)|;
  }

  lemma {:induction false} SinceThrough(h: History, n: nat, m: nat, x: nat, t: int)
    requires IsRun(h) && n <= m <= |h.steps| && x in h.states[n].db.jobs && !CalledFor(h.states[n].worker, x)
    requires AllCalm(h, n, m, x, t) && NeverAttempted(h, n, m, x)
    ensures Since(h.states[n].db.jobs, h.states[m].db.jobs, {}, t)
  {
    hide Next, Attempts, Since;
    if n == m {
      SinceStart(h.states[n].db.jobs, t);
    } else {
      SinceThrough(h, n, m - 1, x, t);
      RowKept(h, n, m, x, t);
      assert Calm(h, m - 1, x, t);
      SinceStep(h.states[n].db.jobs, h.states[m - 1].db.jobs, h.states[m].db.jobs, {}, x, t);
    }
  }

  // Outside complete passes nothing gets ahead of the job either.
  lemma FrontNeverGrows(h: History, n: nat, m: nat, x: nat)
    requires IsRun(h) && n <= m <= |h.steps| && x in h.states[n].db.jobs && !CalledFor(h.states[n].worker, x)
    requires AllCalm(h, n, m, x, h.states[n].db.jobs[x].updatedAt) && NeverAttempted(h, n, m, x)
    ensures x in h.states[m].db.jobs && |Front(h, m, x)| <= |Front(h, n, x)|
  {
    var t := h.states[n].db.jobs[x].updatedAt;
    RowKept(h, n, m, x, t);
    SinceThrough(h, n, m, x, t);
    hide Next, Calm, Attempts, Since;
    AheadShrinks(h.states[n].db.jobs, h.states[m].db.jobs, {}, x);
    SmallerSet(JobsAhead(h.states[m].db.jobs, x), JobsAhead(h.states[n].db.jobs, x) - {});
  }

  // ----- the bound -----

  /** Complete passes after point n, one after the other, the last of them over by m. */
  ghost predicate PassesFrom(h: History, n: nat, m: nat, passes: seq<Pass>)
    requires IsRun(h)
  {
    && m <= |h.steps|
    && (forall i :: 0 <= i < |passes| ==> n <= passes[i].first && passes[i].end <= m && CompletePass(h, passes[i]))
    && (forall i, j :: 0 <= i < j < |passes| ==> passes[i].end <= passes[j].first)
  }

  lemma {:induction false} PassesTakeBatches(h: History, n: nat, m: nat, passes: seq<Pass>, x: nat)
    requires IsRun(h) && n <= m && PassesFrom(h, n, m, passes) && x in h.states[n].db.jobs && !CalledFor(h.states[n].worker, x)
    requires AllCalm(h, n, m, x, h.states[n].db.jobs[x].updatedAt) && NeverAttempted(h, n, m, x)
    ensures x in h.states[m].db.jobs && |Front(h, m, x)| + BATCH * |passes| <= |Front(h, n, x)|
    decreases |passes|
  {
    hide Next, Calm, Attempts, CompletePass, JobsAhead;
    if passes == [] {
      FrontNeverGrows(h, n, m, x);
    } else {
      var front, last := passes[..|passes| - 1], passes[|passes| - 1];
      var t := h.states[n].db.jobs[x].updatedAt;
      PassOrder(h, last);
      assert PassesFrom(h, n, last.first, front);
      PassesTakeBatches(h, n, last.first, front, x);
      RowKept(h, n, last.first, x, t);
      PassTakesABatch(h, last, x);
      RowKept(h, n, last.end, x, t);
      FrontNeverGrows(h, last.end, m, x);
    }
  }

  lemma PassOrder(h: History, p: Pass)
    requires IsRun(h) && CompletePass(h, p)
    ensures p.first < p.end <= |h.steps|
  {
  }

  /** Bounded bypass: a job with p others ahead of it is attempted before p / 100 + 1 complete passes are
      over, even when every call fails, other passes crash and new jobs keep arriving. */
  lemma BoundedBypass(h: History, n: nat, m: nat, passes: seq<Pass>, x: nat)
    requires IsRun(h) && n <= m && PassesFrom(h, n, m, passes) && x in h.states[n].db.jobs && !CalledFor(h.states[n].worker, x)
    requires AllCalm(h, n, m, x, h.states[n].db.jobs[x].updatedAt)
    requires |passes| == |Front(h, n, x)| / 100 + 1
    ensures exists k: nat :: n <= k < m && Attempts(h, k, x)
  {
    if NeverAttempted(h, n, m, x) {
      PassesTakeBatches(h, n, m, passes, x);
      assert false;
    }
  }

  /** The same with clocks alone: every other row that is new or changed carries a time of a later second. */
  ghost predicate CalmBySeconds(h: History, k: nat, x: nat, t: int)
    requires IsRun(h) && k < |h.steps|
  {
    var before, after := h.states[k].db.jobs, h.states[k + 1].db.jobs;
    && (x in before ==> (h.steps[k].OfWorker? && h.steps[k].worker.RecordCall?) || (x in after && after[x] == before[x]))
    && (forall a :: a in after && a != x && (a !in before || after[a] != before[a]) ==> t / SECOND < after[a].updatedAt / SECOND)
  }

  lemma LaterSecondIsLate(h: History, k: nat, x: nat, t: int)
    requires IsRun(h) && k < |h.steps| && CalmBySeconds(h, k, x, t)
    ensures Calm(h, k, x, t)
  {
    hide IsRun, Next;
  }

  lemma BoundedBypassBySeconds(h: History, n: nat, m: nat, passes: seq<Pass>, x: nat)
    requires IsRun(h) && n <= m && PassesFrom(h, n, m, passes) && x in h.states[n].db.jobs && !CalledFor(h.states[n].worker, x)
    requires forall k: nat :: n <= k < m ==> CalmBySeconds(h, k, x, h.states[n].db.jobs[x].updatedAt)
    requires |passes| == |Front(h, n, x)| / 100 + 1
    ensures exists k: nat :: n <= k < m && Attempts(h, k, x)
  {
    hide Next, Calm, CalmBySeconds, Attempts, CompletePass, JobsAhead;
    var t := h.states[n].db.jobs[x].updatedAt;
    forall k: nat | n <= k < m
      ensures Calm(h, k, x, t)
    {
      LaterSecondIsLate(h, k, x, t);
    }
    BoundedBypass(h, n, m, passes, x);
  }
}
