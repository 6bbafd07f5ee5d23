/** Theorems about whole orderly runs, and about driving one command to its end. */
module MigrationRuns {
  import opened Basics
  import opened MigrationProtocol
  import opened MigrationEdits
  import opened MigrationSafety

  /** A step of an orderly run: no user writes, migrations planned on the current contents,
      and no rollback that would restore a target of a pending transaction. */
  ghost predicate OrderlyNext(s: State, l: Label, s': State) {
    && Next(s, l, s')
    && !l.UserWrite?
    && (l.Begin? && l.cmd.DoMigrate? ==> Fresh(s.disk, l.cmd.plan))
    && (l.Begin? && l.cmd.DoRollback? && l.cmd.id in s.disk.journals ==>
          HarmlessRollback(s.disk, s.disk.journals[l.cmd.id]))
  }

  ghost predicate OrderlyRun(run: seq<State>, labels: seq<Label>) {
    && |run| == |labels| + 1 && Init(run[0])
    && (forall p :: p in run[0].disk.files ==> run[0].disk.files[p].Readable?)
    && forall i :: 0 <= i < |labels| ==> OrderlyNext(run[i], labels[i], run[i + 1])
  }

  lemma OrderlyNextKeepsSafe(s: State, l: Label, s': State)
    requires SafeInv(s) && OrderlyNext(s, l, s')
    ensures SafeInv(s')
  {
    NextKeepsInv(s, l, s');
    if l.Proceed? { StepKeepsSafe(s, l.ok); }
  }

  lemma {:induction false} OrderlyRunKeepsSafe(run: seq<State>, labels: seq<Label>, k: nat)
    requires OrderlyRun(run, labels) && k < |run|
    ensures SafeInv(run[k])
  {
    if k > 0 {
      OrderlyRunKeepsSafe(run, labels, k - 1);
      OrderlyNextKeepsSafe(run[k - 1], labels[k - 1], run[k]);
    }
  }

  /** Crash atomicity. In every state of every orderly run at most one transaction is pending;
      its (config, Factory) contents are (old, old), (new, old) or (new, new); and once
      anything is committed the staged new bytes are still on disk. */
  lemma CrashAtomicity(run: seq<State>, labels: seq<Label>, k: nat)
    requires OrderlyRun(run, labels) && k < |run|
    ensures var d := run[k].disk;
            && (forall i, j :: Pending(d.journals, i) && Pending(d.journals, j) ==> i == j)
            && (forall id :: Pending(d.journals, id) ==>
                  var rec := d.journals[id];
                  && (AllOld(d, rec) || (AtNew(d, rec.config) && FactoryOld(d, rec)) || AllNew(d, rec))
                  && (AllOld(d, rec) || Staged(d, rec)))
  {
    OrderlyRunKeepsSafe(run, labels, k);
  }

  ghost predicate Becomes(s: State, s': State, id: Id, status: Status) {
    && id in s'.disk.journals && s'.disk.journals[id].status == status
    && (id in s.disk.journals ==> s.disk.journals[id].status != status)
  }

  /** Only the closing journal write makes a status terminal. */
  lemma OnlyClosingCloses(s: State, ok: bool, id: Id, status: Status)
    requires Inv(s) && status != InProgress && Becomes(s, Step(s, ok), id, status)
    ensures s.proc.Close? && s.proc.rec.id == id && s.proc.rec.status == status
    ensures Step(s, ok).disk == PutJournal(s.disk, s.proc.rec)
  {
    var d, d' := s.disk, Step(s, ok).disk;
    if d'.journals != d.journals { assert d' == PutJournal(d, s.proc.rec); }
  }

  lemma StepClosesCoherently(s: State, ok: bool, id: Id, status: Status)
    requires SafeInv(s) && status != InProgress && Becomes(s, Step(s, ok), id, status)
    ensures var d := Step(s, ok).disk;
            if status == Completed then AllNew(d, d.journals[id]) else AllOld(d, d.journals[id])
  {
    OnlyClosingCloses(s, ok, id, status);
  }

  /** Whenever, in an orderly run, a journal is closed, the targets agree with what it says:
      both new when completed, both old when aborted or rolled back. */
  lemma ClosingIsCoherent(run: seq<State>, labels: seq<Label>, k: nat, id: Id, status: Status)
    requires OrderlyRun(run, labels) && k < |labels|
    requires status != InProgress && Becomes(run[k], run[k + 1], id, status)
    ensures var d := run[k + 1].disk;
            if status == Completed then AllNew(d, d.journals[id]) else AllOld(d, d.journals[id])
  {
    OrderlyRunKeepsSafe(run, labels, k);
    assert OrderlyNext(run[k], labels[k], run[k + 1]);
    assert labels[k].Proceed?;
    StepClosesCoherently(run[k], labels[k].ok, id, status);
  }

  // ---------- The journal of a migration is the journal of its plan ----------

  ghost predicate GoalOwes(goal: Goal, plan: Plan, id: Id) {
    goal.Migrate? && goal.id == id ==> goal.plan == plan
  }

  ghost predicate ProcOwes(p: Proc, plan: Plan, id: Id) {
    match p
    case Scan(_, goal) => GoalOwes(goal, plan, id)
    case Assessed(_, _, _, goal) => GoalOwes(goal, plan, id)
    case Close(_, _, after) => after.Resume? ==> GoalOwes(after.goal, plan, id)
    case CleanConfig(_, after) => after.Resume? ==> GoalOwes(after.goal, plan, id)
    case CleanFactory(_, after) => after.Resume? ==> GoalOwes(after.goal, plan, id)
    case BackupConfig(rec, _) => rec.id == id ==> rec == NewRecord(plan, id)
    case BackupFactory(rec, _) => rec.id == id ==> rec == NewRecord(plan, id)
    case StageConfig(rec, _) => rec.id == id ==> rec == NewRecord(plan, id)
    case StageFactory(rec) => rec.id == id ==> rec == NewRecord(plan, id)
    case OpenJournal(rec) => rec.id == id ==> rec == NewRecord(plan, id)
    case _ => true
  }

  /** Wherever transaction `id` shows up, it is the transaction planned by `plan`. */
  ghost predicate Owes(s: State, plan: Plan, id: Id) {
    && (id in s.disk.journals ==> SameTransaction(NewRecord(plan, id), s.disk.journals[id]))
    && ProcOwes(s.proc, plan, id)
  }

  lemma StepKeepsProcOwes(s: State, ok: bool, plan: Plan, id: Id)
    requires ProcOwes(s.proc, plan, id)
    ensures ProcOwes(Step(s, ok).proc, plan, id)
  {
  }

  lemma StepKeepsOwes(s: State, ok: bool, plan: Plan, id: Id)
    requires Inv(s) && Owes(s, plan, id)
    ensures Owes(Step(s, ok), plan, id)
  {
    StepKeepsProcOwes(s, ok, plan, id);
    if id in s.disk.journals {
      StepKeepsTransactions(s, Proceed(ok), Step(s, ok), id);
    } else if id in Step(s, ok).disk.journals {
      assert Step(s, ok).disk == PutJournal(s.disk, s.proc.rec) && s.proc.OpenJournal?;
    }
  }

  /** An id that some migration has used is in a journal or still on its way to one. */
  lemma {:induction false} JournalOfPlan(run: seq<State>, labels: seq<Label>, i: nat, k: nat, plan: Plan, id: Id)
    requires OrderlyRun(run, labels) && i < k < |run|
    requires labels[i].Begin? && labels[i].cmd == DoMigrate(plan, id)
    requires forall j :: i < j < k ==> labels[j].Begin? && labels[j].cmd.DoMigrate? ==> labels[j].cmd.id != id
    ensures Owes(run[k], plan, id)
  {
    if k == i + 1 {
      assert OrderlyNext(run[i], labels[i], run[k]);
    } else {
      JournalOfPlan(run, labels, i, k - 1, plan, id);
      OrderlyRunKeepsSafe(run, labels, k - 1);
      assert OrderlyNext(run[k - 1], labels[k - 1], run[k]);
      if labels[k - 1].Proceed? { StepKeepsOwes(run[k - 1], labels[k - 1].ok, plan, id); }
    }
  }

  /** Rollback undoes commit exactly: when the journal of a migration becomes rolled back,
      every file the migration planned to rewrite holds byte for byte what it held when that
      migration began, whatever crashed in between. */
  lemma RollbackRestoresOriginals(run: seq<State>, labels: seq<Label>, i: nat, k: nat, plan: Plan, id: Id)
    requires OrderlyRun(run, labels) && i < k < |labels|
    requires labels[i].Begin? && labels[i].cmd == DoMigrate(plan, id)
    requires forall j :: i < j < k ==> labels[j].Begin? && labels[j].cmd.DoMigrate? ==> labels[j].cmd.id != id
    requires Becomes(run[k], run[k + 1], id, RolledBack) || Becomes(run[k], run[k + 1], id, Aborted)
    ensures plan.config.path in run[i].disk.files && plan.config.path in run[k + 1].disk.files
    ensures run[k + 1].disk.files[plan.config.path] == run[i].disk.files[plan.config.path]
    ensures plan.factory.Some? ==>
              && plan.factory.value.path in run[i].disk.files && plan.factory.value.path in run[k + 1].disk.files
              && run[k + 1].disk.files[plan.factory.value.path] == run[i].disk.files[plan.factory.value.path]
  {
    assert OrderlyNext(run[i], labels[i], run[i + 1]);
    assert OrderlyNext(run[k], labels[k], run[k + 1]);
    assert !labels[k].Begin?;
    JournalOfPlan(run, labels, i, k + 1, plan, id);
    ClosingIsCoherent(run, labels, k, id, run[k + 1].disk.journals[id].status);
  }
}
