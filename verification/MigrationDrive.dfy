/** Driving one command to its end without a crash: recovery and rollback always finish from
    every state a crash can leave behind, and the exact limits of both. */
module MigrationDrive {
  import opened Basics
  import opened MigrationProtocol
  import opened MigrationEdits
  import opened MigrationSafety

  function AfterRank(after: After): nat {
    match after
    case Stop => 0
    case Resume(todo, _) => 8 * |todo| + 16
  }

  /** Steps left, at most, until the process is idle. */
  function Rank(p: Proc): nat {
    match p
    case Idle => 0
    case Scan(todo, _) => 8 * |todo| + 16
    case Assessed(_, _, todo, _) => 8 * |todo| + 23
    case RollConfig(_, _, _) => 7
    case RollFactory(_, _) => 5
    case BackupConfig(_, _) => 15
    case BackupFactory(_, _) => 14
    case StageConfig(_, _) => 13
    case StageFactory(_) => 12
    case OpenJournal(_) => 11
    case CheckDestination(_) => 10
    case CommitConfig(_) => 9
    case NoteConfig(_) => 7
    case CommitFactory(_) => 6
    case NoteFactory(_) => 4
    case VerifyConfig(_) => 9
    case VerifyFactory(_) => 8
    case RestoreConfig(_) => 7
    case RestoreFactory(_) => 5
    case Put(_, w, why) => if why.Committing? then (if w == Config then 8 else 5) else if w == Config then 6 else 4
    case Close(_, _, after) => AfterRank(after) + 3
    case CleanConfig(_, after) => AfterRank(after) + 2
    case CleanFactory(_, after) => AfterRank(after) + 1
  }

  lemma StepDecreasesRank(s: State, ok: bool)
    requires !s.proc.Idle?
    ensures Rank(Step(s, ok).proc) < Rank(s.proc)
  {
    hide Step, Rank;
    if s.proc.Scan? || s.proc.Assessed? || s.proc.Close? || s.proc.CleanConfig? || s.proc.CleanFactory? {
      JournalStepDecreasesRank(s, ok);
    } else {
      TargetStepDecreasesRank(s, ok);
    }
  }

  lemma JournalStepDecreasesRank(s: State, ok: bool)
    requires s.proc.Scan? || s.proc.Assessed? || s.proc.Close? || s.proc.CleanConfig? || s.proc.CleanFactory?
    ensures Rank(Step(s, ok).proc) < Rank(s.proc)
  {
    hide Assess, AssessFactory, PutJournal, AllCommitted;
  }

  lemma TargetStepDecreasesRank(s: State, ok: bool)
    requires !s.proc.Idle? && !s.proc.Scan? && !s.proc.Assessed?
    requires !s.proc.Close? && !s.proc.CleanConfig? && !s.proc.CleanFactory?
    ensures Rank(Step(s, ok).proc) < Rank(s.proc)
  {
    hide Assess, AssessFactory, MayCommit, MayRestore, Written, PutJournal, PutBytes, CommitConfigFlag,
         CommitFactoryFlag;
  }

  /** Run until idle, with every I/O operation succeeding. */
  function Drive(s: State): Disk
    decreases Rank(s.proc)
  {
    if s.proc.Idle? then s.disk else
    StepDecreasesRank(s, true);
    Drive(Step(s, true))
  }

  lemma DriveStep(s: State)
    requires !s.proc.Idle?
    ensures Drive(s) == Drive(Step(s, true))
  {
    StepDecreasesRank(s, true);
  }

  /** A stretch of a run in which every step succeeds leads where driving leads. */
  lemma {:induction false} UndisturbedRunDrives(run: seq<State>, labels: seq<Label>, i: nat, k: nat)
    requires IsRun(run, labels) && i <= k < |run| && forall j :: i <= j < k ==> labels[j] == Proceed(true)
    ensures Drive(run[i]) == Drive(run[k])
    decreases k
  {
    hide Step, Drive;
    if i < k {
      UndisturbedRunDrives(run, labels, i, k - 1);
      assert StepAt(run, labels, k - 1);
      if run[k - 1].proc.Idle? { IdleStays(run[k - 1]); } else { DriveStep(run[k - 1]); }
    }
  }

  lemma IdleStays(s: State)
    requires s.proc.Idle?
    ensures Step(s, true) == s && Drive(s) == s.disk
  {
  }

  // ---------- Recovery finishes ----------

  /** A control point from which recovery, left alone, settles whatever is pending. */
  ghost predicate Settling(s: State) {
    match s.proc
    case Idle => NonePending(s.disk.journals)
    case Scan(_, goal) => goal.RecoverOnly?
    case Assessed(_, _, _, goal) => goal.RecoverOnly?
    case RollConfig(_, _, _) => true
    case RollFactory(_, _) => true
    case Put(_, _, why) => why.Rolling?
    case Close(rec, lenient, after) =>
      !lenient && rec.status != RolledBack && (after.Resume? ==> after.goal.RecoverOnly?)
    case CleanConfig(_, after) => NonePending(s.disk.journals) && (after.Resume? ==> after.goal.RecoverOnly?)
    case CleanFactory(_, after) => NonePending(s.disk.journals) && (after.Resume? ==> after.goal.RecoverOnly?)
    case _ => false
  }

  lemma SettlingStep(s: State)
    requires SafeInv(s) && Settling(s) && !s.proc.Idle?
    ensures Settling(Step(s, true))
  {
    if s.proc.Close? {
      assert BackedUp(s.disk, s.disk.journals[s.proc.rec.id]);
      JournalKeepsDisk(s.disk, s.proc.rec);
    } else if s.proc.Assessed? {
      assert Pending(s.disk.journals, s.proc.rec.id);
    } else if s.proc.RollConfig? || s.proc.RollFactory? {
      assert Pending(s.disk.journals, s.proc.rec.id);
    } else if s.proc.Scan? {
      if s.proc.todo == [] { assert NonePending(s.disk.journals); }
    }
  }

  /** The transaction came to a coherent end. */
  ghost predicate Coherent(d: Disk, id: Id) {
    && id in d.journals
    && var rec := d.journals[id];
       (rec.status == Aborted && AllOld(d, rec)) || (rec.status == Completed && AllNew(d, rec))
  }

  /** A step of recovery leaves the pending transaction pending or brings it to a coherent end. */
  lemma SettlingStepCloses(s: State, id: Id)
    requires SafeInv(s) && Settling(s) && Pending(s.disk.journals, id)
    ensures Pending(Step(s, true).disk.journals, id) || Coherent(Step(s, true).disk, id)
  {
    hide HarmlessRollback, RestoreKnows, Snapshot, GoalFresh, PendingAhead;
  }

  lemma RollsPending(s: State)
    requires SafeInv(s) && Settling(s) && (s.proc.RollConfig? || s.proc.RollFactory? || s.proc.Put? || s.proc.Close?)
    ensures Pending(s.disk.journals, s.proc.rec.id)
  {
  }

  /** With nothing pending it changes neither journals nor files. */
  lemma SettledStepKeeps(s: State)
    requires SafeInv(s) && Settling(s) && NonePending(s.disk.journals)
    ensures Step(s, true).disk.journals == s.disk.journals && Step(s, true).disk.files == s.disk.files
  {
    hide HarmlessRollback, RestoreKnows, Snapshot, GoalFresh, PendingAhead;
    if s.proc.RollConfig? || s.proc.RollFactory? || s.proc.Put? || s.proc.Close? { RollsPending(s); }
  }

  /** Recovery never refuses in a state that crashes alone can produce: it settles the pending
      transaction, both targets old and aborted, or both new and completed; and with nothing
      pending it changes neither journals nor files. */
  lemma {:induction false} RecoverySettles(s: State)
    requires SafeInv(s) && Settling(s)
    ensures SafeInv(State(Drive(s), Idle)) && NonePending(Drive(s).journals)
    ensures forall id :: Pending(s.disk.journals, id) ==> Coherent(Drive(s), id)
    ensures NonePending(s.disk.journals) ==> Drive(s).journals == s.disk.journals && Drive(s).files == s.disk.files
    decreases Rank(s.proc)
  {
    hide SafeInv, Settling, Step, Rank, Coherent;
    if s.proc.Idle? {
      IdleIsSettled(s);
    } else {
      StepDecreasesRank(s, true);
      SettlingStep(s);
      StepKeepsSafe(s, true);
      RecoverySettles(Step(s, true));
      if NonePending(s.disk.journals) { SettledStepKeeps(s); }
      forall id | Pending(s.disk.journals, id) ensures Coherent(Drive(s), id) {
        SettlingStepCloses(s, id);
        if !Pending(Step(s, true).disk.journals, id) {
          OnlyOneWasPending(s, id);
          SameCoherence(Step(s, true).disk, Drive(s), id);
        }
      }
    }
  }

  lemma IdleIsSettled(s: State)
    requires SafeInv(s) && Settling(s) && s.proc.Idle?
    ensures SafeInv(State(s.disk, Idle)) && NonePending(s.disk.journals)
  {
  }

  lemma OnlyOneWasPending(s: State, id: Id)
    requires SafeInv(s) && Settling(s) && Pending(s.disk.journals, id)
    requires !Pending(Step(s, true).disk.journals, id)
    ensures NonePending(Step(s, true).disk.journals)
  {
    hide HarmlessRollback, RestoreKnows, Snapshot, GoalFresh, PendingAhead, Knows;
    assert s.proc.Close?;
    assert OnlyPending(s.disk.journals, s.proc.rec.id);
    assert id == s.proc.rec.id;
  }

  lemma SameCoherence(d: Disk, d': Disk, id: Id)
    requires Coherent(d, id) && d'.journals == d.journals && d'.files == d.files
    ensures Coherent(d', id)
  {
  }

  /** With nothing pending, a command passes over the journals. */
  lemma {:induction false} SettledScanPasses(d: Disk, todo: seq<Record>, goal: Goal)
    requires forall i :: 0 <= i < |todo| ==> todo[i].status != InProgress
    ensures Drive(State(d, Scan(todo, goal))) == Drive(State(d, Enter(goal)))
  {
    var s := State(d, Scan(todo, goal));
    DriveStep(s);
    if todo == [] {
      assert Step(s, true) == State(d, Enter(goal));
    } else {
      assert Step(s, true) == State(d, Scan(todo[1..], goal));
      SettledScanPasses(d, todo[1..], goal);
    }
  }

  /** From any idle orderly state, a recovery that runs to its end leaves nothing pending, and
      a second recovery straight after it changes nothing on disk. */
  lemma RecoveryIsIdempotent(d: Disk, listing: seq<Record>, listing': seq<Record>)
    requires SafeInv(State(d, Idle)) && IsListing(d, listing)
    requires IsListing(Drive(State(d, Scan(listing, RecoverOnly))), listing')
    ensures var d' := Drive(State(d, Scan(listing, RecoverOnly)));
            NonePending(d'.journals) && Drive(State(d', Scan(listing', RecoverOnly))) == d'
  {
    var s := State(d, Scan(listing, RecoverOnly));
    assert PendingAhead(d, listing);
    RecoverySettles(s);
    forall i | 0 <= i < |listing'| ensures listing'[i].status != InProgress {
      assert !Pending(Drive(s).journals, listing'[i].id);
    }
    SettledScanPasses(Drive(s), listing', RecoverOnly);
    IdleStays(State(Drive(s), Idle));
  }

  // ---------- Rollback finishes ----------

  function Unstaged(d: Disk, rec: Record): Disk {
    d.(staged := if rec.factory.Some? then d.staged - {(rec.id, Config)} - {(rec.id, Factory)}
                 else d.staged - {(rec.id, Config)})
  }

  lemma CloseFinishes(d: Disk, rec: Record, lenient: bool)
    ensures Drive(State(d, Close(rec, lenient, Stop))) == Unstaged(PutJournal(d, rec), rec)
  {
    var s := State(d, Close(rec, lenient, Stop));
    DriveStep(s);
    var s1 := Step(s, true);
    DriveStep(s1);
    var s2 := Step(s1, true);
    if rec.factory.Some? { DriveStep(s2); }
  }

  /** The file contents with one target put back to its old bytes if it is at its new ones. */
  function PutBack(d: Disk, t: Target): Disk {
    if Assess(d, t) == New then d.(files := d.files[t.path := Readable(t.oldBytes)]) else d
  }

  function PutAllBack(d: Disk, rec: Record): Disk {
    var d1 := PutBack(d, rec.config);
    if rec.factory.None? then d1 else PutBack(d1, rec.factory.value)
  }

  lemma RestoreOneOutcome(d: Disk, rec: Record, w: Which)
    requires BackedUp(d, rec) && HasTarget(rec, w)
    ensures Drive(State(d, if w == Config then RestoreConfig(rec) else RestoreFactory(rec)))
            == Drive(State(PutBack(d, TargetAt(rec, w)), AfterRestore(rec, w)))
  {
    DriveStep(State(d, if w == Config then RestoreConfig(rec) else RestoreFactory(rec)));
    if Assess(d, TargetAt(rec, w)) == New { DriveStep(State(d, Put(rec, w, Restoring))); }
  }

  lemma RestoreOutcome(d: Disk, rec: Record)
    requires BackedUp(d, rec)
    ensures Drive(State(d, RestoreConfig(rec))) ==
              Unstaged(PutJournal(PutAllBack(d, rec), rec.(status := RolledBack)), rec)
  {
    RestoreOneOutcome(d, rec, Config);
    var d1 := PutBack(d, rec.config);
    if rec.factory.Some? { RestoreOneOutcome(d1, rec, Factory); }
    CloseFinishes(PutAllBack(d, rec), rec.(status := RolledBack), false);
  }

  /** What a rollback left alone does to the disk: nothing if some target is missing or holds
      foreign bytes, otherwise every target in its new state goes back to the old bytes. */
  lemma RollbackOutcome(d: Disk, rec: Record)
    requires BackedUp(d, rec)
    ensures var d' := Drive(State(d, VerifyConfig(rec)));
            if Refuses(Assess(d, rec.config)) || Refuses(AssessFactory(d, rec)) then d' == d
            else d' == Unstaged(PutJournal(PutAllBack(d, rec), rec.(status := RolledBack)), rec)
  {
    DriveStep(State(d, VerifyConfig(rec)));
    if !Refuses(Assess(d, rec.config)) {
      if rec.factory.Some? { DriveStep(State(d, VerifyFactory(rec))); }
      if !Refuses(AssessFactory(d, rec)) { RestoreOutcome(d, rec); }
    }
  }

  /** A rollback of a completed transaction whose targets are each old or new, as they are
      wherever an earlier rollback of it may have crashed, finishes with both targets old. */
  lemma RollbackFinishes(d: Disk, id: Id)
    requires Sane(d) && id in d.journals && d.journals[id].status == Completed && TwoFiles(d.journals[id])
    requires TwoValued(d, d.journals[id].config)
    requires d.journals[id].factory.Some? ==> TwoValued(d, d.journals[id].factory.value)
    ensures var d' := Drive(State(d, VerifyConfig(d.journals[id])));
            && d'.journals == d.journals[id := d.journals[id].(status := RolledBack)]
            && AllOld(d', d.journals[id])
  {
    RollbackOutcome(d, d.journals[id]);
  }

  // ---------- A migration commits exactly when its plan is current ----------

  ghost predicate Applies(plan: Plan) {
    && plan.configEligible && !plan.factoryUnsafe
    && (plan.factory.Some? ==> plan.factory.value.path != plan.config.path)
  }

  function Prepared(d: Disk, rec: Record): Disk {
    var d1 := d.(backups := d.backups[(rec.id, Config) := rec.config.oldBytes],
                 staged := d.staged[(rec.id, Config) := rec.config.newBytes]);
    if rec.factory.None? then d1
    else d1.(backups := d1.backups[(rec.id, Factory) := rec.factory.value.oldBytes],
             staged := d1.staged[(rec.id, Factory) := rec.factory.value.newBytes])
  }

  lemma PreparationFinishes(d: Disk, rec: Record)
    requires rec.config.path in d.files && (rec.factory.Some? ==> rec.factory.value.path in d.files)
    ensures Drive(State(d, BackupConfig(rec, true)))
            == Drive(State(PutJournal(Prepared(d, rec), rec), CommitConfig(rec)))
  {
    DriveStep(State(d, BackupConfig(rec, true)));
    var d1 := d.(backups := d.backups[(rec.id, Config) := rec.config.oldBytes]);
    if rec.factory.Some? {
      DriveStep(State(d1, BackupFactory(rec, true)));
      var d2 := d1.(backups := d1.backups[(rec.id, Factory) := rec.factory.value.oldBytes]);
      DriveStep(State(d2, StageConfig(rec, true)));
      DriveStep(State(d2.(staged := d2.staged[(rec.id, Config) := rec.config.newBytes]), StageFactory(rec)));
    } else {
      DriveStep(State(d1, StageConfig(rec, true)));
    }
    DriveStep(State(Prepared(d, rec), OpenJournal(rec)));
    DriveStep(State(PutJournal(Prepared(d, rec), rec), CheckDestination(rec)));
  }

  lemma FactoryCommitOutcome(d: Disk, rec: Record)
    requires Staged(d, rec) && rec.status == InProgress && rec.factory.Some?
    requires rec.id in d.journals && d.journals[rec.id] == rec
    ensures var d', t := Drive(State(d, CommitFactory(rec))), rec.factory.value;
            && rec.id in d'.journals && SameTransaction(rec, d'.journals[rec.id])
            && (FactoryOld(d, rec) ==> d'.journals[rec.id].status == Completed
                                       && d'.files == d.files[t.path := Readable(t.newBytes)])
            && (!FactoryOld(d, rec) ==> d'.journals[rec.id].status == InProgress && d'.files == d.files)
  {
    DriveStep(State(d, CommitFactory(rec)));
    if FactoryOld(d, rec) {
      var t := rec.factory.value;
      var d1 := d.(files := d.files[t.path := Readable(t.newBytes)]);
      var r := CommitFactoryFlag(rec);
      DriveStep(State(d, Put(rec, Factory, Committing)));
      DriveStep(State(d1, NoteFactory(r)));
      CloseFinishes(PutJournal(d1, r), r.(status := Completed), false);
    }
  }

  /** The files once a transaction was committed as far as its targets hold their planned bytes,
      config first. */
  ghost function Committed(d: Disk, rec: Record): map<Path, File> {
    if !AtOld(d, rec.config) then d.files
    else
      var files := d.files[rec.config.path := Readable(rec.config.newBytes)];
      if rec.factory.Some? && FactoryOld(d, rec)
      then files[rec.factory.value.path := Readable(rec.factory.value.newBytes)] else files
  }

  /** From `CommitConfig` on: the transaction completes exactly when both targets still hold
      the bytes it was planned on; otherwise its journal stays pending. */
  lemma CommitOutcome(d: Disk, rec: Record)
    requires Staged(d, rec) && TwoFiles(rec) && rec.status == InProgress
    requires rec.id in d.journals && d.journals[rec.id] == rec
    ensures var d' := Drive(State(d, CommitConfig(rec)));
            && rec.id in d'.journals
            && (AllOld(d, rec) ==> d'.journals[rec.id].status == Completed && AllNew(d', rec))
            && (!AllOld(d, rec) ==> d'.journals[rec.id].status == InProgress)
            && d'.files == Committed(d, rec) && SameTransaction(rec, d'.journals[rec.id])
  {
    DriveStep(State(d, CommitConfig(rec)));
    if AtOld(d, rec.config) {
      var d1 := d.(files := d.files[rec.config.path := Readable(rec.config.newBytes)]);
      var r := CommitConfigFlag(rec);
      DriveStep(State(d, Put(rec, Config, Committing)));
      DriveStep(State(d1, NoteConfig(r)));
      var d2 := PutJournal(d1, r);
      if rec.factory.Some? {
        FactoryCommitOutcome(d2, r);
      } else {
        CloseFinishes(d2, r.(status := Completed), false);
      }
    }
  }

  /** An edit that lands between the guard on the config and the rename is overwritten, and the
      migration is completed all the same. */
  lemma LostEditIsReportedCompleted(d: Disk, rec: Record, edit: File)
    requires Staged(d, rec) && TwoFiles(rec) && rec.status == InProgress && AllOld(d, rec)
    requires rec.id in d.journals && d.journals[rec.id] == rec
    ensures var edited := d.(files := d.files[rec.config.path := edit]);
            var d' := Drive(State(edited, Put(rec, Config, Committing)));
            && Step(State(d, CommitConfig(rec)), true) == State(d, Put(rec, Config, Committing))
            && rec.id in d'.journals && d'.journals[rec.id].status == Completed && AllNew(d', rec)
  {
    var edited := d.(files := d.files[rec.config.path := edit]);
    assert Written(edited, rec.config, rec.config.newBytes) == Written(d, rec.config, rec.config.newBytes);
    DriveStep(State(edited, Put(rec, Config, Committing)));
    DriveStep(State(d, CommitConfig(rec)));
    DriveStep(State(d, Put(rec, Config, Committing)));
    CommitOutcome(d, rec);
  }

  ghost predicate TargetsPresent(d: Disk, plan: Plan) {
    plan.config.path in d.files && (plan.factory.Some? ==> plan.factory.value.path in d.files)
  }

  /** What a migration that runs without a crash makes of any plan. It completes, with both targets
      new, if and only if the files still have the contents that the plan was computed from. It
      leaves no journal if and only if a target is gone, and then no file is changed. Otherwise its
      journal stays pending: nothing is changed if the config was edited, but if only the Factory
      file was, the config has its new bytes already. Edited targets stay as they are. */
  lemma MigrationCompletesIffPlanIsCurrent(d: Disk, plan: Plan, id: Id)
    requires Applies(plan) && id !in d.journals
    ensures var d', rec := Drive(State(d, BackupConfig(NewRecord(plan, id), true))), NewRecord(plan, id);
            && (id in d'.journals <==> TargetsPresent(d, plan))
            && (id in d'.journals ==> SameTransaction(rec, d'.journals[id]))
            && (id in d'.journals && d'.journals[id].status == Completed <==> Fresh(d, plan))
            && (id in d'.journals && d'.journals[id].status == InProgress <==>
                TargetsPresent(d, plan) && !Fresh(d, plan))
            && (Fresh(d, plan) ==> AllNew(d', rec))
            && d'.files == (if TargetsPresent(d, plan) then Committed(d, rec) else d.files)
            && (!AtOld(d, rec.config) ==> d'.files == d.files)
            && (rec.factory.Some? && !FactoryOld(d, rec) ==> SameAt(d, d', rec.factory.value.path))
  {
    var rec := NewRecord(plan, id);
    if TargetsPresent(d, plan) {
      PreparationFinishes(d, rec);
      CommitOutcome(PutJournal(Prepared(d, rec), rec), rec);
    } else {
      DriveStep(State(d, BackupConfig(rec, true)));
      if rec.config.path in d.files {
        var d1 := d.(backups := d.backups[(rec.id, Config) := rec.config.oldBytes]);
        DriveStep(State(d1, BackupFactory(rec, true)));
      }
    }
  }

  // ---------- The limits of recovery and rollback ----------

  /** Recovery's decision on one pending record, driven to its end. */
  function Recovered(d: Disk, rec: Record): Disk {
    Drive(State(d, Assessed(rec, Assess(d, rec.config), [], RecoverOnly)))
  }

  /** A target recovery does not look at again although it is not at its new bytes: it cannot
      be read, or it is marked committed but is back at its old bytes. */
  ghost predicate Overlooked(d: Disk, t: Target) {
    Assess(d, t) == CannotRead || (Assess(d, t) == Old && t.committed)
  }

  ghost predicate SomeOverlooked(d: Disk, rec: Record) {
    Overlooked(d, rec.config) || (rec.factory.Some? && Overlooked(d, rec.factory.value))
  }

  lemma RollForwardOutcome(d: Disk, rec: Record)
    requires TwoFiles(rec)
    requires !Refuses(Assess(d, rec.config)) && !Refuses(AssessFactory(d, rec))
    requires Assess(d, rec.config) != Old || AssessFactory(d, rec) != Old
    requires Assess(d, rec.config) != New || AssessFactory(d, rec) != New
    requires rec.config.oldBytes != rec.config.newBytes
    requires rec.factory.Some? ==> rec.factory.value.oldBytes != rec.factory.value.newBytes
    requires rec.id in d.journals && d.journals[rec.id] == rec && rec.status == InProgress
    ensures var d' := Drive(State(d, RollConfig(rec, Assess(d, rec.config), AssessFactory(d, rec))));
            && rec.id in d'.journals
            && (d'.journals[rec.id].status == Completed ==> (AllNew(d', rec) <==> !SomeOverlooked(d, rec)))
  {
    var cs, fs := Assess(d, rec.config), AssessFactory(d, rec);
    DriveStep(State(d, RollConfig(rec, cs, fs)));
    if !rec.config.committed && cs == Old {
      if MayCommit(d, rec.id, Config, rec.config) {
        DriveStep(State(d, Put(rec, Config, Rolling(fs))));
        RollFactoryOutcome(Written(d, rec.config, rec.config.newBytes), CommitConfigFlag(rec));
      }
    } else {
      RollFactoryOutcome(d, rec);
    }
  }

  /** From the Factory target on: it is written, left alone, or the recovery gives up. */
  lemma RollFactoryOutcome(d: Disk, rec: Record)
    requires TwoFiles(rec)
    ensures var fs := AssessFactory(d, rec);
            var d' := Drive(State(d, RollFactory(rec, fs)));
            if rec.factory.Some? && !rec.factory.value.committed && fs == Old then
              var t := rec.factory.value;
              if MayCommit(d, rec.id, Factory, t) then
                d' == Unstaged(PutJournal(Written(d, t, t.newBytes), CommitFactoryFlag(rec).(status := Completed)), rec)
              else d' == d
            else d' == Unstaged(PutJournal(d, rec.(status := Completed)), rec)
  {
    var fs := AssessFactory(d, rec);
    DriveStep(State(d, RollFactory(rec, fs)));
    if rec.factory.Some? && !rec.factory.value.committed && fs == Old {
      var t := rec.factory.value;
      if MayCommit(d, rec.id, Factory, t) {
        DriveStep(State(d, Put(rec, Factory, Rolling(fs))));
        CloseFinishes(Written(d, t, t.newBytes), CommitFactoryFlag(rec).(status := Completed), false);
      }
    } else {
      CloseFinishes(d, rec.(status := Completed), false);
    }
  }

  lemma AbortFinishes(d: Disk, rec: Record)
    ensures Drive(State(d, Close(rec, false, Resume([], RecoverOnly)))) == Unstaged(PutJournal(d, rec), rec)
  {
    var s := State(d, Close(rec, false, Resume([], RecoverOnly)));
    DriveStep(s);
    var s1 := Step(s, true);
    DriveStep(s1);
    var s2 := Step(s1, true);
    if rec.factory.Some? { DriveStep(s2); }
    DriveStep(State(Unstaged(PutJournal(d, rec), rec), Scan([], RecoverOnly)));
  }

  /** A Factory file with neither its planned nor its new bytes strands the migration: the config
      already has its new bytes, the Factory file keeps the edit, and recovery of the pending
      journal refuses and changes nothing. */
  lemma StaleFactoryStrandsMigration(d: Disk, plan: Plan, id: Id)
    requires Applies(plan) && id !in d.journals && AtOld(d, NewTarget(plan.config))
    requires plan.factory.Some? && Assess(d, NewTarget(plan.factory.value)) == Third
    ensures var d', rec := Drive(State(d, BackupConfig(NewRecord(plan, id), true))), NewRecord(plan, id);
            && AtNew(d', rec.config) && SameAt(d, d', rec.factory.value.path)
            && id in d'.journals && d'.journals[id].status == InProgress && Recovered(d', d'.journals[id]) == d'
  {
    var rec := NewRecord(plan, id);
    MigrationCompletesIffPlanIsCurrent(d, plan, id);
    var d' := Drive(State(d, BackupConfig(rec, true)));
    var left := d'.journals[id];
    assert AssessFactory(d', left) == Third;
    DriveStep(State(d', Assessed(left, Assess(d', left.config), [], RecoverOnly)));
  }

  /** Where the user may have touched the targets, a recovery that reports the transaction
      completed has both targets at their new bytes if and only if it found no target
      unreadable and none back at its old bytes after being marked committed. */
  lemma RecoveryCompletesCoherentlyIff(d: Disk, rec: Record)
    requires TwoFiles(rec) && rec.config.oldBytes != rec.config.newBytes
    requires rec.factory.Some? ==> rec.factory.value.oldBytes != rec.factory.value.newBytes
    requires rec.id in d.journals && d.journals[rec.id] == rec && rec.status == InProgress
    ensures rec.id in Recovered(d, rec).journals
    ensures Recovered(d, rec).journals[rec.id].status == Completed ==>
              (AllNew(Recovered(d, rec), rec) <==> !SomeOverlooked(d, rec))
  {
    var cs, fs := Assess(d, rec.config), AssessFactory(d, rec);
    DriveStep(State(d, Assessed(rec, cs, [], RecoverOnly)));
    if cs == Old && fs == Old {
      AbortFinishes(d, rec.(status := Aborted));
    } else if cs == New && fs == New {
      CloseFinishes(d, AllCommitted(rec).(status := Completed), false);
    } else if !Refuses(cs) && !Refuses(fs) {
      RollForwardOutcome(d, rec);
    }
  }

  /** A pending transaction whose config cannot be read is reported completed although only
      its Factory target was ever rewritten. */
  lemma UnreadableConfigCompletesSplit(d: Disk, rec: Record)
    requires rec.config.path in d.files && d.files[rec.config.path].Unreadable?
    requires rec.factory.Some? && TwoFiles(rec) && AtOld(d, rec.factory.value) && !rec.factory.value.committed
    requires (rec.id, Factory) in d.staged && d.staged[(rec.id, Factory)] == rec.factory.value.newBytes
    ensures var d' := Recovered(d, rec);
            && rec.id in d'.journals && d'.journals[rec.id].status == Completed
            && AtNew(d', rec.factory.value) && SameAt(d, d', rec.config.path)
  {
    DriveStep(State(d, Assessed(rec, CannotRead, [], RecoverOnly)));
    DriveStep(State(d, RollConfig(rec, CannotRead, Old)));
    DriveStep(State(d, RollFactory(rec, Old)));
    DriveStep(State(d, Put(rec, Factory, Rolling(Old))));
    var t := rec.factory.value;
    CloseFinishes(d.(files := d.files[t.path := Readable(t.newBytes)]), CommitFactoryFlag(rec).(status := Completed),
                  false);
  }

  /** Rollback does not look for pending transactions. It leaves the targets of one alone if
      and only if it refuses or restores no file that is also a target of the pending one. */
  lemma RollbackSparesPendingIff(d: Disk, done: Record, pending: Record)
    requires BackedUp(d, done) && TwoFiles(done)
    ensures var d' := Drive(State(d, VerifyConfig(done)));
            (forall p :: OnPath(pending, p) ==> SameAt(d, d', p)) <==>
            (Refuses(Assess(d, done.config)) || Refuses(AssessFactory(d, done)) || Spares(d, done, pending))
  {
    RollbackOutcome(d, done);
    var d' := Drive(State(d, VerifyConfig(done)));
    if !Refuses(Assess(d, done.config)) && !Refuses(AssessFactory(d, done)) {
      if Collides(d, done.config, pending) { assert !SameAt(d, d', done.config.path); }
      if done.factory.Some? && Collides(d, done.factory.value, pending) {
        assert !SameAt(d, d', done.factory.value.path);
      }
    }
  }

  /** Rolling back over a pending transaction can strand it for good: if the restored bytes are
      neither its old nor its new ones, every later recovery refuses and changes nothing. */
  lemma RollbackCanStrandPending(d: Disk, done: Record, pending: Record)
    requires BackedUp(d, done) && TwoFiles(done)
    requires Assess(d, done.config) == New && !Refuses(AssessFactory(d, done))
    requires pending.config.path == done.config.path && pending.id != done.id
    requires done.config.oldBytes != pending.config.oldBytes && done.config.oldBytes != pending.config.newBytes
    requires pending.id in d.journals && d.journals[pending.id] == pending && pending.status == InProgress
    ensures var d' := Drive(State(d, VerifyConfig(done)));
            && pending.id in d'.journals && d'.journals[pending.id] == pending
            && Assess(d', pending.config) == Third
            && Recovered(d', pending) == d'
  {
    RollbackOutcome(d, done);
    var d' := Drive(State(d, VerifyConfig(done)));
    DriveStep(State(d', Assessed(pending, Third, [], RecoverOnly)));
  }
}
