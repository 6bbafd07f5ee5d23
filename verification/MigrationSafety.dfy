/** Crash atomicity: runs in which nobody edits the targets, each migration is planned on the
    current file contents, and a rollback started while a transaction is pending refuses or
    restores none of its targets. The process may crash between any two steps, also inside
    recovery and rollback. */
module MigrationSafety {
  import opened Basics
  import opened MigrationProtocol
  import opened MigrationEdits

  ghost predicate AtOld(d: Disk, t: Target) { t.path in d.files && d.files[t.path] == Readable(t.oldBytes) }
  ghost predicate AtNew(d: Disk, t: Target) { t.path in d.files && d.files[t.path] == Readable(t.newBytes) }

  ghost predicate FactoryOld(d: Disk, rec: Record) { rec.factory.Some? ==> AtOld(d, rec.factory.value) }
  ghost predicate FactoryNew(d: Disk, rec: Record) { rec.factory.Some? ==> AtNew(d, rec.factory.value) }
  ghost predicate AllOld(d: Disk, rec: Record) { AtOld(d, rec.config) && FactoryOld(d, rec) }
  ghost predicate AllNew(d: Disk, rec: Record) { AtNew(d, rec.config) && FactoryNew(d, rec) }

  ghost predicate TwoFiles(rec: Record) { rec.factory.Some? ==> rec.factory.value.path != rec.config.path }

  ghost predicate Staged(d: Disk, rec: Record) {
    && (rec.id, Config) in d.staged && d.staged[(rec.id, Config)] == rec.config.newBytes
    && (rec.factory.Some? ==>
        (rec.id, Factory) in d.staged && d.staged[(rec.id, Factory)] == rec.factory.value.newBytes)
  }

  /** A journal's commit marks never run ahead of the files. */
  ghost predicate MarksHonest(d: Disk, rec: Record) {
    && (rec.config.committed ==> AtNew(d, rec.config))
    && (rec.factory.Some? && rec.factory.value.committed ==> AtNew(d, rec.factory.value))
  }

  /** The (config, Factory) contents are (old, old), (new, old) or (new, new), and unless
      nothing has been committed the staged new bytes are still there. */
  ghost predicate Recoverable(d: Disk, rec: Record) {
    && MarksHonest(d, rec)
    && (AllOld(d, rec) || (AtNew(d, rec.config) && (FactoryOld(d, rec) || FactoryNew(d, rec)) && Staged(d, rec)))
  }

  type Journals = map<Id, Record>

  ghost predicate Pending(js: Journals, id: Id) { id in js && js[id].status == InProgress }
  ghost predicate NonePending(js: Journals) { forall id :: !Pending(js, id) }
  ghost predicate OnlyPending(js: Journals, id: Id) { forall j :: Pending(js, j) ==> j == id }

  /** The plan was computed from the current contents of two different files. */
  ghost predicate Fresh(d: Disk, plan: Plan) {
    && AtOld(d, NewTarget(plan.config))
    && (plan.factory.Some? ==> AtOld(d, NewTarget(plan.factory.value)) && plan.factory.value.path != plan.config.path)
  }

  ghost predicate GoalFresh(d: Disk, goal: Goal) { goal.Migrate? ==> Fresh(d, goal.plan) }

  // ---------- Rollbacks that spare the pending transaction ----------

  predicate Refuses(a: Assessment) { a == Third || a == Missing }

  ghost predicate OnPath(rec: Record, p: Path) {
    rec.config.path == p || (rec.factory.Some? && rec.factory.value.path == p)
  }

  /** `t` is at its new bytes and is also a target of `other`. */
  ghost predicate Collides(d: Disk, t: Target, other: Record) {
    Assess(d, t) == New && OnPath(other, t.path)
  }

  ghost predicate Spares(d: Disk, rec: Record, pending: Record) {
    !Collides(d, rec.config, pending) && (rec.factory.Some? ==> !Collides(d, rec.factory.value, pending))
  }

  ghost predicate SparesAll(d: Disk, rec: Record) {
    forall id :: Pending(d.journals, id) ==> Spares(d, rec, d.journals[id])
  }

  /** A rollback of `rec` refuses, or restores no file that is also a target of a pending one. */
  ghost predicate HarmlessRollback(d: Disk, rec: Record) {
    Refuses(Assess(d, rec.config)) || Refuses(AssessFactory(d, rec)) || SparesAll(d, rec)
  }

  ghost predicate DiskInv(d: Disk) {
    && Sane(d)
    && (forall p :: p in d.files ==> d.files[p].Readable?)
    && (forall id :: id in d.journals ==> TwoFiles(d.journals[id]))
    && (forall id :: Pending(d.journals, id) ==> Recoverable(d, d.journals[id]))
    && (forall i, j :: Pending(d.journals, i) && Pending(d.journals, j) ==> i == j)
  }

  ghost predicate PendingAhead(d: Disk, todo: seq<Record>) {
    forall id :: Pending(d.journals, id) ==> d.journals[id] in todo
  }

  ghost predicate AfterInv(d: Disk, after: After) {
    after.Resume? ==> NonePending(d.journals) && GoalFresh(d, after.goal)
  }

  /** The one pending transaction, with its staged bytes in place. */
  ghost predicate Open(d: Disk, rec: Record) {
    && Journaled(d, rec, InProgress) && OnlyPending(d.journals, rec.id)
    && Staged(d, rec) && MarksHonest(d, rec) && TwoFiles(rec)
  }

  ghost predicate TwoValued(d: Disk, t: Target) { AtOld(d, t) || AtNew(d, t) }

  ghost predicate RestoreKnows(d: Disk, rec: Record) {
    && TwoFiles(rec) && SparesAll(d, rec) && TwoValued(d, rec.config)
    && (rec.factory.Some? ==> TwoValued(d, rec.factory.value))
  }

  /** Between the guard on a target and its rename. */
  ghost predicate PutKnows(d: Disk, rec: Record, w: Which, why: Why) {
    && HasTarget(rec, w)
    && match why
       case Rolling(fs) =>
         && Open(d, rec) && AtNew(d, rec.config)
         && (if w == Factory then FactoryOld(d, rec)
             else fs == AssessFactory(d, rec) && (FactoryOld(d, rec) || FactoryNew(d, rec)))
       case Committing =>
         Open(d, rec) && (if w == Config then AllOld(d, rec) else AtNew(d, rec.config) && FactoryOld(d, rec))
       case Restoring =>
         && RestoreKnows(d, rec) && Assess(d, TargetAt(rec, w)) == New
         && (w == Factory ==> AtOld(d, rec.config))
  }

  /** What the control point knows about the files in an orderly run. */
  ghost predicate Knows(d: Disk, p: Proc) {
    match p
    case Idle => true
    case Scan(todo, goal) => PendingAhead(d, todo) && GoalFresh(d, goal)
    case Assessed(rec, cs, _, goal) =>
      OnlyPending(d.journals, rec.id) && cs == Assess(d, rec.config) && GoalFresh(d, goal)
    case RollConfig(rec, cs, fs) =>
      && Open(d, rec) && cs == Assess(d, rec.config) && fs == AssessFactory(d, rec)
      && AtNew(d, rec.config) && (FactoryOld(d, rec) || FactoryNew(d, rec))
    case RollFactory(rec, fs) =>
      && Open(d, rec) && fs == AssessFactory(d, rec)
      && AtNew(d, rec.config) && (FactoryOld(d, rec) || FactoryNew(d, rec))
    case BackupConfig(rec, _) => NonePending(d.journals) && AllOld(d, rec) && MarksHonest(d, rec) && TwoFiles(rec)
    case BackupFactory(rec, _) => NonePending(d.journals) && AllOld(d, rec) && MarksHonest(d, rec) && TwoFiles(rec)
    case StageConfig(rec, _) => NonePending(d.journals) && AllOld(d, rec) && MarksHonest(d, rec) && TwoFiles(rec)
    case StageFactory(rec) =>
      && NonePending(d.journals) && AllOld(d, rec) && MarksHonest(d, rec) && TwoFiles(rec)
      && (rec.id, Config) in d.staged && d.staged[(rec.id, Config)] == rec.config.newBytes
    case OpenJournal(rec) =>
      NonePending(d.journals) && AllOld(d, rec) && MarksHonest(d, rec) && TwoFiles(rec) && Staged(d, rec)
    case CheckDestination(rec) => Open(d, rec) && AllOld(d, rec)
    case CommitConfig(rec) => Open(d, rec) && AllOld(d, rec)
    case NoteConfig(rec) => Open(d, rec) && AtNew(d, rec.config) && FactoryOld(d, rec)
    case CommitFactory(rec) => Open(d, rec) && AtNew(d, rec.config) && FactoryOld(d, rec)
    case NoteFactory(rec) => Open(d, rec) && AllNew(d, rec)
    case VerifyConfig(rec) => TwoFiles(rec) && HarmlessRollback(d, rec)
    case VerifyFactory(rec) => TwoFiles(rec) && HarmlessRollback(d, rec) && TwoValued(d, rec.config)
    case RestoreConfig(rec) => RestoreKnows(d, rec)
    case RestoreFactory(rec) => RestoreKnows(d, rec) && AtOld(d, rec.config)
    case Put(rec, w, why) => PutKnows(d, rec, w, why)
    case Close(rec, lenient, after) =>
      && (rec.status != RolledBack ==> OnlyPending(d.journals, rec.id)) && (rec.status == Completed ==> AllNew(d, rec))
      && (rec.status in {Aborted, RolledBack} ==> AllOld(d, rec)) && TwoFiles(rec)
      && (lenient ==> rec.status == Aborted && after.Stop?)
      && (after.Resume? ==> rec.status != RolledBack && GoalFresh(d, after.goal))
    case CleanConfig(rec, after) =>
      AfterInv(d, after) && (Pending(d.journals, rec.id) ==> AllOld(d, d.journals[rec.id]))
    case CleanFactory(rec, after) =>
      AfterInv(d, after) && (Pending(d.journals, rec.id) ==> AllOld(d, d.journals[rec.id]))
  }

  ghost predicate SafeInv(s: State) { Inv(s) && DiskInv(s.disk) && Knows(s.disk, s.proc) }

  // ---------- One kind of disk operation at a time ----------

  /** Backing up and staging under an id that has no journal yet. */
  lemma PreparationKeepsDisk(d: Disk, d': Disk, id: Id)
    requires DiskInv(d) && id !in d.journals
    requires d'.files == d.files && d'.journals == d.journals
    requires forall k: (Id, Which) :: k.0 != id ==>
               (k in d.staged <==> k in d'.staged) && (k in d.backups <==> k in d'.backups)
    requires forall k: (Id, Which) :: k.0 != id && k in d.staged ==> d'.staged[k] == d.staged[k]
    requires forall k: (Id, Which) :: k.0 != id && k in d.backups ==> d'.backups[k] == d.backups[k]
    ensures DiskInv(d')
  {
    forall j | j in d.journals ensures BackedUp(d', d.journals[j]) {
      assert BackedUp(d, d.journals[j]);
    }
    forall j | Pending(d'.journals, j) ensures Recoverable(d', d.journals[j]) {
      assert Pending(d.journals, j);
      assert Recoverable(d, d.journals[j]);
    }
  }

  /** Writing a closed journal, or that of the only transaction that may be pending. */
  lemma JournalKeepsDisk(d: Disk, rec: Record)
    requires DiskInv(d) && BackedUp(d, rec) && TwoFiles(rec)
    requires rec.status == InProgress ==> OnlyPending(d.journals, rec.id) && Recoverable(d, rec)
    ensures DiskInv(PutJournal(d, rec))
    ensures OnlyPending(d.journals, rec.id) ==> OnlyPending(PutJournal(d, rec).journals, rec.id)
    ensures OnlyPending(d.journals, rec.id) && rec.status != InProgress ==> NonePending(PutJournal(d, rec).journals)
    ensures rec.status != InProgress ==> !Pending(PutJournal(d, rec).journals, rec.id)
  {
    var d' := PutJournal(d, rec);
    forall j | Pending(d'.journals, j)
      ensures (j == rec.id || Pending(d.journals, j)) && Recoverable(d', d'.journals[j])
    {
      if j != rec.id { assert Pending(d.journals, j); }
    }
    forall j | j in d'.journals ensures BackedUp(d', d'.journals[j]) && TwoFiles(d'.journals[j]) {
      if j != rec.id { assert BackedUp(d, d.journals[j]); }
    }
  }

  /** Replacing the contents of one file, as long as what is pending stays recoverable. */
  lemma FileWriteKeepsDisk(d: Disk, p: Path, b: Bytes)
    requires DiskInv(d)
    requires var d' := d.(files := d.files[p := Readable(b)]);
             forall id :: Pending(d.journals, id) ==> Recoverable(d', d.journals[id])
    ensures DiskInv(d.(files := d.files[p := Readable(b)]))
  {
    var d' := d.(files := d.files[p := Readable(b)]);
    forall j | j in d'.journals ensures BackedUp(d', d'.journals[j]) {
      assert BackedUp(d, d.journals[j]);
    }
    forall j | Pending(d'.journals, j) ensures Recoverable(d', d'.journals[j]) {
      assert Pending(d.journals, j);
    }
  }

  lemma OffPathKeepsRecoverable(d: Disk, rec: Record, p: Path, b: Bytes)
    requires Recoverable(d, rec) && !OnPath(rec, p)
    ensures Recoverable(d.(files := d.files[p := Readable(b)]), rec)
  {
  }

  /** Removing a staged file once its transaction is closed or has committed nothing. */
  lemma UnstageKeepsDisk(d: Disk, id: Id, w: Which)
    requires DiskInv(d) && (Pending(d.journals, id) ==> AllOld(d, d.journals[id]))
    ensures DiskInv(d.(staged := d.staged - {(id, w)}))
  {
    var d' := d.(staged := d.staged - {(id, w)});
    forall j | j in d'.journals ensures BackedUp(d', d'.journals[j]) {
      assert BackedUp(d, d.journals[j]);
    }
    forall j | Pending(d'.journals, j) ensures Recoverable(d', d'.journals[j]) {
      assert Pending(d.journals, j);
      assert Recoverable(d, d.journals[j]);
    }
  }

  // ---------- Steps keep the invariant ----------

  ghost predicate SafeAfter(s: State) { DiskInv(s.disk) && Knows(s.disk, s.proc) }

  lemma ScanKeepsSafe(s: State, ok: bool)
    requires SafeInv(s) && s.proc.Scan?
    ensures SafeAfter(Step(s, ok))
  {
    var d, todo := s.disk, s.proc.todo;
    if todo == [] {
      assert NonePending(d.journals);
    } else {
      forall id | Pending(d.journals, id) ensures todo[0].status == InProgress ==> id == todo[0].id {
        if todo[0].status == InProgress { assert Pending(d.journals, todo[0].id); }
      }
      forall id | Pending(d.journals, id) && todo[0].status != InProgress ensures d.journals[id] in todo[1..] {
        assert d.journals[id] in todo && d.journals[id] != todo[0];
      }
    }
  }

  lemma AssessedKeepsSafe(s: State, ok: bool)
    requires SafeInv(s) && s.proc.Assessed?
    ensures SafeAfter(Step(s, ok))
  {
    assert Pending(s.disk.journals, s.proc.rec.id);
  }

  lemma RollKeepsSafe(s: State, ok: bool)
    requires SafeInv(s) && (s.proc.RollConfig? || s.proc.RollFactory?)
    ensures SafeAfter(Step(s, ok))
  {
    assert Pending(s.disk.journals, s.proc.rec.id);
  }

  /** Writing the target of the one open transaction. */
  lemma ForwardPutKeepsSafe(s: State, ok: bool)
    requires SafeInv(s) && s.proc.Put? && !s.proc.why.Restoring?
    ensures SafeAfter(Step(s, ok))
  {
    hide Snapshot, GoalFresh, PendingAhead, HarmlessRollback, RestoreKnows, SparesAll;
    var d, rec := s.disk, s.proc.rec;
    assert Pending(d.journals, rec.id);
    if ok {
      var t := TargetAt(rec, s.proc.which);
      FileWriteKeepsDisk(d, t.path, t.newBytes);
    }
  }

  /** Restoring a target touches nothing that is pending. */
  lemma RestorePutKeepsSafe(s: State, ok: bool)
    requires SafeInv(s) && s.proc.Put? && s.proc.why.Restoring?
    ensures SafeAfter(Step(s, ok))
  {
    var d, rec := s.disk, s.proc.rec;
    if ok {
      var t := TargetAt(rec, s.proc.which);
      forall id | Pending(d.journals, id) ensures Recoverable(Written(d, t, t.oldBytes), d.journals[id]) {
        assert Spares(d, rec, d.journals[id]);
        OffPathKeepsRecoverable(d, d.journals[id], t.path, t.oldBytes);
      }
      FileWriteKeepsDisk(d, t.path, t.oldBytes);
      RestoredKnows(d, rec, s.proc.which);
    }
  }

  lemma RestoredKnows(d: Disk, rec: Record, w: Which)
    requires PutKnows(d, rec, w, Restoring)
    ensures var d' := Written(d, TargetAt(rec, w), TargetAt(rec, w).oldBytes);
            && RestoreKnows(d', rec) && AtOld(d', TargetAt(rec, w)) && (w == Factory ==> AtOld(d', rec.config))
  {
    var t := TargetAt(rec, w);
    var d' := Written(d, t, t.oldBytes);
    forall id | Pending(d'.journals, id) ensures Spares(d', rec, d'.journals[id]) {
      assert Spares(d, rec, d.journals[id]);
    }
  }

  lemma BackupKeepsSafe(s: State, ok: bool)
    requires SafeInv(s) && (s.proc.BackupConfig? || s.proc.BackupFactory?)
    ensures SafeAfter(Step(s, ok))
  {
    PreparationKeepsDisk(s.disk, Step(s, ok).disk, s.proc.rec.id);
  }

  lemma StageKeepsSafe(s: State, ok: bool)
    requires SafeInv(s) && (s.proc.StageConfig? || s.proc.StageFactory?)
    ensures SafeAfter(Step(s, ok))
  {
    PreparationKeepsDisk(s.disk, Step(s, ok).disk, s.proc.rec.id);
  }

  lemma OpenJournalKeepsSafe(s: State, ok: bool)
    requires SafeInv(s) && s.proc.OpenJournal?
    ensures SafeAfter(Step(s, ok))
  {
    JournalKeepsDisk(s.disk, s.proc.rec);
  }

  lemma CommitGuardKeepsSafe(s: State, ok: bool)
    requires SafeInv(s) && (s.proc.CommitConfig? || s.proc.CommitFactory?)
    ensures SafeAfter(Step(s, ok))
  {
    hide DiskInv, Inv;
  }

  lemma NoteKeepsSafe(s: State, ok: bool)
    requires SafeInv(s) && (s.proc.NoteConfig? || s.proc.NoteFactory?)
    ensures SafeAfter(Step(s, ok))
  {
    assert BackedUp(s.disk, s.disk.journals[s.proc.rec.id]);
    JournalKeepsDisk(s.disk, s.proc.rec);
  }

  lemma VerifyConfigKeepsSafe(s: State, ok: bool)
    requires SafeInv(s) && s.proc.VerifyConfig?
    ensures SafeAfter(Step(s, ok))
  {
  }

  lemma VerifyFactoryKeepsSafe(s: State, ok: bool)
    requires SafeInv(s) && s.proc.VerifyFactory?
    ensures SafeAfter(Step(s, ok))
  {
  }

  lemma RestoreKeepsSafe(s: State, ok: bool)
    requires SafeInv(s) && (s.proc.RestoreConfig? || s.proc.RestoreFactory?)
    ensures SafeAfter(Step(s, ok))
  {
    hide DiskInv, Inv, SparesAll;
  }

  lemma CloseKeepsSafe(s: State, ok: bool)
    requires SafeInv(s) && s.proc.Close?
    ensures SafeAfter(Step(s, ok))
  {
    assert BackedUp(s.disk, s.disk.journals[s.proc.rec.id]);
    JournalKeepsDisk(s.disk, s.proc.rec);
  }

  lemma CleanKeepsSafe(s: State, ok: bool)
    requires SafeInv(s) && (s.proc.CleanConfig? || s.proc.CleanFactory?)
    ensures SafeAfter(Step(s, ok))
  {
    UnstageKeepsDisk(s.disk, s.proc.rec.id, if s.proc.CleanConfig? then Config else Factory);
  }

  lemma CheckKeepsSafe(s: State, ok: bool)
    requires SafeInv(s) && (s.proc.CheckDestination? || s.proc.Idle?)
    ensures SafeAfter(Step(s, ok))
  {
  }

  lemma CommitStepKeepsKnowledge(s: State, ok: bool)
    requires SafeInv(s) && !s.proc.Idle? && !s.proc.Scan? && !s.proc.Assessed? && !s.proc.RollConfig?
             && !s.proc.RollFactory? && !s.proc.VerifyConfig? && !s.proc.VerifyFactory?
             && !s.proc.RestoreConfig? && !s.proc.RestoreFactory? && !s.proc.Put?
    ensures SafeAfter(Step(s, ok))
  {
    hide SafeInv, SafeAfter, Step;
    if s.proc.OpenJournal? { OpenJournalKeepsSafe(s, ok);
    } else if s.proc.CheckDestination? { CheckKeepsSafe(s, ok);
    } else if s.proc.CommitConfig? || s.proc.CommitFactory? { CommitGuardKeepsSafe(s, ok);
    } else if s.proc.NoteConfig? || s.proc.NoteFactory? { NoteKeepsSafe(s, ok);
    } else if s.proc.Close? { CloseKeepsSafe(s, ok);
    } else if s.proc.CleanConfig? || s.proc.CleanFactory? { CleanKeepsSafe(s, ok);
    } else if s.proc.BackupConfig? || s.proc.BackupFactory? { BackupKeepsSafe(s, ok);
    } else { StageKeepsSafe(s, ok); }
  }

  lemma StepKeepsKnowledge(s: State, ok: bool)
    requires SafeInv(s)
    ensures SafeAfter(Step(s, ok))
  {
    hide SafeInv, SafeAfter, Step;
    if s.proc.Idle? { CheckKeepsSafe(s, ok);
    } else if s.proc.Scan? { ScanKeepsSafe(s, ok);
    } else if s.proc.Assessed? { AssessedKeepsSafe(s, ok);
    } else if s.proc.RollConfig? || s.proc.RollFactory? { RollKeepsSafe(s, ok);
    } else if s.proc.VerifyConfig? { VerifyConfigKeepsSafe(s, ok);
    } else if s.proc.VerifyFactory? { VerifyFactoryKeepsSafe(s, ok);
    } else if s.proc.RestoreConfig? || s.proc.RestoreFactory? { RestoreKeepsSafe(s, ok);
    } else if s.proc.Put? && s.proc.why.Restoring? { RestorePutKeepsSafe(s, ok);
    } else if s.proc.Put? { ForwardPutKeepsSafe(s, ok);
    } else { CommitStepKeepsKnowledge(s, ok); }
  }

  lemma StepKeepsSafe(s: State, ok: bool)
    requires SafeInv(s)
    ensures SafeInv(Step(s, ok))
  {
    StepKeepsInv(s, ok);
    StepKeepsKnowledge(s, ok);
  }
}
