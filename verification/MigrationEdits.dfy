/** What holds of every run of the migration protocol, whatever the user writes to the
    target files between two steps and wherever the process crashes. */
module MigrationEdits {
  import opened Basics
  import opened MigrationProtocol

  ghost predicate SameTarget(a: Target, b: Target) {
    a.(committed := false) == b.(committed := false)
  }

  /** Two versions of one transaction's journal: only status and commit marks may differ. */
  ghost predicate SameTransaction(a: Record, b: Record) {
    && a.id == b.id && SameTarget(a.config, b.config)
    && a.factory.Some? == b.factory.Some?
    && (a.factory.Some? ==> SameTarget(a.factory.value, b.factory.value))
  }

  ghost predicate BackedUp(d: Disk, rec: Record) {
    && (rec.id, Config) in d.backups && d.backups[(rec.id, Config)] == rec.config.oldBytes
    && (rec.factory.Some? ==>
        (rec.id, Factory) in d.backups && d.backups[(rec.id, Factory)] == rec.factory.value.oldBytes)
  }

  /** `rec` is the journal on disk, up to status and commit marks. */
  ghost predicate Journaled(d: Disk, rec: Record, status: Status) {
    rec.id in d.journals && SameTransaction(rec, d.journals[rec.id]) && d.journals[rec.id].status == status
  }

  /** A snapshot of journals that recovery still has to look at. */
  ghost predicate Snapshot(d: Disk, todo: seq<Record>, goal: Goal) {
    && (forall i :: 0 <= i < |todo| ==> todo[i].id in d.journals && d.journals[todo[i].id] == todo[i])
    && (forall i, j :: 0 <= i < j < |todo| ==> todo[i].id < todo[j].id)
    && (goal.Migrate? ==> goal.id !in d.journals)
  }

  ghost predicate Ahead(id: Id, todo: seq<Record>) {
    forall i :: 0 <= i < |todo| ==> id < todo[i].id
  }

  ghost predicate AfterFits(d: Disk, id: Id, after: After) {
    after.Resume? ==> Snapshot(d, after.todo, after.goal) && Ahead(id, after.todo)
                      && (after.goal.Migrate? ==> after.goal.id != id)
  }

  /** What the control point knows about the journals, in any run. */
  ghost predicate Fits(d: Disk, p: Proc) {
    match p
    case Idle => true
    case Scan(todo, goal) => Snapshot(d, todo, goal)
    case Assessed(rec, _, todo, goal) =>
      && rec.id in d.journals && d.journals[rec.id] == rec && rec.status == InProgress
      && Snapshot(d, todo, goal) && Ahead(rec.id, todo)
    case RollConfig(rec, _, _) => Journaled(d, rec, InProgress)
    case RollFactory(rec, _) => Journaled(d, rec, InProgress)
    case BackupConfig(rec, _) => rec.id !in d.journals && rec.status == InProgress
    case BackupFactory(rec, _) =>
      && rec.id !in d.journals && rec.status == InProgress
      && (rec.id, Config) in d.backups && d.backups[(rec.id, Config)] == rec.config.oldBytes
    case StageConfig(rec, _) => rec.id !in d.journals && rec.status == InProgress && BackedUp(d, rec)
    case StageFactory(rec) => rec.id !in d.journals && rec.status == InProgress && BackedUp(d, rec)
    case OpenJournal(rec) => rec.id !in d.journals && rec.status == InProgress && BackedUp(d, rec)
    case CheckDestination(rec) => Journaled(d, rec, InProgress) && rec.status == InProgress
    case CommitConfig(rec) => Journaled(d, rec, InProgress) && rec.status == InProgress
    case NoteConfig(rec) => Journaled(d, rec, InProgress) && rec.status == InProgress
    case CommitFactory(rec) => Journaled(d, rec, InProgress) && rec.status == InProgress
    case NoteFactory(rec) => Journaled(d, rec, InProgress) && rec.status == InProgress
    case VerifyConfig(rec) => Journaled(d, rec, Completed)
    case VerifyFactory(rec) => Journaled(d, rec, Completed)
    case RestoreConfig(rec) => Journaled(d, rec, Completed)
    case RestoreFactory(rec) => Journaled(d, rec, Completed)
    case Put(rec, w, why) =>
      && HasTarget(rec, w) && Journaled(d, rec, if why.Restoring? then Completed else InProgress)
      && (why.Committing? ==> rec.status == InProgress)
    case Close(rec, _, after) =>
      && Journaled(d, rec, if rec.status == RolledBack then Completed else InProgress)
      && rec.status != InProgress && AfterFits(d, rec.id, after)
    case CleanConfig(rec, after) => AfterFits(d, rec.id, after)
    case CleanFactory(rec, after) => AfterFits(d, rec.id, after)
  }

  /** Every journal is filed under its own id and its backups hold the old bytes. */
  ghost predicate Sane(d: Disk) {
    forall id :: id in d.journals ==> d.journals[id].id == id && BackedUp(d, d.journals[id])
  }

  ghost predicate Inv(s: State) { Sane(s.disk) && Fits(s.disk, s.proc) }

  lemma ScanKeepsInv(s: State, ok: bool)
    requires Inv(s) && (s.proc.Scan? || s.proc.Assessed?)
    ensures Inv(Step(s, ok))
  {
  }

  lemma RollKeepsInv(s: State, ok: bool)
    requires Inv(s) && (s.proc.RollConfig? || s.proc.RollFactory?)
    ensures Inv(Step(s, ok))
  {
  }

  lemma PreparationKeepsInv(s: State, ok: bool)
    requires Inv(s)
    requires s.proc.BackupConfig? || s.proc.BackupFactory? || s.proc.StageConfig? || s.proc.StageFactory?
             || s.proc.OpenJournal? || s.proc.CheckDestination?
    ensures Inv(Step(s, ok))
  {
  }

  lemma CommitKeepsInv(s: State, ok: bool)
    requires Inv(s) && (s.proc.CommitConfig? || s.proc.CommitFactory?)
    ensures Inv(Step(s, ok))
  {
  }

  lemma NoteKeepsInv(s: State, ok: bool)
    requires Inv(s) && (s.proc.NoteConfig? || s.proc.NoteFactory?)
    ensures Inv(Step(s, ok))
  {
  }

  lemma VerifyKeepsInv(s: State, ok: bool)
    requires Inv(s) && (s.proc.VerifyConfig? || s.proc.VerifyFactory?)
    ensures Inv(Step(s, ok))
  {
  }

  lemma RestoreKeepsInv(s: State, ok: bool)
    requires Inv(s) && (s.proc.RestoreConfig? || s.proc.RestoreFactory?)
    ensures Inv(Step(s, ok))
  {
    hide Sane, Assess, MayRestore, Snapshot, Written, PutBytes;
  }

  lemma PutKeepsInv(s: State, ok: bool)
    requires Inv(s) && s.proc.Put?
    ensures Inv(Step(s, ok))
  {
  }

  lemma ClosingKeepsInv(s: State, ok: bool)
    requires Inv(s) && (s.proc.Idle? || s.proc.Close? || s.proc.CleanConfig? || s.proc.CleanFactory?)
    ensures Inv(Step(s, ok))
  {
    hide Assess, MayRestore, MayCommit, Written, PutBytes, Enter;
  }

  lemma StepKeepsInv(s: State, ok: bool)
    requires Inv(s)
    ensures Inv(Step(s, ok))
  {
    if s.proc.Scan? || s.proc.Assessed? { ScanKeepsInv(s, ok);
    } else if s.proc.RollConfig? || s.proc.RollFactory? { RollKeepsInv(s, ok);
    } else if s.proc.CommitConfig? || s.proc.CommitFactory? { CommitKeepsInv(s, ok);
    } else if s.proc.NoteConfig? || s.proc.NoteFactory? { NoteKeepsInv(s, ok);
    } else if s.proc.VerifyConfig? || s.proc.VerifyFactory? { VerifyKeepsInv(s, ok);
    } else if s.proc.RestoreConfig? || s.proc.RestoreFactory? { RestoreKeepsInv(s, ok);
    } else if s.proc.Put? { PutKeepsInv(s, ok);
    } else if s.proc.Idle? || s.proc.Close? || s.proc.CleanConfig? || s.proc.CleanFactory? { ClosingKeepsInv(s, ok);
    } else { PreparationKeepsInv(s, ok); }
  }

  lemma NextKeepsInv(s: State, l: Label, s': State)
    requires Inv(s) && Next(s, l, s')
    ensures Inv(s')
  {
    if l.Proceed? { StepKeepsInv(s, l.ok); }
  }

  lemma {:induction false} RunKeepsInv(run: seq<State>, labels: seq<Label>, k: nat)
    requires IsRun(run, labels) && Inv(run[0]) && k < |run|
    ensures Inv(run[k])
  {
    if k > 0 {
      RunKeepsInv(run, labels, k - 1);
      assert StepAt(run, labels, k - 1);
      NextKeepsInv(run[k - 1], labels[k - 1], run[k]);
    }
  }

  // ---------- Edits ----------

  ghost predicate SameAt(d: Disk, d': Disk, p: Path) {
    (p in d.files <==> p in d'.files) && (p in d.files ==> d'.files[p] == d.files[p])
  }

  ghost predicate HoldsBytes(d: Disk, p: Path, bytes: Bytes) { p in d.files && d.files[p] == Readable(bytes) }

  /** Target `w` of a pending transaction gets its new bytes, or that of a completed one its old
      bytes; no other path changes. */
  ghost predicate TransactionWrite(d: Disk, d': Disk, id: Id, w: Which) {
    && id in d.journals && HasTarget(d.journals[id], w)
    && var t := TargetAt(d.journals[id], w);
       || (d.journals[id].status == InProgress && d'.files == d.files[t.path := Readable(t.newBytes)])
       || (d.journals[id].status == Completed && d'.files == d.files[t.path := Readable(t.oldBytes)])
  }

  /** What is there is the transaction's own: the old bytes of a pending one, the new bytes of
      a completed one. */
  ghost predicate OwnBytes(d: Disk, id: Id, w: Which)
    requires id in d.journals && HasTarget(d.journals[id], w)
  {
    var t := TargetAt(d.journals[id], w);
    HoldsBytes(d, t.path, if d.journals[id].status == InProgress then t.oldBytes else t.newBytes)
  }

  /** Only the write of a target changes a file; everything else the protocol does leaves them
      all alone. */
  lemma OnlyPutChangesFiles(s: State, ok: bool)
    requires Inv(s)
    ensures !(s.proc.Put? && ok) ==> Step(s, ok).disk.files == s.disk.files
    ensures s.proc.Put? && ok ==> TransactionWrite(s.disk, Step(s, ok).disk, s.proc.rec.id, s.proc.which)
  {
  }

  /** A write is reached only through its guard, which saw the transaction's own bytes. */
  lemma GuardSeesOwnBytes(s: State, ok: bool)
    requires Step(s, ok).proc.Put?
    ensures var p := Step(s, ok).proc;
            && Step(s, ok).disk == s.disk && !s.proc.Put? && HasTarget(p.rec, p.which)
            && HoldsBytes(s.disk, TargetAt(p.rec, p.which).path, SeenBytes(TargetAt(p.rec, p.which), p.why))
  {
  }

  /** From `c` on, when the guard of the write at `k` passed, only the user has done anything. */
  ghost predicate Guarded(run: seq<State>, labels: seq<Label>, c: nat, k: nat)
    requires c < k < |run| && |run| == |labels| + 1
  {
    && labels[c].Proceed? && run[c + 1] == State(run[c].disk, run[k].proc)
    && forall j :: c < j < k ==> labels[j].UserWrite? && run[j].proc == run[k].proc
  }

  lemma {:induction false} GuardOfWrite(run: seq<State>, labels: seq<Label>, k: nat) returns (c: nat)
    requires IsRun(run, labels) && Init(run[0]) && k < |run| && run[k].proc.Put?
    ensures c < k && Guarded(run, labels, c, k)
    ensures var p := run[k].proc;
            && HasTarget(p.rec, p.which)
            && HoldsBytes(run[c].disk, TargetAt(p.rec, p.which).path, SeenBytes(TargetAt(p.rec, p.which), p.why))
  {
    hide Step;
    assert StepAt(run, labels, k - 1);
    if labels[k - 1].Proceed? {
      GuardSeesOwnBytes(run[k - 1], labels[k - 1].ok);
      c := k - 1;
    } else {
      c := GuardOfWrite(run, labels, k - 1);
    }
  }

  /** No lost edits, and exactly where one can be lost. In every run, with any user writes and
      any crashes, the only steps that change a file and are not the user's own write one target
      of a transaction, some time after a guard at `c` saw the transaction's own bytes there.
      What the write replaces is still the transaction's own if and only if the user has left
      the path, by the time of the write, as the guard saw it. */
  lemma NoLostEdits(run: seq<State>, labels: seq<Label>, k: nat) returns (c: nat)
    requires IsRun(run, labels) && Init(run[0]) && k < |labels| && !labels[k].UserWrite?
    requires run[k + 1].disk.files != run[k].disk.files
    ensures var d, p := run[k].disk, run[k].proc;
            && p.Put? && TransactionWrite(d, run[k + 1].disk, p.rec.id, p.which)
            && c < k && Guarded(run, labels, c, k)
            && p.rec.id in run[c].disk.journals && HasTarget(run[c].disk.journals[p.rec.id], p.which)
            && OwnBytes(run[c].disk, p.rec.id, p.which)
            && (OwnBytes(d, p.rec.id, p.which) <==>
                SameAt(run[c].disk, d, TargetAt(d.journals[p.rec.id], p.which).path))
  {
    hide Step;
    RunKeepsInv(run, labels, k);
    assert StepAt(run, labels, k);
    assert labels[k].Proceed?;
    OnlyPutChangesFiles(run[k], labels[k].ok);
    c := GuardOfWrite(run, labels, k);
    SameJournals(run, labels, c, k);
  }

  lemma {:induction false} SameJournals(run: seq<State>, labels: seq<Label>, c: nat, k: nat)
    requires IsRun(run, labels) && c < k < |run| && Guarded(run, labels, c, k)
    ensures run[c].disk.journals == run[k].disk.journals
    decreases k
  {
    if c + 1 < k {
      assert StepAt(run, labels, k - 1);
      SameJournals(run, labels, c, k - 1);
    }
  }

  /** If no user write after the guard touches the path, nothing is lost. */
  lemma {:induction false} UntouchedPathIsSafe(run: seq<State>, labels: seq<Label>, c: nat, k: nat, p: Path)
    requires IsRun(run, labels) && c < k < |run| && Guarded(run, labels, c, k)
    requires forall j :: c < j < k ==> SameAt(run[j].disk, run[j + 1].disk, p)
    ensures SameAt(run[c].disk, run[k].disk, p)
    decreases k
  {
    if c + 1 < k { UntouchedPathIsSafe(run, labels, c, k - 1, p); }
  }

  /** The window is real, wherever a guard passes (committing, rolling forward or restoring, config
      or Factory): whatever the user saves on the path between guard and rename is gone after the
      rename, and the command goes on as if nothing had happened. */
  lemma EditInWindowIsLost(s: State, edit: File)
    requires Step(s, true).proc.Put?
    ensures var p := Step(s, true).proc;
            && HasTarget(p.rec, p.which)
            && var t := TargetAt(p.rec, p.which);
               var guarded := State(s.disk, p);
               var edited := guarded.(disk := s.disk.(files := s.disk.files[t.path := edit]));
               var written := State(Written(s.disk, t, PutBytes(t, p.why)), AfterPut(p.rec, p.which, p.why));
               && HoldsBytes(s.disk, t.path, SeenBytes(t, p.why))
               && IsRun([s, guarded, edited, written], [Proceed(true), UserWrite(edited.disk.files), Proceed(true)])
               && HoldsBytes(written.disk, t.path, PutBytes(t, p.why))
               && (edit != Readable(SeenBytes(t, p.why)) ==> !HoldsBytes(edited.disk, t.path, SeenBytes(t, p.why)))
  {
    hide AfterPut, PutBytes, SeenBytes;
    GuardSeesOwnBytes(s, true);
    var p := Step(s, true).proc;
    var t := TargetAt(p.rec, p.which);
    var guarded := State(s.disk, p);
    var edited := guarded.(disk := s.disk.(files := s.disk.files[t.path := edit]));
    var written := State(Written(s.disk, t, PutBytes(t, p.why)), AfterPut(p.rec, p.which, p.why));
    assert edited.disk.files[t.path := Readable(PutBytes(t, p.why))] == written.disk.files;
    assert Next(s, Proceed(true), guarded);
    assert Next(guarded, UserWrite(edited.disk.files), edited);
    assert Next(edited, Proceed(true), written) by { PutWrites(edited, p, t); }
  }

  /** Every guard that passes opens a window. */
  lemma WindowsOpen(d: Disk, rec: Record, w: Which, fs: Assessment)
    requires HasTarget(rec, w)
    ensures var t := TargetAt(rec, w);
            && (MayCommit(d, rec.id, w, t) ==>
                  Step(State(d, if w == Config then CommitConfig(rec) else CommitFactory(rec)), true).proc
                  == Put(rec, w, Committing))
            && (MayCommit(d, rec.id, w, t) && !t.committed && (w == Config || fs == Old) ==>
                  Step(State(d, if w == Config then RollConfig(rec, Old, fs) else RollFactory(rec, fs)), true).proc
                  == Put(rec, w, Rolling(fs)))
            && (Assess(d, t) == New && MayRestore(d, rec.id, w, t) ==>
                  Step(State(d, if w == Config then RestoreConfig(rec) else RestoreFactory(rec)), true).proc
                  == Put(rec, w, Restoring))
  {
  }

  lemma PutWrites(s: State, p: Proc, t: Target)
    requires s.proc == p && p.Put? && HasTarget(p.rec, p.which) && t == TargetAt(p.rec, p.which)
    ensures Step(s, true) == State(Written(s.disk, t, PutBytes(t, p.why)), AfterPut(p.rec, p.which, p.why))
  {
  }

  /** A whole run from nothing in which it happens: a config of one file, edited in the window. */
  lemma ALostEdit() returns (run: seq<State>, labels: seq<Label>, k: nat)
    ensures IsRun(run, labels) && Init(run[0]) && 0 < k < |labels|
    ensures labels[k - 1].UserWrite? && run[k].disk.files == map["config" := Readable("edited")]
    ensures !labels[k].UserWrite? && run[k + 1].disk.files == map["config" := Readable("new")]
  {
    hide Step;
    var plan := Plan(true, Rewrite("config", "old", "new"), false, None);
    var rec := NewRecord(plan, 1);
    var d := Disk(map["config" := Readable("old")], map[], map[], map[]);
    var backed := d.(backups := map[(1, Config) := "old"]);
    var staged := backed.(staged := map[(1, Config) := "new"]);
    var open := staged.(journals := map[1 := rec]);
    var edited := open.(files := map["config" := Readable("edited")]);
    var lost := open.(files := map["config" := Readable("new")]);
    run := [State(d, Idle), State(d, Scan([], Migrate(plan, 1))), State(d, BackupConfig(rec, true)),
            State(backed, StageConfig(rec, true)), State(staged, OpenJournal(rec)), State(open, CheckDestination(rec)),
            State(open, CommitConfig(rec)), State(open, Put(rec, Config, Committing)),
            State(edited, Put(rec, Config, Committing)), State(lost, NoteConfig(CommitConfigFlag(rec)))];
    labels := [Begin(DoMigrate(plan, 1), []), Proceed(true), Proceed(true), Proceed(true), Proceed(true), Proceed(true),
               Proceed(true), UserWrite(edited.files), Proceed(true)];
    k := 8;
    PreparationSteps(plan, rec, d, backed, staged, open);
    CommitSteps(rec, open, edited, lost);
    forall i: nat | i < |labels| ensures StepAt(run, labels, i) {
      if i < 6 {
        assert i == 0 || i == 1 || i == 2 || i == 3 || i == 4 || i == 5;
      } else {
        assert i == 6 || i == 7 || i == 8;
      }
    }
  }

  lemma PreparationSteps(plan: Plan, rec: Record, d: Disk, backed: Disk, staged: Disk, open: Disk)
    requires plan == Plan(true, Rewrite("config", "old", "new"), false, None) && rec == NewRecord(plan, 1)
    requires d == Disk(map["config" := Readable("old")], map[], map[], map[])
    requires backed == d.(backups := map[(1, Config) := "old"])
             && staged == backed.(staged := map[(1, Config) := "new"])
    requires open == staged.(journals := map[1 := rec])
    ensures Step(State(d, Scan([], Migrate(plan, 1))), true) == State(d, BackupConfig(rec, true))
    ensures Step(State(d, BackupConfig(rec, true)), true) == State(backed, StageConfig(rec, true))
    ensures Step(State(backed, StageConfig(rec, true)), true) == State(staged, OpenJournal(rec))
    ensures Step(State(staged, OpenJournal(rec)), true) == State(open, CheckDestination(rec))
    ensures Step(State(open, CheckDestination(rec)), true) == State(open, CommitConfig(rec))
    ensures Step(State(open, CommitConfig(rec)), true) == State(open, Put(rec, Config, Committing))
  {
    assert map[][(1, Config) := "old"] == map[(1, Config) := "old"];
    assert map[][(1, Config) := "new"] == map[(1, Config) := "new"];
    assert map[][1 := rec] == map[1 := rec];
  }

  lemma CommitSteps(rec: Record, open: Disk, edited: Disk, lost: Disk)
    requires rec.config.path == "config" && rec.config.newBytes == "new"
    requires edited == open.(files := map["config" := Readable("edited")])
    requires lost == open.(files := map["config" := Readable("new")])
    ensures Step(State(edited, Put(rec, Config, Committing)), true) == State(lost, NoteConfig(CommitConfigFlag(rec)))
  {
    assert edited.files["config" := Readable("new")] == lost.files;
  }

  /** Journal statuses only move forward, and a transaction's paths and bytes never change. */
  ghost predicate Forward(a: Status, b: Status) {
    a == b || (a == InProgress && b != RolledBack) || (a == Completed && b == RolledBack)
  }

  lemma StepKeepsTransactions(s: State, l: Label, s': State, id: Id)
    requires Inv(s) && Next(s, l, s') && id in s.disk.journals
    ensures id in s'.disk.journals && SameTransaction(s.disk.journals[id], s'.disk.journals[id])
    ensures Forward(s.disk.journals[id].status, s'.disk.journals[id].status)
  {
    if l.Proceed? && s'.disk.journals != s.disk.journals {
      var rec := s.proc.rec;
      assert s'.disk == PutJournal(s.disk, rec);
    }
  }

  /** Over any stretch of any run a journal stays the same transaction, its backups stay
      intact, and its status never goes back. */
  lemma {:induction false} TransactionsAreImmutable(run: seq<State>, labels: seq<Label>, i: nat, k: nat, id: Id)
    requires IsRun(run, labels) && Init(run[0]) && i <= k < |run| && id in run[i].disk.journals
    ensures id in run[k].disk.journals && SameTransaction(run[i].disk.journals[id], run[k].disk.journals[id])
    ensures BackedUp(run[k].disk, run[i].disk.journals[id])
    ensures run[i].disk.journals[id].status in {RolledBack, Aborted} ==>
              run[k].disk.journals[id].status == run[i].disk.journals[id].status
  {
    RunKeepsInv(run, labels, k);
    if i < k {
      TransactionsAreImmutable(run, labels, i, k - 1, id);
      RunKeepsInv(run, labels, k - 1);
      assert StepAt(run, labels, k - 1);
      StepKeepsTransactions(run[k - 1], labels[k - 1], run[k], id);
    }
  }
}
