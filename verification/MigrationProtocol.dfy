/** The port-migration protocol as a state machine over its atomic disk steps.

    A state is the durable disk plus the control point of the one process that holds the
    migration lock. Between any two steps the process may crash (losing its control point)
    and the user may rewrite or remove any file. In particular the guard on a target and the
    rename that replaces it are two steps. Hashes are modelled by the contents themselves. */
module MigrationProtocol {
  import opened Basics

  type Path = string
  type Bytes = string
  type Id = int

  datatype Which = Config | Factory
  datatype Status = InProgress | Completed | RolledBack | Aborted

  datatype Target = Target(path: Path, oldBytes: Bytes, newBytes: Bytes, committed: bool)
  datatype Record = Record(id: Id, status: Status, config: Target, factory: Option<Target>)

  /** A path that is absent from `Disk.files` is a missing file. */
  datatype File = Readable(data: Bytes) | Unreadable

  datatype Disk = Disk(
    files: map<Path, File>,
    staged: map<(Id, Which), Bytes>,
    backups: map<(Id, Which), Bytes>,
    journals: map<Id, Record>)

  datatype Rewrite = Rewrite(path: Path, oldBytes: Bytes, newBytes: Bytes)
  datatype Plan = Plan(configEligible: bool, config: Rewrite, factoryUnsafe: bool, factory: Option<Rewrite>)

  function NewTarget(r: Rewrite): Target { Target(r.path, r.oldBytes, r.newBytes, false) }

  function NewRecord(plan: Plan, id: Id): Record {
    Record(id, InProgress, NewTarget(plan.config),
           if plan.factory.None? then None else Some(NewTarget(plan.factory.value)))
  }

  // ---------- Observing targets ----------

  datatype Assessment = Old | New | Third | Missing | CannotRead

  function Assess(d: Disk, t: Target): Assessment {
    if t.path !in d.files then Missing
    else if d.files[t.path].Unreadable? then CannotRead
    else if d.files[t.path].data == t.oldBytes then Old
    else if d.files[t.path].data == t.newBytes then New
    else Third
  }

  function AssessFactory(d: Disk, rec: Record): Assessment {
    if rec.factory.None? then Old else Assess(d, rec.factory.value)
  }

  /** The guard on committing one target: it holds the old bytes, and the staged bytes are the
      new ones. */
  predicate MayCommit(d: Disk, id: Id, w: Which, t: Target) {
    && t.path in d.files && d.files[t.path] == Readable(t.oldBytes)
    && (id, w) in d.staged && d.staged[(id, w)] == t.newBytes
  }

  /** The guard on restoring a target found in its new state: the backup holds the old bytes. */
  predicate MayRestore(d: Disk, id: Id, w: Which, t: Target) {
    (id, w) in d.backups && d.backups[(id, w)] == t.oldBytes
  }

  function Written(d: Disk, t: Target, bytes: Bytes): Disk {
    d.(files := d.files[t.path := Readable(bytes)])
  }

  // ---------- Control points ----------

  datatype Goal = RecoverOnly | Migrate(plan: Plan, id: Id)
  datatype After = Stop | Resume(todo: seq<Record>, goal: Goal)

  /** Why a target is being written. */
  datatype Why = Rolling(factoryState: Assessment) | Committing | Restoring

  datatype Proc =
    | Idle
    // recovery
    | Scan(todo: seq<Record>, goal: Goal)
    | Assessed(rec: Record, configState: Assessment, todo: seq<Record>, goal: Goal)
    | RollConfig(rec: Record, configState: Assessment, factoryState: Assessment)
    | RollFactory(rec: Record, factoryState: Assessment)
    // commit
    | BackupConfig(rec: Record, eligible: bool)
    | BackupFactory(rec: Record, eligible: bool)
    | StageConfig(rec: Record, eligible: bool)
    | StageFactory(rec: Record)
    | OpenJournal(rec: Record)
    | CheckDestination(rec: Record)
    | CommitConfig(rec: Record)
    | NoteConfig(rec: Record)
    | CommitFactory(rec: Record)
    | NoteFactory(rec: Record)
    // rollback
    | VerifyConfig(rec: Record)
    | VerifyFactory(rec: Record)
    | RestoreConfig(rec: Record)
    | RestoreFactory(rec: Record)
    // the guard on one target has passed, the rename is next
    | Put(rec: Record, which: Which, why: Why)
    // terminal journal write and removal of staged files
    | Close(rec: Record, lenient: bool, after: After)
    | CleanConfig(rec: Record, after: After)
    | CleanFactory(rec: Record, after: After)

  datatype State = State(disk: Disk, proc: Proc)

  function Enter(goal: Goal): Proc {
    match goal
    case RecoverOnly => Idle
    case Migrate(plan, id) =>
      if plan.factoryUnsafe || (!plan.configEligible && plan.factory.None?) then Idle
      else BackupConfig(NewRecord(plan, id), plan.configEligible)
  }

  function Leave(after: After): Proc {
    match after
    case Stop => Idle
    case Resume(todo, goal) => Scan(todo, goal)
  }

  function CommitConfigFlag(rec: Record): Record { rec.(config := rec.config.(committed := true)) }

  function CommitFactoryFlag(rec: Record): Record
    requires rec.factory.Some?
  {
    rec.(factory := Some(rec.factory.value.(committed := true)))
  }

  function AllCommitted(rec: Record): Record {
    var r := CommitConfigFlag(rec);
    if r.factory.Some? then CommitFactoryFlag(r) else r
  }

  function PutJournal(d: Disk, rec: Record): Disk { d.(journals := d.journals[rec.id := rec]) }

  // ---------- Writing one target ----------

  predicate HasTarget(rec: Record, w: Which) { w == Factory ==> rec.factory.Some? }

  function TargetAt(rec: Record, w: Which): Target
    requires HasTarget(rec, w)
  {
    if w == Config then rec.config else rec.factory.value
  }

  /** The bytes that are written, and those that the guard saw. */
  function PutBytes(t: Target, why: Why): Bytes { if why.Restoring? then t.oldBytes else t.newBytes }
  function SeenBytes(t: Target, why: Why): Bytes { if why.Restoring? then t.newBytes else t.oldBytes }

  function AfterRestore(rec: Record, w: Which): Proc {
    if w == Config && rec.factory.Some? then RestoreFactory(rec) else Close(rec.(status := RolledBack), false, Stop)
  }

  function AfterPut(rec: Record, w: Which, why: Why): Proc
    requires HasTarget(rec, w)
  {
    match why
    case Rolling(fs) =>
      if w == Config then RollFactory(CommitConfigFlag(rec), fs)
      else Close(CommitFactoryFlag(rec).(status := Completed), false, Stop)
    case Committing => if w == Config then NoteConfig(CommitConfigFlag(rec)) else NoteFactory(CommitFactoryFlag(rec))
    case Restoring => AfterRestore(rec, w)
  }

  /** What recovery does with a pending record once both targets have been assessed. */
  function Decide(rec: Record, cs: Assessment, fs: Assessment, todo: seq<Record>, goal: Goal): Proc {
    if cs == Old && fs == Old then Close(rec.(status := Aborted), false, Resume(todo, goal))
    else if cs == New && fs == New then Close(AllCommitted(rec).(status := Completed), false, Stop)
    else if cs == Third || fs == Third || cs == Missing || fs == Missing then Idle
    else RollConfig(rec, cs, fs)
  }

  /** One atomic step. `ok` is false when the step's I/O operation fails without effect, or,
      at CheckDestination, when the destination port is refused. */
  function Step(s: State, ok: bool): State {
    var d := s.disk;
    match s.proc
    case Idle => s
    case Scan(todo, goal) =>
      if todo == [] then State(d, Enter(goal))
      else if todo[0].status != InProgress then State(d, Scan(todo[1..], goal))
      else State(d, Assessed(todo[0], Assess(d, todo[0].config), todo[1..], goal))
    case Assessed(rec, cs, todo, goal) => State(d, Decide(rec, cs, AssessFactory(d, rec), todo, goal))
    case RollConfig(rec, cs, fs) =>
      if !rec.config.committed && cs == Old then
        if !MayCommit(d, rec.id, Config, rec.config) || !ok then State(d, Idle)
        else State(d, Put(rec, Config, Rolling(fs)))
      else State(d, RollFactory(rec, fs))
    case RollFactory(rec, fs) =>
      if rec.factory.Some? && !rec.factory.value.committed && fs == Old then
        if !MayCommit(d, rec.id, Factory, rec.factory.value) || !ok then State(d, Idle)
        else State(d, Put(rec, Factory, Rolling(fs)))
      else State(d, Close(rec.(status := Completed), false, Stop))
    case BackupConfig(rec, e) =>
      if rec.config.path !in d.files || !ok then State(d, Idle)
      else State(d.(backups := d.backups[(rec.id, Config) := rec.config.oldBytes]),
                 if rec.factory.Some? then BackupFactory(rec, e) else StageConfig(rec, e))
    case BackupFactory(rec, e) =>
      if rec.factory.None? || rec.factory.value.path !in d.files || !ok then State(d, Idle)
      else State(d.(backups := d.backups[(rec.id, Factory) := rec.factory.value.oldBytes]), StageConfig(rec, e))
    case StageConfig(rec, e) =>
      if !e || !ok then State(d, Idle)
      else State(d.(staged := d.staged[(rec.id, Config) := rec.config.newBytes]),
                 if rec.factory.Some? then StageFactory(rec) else OpenJournal(rec))
    case StageFactory(rec) =>
      if rec.factory.None? || !ok then State(d, Idle)
      else State(d.(staged := d.staged[(rec.id, Factory) := rec.factory.value.newBytes]), OpenJournal(rec))
    case OpenJournal(rec) =>
      if !ok then State(d, Idle) else State(PutJournal(d, rec), CheckDestination(rec))
    case CheckDestination(rec) =>
      if ok then State(d, CommitConfig(rec)) else State(d, Close(rec.(status := Aborted), true, Stop))
    case CommitConfig(rec) =>
      if !MayCommit(d, rec.id, Config, rec.config) || !ok then State(d, Idle)
      else State(d, Put(rec, Config, Committing))
    case NoteConfig(rec) =>
      State(if ok then PutJournal(d, rec) else d,
            if rec.factory.Some? then CommitFactory(rec) else Close(rec.(status := Completed), false, Stop))
    case CommitFactory(rec) =>
      if rec.factory.None? || !MayCommit(d, rec.id, Factory, rec.factory.value) || !ok then State(d, Idle)
      else State(d, Put(rec, Factory, Committing))
    case NoteFactory(rec) =>
      State(if ok then PutJournal(d, rec) else d, Close(rec.(status := Completed), false, Stop))
    case VerifyConfig(rec) =>
      var a := Assess(d, rec.config);
      State(d, if a == Third || a == Missing then Idle
               else if rec.factory.Some? then VerifyFactory(rec) else RestoreConfig(rec))
    case VerifyFactory(rec) =>
      var a := AssessFactory(d, rec);
      State(d, if a == Third || a == Missing then Idle else RestoreConfig(rec))
    case RestoreConfig(rec) =>
      if Assess(d, rec.config) != New then State(d, AfterRestore(rec, Config))
      else if !MayRestore(d, rec.id, Config, rec.config) || !ok then State(d, Idle)
      else State(d, Put(rec, Config, Restoring))
    case RestoreFactory(rec) =>
      if rec.factory.None? then State(d, Idle)
      else if Assess(d, rec.factory.value) != New then State(d, AfterRestore(rec, Factory))
      else if !MayRestore(d, rec.id, Factory, rec.factory.value) || !ok then State(d, Idle)
      else State(d, Put(rec, Factory, Restoring))
    case Put(rec, w, why) =>
      // whatever is on the path by now, also nothing, is replaced
      if !HasTarget(rec, w) || !ok then State(d, Idle)
      else State(Written(d, TargetAt(rec, w), PutBytes(TargetAt(rec, w), why)), AfterPut(rec, w, why))
    case Close(rec, lenient, after) =>
      if ok then State(PutJournal(d, rec), CleanConfig(rec, after))
      else if lenient then State(d, CleanConfig(rec, after))
      else State(d, Idle)
    case CleanConfig(rec, after) =>
      State(if ok then d.(staged := d.staged - {(rec.id, Config)}) else d,
            if rec.factory.Some? then CleanFactory(rec, after) else Leave(after))
    case CleanFactory(rec, after) =>
      State(if ok then d.(staged := d.staged - {(rec.id, Factory)}) else d, Leave(after))
  }

  // ---------- Runs ----------

  datatype Command = DoRecover | DoMigrate(plan: Plan, id: Id) | DoRollback(id: Id)
  datatype Label =
    | Begin(cmd: Command, listing: seq<Record>)
    | Proceed(ok: bool)
    | Crash
    | UserWrite(files: map<Path, File>)

  /** The journal listing that recovery reads: every journal once, in increasing id order. */
  ghost predicate IsListing(d: Disk, todo: seq<Record>) {
    && (forall i :: 0 <= i < |todo| ==> todo[i].id in d.journals && d.journals[todo[i].id] == todo[i])
    && (forall i, j :: 0 <= i < j < |todo| ==> todo[i].id < todo[j].id)
    && (forall id :: id in d.journals ==> d.journals[id] in todo)
  }

  ghost predicate Next(s: State, l: Label, s': State) {
    match l
    case Begin(cmd, listing) =>
      && s.proc == Idle && s'.disk == s.disk
      && (match cmd
          // a journal that cannot be read, parsed or trusted stops the command at once
          case DoRecover => s'.proc == Idle || (IsListing(s.disk, listing) && s'.proc == Scan(listing, RecoverOnly))
          case DoMigrate(plan, id) =>
            // transaction ids are timestamps, never seen before
            && id !in s.disk.journals
            && (s'.proc == Idle || (IsListing(s.disk, listing) && s'.proc == Scan(listing, Migrate(plan, id))))
          case DoRollback(id) =>
            || s'.proc == Idle
            || (id in s.disk.journals && s.disk.journals[id].status == Completed
                && s'.proc == VerifyConfig(s.disk.journals[id])))
    case Proceed(ok) => s' == Step(s, ok)
    case Crash => s' == State(s.disk, Idle)
    case UserWrite(files) => s' == s.(disk := s.disk.(files := files))
  }

  ghost predicate StepAt(run: seq<State>, labels: seq<Label>, i: nat)
    requires |run| == |labels| + 1 && i < |labels|
  {
    Next(run[i], labels[i], run[i + 1])
  }

  ghost predicate IsRun(run: seq<State>, labels: seq<Label>) {
    |run| == |labels| + 1 && forall i :: 0 <= i < |labels| ==> StepAt(run, labels, i)
  }

  /** No journals, nothing running; the files may hold anything. */
  ghost predicate Init(s: State) {
    s.proc == Idle && s.disk.journals == map[]
  }
}
