/** The migration commands as sequential code over the state directory and the target files.

    `Interfere` stands for whatever the user does to the files before the next atomic step, and
    a failing I/O call is a nondeterministic choice. Every command is proved to take exactly
    the steps of the protocol machine: the ghost `run` records each state it passes through. */
module MigrationCommands {
  import opened Basics
  import opened MigrationProtocol
  import opened MigrationEdits
  import opened MigrationSafety
  import opened MigrationDrive

  datatype Outcome = Migrated(id: Id) | Recovered(id: Id) | RolledBackTo | NoOp | Failed

  /** Once every listed journal is settled, nothing is pending. */
  lemma AllSettled(d: Disk, listing: seq<Record>, js: Journals)
    requires IsListing(d, listing) && js.Keys == d.journals.Keys
    requires forall id :: id in d.journals ==> d.journals[id].id == id
    requires forall k :: 0 <= k < |listing| ==> !Pending(js, listing[k].id)
    ensures NonePending(js)
  {
    forall id ensures !Pending(js, id) {
      if id in js { assert d.journals[id] in listing; }
    }
  }

  /** Where the process stands after a journal write; some callers ignore a failed one. */
  function AfterJournal(p: Proc, ok: bool): Proc
    requires p.OpenJournal? || p.NoteConfig? || p.NoteFactory? || p.Close?
  {
    match p
    case OpenJournal(rec) => if ok then CheckDestination(rec) else Idle
    case NoteConfig(rec) =>
      if rec.factory.Some? then CommitFactory(rec) else Close(rec.(status := Completed), false, Stop)
    case NoteFactory(rec) => Close(rec.(status := Completed), false, Stop)
    case Close(rec, lenient, after) => if ok || lenient then CleanConfig(rec, after) else Idle
  }

  /** The closing journal of a split pair rolled forward: what was old and not marked is marked. */
  function Forwarded(rec: Record, configState: Assessment, factoryState: Assessment): Record {
    var r := if !rec.config.committed && configState == Old then CommitConfigFlag(rec) else rec;
    var s := if r.factory.Some? && !r.factory.value.committed && factoryState == Old then CommitFactoryFlag(r) else r;
    s.(status := Completed)
  }

  /** The control points at which target `w` of `rec` is compared before it is committed. */
  predicate MayGuard(p: Proc, rec: Record, w: Which, why: Why)
    requires HasTarget(rec, w)
  {
    match why
    case Committing => p == if w == Config then CommitConfig(rec) else CommitFactory(rec)
    case Rolling(fs) =>
      if w == Config then !rec.config.committed && p == RollConfig(rec, Old, fs)
      else !rec.factory.value.committed && fs == Old && p == RollFactory(rec, fs)
    case Restoring => false
  }

  /** What recovery does to the journals: those that changed were pending and are aborted now, but
      for the one it reports, which is completed. */
  ghost predicate Settles(js: Journals, js': Journals, out: Outcome) {
    && js'.Keys == js.Keys
    && (forall j :: j in js && js'[j] != js[j] ==>
          && Pending(js, j)
          && (js'[j] == js[j].(status := Aborted) || (out == Recovered(j) && js'[j].status == Completed)))
    && (out.Recovered? ==> Pending(js, out.id) && js'[out.id].status == Completed)
  }

  lemma SettlesMore(a: Journals, b: Journals, c: Journals, out: Outcome)
    requires Settles(a, b, NoOp) && Settles(b, c, out)
    ensures Settles(a, c, out)
  {
  }

  /** Some journal has gone from in progress to completed. */
  ghost predicate Completes(js: Journals, js': Journals, id: Id) {
    Pending(js, id) && id in js' && js'[id].status == Completed
  }

  /** From `k` on there are only protocol steps and user writes: no crash, no new command. Unless
      disturbed, every step has succeeded. */
  ghost predicate OnlySteps(labels: seq<Label>, k: nat, disturbed: bool) {
    && k <= |labels| && (forall i :: k <= i < |labels| ==> labels[i].Proceed? || labels[i].UserWrite?)
    && (!disturbed ==> forall i :: k <= i < |labels| ==> labels[i] == Proceed(true))
  }

  // ---------- Single steps of the machine ----------

  lemma GuardStep(d: Disk, p: Proc, rec: Record, w: Which, why: Why, ok: bool)
    requires HasTarget(rec, w) && MayGuard(p, rec, w, why)
    ensures Step(State(d, p), ok) ==
            State(d, if ok && MayCommit(d, rec.id, w, TargetAt(rec, w)) then Put(rec, w, why) else Idle)
  {
  }

  lemma MayCommitMeans(d: Disk, id: Id, w: Which, t: Target)
    ensures MayCommit(d, id, w, t) <==>
            && t.path in d.files && d.files[t.path] == Readable(t.oldBytes)
            && (id, w) in d.staged && d.staged[(id, w)] == t.newBytes
  {
  }

  lemma RestoreStep(d: Disk, p: Proc, rec: Record, w: Which, ok: bool)
    requires HasTarget(rec, w) && p == if w == Config then RestoreConfig(rec) else RestoreFactory(rec)
    ensures Step(State(d, p), ok) ==
            State(d, if Assess(d, TargetAt(rec, w)) != New then AfterRestore(rec, w)
                     else if ok && MayRestore(d, rec.id, w, TargetAt(rec, w)) then Put(rec, w, Restoring) else Idle)
  {
  }

  lemma CleanStep(d: Disk, p: Proc, rec: Record, w: Which, ok: bool)
    requires (if w == Config then p.CleanConfig? else p.CleanFactory?) && p.rec == rec
    ensures Step(State(d, p), ok) ==
            State(if ok then d.(staged := d.staged - {(rec.id, w)}) else d,
                  if w == Config && rec.factory.Some? then CleanFactory(rec, p.after) else Leave(p.after))
  {
  }

  lemma DecideStep(d: Disk, rec: Record, cs: Assessment, fs: Assessment, todo: seq<Record>, goal: Goal)
    requires fs == if rec.factory.Some? then Assess(d, rec.factory.value) else Old
    ensures Step(State(d, Assessed(rec, cs, todo, goal)), true) == State(d, Decide(rec, cs, fs, todo, goal))
  {
  }

  class Migrator {
    var files: map<Path, File>
    var staged: map<(Id, Which), Bytes>
    var backups: map<(Id, Which), Bytes>
    var journals: map<Id, Record>
    ghost var run: seq<State>
    ghost var labels: seq<Label>
    /** Where the labels of the command at hand begin. */
    ghost var begun: nat
    /** Since it began some call has failed, or the user has written. */
    ghost var disturbed: bool

    ghost function Now(): Disk reads this { Disk(files, staged, backups, journals) }

    ghost predicate Recorded() reads `run, `labels, `begun, `disturbed {
      IsRun(run, labels) && Init(run[0]) && OnlySteps(labels, begun, disturbed)
    }

    /** The recorded run is a run of the protocol machine and ends in the present; since the command
        began there were only its steps and user writes. */
    ghost predicate Valid() reads this {
      Recorded() && |run| > 0 && run[|run| - 1].disk == Now()
    }

    /** Since then the command at hand was carried on to here. */
    ghost predicate Worked(r0: seq<State>, l0: seq<Label>, b0: nat, d0: bool)
      reads `run, `labels, `begun, `disturbed
    {
      r0 <= run && l0 <= labels && begun == b0 && (d0 ==> disturbed)
    }

    /** Since `l0`, exactly the command `cmd` was begun and carried on to here. */
    ghost predicate Executed(l0: seq<Label>, cmd: Command) reads `labels, `begun {
      && |l0| < |labels| && l0 <= labels && labels[|l0|].Begin? && labels[|l0|].cmd == cmd
      && begun == |l0| + 1
    }

    /** The command at hand began on disk `d`, with a listing of all journals. */
    ghost predicate Began(d: Disk, goal: Goal) reads `run, `labels, `begun {
      && 0 < begun < |run| && begun <= |labels| && labels[begun - 1].Begin?
      && IsListing(d, labels[begun - 1].listing) && run[begun] == State(d, Scan(labels[begun - 1].listing, goal))
    }

    /** The disk is what driving the command from `d` makes of it. */
    ghost predicate Driven(d: Disk, goal: Goal) reads this {
      exists listing :: IsListing(d, listing) && Now() == Drive(State(d, Scan(listing, goal)))
    }

    /** A command that began on `d` and was not disturbed has done what driving it does. */
    lemma UndisturbedIsDriven(d: Disk, goal: Goal)
      requires Valid() && Began(d, goal) && At() == Idle && !disturbed
      ensures Driven(d, goal)
      ensures NonePending(d.journals) ==> Now() == Drive(State(d, Enter(goal)))
    {
      hide Init;
      var listing := labels[begun - 1].listing;
      UndisturbedRunDrives(run, labels, begun, |run| - 1);
      if NonePending(d.journals) {
        ListedAreFiled(d, listing);
        SettledScanPasses(d, listing, goal);
      }
    }

    lemma ListedAreFiled(d: Disk, listing: seq<Record>)
      requires IsListing(d, listing) && NonePending(d.journals)
      ensures forall i :: 0 <= i < |listing| ==> listing[i].status != InProgress
    {
      forall i | 0 <= i < |listing| ensures listing[i].status != InProgress {
        assert !Pending(d.journals, listing[i].id);
      }
    }

    ghost function At(): Proc
      reads `run
      requires |run| > 0
    {
      run[|run| - 1].proc
    }

    constructor (files: map<Path, File>)
      ensures Valid() && At() == Idle && this.files == files && journals == map[]
    {
      this.files, staged, backups, journals := files, map[], map[], map[];
      run, labels, begun, disturbed := [State(Disk(files, map[], map[], map[]), Idle)], [], 0, false;
    }

    /** A call into the file system, or the check of the destination, which may fail. */
    method Call() returns (ok: bool)
      modifies this`disturbed
      ensures disturbed <==> old(disturbed) || !ok
      ensures old(Recorded()) ==> Recorded()
    {
      ok := *;
      if !ok { disturbed := true; }
    }

    /** A new command: nothing has disturbed it yet. */
    ghost method Start()
      requires Valid()
      modifies this`begun, this`disturbed
      ensures Valid() && begun == |labels| && !disturbed
    {
      begun, disturbed := |labels|, false;
    }

    ghost method Log(l: Label, p: Proc)
      requires Recorded() && |run| > 0 && Next(run[|run| - 1], l, State(Now(), p))
      requires l.Begin? || l.Crash? || l == Proceed(true) || disturbed
      modifies this`run, this`labels, this`begun
      ensures Valid() && At() == p && run == old(run) + [State(Now(), p)] && labels == old(labels) + [l]
      ensures begun == if l.Begin? || l.Crash? then |labels| else old(begun)
    {
      var r, ls := run + [State(Now(), p)], labels + [l];
      forall i: nat | i < |ls| ensures StepAt(r, ls, i) {
        if i < |labels| { assert StepAt(run, labels, i); }
      }
      run, labels := r, ls;
      if l.Begin? || l.Crash? { begun := |labels|; }
    }

    ghost method LogStep(ok: bool, p: Proc)
      requires Recorded() && |run| > 0 && State(Now(), p) == Step(run[|run| - 1], ok) && (ok || disturbed)
      modifies this`run, this`labels, this`begun
      ensures Valid() && At() == p && Worked(old(run), old(labels), old(begun), old(disturbed))
    {
      hide Recorded, Step;
      Log(Proceed(ok), p);
    }

    /** The process dies; its control point is lost. */
    method Crash()
      requires Valid()
      modifies this`run, this`labels, this`begun
      ensures Valid() && At() == Idle && old(run) <= run
    {
      Log(Label.Crash, Idle);
    }

    // Steps that change nothing on disk.

    ghost method PassRecord(todo: seq<Record>, goal: Goal)
      requires Valid() && At() == Scan(todo, goal) && |todo| > 0 && todo[0].status != InProgress
      modifies this`run, this`labels, this`begun
      ensures Valid() && At() == Scan(todo[1..], goal) && Worked(old(run), old(labels), old(begun), old(disturbed))
    {
      Log(Proceed(true), Scan(todo[1..], goal));
    }

    ghost method NoteAssessment(rec: Record, cs: Assessment, todo: seq<Record>, goal: Goal)
      requires Valid() && At() == Scan([rec] + todo, goal) && rec.status == InProgress
               && cs == Assess(Now(), rec.config)
      modifies this`run, this`labels, this`begun
      ensures Valid() && Worked(old(run), old(labels), old(begun), old(disturbed))
      ensures At() == Assessed(rec, cs, todo, goal)
    {
      assert ([rec] + todo)[1..] == todo;
      Log(Proceed(true), Assessed(rec, cs, todo, goal));
    }

    ghost method EndScan(goal: Goal)
      requires Valid() && At() == Scan([], goal)
      modifies this`run, this`labels, this`begun
      ensures Valid() && At() == Enter(goal) && Worked(old(run), old(labels), old(begun), old(disturbed))
    {
      Log(Proceed(true), Enter(goal));
    }

    ghost method DestinationChecked(rec: Record, ok: bool)
      requires Valid() && At() == CheckDestination(rec) && (ok || disturbed)
      modifies this`run, this`labels, this`begun
      ensures Valid() && Worked(old(run), old(labels), old(begun), old(disturbed))
      ensures At() == if ok then CommitConfig(rec) else Close(rec.(status := Aborted), true, Stop)
    {
      Log(Proceed(ok), if ok then CommitConfig(rec) else Close(rec.(status := Aborted), true, Stop));
    }

    method Interfere()
      requires Valid()
      modifies this`files, this`run, this`labels, this`begun, this`disturbed
      ensures Valid() && At() == old(At()) && Worked(old(run), old(labels), old(begun), old(disturbed))
    {
      var writes: bool := *;
      if writes {
        files := *;
        disturbed := true;
        Log(UserWrite(files), At());
      }
    }

    // ---------- Atomic steps ----------

    method WriteJournal(rec: Record) returns (ok: bool)
      requires Valid()
      requires At() == OpenJournal(rec) || At() == NoteConfig(rec) || At() == NoteFactory(rec)
               || (At().Close? && At().rec == rec)
      modifies this
      ensures Valid() && Worked(old(run), old(labels), old(begun), old(disturbed))
      ensures staged == old(staged) && backups == old(backups)
      ensures journals == if ok then old(journals)[rec.id := rec] else old(journals)
      ensures At() == AfterJournal(old(At()), ok)
    {
      Interfere();
      ok := Call();
      if ok { journals := journals[rec.id := rec]; }
      Log(Proceed(ok), AfterJournal(At(), ok));
    }

    method RemoveStaged(rec: Record, w: Which)
      requires Valid() && (if w == Config then At().CleanConfig? else At().CleanFactory?) && At().rec == rec
      modifies this
      ensures Valid() && Worked(old(run), old(labels), old(begun), old(disturbed))
      ensures journals == old(journals) && backups == old(backups)
      ensures At() == if w == Config && rec.factory.Some? then CleanFactory(rec, old(At()).after)
                      else Leave(old(At()).after)
    {
      hide Recorded, Step, Next;
      Interfere();
      var ok := Call();
      CleanStep(Now(), At(), rec, w, ok);
      if ok { staged := staged - {(rec.id, w)}; }
      LogStep(ok, if w == Config && rec.factory.Some? then CleanFactory(rec, At().after) else Leave(At().after));
    }

    /** Write the old bytes of one target as its immutable backup. */
    method WriteBackup(rec: Record, w: Which, eligible: bool) returns (ok: bool)
      requires Valid() && HasTarget(rec, w)
      requires At() == if w == Config then BackupConfig(rec, eligible) else BackupFactory(rec, eligible)
      modifies this
      ensures Valid() && Worked(old(run), old(labels), old(begun), old(disturbed))
      ensures journals == old(journals) && staged == old(staged)
      ensures !ok ==> At() == Idle
      ensures ok ==> At() == if w == Config && rec.factory.Some? then BackupFactory(rec, eligible)
                             else StageConfig(rec, eligible)
      ensures ok ==> backups == old(backups)[(rec.id, w) := TargetAt(rec, w).oldBytes]
    {
      Interfere();
      var t := TargetAt(rec, w);
      var written := Call();
      ok := written && t.path in files;
      ghost var before := State(Now(), At());
      if ok { backups := backups[(rec.id, w) := t.oldBytes]; }
      Log(Proceed(written), Step(before, written).proc);
    }

    /** Write the new bytes of one target next to its backup. */
    method WriteStaged(rec: Record, w: Which, eligible: bool) returns (ok: bool)
      requires Valid() && HasTarget(rec, w)
      requires At() == if w == Config then StageConfig(rec, eligible) else StageFactory(rec)
      modifies this
      ensures Valid() && Worked(old(run), old(labels), old(begun), old(disturbed))
      ensures journals == old(journals) && backups == old(backups)
      ensures !ok ==> At() == Idle
      ensures ok ==> At() == if w == Config && rec.factory.Some? then StageFactory(rec) else OpenJournal(rec)
      ensures ok ==> (w == Config ==> eligible) && staged == old(staged)[(rec.id, w) := TargetAt(rec, w).newBytes]
    {
      Interfere();
      var t := TargetAt(rec, w);
      var written := Call();
      ok := written && (w == Config ==> eligible);
      ghost var before := State(Now(), At());
      if ok { staged := staged[(rec.id, w) := t.newBytes]; }
      Log(Proceed(written), Step(before, written).proc);
    }

    /** The guard on one target: it holds the planned bytes, and the staged ones verify. */
    method CheckTarget(rec: Record, w: Which, why: Why) returns (ok: bool)
      requires Valid() && HasTarget(rec, w) && MayGuard(At(), rec, w, why)
      modifies this`files, this`run, this`labels, this`begun, this`disturbed
      ensures Valid() && Worked(old(run), old(labels), old(begun), old(disturbed))
      ensures At() == if ok then Put(rec, w, why) else Idle
      ensures ok ==> MayCommit(Now(), rec.id, w, TargetAt(rec, w))
    {
      hide Recorded, Step, Next, Assess, MayCommit;
      Interfere();
      var t := TargetAt(rec, w);
      var readable := Call();
      ok := && readable
            && t.path in files && files[t.path] == Readable(t.oldBytes)
            && (rec.id, w) in staged && staged[(rec.id, w)] == t.newBytes;
      GuardStep(Now(), At(), rec, w, why, readable);
      assert MayCommit(Now(), rec.id, w, t) <==>
          && t.path in files && files[t.path] == Readable(t.oldBytes)
          && (rec.id, w) in staged && staged[(rec.id, w)] == t.newBytes by {
        MayCommitMeans(Now(), rec.id, w, t);
      }
      LogStep(readable, if ok then Put(rec, w, why) else Idle);
    }

    /** The rename that follows the guard, after whatever the user has done in between. */
    method WriteTarget(rec: Record, w: Which, why: Why) returns (ok: bool)
      requires Valid() && HasTarget(rec, w) && At() == Put(rec, w, why)
      modifies this`files, this`run, this`labels, this`begun, this`disturbed
      ensures Valid() && Worked(old(run), old(labels), old(begun), old(disturbed))
      ensures At() == if ok then AfterPut(rec, w, why) else Idle
      ensures ok ==> HoldsBytes(Now(), TargetAt(rec, w).path, PutBytes(TargetAt(rec, w), why))
    {
      Interfere();
      ok := Call();
      var t := TargetAt(rec, w);
      if ok { files := files[t.path := Readable(PutBytes(t, why))]; }
      Log(Proceed(ok), if ok then AfterPut(rec, w, why) else Idle);
    }

    /** Commit one target of a new transaction. */
    method Commit(rec: Record, w: Which) returns (ok: bool)
      requires Valid() && HasTarget(rec, w)
      requires At() == if w == Config then CommitConfig(rec) else CommitFactory(rec)
      modifies this`files, this`run, this`labels, this`begun, this`disturbed
      ensures Valid() && Worked(old(run), old(labels), old(begun), old(disturbed))
      ensures ok ==> AtNew(Now(), TargetAt(rec, w))
      ensures At() == if ok then AfterPut(rec, w, Committing) else Idle
    {
      hide Recorded, MayCommit;
      ok := CheckTarget(rec, w, Committing);
      if ok { ok := WriteTarget(rec, w, Committing); }
    }

    /** Commit the config during recovery, unless it is marked or found committed. */
    method RollConfigForward(rec: Record, configState: Assessment, factoryState: Assessment)
        returns (ok: bool, marked: Record)
      requires Valid() && At() == RollConfig(rec, configState, factoryState)
      modifies this`files, this`run, this`labels, this`begun, this`disturbed
      ensures Valid() && Worked(old(run), old(labels), old(begun), old(disturbed))
      ensures At() == if ok then RollFactory(marked, factoryState) else Idle
      ensures marked == if !rec.config.committed && configState == Old then CommitConfigFlag(rec) else rec
    {
      marked := rec;
      ok := true;
      if !rec.config.committed && configState == Old {
        marked := CommitConfigFlag(rec);
        ok := CheckTarget(rec, Config, Rolling(factoryState));
        if ok { ok := WriteTarget(rec, Config, Rolling(factoryState)); }
      } else {
        Log(Proceed(true), RollFactory(rec, factoryState));
      }
    }

    method RollFactoryForward(rec: Record, factoryState: Assessment) returns (ok: bool, marked: Record)
      requires Valid() && At() == RollFactory(rec, factoryState)
      modifies this`files, this`run, this`labels, this`begun, this`disturbed
      ensures Valid() && Worked(old(run), old(labels), old(begun), old(disturbed))
      ensures At() == if ok then Close(marked.(status := Completed), false, Stop) else Idle
      ensures marked == if rec.factory.Some? && !rec.factory.value.committed && factoryState == Old
                        then CommitFactoryFlag(rec) else rec
    {
      marked := rec;
      ok := true;
      if rec.factory.Some? && !rec.factory.value.committed && factoryState == Old {
        marked := CommitFactoryFlag(rec);
        ok := CheckTarget(rec, Factory, Rolling(factoryState));
        if ok { ok := WriteTarget(rec, Factory, Rolling(factoryState)); }
      } else {
        Log(Proceed(true), Close(rec.(status := Completed), false, Stop));
      }
    }

    /** The guard on restoring: the target is in its new state, and the backup verifies. */
    method CheckBackup(rec: Record, w: Which) returns (state: Assessment, ok: bool)
      requires Valid() && HasTarget(rec, w)
      requires At() == if w == Config then RestoreConfig(rec) else RestoreFactory(rec)
      modifies this`files, this`run, this`labels, this`begun, this`disturbed
      ensures Valid() && Worked(old(run), old(labels), old(begun), old(disturbed))
      ensures state == Assess(Now(), TargetAt(rec, w))
      ensures At() == if state != New then AfterRestore(rec, w) else if ok then Put(rec, w, Restoring) else Idle
    {
      hide Recorded, Step, Next, MayCommit;
      Interfere();
      var t := TargetAt(rec, w);
      state := AssessTarget(t);
      var readable := true;
      if state == New { readable := Call(); }
      ok := readable && (rec.id, w) in backups && backups[(rec.id, w)] == t.oldBytes;
      RestoreStep(Now(), At(), rec, w, readable);
      LogStep(readable, if state != New then AfterRestore(rec, w) else if ok then Put(rec, w, Restoring) else Idle);
    }

    /** Put one target back to its backed-up bytes if it is in its new state. */
    method Restore(rec: Record, w: Which) returns (ok: bool)
      requires Valid() && HasTarget(rec, w)
      requires At() == if w == Config then RestoreConfig(rec) else RestoreFactory(rec)
      modifies this`files, this`run, this`labels, this`begun, this`disturbed
      ensures Valid() && Worked(old(run), old(labels), old(begun), old(disturbed))
      ensures At() == if ok then AfterRestore(rec, w) else Idle
      ensures ok ==> AtOld(Now(), TargetAt(rec, w)) || Assess(Now(), TargetAt(rec, w)) != New
    {
      hide Recorded, AfterRestore;
      var state;
      state, ok := CheckBackup(rec, w);
      if state != New { return true; }
      if ok {
        ok := WriteTarget(rec, w, Restoring);
        assert AfterPut(rec, w, Restoring) == AfterRestore(rec, w);
      }
    }

    /** Compare a target with the transaction's old and new bytes. */
    method AssessTarget(t: Target) returns (a: Assessment)
      ensures a == Assess(Now(), t)
    {
      if t.path !in files { return Missing; }
      if files[t.path].Unreadable? { return CannotRead; }
      if files[t.path].data == t.oldBytes { return Old; }
      if files[t.path].data == t.newBytes { return New; }
      return Third;
    }

    // ---------- Recovery ----------

    /** All journals, oldest first; None if one of them cannot be read, parsed or trusted. */
    method ListJournals() returns (listing: Option<seq<Record>>)
      requires Valid()
      modifies this`disturbed
      ensures Valid()
      ensures if listing.Some? then IsListing(Now(), listing.value) && disturbed == old(disturbed) else disturbed
    {
      FiledUnderOwnId();
      var records: seq<Record> := [];
      var rest := journals.Keys;
      while rest != {}
        invariant rest <= journals.Keys && Valid() && disturbed == old(disturbed)
        invariant forall i :: 0 <= i < |records| ==> records[i].id in journals && journals[records[i].id] == records[i]
        invariant forall i, j :: 0 <= i < j < |records| ==> records[i].id < records[j].id
        invariant forall i, id :: 0 <= i < |records| && id in rest ==> records[i].id < id
        invariant forall id :: id in journals && id !in rest ==> journals[id] in records
        decreases rest
      {
        ghost var some := Member(rest);
        ghost var least := MinimumExists(rest, some);
        var id: Id :| id in rest && forall j :: j in rest ==> id <= j;
        var readable := Call();
        if !readable { return None; }
        records := records + [journals[id]];
        rest := rest - {id};
      }
      listing := Some(records);
    }

    lemma FiledUnderOwnId()
      requires Valid()
      ensures forall id :: id in journals ==> journals[id].id == id
    {
      RunKeepsInv(run, labels, |run| - 1);
    }

    method CleanupStagedFiles(rec: Record, ghost after: After)
      requires Valid() && At() == CleanConfig(rec, after)
      modifies this
      ensures Valid() && Worked(old(run), old(labels), old(begun), old(disturbed))
      ensures journals == old(journals) && backups == old(backups)
      ensures At() == Leave(after)
    {
      RemoveStaged(rec, Config);
      if rec.factory.Some? { RemoveStaged(rec, Factory); }
    }

    /** Write the closing journal entry, then drop the staged files. */
    method CloseTransaction(rec: Record, ghost after: After) returns (ok: bool)
      requires Valid() && At() == Close(rec, false, after)
      modifies this
      ensures Valid() && Worked(old(run), old(labels), old(begun), old(disturbed))
      ensures journals == if ok then old(journals)[rec.id := rec] else old(journals)
      ensures At() == if ok then Leave(after) else Idle
    {
      ok := WriteJournal(rec);
      if ok { CleanupStagedFiles(rec, after); }
    }

    method AssessBoth(rec: Record, ghost todo: seq<Record>, ghost goal: Goal)
      returns (configState: Assessment, factoryState: Assessment)
      requires Valid() && At() == Scan([rec] + todo, goal) && rec.status == InProgress
      modifies this`files, this`run, this`labels, this`begun, this`disturbed
      ensures Valid() && Worked(old(run), old(labels), old(begun), old(disturbed))
      ensures At() == Decide(rec, configState, factoryState, todo, goal)
    {
      hide Recorded, Step, Next, Assess, Decide;
      Interfere();
      configState := AssessTarget(rec.config);
      NoteAssessment(rec, configState, todo, goal);
      Interfere();
      factoryState := Old;
      if rec.factory.Some? { factoryState := AssessTarget(rec.factory.value); }
      DecideStep(Now(), rec, configState, factoryState, todo, goal);
      LogStep(true, Decide(rec, configState, factoryState, todo, goal));
    }

    /** Bring one pending transaction to a coherent end. `NoOp` means it was aborted with both
        targets old; `Recovered` means its journal now says completed. */
    method RecoverOne(rec: Record, ghost todo: seq<Record>, ghost goal: Goal) returns (out: Outcome)
      requires Valid() && At() == Scan([rec] + todo, goal) && rec.status == InProgress
      modifies this
      ensures Valid() && Worked(old(run), old(labels), old(begun), old(disturbed))
      ensures out == NoOp || out == Recovered(rec.id) || out == Failed
      ensures out == NoOp ==> At() == Scan(todo, goal) && journals == old(journals)[rec.id := rec.(status := Aborted)]
      ensures out != NoOp ==> At() == Idle
      ensures out.Recovered? ==>
                && rec.id in journals && journals[rec.id].status == Completed
                && journals == old(journals)[rec.id := journals[rec.id]]
      ensures out == Failed ==> journals == old(journals)
    {
      var configState, factoryState := AssessBoth(rec, todo, goal);
      if configState == Old && factoryState == Old {
        var ok := CloseTransaction(rec.(status := Aborted), Resume(todo, goal));
        return if ok then NoOp else Failed;
      }
      if configState == New && factoryState == New {
        var ok := CloseTransaction(AllCommitted(rec).(status := Completed), Stop);
        return if ok then Recovered(rec.id) else Failed;
      }
      if configState in {Third, Missing} || factoryState in {Third, Missing} {
        return Failed;
      }
      out := RecoverSplitForward(rec, configState, factoryState);
    }

    /** Commits the targets that were found old and not marked, config first, and no others. */
    method RecoverSplitForward(rec: Record, configState: Assessment, factoryState: Assessment) returns (out: Outcome)
      requires Valid() && At() == RollConfig(rec, configState, factoryState)
      modifies this
      ensures Valid() && Worked(old(run), old(labels), old(begun), old(disturbed))
      ensures At() == Idle && (out == Recovered(rec.id) || out == Failed)
      ensures out.Recovered? ==> journals == old(journals)[rec.id := Forwarded(rec, configState, factoryState)]
      ensures out == Failed ==> journals == old(journals)
    {
      var ok, r := RollConfigForward(rec, configState, factoryState);
      if !ok { return Failed; }
      ok, r := RollFactoryForward(r, factoryState);
      if !ok { return Failed; }
      ok := CloseTransaction(r.(status := Completed), Stop);
      out := if ok then Recovered(rec.id) else Failed;
    }

    /** Walk the journals, recovering pending transactions, up to the first one completed. */
    method RecoverRecords(records: seq<Record>, ghost goal: Goal) returns (out: Outcome)
      requires Valid() && At() == Scan(records, goal)
      requires forall k :: 0 <= k < |records| ==> records[k].id in journals && journals[records[k].id] == records[k]
      requires forall j, k :: 0 <= j < k < |records| ==> records[j].id < records[k].id
      modifies this
      ensures Valid() && Worked(old(run), old(labels), old(begun), old(disturbed))
      ensures out == NoOp || out == Failed || out.Recovered?
      ensures At() == if out == NoOp then Enter(goal) else Idle
      ensures out == NoOp ==> forall k :: 0 <= k < |records| ==> !Pending(journals, records[k].id)
      ensures out == Failed ==> !NonePending(journals)
      ensures Settles(old(journals), journals, out)
    {
      hide Recorded;
      var i := 0;
      while i < |records|
        invariant 0 <= i <= |records| && Valid() && Worked(old(run), old(labels), old(begun), old(disturbed))
        invariant At() == Scan(records[i..], goal) && Settles(old(journals), journals, NoOp)
        invariant forall k :: i <= k < |records| ==> records[k].id in journals && journals[records[k].id] == records[k]
        invariant forall k :: 0 <= k < i ==> !Pending(journals, records[k].id)
      {
        ghost var js := journals;
        out := RecoverNext(records, i, goal);
        SettlesMore(old(journals), js, journals, out);
        if out != NoOp { return; }
        i := i + 1;
      }
      assert records[i..] == [];
      EndScan(goal);
      out := NoOp;
    }

    /** Recover every pending transaction; `cmd` is the command this recovery belongs to. */
    method RecoverIncompleteLocked(ghost cmd: Command, ghost goal: Goal) returns (out: Outcome)
      requires Valid() && At() == Idle
      requires (cmd == DoRecover && goal == RecoverOnly)
               || (cmd.DoMigrate? && goal == Migrate(cmd.plan, cmd.id) && cmd.id !in journals)
      modifies this
      ensures Valid() && old(run) <= run && Executed(old(labels), cmd)
              && (out == NoOp || out == Failed || out.Recovered?)
      ensures At() == if out == NoOp then Enter(goal) else Idle
      ensures out == NoOp ==> NonePending(journals)
      ensures out == Failed ==> disturbed || !NonePending(journals)
      ensures Settles(old(journals), journals, out)
      ensures !disturbed ==> Began(old(Now()), goal)
    {
      FiledUnderOwnId();
      Start();
      var listing := ListJournals();
      if listing.None? {
        Log(Begin(cmd, []), Idle);
        return Failed;
      }
      var records := listing.value;
      ghost var d := Now();
      Log(Begin(cmd, records), Scan(records, goal));
      out := RecoverRecords(records, goal);
      if out == NoOp { AllSettled(d, records, journals); }
    }

    method RecoverNext(records: seq<Record>, i: nat, ghost goal: Goal) returns (out: Outcome)
      requires i < |records| && Valid() && At() == Scan(records[i..], goal)
      requires records[i].id in journals && journals[records[i].id] == records[i]
      modifies this
      ensures Valid() && Worked(old(run), old(labels), old(begun), old(disturbed))
              && (out == NoOp || out == Failed || out == Recovered(records[i].id))
      ensures At() == if out == NoOp then Scan(records[i + 1..], goal) else Idle
      ensures out == NoOp ==> !Pending(journals, records[i].id)
      ensures out == Failed ==> Pending(journals, records[i].id)
      ensures Settles(old(journals), journals, out)
      ensures records[i].id in journals && journals == old(journals)[records[i].id := journals[records[i].id]]
    {
      assert records[i..] == [records[i]] + records[i + 1..];
      if records[i].status != InProgress {
        assert records[i..][1..] == records[i + 1..];
        PassRecord(records[i..], goal);
        return NoOp;
      }
      out := RecoverOne(records[i], records[i + 1..], goal);
    }

    method RecoverIncomplete() returns (out: Outcome)
      requires Valid() && At() == Idle
      modifies this
      ensures Valid() && old(run) <= run && Executed(old(labels), DoRecover) && At() == Idle
              && (out == NoOp || out == Failed || out.Recovered?)
      ensures out == NoOp ==> NonePending(journals)
      ensures out == Failed ==> disturbed || !NonePending(journals)
      ensures forall i :: out == Recovered(i) <==> Completes(old(journals), journals, i)
      ensures Settles(old(journals), journals, out)
      ensures !disturbed ==> Driven(old(Now()), RecoverOnly)
    {
      hide Recorded, Next, Step, IsListing, NonePending, Driven;
      out := RecoverIncompleteLocked(DoRecover, RecoverOnly);
      if !disturbed { UndisturbedIsDriven(old(Now()), RecoverOnly); }
    }

    // ---------- Commit ----------

    /** Recover what is pending, then back up, stage, journal, commit both targets and mark the
        transaction complete. The three journal writes whose errors the code ignores may fail
        without stopping it. The answer says what was done; and if no call fails and the user does
        not write, the disk is what driving the command makes of it, so that with nothing pending
        the migration is carried out if and only if its plan is current. */
    method CommitTransaction(plan: Plan, id: Id) returns (out: Outcome)
      requires Valid() && At() == Idle && id !in journals
      modifies this
      ensures Valid() && old(run) <= run && Executed(old(labels), DoMigrate(plan, id)) && At() == Idle
      ensures out == Migrated(id) || out == NoOp || out == Failed || out.Recovered?
      ensures out == Migrated(id) <==> id in journals && journals[id].status == Completed
      ensures forall i :: out == Recovered(i) <==> Completes(old(journals), journals, i)
      ensures out == Migrated(id) ==>
                && plan.configEligible && !plan.factoryUnsafe
                && SameTransaction(NewRecord(plan, id), journals[id])
      ensures out == NoOp ==>
                !plan.configEligible && plan.factory.None? && !plan.factoryUnsafe && NonePending(journals)
      ensures out == Failed ==>
                disturbed || !NonePending(journals) || plan.factoryUnsafe || plan.configEligible || plan.factory.Some?
      ensures !disturbed ==> Driven(old(Now()), Migrate(plan, id))
      ensures !disturbed && NonePending(old(journals)) ==> Now() == Drive(State(old(Now()), Enter(Migrate(plan, id))))
      ensures !disturbed && NonePending(old(journals)) && Applies(plan) ==>
                (out == Migrated(id) <==> Fresh(old(Now()), plan))
    {
      hide Recorded, Next, Step, IsListing, NonePending, Driven, Staged, BackedUp, Fresh, Drive;
      out := RecoverIncompleteLocked(DoMigrate(plan, id), Migrate(plan, id));
      ghost var js := journals;
      if out == NoOp { out := MigrateNow(plan, id); }
      if !disturbed { UndisturbedIsDriven(old(Now()), Migrate(plan, id)); }
      if Applies(plan) { MigrationCompletesIffPlanIsCurrent(old(Now()), plan, id); }
      assert forall i :: Completes(old(journals), journals, i) ==> i != id;
    }

    /** The new transaction, once nothing is pending. */
    method MigrateNow(plan: Plan, id: Id) returns (out: Outcome)
      requires Valid() && id !in journals && At() == Enter(Migrate(plan, id))
      modifies this
      ensures Valid() && Worked(old(run), old(labels), old(begun), old(disturbed)) && At() == Idle
      ensures out == Migrated(id) || out == NoOp || out == Failed
      ensures out == Migrated(id) <==> id in journals && journals[id].status == Completed
      ensures out == Migrated(id) ==>
                plan.configEligible && !plan.factoryUnsafe && SameTransaction(NewRecord(plan, id), journals[id])
      ensures out == NoOp <==> !plan.configEligible && plan.factory.None? && !plan.factoryUnsafe
      ensures out == NoOp ==> journals == old(journals)
      ensures forall j :: j in old(journals) ==> j in journals && journals[j] == old(journals)[j]
    {
      hide Recorded, Next, Step, Staged, BackedUp;
      if (!plan.configEligible && plan.factory.None?) || plan.factoryUnsafe {
        return if plan.factoryUnsafe then Failed else NoOp;
      }
      var rec := NewRecord(plan, id);
      var ok := Prepare(rec, plan.configEligible);
      if !ok { return Failed; }
      ok := CheckAndCommit(rec);
      out := if ok then Migrated(id) else Failed;
    }

    /** The journal of `rec` is still in progress, and no other journal has changed since `js`. */
    ghost predicate Ongoing(js: Journals, rec: Record) reads this {
      && rec.id in js && rec.id in journals && journals[rec.id].status == InProgress
      && SameTransaction(rec, journals[rec.id]) && journals == js[rec.id := journals[rec.id]]
    }

    /** Check the destination, commit both targets in order, and mark the journal completed. */
    method CheckAndCommit(rec: Record) returns (done: bool)
      requires Valid() && At() == CheckDestination(rec) && rec.status == InProgress && Ongoing(journals, rec)
      modifies this
      ensures Valid() && Worked(old(run), old(labels), old(begun), old(disturbed)) && At() == Idle
      ensures rec.id in journals && SameTransaction(rec, journals[rec.id])
              && journals == old(journals)[rec.id := journals[rec.id]]
      ensures done <==> journals[rec.id].status == Completed
    {
      hide Recorded, Next, Step, AllCommitted;
      Interfere();
      var ok := Call();
      DestinationChecked(rec, ok);
      if !ok {
        AbortRefused(rec.(status := Aborted));
        return false;
      }
      done := CommitAndClose(rec);
    }

    method CommitAndClose(rec: Record) returns (done: bool)
      requires Valid() && At() == CommitConfig(rec) && rec.status == InProgress && Ongoing(journals, rec)
      modifies this
      ensures Valid() && Worked(old(run), old(labels), old(begun), old(disturbed)) && At() == Idle
      ensures rec.id in journals && SameTransaction(rec, journals[rec.id])
              && journals == old(journals)[rec.id := journals[rec.id]]
      ensures done <==> journals[rec.id].status == Completed
    {
      hide Recorded, Next, Step, AllCommitted;
      var ok, marked := CommitBoth(rec);
      if !ok { return false; }
      done := CloseTransaction(marked.(status := Completed), Stop);
    }

    /** A refused destination: keep the journal as aborted if it can be written. */
    method AbortRefused(rec: Record)
      requires Valid() && At() == Close(rec, true, Stop)
      modifies this
      ensures Valid() && Worked(old(run), old(labels), old(begun), old(disturbed)) && At() == Idle
      ensures journals == old(journals) || journals == old(journals)[rec.id := rec]
    {
      var _ := WriteJournal(rec);
      CleanupStagedFiles(rec, Stop);
    }

    /** Commit one target and note that in the journal; the note may fail. */
    method CommitAndNote(rec: Record, w: Which) returns (ok: bool, marked: Record)
      requires Valid() && HasTarget(rec, w)
      requires At() == if w == Config then CommitConfig(rec) else CommitFactory(rec)
      modifies this
      ensures Valid() && Worked(old(run), old(labels), old(begun), old(disturbed))
      ensures marked == if !ok then rec else if w == Config then CommitConfigFlag(rec) else CommitFactoryFlag(rec)
      ensures At() == if !ok then Idle
                      else if w == Config && rec.factory.Some? then CommitFactory(marked)
                      else Close(marked.(status := Completed), false, Stop)
      ensures journals == old(journals) || journals == old(journals)[rec.id := marked]
    {
      hide Recorded, MayCommit, AtNew;
      marked := rec;
      ok := Commit(rec, w);
      if !ok { return; }
      marked := if w == Config then CommitConfigFlag(rec) else CommitFactoryFlag(rec);
      var _ := WriteJournal(marked);
    }

    /** Commit config, then Factory. */
    method CommitBoth(rec: Record) returns (ok: bool, marked: Record)
      requires Valid() && At() == CommitConfig(rec) && rec.status == InProgress && Ongoing(journals, rec)
      modifies this
      ensures Valid() && Worked(old(run), old(labels), old(begun), old(disturbed)) && SameTransaction(rec, marked)
      ensures ok ==> marked == AllCommitted(rec)
      ensures At() == if ok then Close(marked.(status := Completed), false, Stop) else Idle
      ensures Ongoing(old(journals), rec)
    {
      hide Recorded;
      ok, marked := CommitAndNote(rec, Config);
      if ok && marked.factory.Some? { ok, marked := CommitAndNote(marked, Factory); }
    }

    /** Backups, staged files and the initial journal. */
    method Prepare(rec: Record, eligible: bool) returns (ok: bool)
      requires Valid() && At() == BackupConfig(rec, eligible)
      modifies this
      ensures Valid() && Worked(old(run), old(labels), old(begun), old(disturbed))
      ensures !ok ==> At() == Idle && journals == old(journals)
      ensures ok ==> eligible && At() == CheckDestination(rec) && journals == old(journals)[rec.id := rec]
                     && BackedUp(Now(), rec) && Staged(Now(), rec)
    {
      ok := BackUpAll(rec, eligible);
      if !ok { return; }
      ok := StageAll(rec, eligible);
      if !ok { return; }
      ok := WriteJournal(rec);
    }

    method BackUpAll(rec: Record, eligible: bool) returns (ok: bool)
      requires Valid() && At() == BackupConfig(rec, eligible)
      modifies this
      ensures Valid() && Worked(old(run), old(labels), old(begun), old(disturbed)) && journals == old(journals)
      ensures At() == if ok then StageConfig(rec, eligible) else Idle
      ensures ok ==> BackedUp(Now(), rec)
    {
      ok := WriteBackup(rec, Config, eligible);
      if ok && rec.factory.Some? { ok := WriteBackup(rec, Factory, eligible); }
    }

    method StageAll(rec: Record, eligible: bool) returns (ok: bool)
      requires Valid() && At() == StageConfig(rec, eligible)
      modifies this
      ensures Valid() && Worked(old(run), old(labels), old(begun), old(disturbed))
      ensures journals == old(journals) && backups == old(backups)
      ensures At() == if ok then OpenJournal(rec) else Idle
      ensures ok ==> eligible && Staged(Now(), rec)
    {
      ok := WriteStaged(rec, Config, eligible);
      if ok && rec.factory.Some? { ok := WriteStaged(rec, Factory, eligible); }
    }

    // ---------- Rollback ----------

    /** Check that a target is there and holds either its old or its new bytes. */
    method Verify(rec: Record, w: Which) returns (intact: bool)
      requires Valid() && HasTarget(rec, w)
      requires At() == if w == Config then VerifyConfig(rec) else VerifyFactory(rec)
      modifies this`files, this`run, this`labels, this`begun, this`disturbed
      ensures Valid() && Worked(old(run), old(labels), old(begun), old(disturbed))
      ensures At() == if !intact then Idle
                      else if w == Config && rec.factory.Some? then VerifyFactory(rec) else RestoreConfig(rec)
    {
      Interfere();
      var state := AssessTarget(TargetAt(rec, w));
      intact := state != Third && state != Missing;
      Log(Proceed(true), if !intact then Idle
                         else if w == Config && rec.factory.Some? then VerifyFactory(rec) else RestoreConfig(rec));
    }

    /** First check every target, then put back those in their new state. */
    method VerifyAndRestore(rec: Record) returns (ok: bool)
      requires Valid() && At() == VerifyConfig(rec)
      modifies this
      ensures Valid() && Worked(old(run), old(labels), old(begun), old(disturbed)) && journals == old(journals)
      ensures At() == if ok then Close(rec.(status := RolledBack), false, Stop) else Idle
    {
      hide Recorded, AtOld, Assess;
      ok := Verify(rec, Config);
      if !ok { return; }
      if rec.factory.Some? {
        ok := Verify(rec, Factory);
        if !ok { return; }
      }
      ok := Restore(rec, Config);
      if !ok { return; }
      if rec.factory.Some? { ok := Restore(rec, Factory); }
    }

    /** Put both targets of a completed transaction back and mark it rolled back. The answer says
        whether that was done; undisturbed, the disk is what driving the rollback makes of it. */
    method RollbackTransaction(id: Id) returns (out: Outcome)
      requires Valid() && At() == Idle
      modifies this
      ensures Valid() && old(run) <= run && Executed(old(labels), DoRollback(id)) && At() == Idle
              && (out == RolledBackTo || out == Failed)
      ensures out == RolledBackTo ==>
                && id in old(journals) && old(journals)[id].status == Completed
                && journals == old(journals)[id := old(journals)[id].(status := RolledBack)]
      ensures out == Failed ==> journals == old(journals)
      ensures !disturbed ==>
                Now() == if id in old(journals) && old(journals)[id].status == Completed
                         then Drive(State(old(Now()), VerifyConfig(old(journals)[id]))) else old(Now())
    {
      hide Step, Drive, Init;
      FiledUnderOwnId();
      Start();
      var readable := Call();
      if !readable || id !in journals || journals[id].status != Completed {
        Log(Begin(DoRollback(id), []), Idle);
        return Failed;
      }
      var rec := journals[id];
      Log(Begin(DoRollback(id), []), VerifyConfig(rec));
      out := VerifyRestoreAndClose(rec);
      if !disturbed {
        UndisturbedRunDrives(run, labels, begun, |run| - 1);
        IdleStays(run[|run| - 1]);
      }
    }

    method VerifyRestoreAndClose(rec: Record) returns (out: Outcome)
      requires Valid() && At() == VerifyConfig(rec)
      modifies this
      ensures Valid() && Worked(old(run), old(labels), old(begun), old(disturbed)) && At() == Idle
      ensures out == RolledBackTo || out == Failed
      ensures journals ==
                if out == RolledBackTo then old(journals)[rec.id := rec.(status := RolledBack)] else old(journals)
    {
      hide Recorded;
      var ok := VerifyAndRestore(rec);
      if !ok { return Failed; }
      ok := CloseTransaction(rec.(status := RolledBack), Stop);
      out := if ok then RolledBackTo else Failed;
    }
  }
}
