/** The journalled self-update: back up, stop, install, check, start, or roll all
    of it back. The machine around the worker answers as it likes; its own
    preconditions are the safety rules of the update. */
module UpdateWorker {
  import opened Keys
  import opened Versions

  datatype Phase =
    | Queued | BackedUp | DaemonStopped | Installed | RollingBack
    | Succeeded | RolledBack | Stuck | Failed

  datatype Code =
    | NoCode
    | CommitUnknown | DaemonStateChanged | BackupFailed | StopFailed
    | InstallFailed | JournalFailed | ChecksumMismatch | InspectFailed
    | CommitMismatch | VersionMismatch | StartFailed | HealthFailed
    | RollbackFailed   // never recorded: the first failure is what the job keeps

  datatype Job = Job(
    id: Text,
    phase: Phase,
    managed: bool,
    oldVersion: Text,
    oldBinary: Text,
    targetVersion: Text,
    targetCommit: Text,
    sourceRoot: Text,
    backup: Text,
    newCommit: Text,
    priorRunning: bool,
    code: Code)
  {
    /** The version the old daemon reports. */
    function OldName(): Text {
      if oldBinary != [] then oldBinary else oldVersion
    }
  }

  datatype Installation = Installation(manifest: Text, binary: Text, commit: Text, root: Text)

  predicate IsCommit(s: Text) {
    |s| == 40 && forall i | 0 <= i < 40 :: '0' <= s[i] <= '9' || 'a' <= s[i] <= 'f'
  }

  lemma HexDigits(s: Text)
    ensures IsCommit(s) <==> |s| == 40 && forall c <- s :: c in "0123456789abcdef"
  {
    forall i | 0 <= i < |s| ensures s[i] in s && (('0' <= s[i] <= '9' || 'a' <= s[i] <= 'f') <==> s[i] in "0123456789abcdef") {
      HexDigit(s[i]);
    }
  }

  lemma HexDigit(c: char)
    ensures ('0' <= c <= '9' || 'a' <= c <= 'f') <==> c in "0123456789abcdef"
  {
    if '0' <= c <= '9' {
      assert "0123456789abcdef"[c as int - '0' as int] == c;
    } else if 'a' <= c <= 'f' {
      assert "0123456789abcdef"[c as int - 'a' as int + 10] == c;
    }
  }

  datatype Moment = Moment(disk: Job, started: bool)

  /** A journal that says nothing was installed yet is right. */
  ghost predicate WriteAhead(disk: Job, started: bool) {
    disk.phase == Queued || disk.phase == BackedUp || disk.phase == Failed ==> !started
  }

  /** Nobody else starts or stops the daemon while the update lock is held. */
  class Machine {
    var disk: Job
    /** What the running daemon reports as its version. */
    var daemon: Option<Text>
    /** Whether an install command of this job was started. */
    ghost var started: bool
    /** Whether the old files were set aside for this job. */
    ghost var backedUp: bool
    /** Whether the binary in place is the old one or was checked. */
    ghost var trusted: bool
    /** The roots whose binary was checked since the last install. */
    ghost var verified: set<Text>
    /** What the installed files last said about themselves. */
    ghost var seen: Option<Installation>
    ghost var history: seq<Moment>
    /** What went wrong since the worker started, in order: calls that failed and
        answers that were not the ones hoped for. */
    ghost var failures: seq<Code>

    /** The one call in between failed with this code, or did not fail. */
    twostate predicate Noted(ok: bool, code: Code)
      reads this
    {
      failures == old(failures) + if ok then [] else [code]
    }

    ghost predicate Valid()
      reads this`disk, this`started, this`history
    {
      WriteAhead(disk, started) && forall h <- history :: WriteAhead(h.disk, h.started)
    }

    method Save(job: Job) returns (ok: bool)
      requires Valid() && WriteAhead(job, started)
      modifies this`disk, this`history, this`failures
      ensures Valid() && (if ok then disk == job else disk == job || disk == old(disk)) && Noted(ok, JournalFailed)
    {
      var reached := *;
      ok := *;
      if ok || reached {
        disk := job;
      }
      history := history + [Moment(disk, started)];
      failures := failures + if ok then [] else [JournalFailed];
    }

    method Running() returns (yes: bool)
      ensures yes == daemon.Some?
    {
      yes := daemon.Some?;
    }

    /** Anything but success leaves it open whether the daemon still runs. */
    method Stop() returns (ok: bool)
      modifies this`daemon, this`failures
      ensures ok ==> daemon.None?
      ensures daemon == old(daemon) || daemon.None?
      ensures Noted(ok, StopFailed)
    {
      ok := *;
      failures := failures + if ok then [] else [StopFailed];
      var gone := *;
      if ok || gone {
        daemon := None;
      }
    }

    method Backup(job: Job) returns (ok: bool, job': Job)
      modifies this`backedUp, this`failures
      ensures backedUp == (old(backedUp) || ok) && Noted(ok, BackupFailed)
      ensures job' == job.(backup := job'.backup)
    {
      var path: Text := *;
      ok := *;
      job' := job.(backup := path);
      backedUp := backedUp || ok;
      failures := failures + if ok then [] else [BackupFailed];
    }

    /** Replaces the files; allowed only once they are backed up, the journal says
        so and the daemon is stopped. */
    method Install(job: Job) returns (ok: bool)
      requires Valid() && backedUp && disk.phase == DaemonStopped && daemon.None?
      modifies this`started, this`trusted, this`verified, this`history, this`failures
      ensures Valid() && started && !trusted && verified == {} && Noted(ok, InstallFailed)
    {
      started, trusted, verified := true, false, {};
      history := history + [Moment(disk, started)];
      ok := *;
      failures := failures + if ok then [] else [InstallFailed];
    }

    method Verify(job: Job, root: Text) returns (ok: bool)
      modifies this`trusted, this`verified, this`failures
      ensures Noted(ok, ChecksumMismatch)
      ensures trusted == (old(trusted) || (ok && root == job.sourceRoot))
      ensures verified == old(verified) + if ok then {root} else {}
    {
      ok := *;
      verified := verified + if ok then {root} else {};
      trusted := trusted || (ok && root == job.sourceRoot);
      failures := failures + if ok then [] else [ChecksumMismatch];
    }

    method Rollback(job: Job) returns (ok: bool)
      requires daemon.None?
      modifies this`trusted, this`failures
      ensures trusted == ok && Noted(ok, RollbackFailed)
    {
      ok := *;
      trusted := ok;
      failures := failures + if ok then [] else [RollbackFailed];
    }

    /** Runs the binary in place to ask for its version. flaw names what is wrong
        with an answer, NoCode if nothing is. */
    method ReadInstallation(ghost flaw: Installation -> Code) returns (i: Option<Installation>)
      requires trusted
      modifies this`seen, this`failures
      ensures seen == i
      ensures Noted(i.Some? && flaw(i.value) == NoCode, if i.None? then InspectFailed else flaw(i.value))
    {
      var any: Installation := *;
      var ok := *;
      i := if ok then Some(any) else None;
      seen := i;
      failures := failures + if i.None? then [InspectFailed] else if flaw(any) == NoCode then [] else [flaw(any)];
    }

    method StartAt(root: Text) returns (ok: bool, already: bool)
      requires trusted
      modifies this`daemon, this`failures
      ensures already == old(daemon.Some?) && (already ==> daemon == old(daemon))
      ensures Noted(ok && !already, StartFailed)
    {
      ok := *;
      already := daemon.Some?;
      failures := failures + if ok && !already then [] else [StartFailed];
      var alive := *;
      var version: Text := *;
      if !already && alive {
        daemon := Some(version);
      }
    }

    method WaitHealthy(version: Text) returns (ok: bool)
      modifies this`daemon, this`failures
      ensures ok ==> daemon == Some(version)
      ensures Noted(ok, HealthFailed)
      ensures daemon == old(daemon) || daemon.None?
    {
      var died := *;
      if died {
        daemon := None;
      }
      ok := *;
      ok := ok && daemon == Some(version);
      failures := failures + if ok then [] else [HealthFailed];
    }
  }

  class Worker {
    const machine: Machine
    const parse: Text -> Option<Version>

    constructor (machine: Machine, parse: Text -> Option<Version>)
      ensures this.machine == machine
    {
      this.machine, this.parse := machine, parse;
    }

    /** What the end of a run says about the daemon and the installation. */
    ghost predicate Concluded(job: Job, before: Option<Text>)
      reads machine
    {
      && (job.phase == Succeeded ==> machine.daemon == if job.priorRunning then Some(job.targetVersion) else None)
      && (job.phase == RolledBack ==>
            var old_ := if |job.oldBinary| > 0 then job.oldBinary else job.oldVersion;
            machine.daemon == if job.priorRunning then Some(old_) else None)
      && (job.phase == Failed ==> !machine.started && (job.code != StopFailed ==> machine.daemon == before))
      && (job.phase == Succeeded ==> machine.started && machine.seen.Some? && Checked(job, machine.seen.value))
      && (job.phase == RolledBack ==> machine.seen.Some? && Restored(job.oldVersion, machine.seen.value))
    }

    /** The new installation is the approved one, down to the bytes. */
    ghost predicate Checked(job: Job, i: Installation)
      reads machine
    {
      && i.manifest == i.binary == job.targetVersion && job.newCommit == i.commit
      && (job.managed ==> i.commit == job.targetCommit)
      && job.sourceRoot in machine.verified && i.root in machine.verified
    }

    /** The installation is of the old version again. */
    ghost predicate Restored(oldVersion: Text, i: Installation) {
      && i.manifest == oldVersion && parse(i.binary).Some?
      && Order(parse(i.binary).value, if parse(oldVersion).Some? then parse(oldVersion).value else Version(0, 0, 0, [])) == 0
    }

    function Wanted(oldVersion: Text): Version {
      if parse(oldVersion).Some? then parse(oldVersion).value else Version(0, 0, 0, [])
    }

    /** The job's terms never change. */
    ghost predicate SameTerms(a: Job, b: Job) {
      b == a.(phase := b.phase, backup := b.backup, newCommit := b.newCommit, code := b.code)
    }

    /** What is wrong with the new installation. */
    ghost function NewFlaw(job: Job): Installation -> Code {
      (i: Installation) =>
        if job.managed && i.commit != job.targetCommit then CommitMismatch
        else if i.manifest != job.targetVersion || i.binary != job.targetVersion then VersionMismatch
        else NoCode
    }

    /** What is wrong with a restored one. */
    ghost function OldFlaw(job: Job): Installation -> Code {
      (i: Installation) => if Restored(job.oldVersion, i) then NoCode else VersionMismatch
    }

    /** The terms of the job rule it out before anything is touched. */
    ghost predicate Refused(job: Job, running: bool) {
      Unsigned(job) || running != job.priorRunning
    }

    /** A managed job has to name a commit: forty digits to base 16. */
    ghost predicate Unsigned(job: Job) {
      job.managed && !(|job.targetCommit| == 40 && forall c <- job.targetCommit :: c in "0123456789abcdef")
    }

    /** One update. When nothing fails it succeeds, and it ends well only then. */
    method Run(id: Text) returns (job: Job, ok: bool, ghost bad: seq<Code>)
      requires machine.Valid() && machine.trusted && (machine.disk.phase == Queued ==> !machine.started)
      modifies machine
      ensures machine.Valid() && machine.failures == old(machine.failures) + bad
      ensures old(machine.disk.id) != id || old(machine.disk.phase) != Queued ==>
        && !ok && machine.disk == old(machine.disk) && machine.daemon == old(machine.daemon)
        && machine.started == old(machine.started) && bad == []
      ensures old(machine.disk.id) == id && old(machine.disk.phase) == Queued ==>
        && SameTerms(old(machine.disk), job) && Concluded(job, old(machine.daemon))
        && (ok <==> !Refused(old(machine.disk), old(machine.daemon.Some?)) && bad == [])
        && (Refused(old(machine.disk), old(machine.daemon.Some?)) ==>
              && job.phase == Failed && machine.daemon == old(machine.daemon) && !machine.started
              && job.code == if Unsigned(job) then CommitUnknown else DaemonStateChanged)
        && (!Refused(old(machine.disk), old(machine.daemon.Some?)) && bad != [] ==> Ends(job, bad))
      ensures ok ==> job.phase == Succeeded && machine.disk == job
    {
      hide Order, Concluded, OnlyJournal;
      bad := [];
      job := machine.disk;
      HexDigits(job.targetCommit);
      if job.id != id || job.phase != Queued {
        return job, false, bad;
      }
      if job.managed && !IsCommit(job.targetCommit) {
        job, bad := Fail(job, CommitUnknown);
        return job, false, bad;
      }
      var running := machine.Running();
      if running != job.priorRunning {
        job, bad := Fail(job, DaemonStateChanged);
        return job, false, bad;
      }
      job, ok, bad := Proceed(job);
    }

    /** The steps before the first irreversible one. */
    method Proceed(start: Job) returns (job: Job, ok: bool, ghost bad: seq<Code>)
      requires machine.Valid() && machine.disk == start && start.phase == Queued && !machine.started
      requires machine.daemon.Some? == start.priorRunning
      modifies machine
      ensures machine.Valid() && machine.failures == old(machine.failures) + bad
      ensures SameTerms(start, job) && Concluded(job, old(machine.daemon))
      ensures ok ==> job.phase == Succeeded && machine.disk == job
      ensures (ok <==> bad == []) && (bad != [] ==> Ends(job, bad))
    {
      hide Machine.Valid;
      hide Order, OnlyJournal, Concluded, Ends;
      var backed;
      backed, job := machine.Backup(start);
      if !backed {
        job, bad := Fail(job, BackupFailed);
        FailedEnds(job, bad);
        return job, false, [BackupFailed] + bad;
      }
      job := job.(phase := BackedUp);
      var saved := machine.Save(job);
      if !saved {
        NothingConcluded(job);
        StoppedEnds(job);
        return job, false, [JournalFailed];
      }
      job, ok, bad := Halt(job);
    }

    /** The daemon is stopped before any file is replaced. */
    method Halt(start: Job) returns (job: Job, ok: bool, ghost bad: seq<Code>)
      requires machine.Valid() && machine.backedUp && start.phase == BackedUp && !machine.started
      requires machine.daemon.Some? == start.priorRunning
      modifies machine
      ensures machine.Valid() && machine.failures == old(machine.failures) + bad
      ensures SameTerms(start, job) && Concluded(job, old(machine.daemon))
      ensures ok ==> job.phase == Succeeded && machine.disk == job
      ensures (ok <==> bad == []) && (bad != [] ==> Ends(job, bad))
    {
      hide Machine.Valid;
      hide Order, OnlyJournal, Concluded, Ends;
      job := start;
      if job.priorRunning {
        var stopped := machine.Stop();
        if !stopped {
          job, bad := Fail(job, StopFailed);
          FailedEnds(job, bad);
          return job, false, [StopFailed] + bad;
        }
      }
      job := job.(phase := DaemonStopped);
      var saved := machine.Save(job);
      if !saved {
        NothingConcluded(job);
        StoppedEnds(job);
        return job, false, [JournalFailed];
      }
      job, ok, bad := Replace(job);
    }

    /** How a run ends in which something went wrong: before the installation the job
        fails or stays where the journal could not follow; afterwards it is rolled
        back, and that works exactly if none of the recovery's own answers is bad. The
        recorded code is that of the first failure. A success that cannot be written
        down stands. */
    ghost predicate Ends(job: Job, failures: seq<Code>)
      requires failures != []
    {
      match job.phase
      case Failed => failures[0] in {BackupFailed, StopFailed} && job.code == failures[0]
      case BackedUp => failures == [JournalFailed]
      case DaemonStopped => failures == [JournalFailed]
      case Succeeded => failures == [JournalFailed]
      case RolledBack => job.code == failures[0] && OnlyJournal(failures[1..])
      case Stuck => job.code == failures[0] && !OnlyJournal(failures[1..])
      case _ => false
    }

    /** Writes of the journal may fail during a rollback; they do not stop it. */
    ghost predicate OnlyJournal(failures: seq<Code>) {
      forall c <- failures :: c == JournalFailed
    }

    /** From the first irreversible step on: installed and healthy, or undone. */
    method Replace(start: Job) returns (job: Job, ok: bool, ghost bad: seq<Code>)
      requires machine.Valid() && machine.disk == start && start.phase == DaemonStopped
      requires machine.backedUp && machine.daemon.None?
      modifies machine
      ensures machine.Valid() && SameTerms(start, job) && machine.failures == old(machine.failures) + bad
      ensures job.phase != Failed && forall before :: Concluded(job, before)
      ensures ok ==> job.phase == Succeeded && machine.disk == job
      ensures ok <==> bad == []
      ensures bad != [] ==> Ends(job, bad) && job.phase in {RolledBack, Stuck, Succeeded}
    {
      hide Machine.Valid;
      hide Order, OnlyJournal, Ends, Concluded;
      job := start;
      var done := machine.Install(job);
      if !done {
        job, bad := Undo(job, InstallFailed);
        UndoneEnds(job, InstallFailed, bad);
        return job, false, [InstallFailed] + bad;
      }
      job := job.(phase := Installed);
      done := machine.Save(job);
      if !done {
        job, bad := Undo(job, JournalFailed);
        UndoneEnds(job, JournalFailed, bad);
        return job, false, [JournalFailed] + bad;
      }
      job, ok, bad := Conclude(job);
    }

    /** The new installation is checked and started, or undone. */
    method Conclude(start: Job) returns (job: Job, ok: bool, ghost bad: seq<Code>)
      requires machine.Valid() && start.phase == Installed
      requires machine.daemon.None? && machine.started && !machine.trusted
      modifies machine
      ensures machine.Valid() && SameTerms(start, job) && machine.failures == old(machine.failures) + bad
      ensures job.phase != Failed && forall before :: Concluded(job, before)
      ensures ok ==> job.phase == Succeeded && machine.disk == job
      ensures ok <==> bad == []
      ensures bad != [] ==> Ends(job, bad) && job.phase in {RolledBack, Stuck, Succeeded}
    {
      hide Machine.Valid;
      hide Order, OnlyJournal, Ends;
      job := start;
      var code, installed := Inspect(job);
      if code == NoCode && job.priorRunning {
        code := StartHealthy(installed.root, job.targetVersion);
      }
      if code != NoCode {
        job, bad := Undo(job, code);
        UndoneEnds(job, code, bad);
        return job, false, [code] + bad;
      }
      job := job.(newCommit := installed.commit, phase := Succeeded);
      ok := machine.Save(job);
      bad := if ok then [] else [JournalFailed];
      SucceededEnds(job);
    }

    lemma SucceededEnds(job: Job)
      requires job.phase == Succeeded
      ensures Ends(job, [JournalFailed])
    {
    }

    lemma FailedEnds(job: Job, bad: seq<Code>)
      requires job.phase == Failed && job.code in {BackupFailed, StopFailed}
      ensures Ends(job, [job.code] + bad)
    {
    }

    lemma StoppedEnds(job: Job)
      requires job.phase in {BackedUp, DaemonStopped}
      ensures Ends(job, [JournalFailed])
    {
    }

    lemma UndoneEnds(job: Job, code: Code, bad: seq<Code>)
      requires job.code == code && (job.phase == RolledBack || job.phase == Stuck)
      requires job.phase == RolledBack <==> OnlyJournal(bad)
      ensures Ends(job, [code] + bad)
    {
      assert ([code] + bad)[1..] == bad;
    }

    /** Whether the installation is the approved one. The new binary is not run
        before its bytes were checked. */
    method Inspect(job: Job) returns (code: Code, i: Installation)
      requires !machine.trusted
      modifies machine`trusted, machine`verified, machine`seen, machine`failures
      ensures code == NoCode ==>
        && machine.trusted && machine.seen == Some(i)
        && Checked(job.(newCommit := i.commit), i)
      ensures machine.Noted(code == NoCode, code)
    {
      i := Installation([], [], [], []);
      var good := machine.Verify(job, job.sourceRoot);
      if !good {
        return ChecksumMismatch, i;
      }
      var installed := machine.ReadInstallation(NewFlaw(job));
      if installed.None? {
        return InspectFailed, i;
      }
      i := installed.value;
      if job.managed && i.commit != job.targetCommit {
        return CommitMismatch, i;
      }
      if i.manifest != job.targetVersion || i.binary != job.targetVersion {
        return VersionMismatch, i;
      }
      good := machine.Verify(job, i.root);
      return if good then NoCode else ChecksumMismatch, i;
    }

    /** Starts the daemon at root and waits until it reports that version. */
    method StartHealthy(root: Text, version: Text) returns (code: Code)
      requires machine.trusted
      modifies machine`daemon, machine`failures
      ensures code == NoCode ==> machine.daemon == Some(version)
      ensures machine.Noted(code == NoCode, code) && code in {NoCode, StartFailed, HealthFailed}
    {
      var started, already := machine.StartAt(root);
      if !started || already {
        return StartFailed;
      }
      var healthy := machine.WaitHealthy(version);
      return if healthy then NoCode else HealthFailed;
    }

    /** Nothing was installed: only the journal learns of it. */
    method Fail(start: Job, code: Code) returns (job: Job, ghost bad: seq<Code>)
      requires machine.Valid() && !machine.started
      modifies machine`disk, machine`history, machine`failures
      ensures machine.Valid() && job == start.(phase := Failed, code := code)
      ensures machine.failures == old(machine.failures) + bad && (bad == [] || bad == [JournalFailed])
      ensures bad == [] ==> machine.disk == job
      ensures Concluded(job, machine.daemon) && (code == StopFailed ==> forall before :: Concluded(job, before))
    {
      job := start.(phase := Failed, code := code);
      var saved := machine.Save(job);
      bad := if saved then [] else [JournalFailed];
    }

    /** A lost write on either side of a bad answer, or of none. */
    lemma JournalOnly(first: seq<Code>, failure: Code, last: seq<Code>)
      requires failure != JournalFailed
      ensures !OnlyJournal(first + [failure] + last)
    {
      assert failure in first + [failure] + last;
    }

    lemma WritesOnly(first: seq<Code>, last: seq<Code>)
      requires OnlyJournal(first) && OnlyJournal(last)
      ensures OnlyJournal(first + last)
    {
    }

    function LostWrite(saved: bool): seq<Code>
      ensures OnlyJournal(LostWrite(saved))
    {
      if saved then [] else [JournalFailed]
    }

    /** On the way and when stuck, nothing is said. */
    lemma NothingConcluded(job: Job)
      requires job.phase !in {Succeeded, RolledBack, Failed}
      ensures forall before :: Concluded(job, before)
    {
    }

    lemma RollbackConcluded(job: Job)
      requires job.phase == RolledBack && machine.daemon == (if job.priorRunning then Some(job.OldName()) else None)
      requires machine.seen.Some? && Restored(job.oldVersion, machine.seen.value)
      ensures forall before :: Concluded(job, before)
    {
    }

    /** Rolls back. Whatever the journal does, the old installation and the daemon are
        back exactly if every answer of the recovery is the one hoped for. */
    method Undo(start: Job, code: Code) returns (job: Job, ghost bad: seq<Code>)
      requires machine.Valid() && (start.phase == DaemonStopped || start.phase == Installed)
      modifies machine
      ensures machine.Valid() && SameTerms(start, job) && machine.started == old(machine.started)
      ensures job.phase == RolledBack || job.phase == Stuck
      ensures forall before :: Concluded(job, before)
      ensures job.code == code && machine.failures == old(machine.failures) + bad
      ensures job.phase == RolledBack <==> OnlyJournal(bad)
      ensures bad == [] ==> machine.disk == job
    {
      hide Machine.Valid;
      hide Order, OnlyJournal, Concluded, Restored;
      job := start.(code := code, phase := RollingBack);
      var saved := machine.Save(job);
      ghost var first, failure := LostWrite(saved), NoCode;
      var ok;
      ok, failure := Recover(job);
      if ok {
        job := job.(phase := RolledBack);
        saved := machine.Save(job);
        RollbackConcluded(job);
        WritesOnly(first, LostWrite(saved));
        bad := first + LostWrite(saved);
      } else {
        job, bad := GetStuck(job);
        NothingConcluded(job);
        JournalOnly(first, failure, bad);
        bad := first + [failure] + bad;
      }
    }

    /** The recovery proper: the old files, and the old daemon if it ran. */
    method Recover(job: Job) returns (ok: bool, ghost failure: Code)
      requires machine.Valid()
      modifies machine`daemon, machine`trusted, machine`seen, machine`failures
      ensures machine.Noted(ok, failure) && (!ok ==> failure != JournalFailed)
      ensures ok ==>
        && machine.daemon == (if job.priorRunning then Some(job.OldName()) else None)
        && machine.seen.Some? && Restored(job.oldVersion, machine.seen.value)
    {
      hide Order, Restored;
      var root;
      root, failure := Restore(job);
      if root.None? {
        return false, failure;
      }
      if job.priorRunning {
        var code := StartHealthy(root.value, job.OldName());
        return code == NoCode, code;
      }
      ok := true;
    }

    /** Puts the old files back and checks that they are. */
    method Restore(job: Job) returns (root: Option<Text>, ghost failure: Code)
      requires machine.Valid()
      modifies machine`daemon, machine`trusted, machine`seen, machine`failures
      ensures machine.Noted(root.Some?, failure) && (root.None? ==> failure != JournalFailed)
      ensures root.Some? ==>
        && machine.daemon.None? && machine.trusted
        && machine.seen.Some? && Restored(job.oldVersion, machine.seen.value) && root.value == machine.seen.value.root
    {
      hide Order;
      var running := machine.Running();
      if running {
        var stopped := machine.Stop();
        if !stopped {
          return None, StopFailed;
        }
      }
      var done := machine.Rollback(job);
      if !done {
        return None, RollbackFailed;
      }
      var installed := machine.ReadInstallation(OldFlaw(job));
      failure := if installed.None? then InspectFailed else VersionMismatch;
      if installed.None? || installed.value.manifest != job.oldVersion {
        return None, failure;
      }
      var found := parse(installed.value.binary);
      if found.None? {
        return None, failure;
      }
      var order := Compare(found.value, Wanted(job.oldVersion));
      root := if order == 0 then Some(installed.value.root) else None;
    }

    method GetStuck(start: Job) returns (job: Job, ghost bad: seq<Code>)
      requires machine.Valid()
      modifies machine`disk, machine`history, machine`failures
      ensures machine.Valid() && job == start.(phase := Stuck)
      ensures machine.failures == old(machine.failures) + bad && (bad == [] || bad == [JournalFailed])
      ensures bad == [] ==> machine.disk == job
    {
      job := start.(phase := Stuck);
      var saved := machine.Save(job);
      bad := if saved then [] else [JournalFailed];
    }
  }
}
