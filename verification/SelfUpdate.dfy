/** Installation of a staged binary, with a failure or a crash at any point. */
module SelfUpdate {
  import opened Text

  type Bytes = seq<bv8>

  type Files = map<string, Bytes>

  function ContentOf(files: Files, path: string): Option<Bytes> {
    if path in files then Some(files[path]) else None
  }

  ghost predicate SameExcept(a: Files, b: Files, path: string) {
    forall p :: p != path ==> ContentOf(a, p) == ContentOf(b, p)
  }

  /** Every state from the `n`-th on differs from `was` at most in `path`. */
  ghost predicate OnlyChanged(was: Files, history: seq<Files>, n: nat, path: string) {
    forall i :: n <= i < |history| ==> SameExcept(was, history[i], path)
  }

  lemma ChangedAgain(was: Files, history: seq<Files>, n: nat, path: string, before: Files, after: Files)
    requires OnlyChanged(was, history, n, path) && SameExcept(was, before, path) && SameExcept(before, after, path)
    ensures OnlyChanged(was, history + [after], n, path) && SameExcept(was, after, path)
  {
  }

  lemma ChangedBy(files: Files, path: string, content: Bytes)
    ensures SameExcept(files, files[path := content], path) && SameExcept(files, files - {path}, path)
  {
  }

  /**
    A file system. Any operation may fail. `history` holds the files after every
    single change, so that a crash may be placed anywhere.
   */
  class Disk {
    var files: Files
    var clock: nat
    const fails: nat -> bool
    const chunk: nat -> nat
    ghost var history: seq<Files>

    constructor (files: Files, fails: nat -> bool, chunk: nat -> nat)
      ensures this.files == files && this.fails == fails && this.chunk == chunk && history == [files] && clock == 0
    {
      this.files, this.fails, this.chunk, this.clock, this.history := files, fails, chunk, 0, [files];
    }

    ghost predicate Valid() reads this {
      history != [] && history[|history| - 1] == files
    }

    /** Nothing fails from now on. */
    ghost predicate NoFaults() reads this {
      forall t :: t >= clock ==> !fails(t)
    }

    method Fault() returns (fault: bool)
      requires Valid()
      modifies this`clock
      ensures Valid() && clock == old(clock) + 1 && fault == fails(old(clock))
    {
      fault := fails(clock);
      clock := clock + 1;
    }

    method Put(path: string, content: Bytes)
      requires Valid()
      modifies this`files, this`history
      ensures Valid() && files == old(files)[path := content] && history == old(history) + [files]
    {
      files := files[path := content];
      history := history + [files];
    }

    method Remove(path: string) returns (ok: bool)
      requires Valid()
      modifies this
      ensures Valid() && history == if ok then old(history) + [files] else old(history)
      ensures files == if ok then old(files) - {path} else old(files)
      ensures clock == old(clock) + 1 && ok == (!fails(old(clock)) && path in old(files))
    {
      var fault := Fault();
      if fault || path !in files {
        return false;
      }
      files := files - {path};
      history := history + [files];
      return true;
    }

    /** Renaming replaces the target in one step. */
    method Rename(from: string, to: string) returns (ok: bool)
      requires Valid()
      modifies this
      ensures Valid() && history == if ok then old(history) + [files] else old(history)
      ensures ok ==> from in old(files) && files == (old(files) - {from})[to := old(files)[from]]
      ensures !ok ==> files == old(files)
      ensures clock == old(clock) + 1 && (old(NoFaults()) ==> ok == (from in old(files)))
    {
      var fault := Fault();
      if fault || from !in files {
        return false;
      }
      files := (files - {from})[to := files[from]];
      history := history + [files];
      return true;
    }

    /** One change to `path` within a longer run of changes to it. */
    method Write(path: string, content: Bytes, ghost was: Files, ghost n: nat)
      requires Valid() && OnlyChanged(was, history, n, path) && SameExcept(was, files, path)
      modifies this`files, this`history
      ensures Valid() && files == old(files)[path := content] && old(history) <= history
      ensures OnlyChanged(was, history, n, path) && SameExcept(was, files, path)
    {
      hide OnlyChanged, SameExcept;
      ChangedBy(files, path, content);
      ChangedAgain(was, history, n, path, files, files[path := content]);
      Put(path, content);
    }

    method Discard(path: string, ghost was: Files, ghost n: nat)
      requires Valid() && OnlyChanged(was, history, n, path) && SameExcept(was, files, path)
      modifies this
      ensures Valid() && old(history) <= history && clock >= old(clock)
      ensures OnlyChanged(was, history, n, path) && SameExcept(was, files, path)
    {
      hide OnlyChanged, SameExcept;
      ChangedBy(files, path, []);
      ChangedAgain(was, history, n, path, files, files - {path});
      var _ := Remove(path);
    }

    /** Copies into an emptied target piece by piece; a failure leaves a part behind or nothing. */
    method CopyContents(src: string, dst: string, ghost was: Files, ghost n0: nat) returns (ok: bool)
      requires Valid() && OnlyChanged(was, history, n0, dst) && SameExcept(was, files, dst)
      requires src in files && ContentOf(files, dst) == Some([])
      modifies this
      ensures Valid() && old(history) <= history && clock >= old(clock) && (old(NoFaults()) ==> ok)
      ensures OnlyChanged(was, history, n0, dst) && SameExcept(was, files, dst)
      ensures ok ==> ContentOf(files, dst) == Some(old(files)[src])
    {
      hide OnlyChanged, SameExcept;
      ghost var content := files[src];
      var offset := 0;
      while offset < |files[src]|
        invariant Valid() && old(history) <= history && clock >= old(clock)
        invariant OnlyChanged(was, history, n0, dst) && SameExcept(was, files, dst)
        invariant src in files && files[src] == content && offset <= |content|
        invariant dst in files && files[dst] == content[..offset]
        decreases |content| - offset
      {
        var wanted := 1 + chunk(clock);
        var n := if offset + wanted <= |files[src]| then wanted else |files[src]| - offset;
        var fault := Fault();
        if fault {
          Write(dst, files[dst] + files[src][offset..offset + n / 2], was, n0);
          Discard(dst, was, n0);
          return false;
        }
        Write(dst, files[dst] + files[src][offset..offset + n], was, n0);
        assert content[..offset] + content[offset..offset + n] == content[..offset + n];
        offset := offset + n;
      }
      assert content[..offset] == content;
      return true;
    }

    /** Truncates the target, copies, closes and sets the mode. */
    method CopyFile(src: string, dst: string) returns (ok: bool)
      requires Valid()
      modifies this
      ensures Valid() && old(history) <= history && clock >= old(clock)
      ensures old(NoFaults()) ==> ok == (src in old(files))
      ensures OnlyChanged(old(files), history, |old(history)|, dst) && SameExcept(old(files), files, dst)
      ensures ok ==> src in old(files) && ContentOf(files, dst) == Some(if src == dst then [] else old(files)[src])
    {
      hide OnlyChanged, SameExcept;
      ghost var was, n0 := files, |history|;
      StartUnchanged(was, history, dst);
      var fault := Fault();
      if fault || src !in files {
        return false;
      }
      fault := Fault();
      if fault {
        return false;
      }
      Write(dst, [], was, n0);
      var copied := CopyContents(src, dst, was, n0);
      if !copied {
        return false;
      }
      fault := Fault();
      if fault {
        Discard(dst, was, n0);
        return false;
      }
      fault := Fault();
      return !fault;
    }
  }

  lemma StartUnchanged(was: Files, history: seq<Files>, path: string)
    ensures OnlyChanged(was, history, |history|, path) && SameExcept(was, was, path)
  {
  }

  // ---- Applying a job -------------------------------------------------------

  datatype Outcome = Refused | HashMismatch | PrepareFailed | BackupFailed | ActivateFailed | RolledBack | RollbackFailed | Done

  function NewPath(binary: string): string { binary + ".new" }

  function BackupPath(binary: string): string { binary + ".previous" }

  function RollbackPath(binary: string): string { binary + ".rollback" }

  /** The job's checksum fits these bytes. */
  predicate Fits(hash: Bytes -> string, expected: string, content: Bytes) {
    ToLower(TrimSpace(expected)) == ToLower(TrimSpace(hash(content)))
  }

  /** The live path holds what it held before the job, or bytes with the job's checksum. */
  ghost predicate LiveOk(hash: Bytes -> string, expected: string, binary: string, was: Files, files: Files) {
    || ContentOf(files, binary) == ContentOf(was, binary)
    || (binary in files && Fits(hash, expected, files[binary]))
  }

  ghost predicate AlwaysLive(hash: Bytes -> string, expected: string, binary: string, was: Files, history: seq<Files>, n: nat) {
    forall i :: n <= i < |history| ==> LiveOk(hash, expected, binary, was, history[i])
  }

  /** The path lies in the directory whose name with the final slash is `root`. */
  predicate Under(root: string, path: string) {
    root <= path
  }

  lemma PathsDiffer(binary: string)
    ensures NewPath(binary) != binary && BackupPath(binary) != binary && RollbackPath(binary) != binary
    ensures NewPath(binary) != BackupPath(binary) && NewPath(binary) != RollbackPath(binary) && BackupPath(binary) != RollbackPath(binary)
  {
    var n := |binary|;
    assert NewPath(binary)[n + 1] == 'n' && BackupPath(binary)[n + 1] == 'p' && RollbackPath(binary)[n + 1] == 'r';
  }

  /** A staged file under a directory that does not hold the binary is neither the binary nor its `.new` file. */
  lemma OutsideUpdates(root: string, binary: string, staged: string)
    requires root != "" && root[|root| - 1] == '/' && Under(root, staged) && !Under(root, binary)
    ensures staged != binary && staged != NewPath(binary)
  {
  }

  lemma LiveUntouched(hash: Bytes -> string, expected: string, binary: string, was: Files, before: Files, history: seq<Files>, n: nat, m: nat, path: string)
    requires n <= m <= |history| && AlwaysLive(hash, expected, binary, was, history[..m], n)
    requires LiveOk(hash, expected, binary, was, before) && OnlyChanged(before, history, m, path) && path != binary
    ensures AlwaysLive(hash, expected, binary, was, history, n)
  {
    hide Fits;
    forall i | n <= i < |history|
      ensures LiveOk(hash, expected, binary, was, history[i])
    {
      if i < m {
        assert history[..m][i] == history[i];
      } else {
        assert SameExcept(before, history[i], path);
        assert ContentOf(before, binary) == ContentOf(history[i], binary);
      }
    }
  }

  lemma LiveAppend(hash: Bytes -> string, expected: string, binary: string, was: Files, history: seq<Files>, n: nat, files: Files)
    requires AlwaysLive(hash, expected, binary, was, history, n) && LiveOk(hash, expected, binary, was, files)
    ensures AlwaysLive(hash, expected, binary, was, history + [files], n)
  {
    hide LiveOk;
  }

  /** The guarantee so far, and for the present state. */
  ghost predicate Guarded(hash: Bytes -> string, expected: string, binary: string, was: Files, disk: Disk, n: nat)
    reads disk
  {
    n <= |disk.history| && AlwaysLive(hash, expected, binary, was, disk.history, n) && LiveOk(hash, expected, binary, was, disk.files)
  }

  lemma LiveSame(hash: Bytes -> string, expected: string, binary: string, was: Files, before: Files, after: Files)
    requires LiveOk(hash, expected, binary, was, before) && ContentOf(before, binary) == ContentOf(after, binary)
    ensures LiveOk(hash, expected, binary, was, after)
  {
  }

  method CopyBeside(disk: Disk, src: string, dst: string, ghost hash: Bytes -> string, ghost expected: string, ghost binary: string,
                    ghost was: Files, ghost n: nat) returns (ok: bool)
    requires disk.Valid() && dst != binary && n <= |disk.history|
    modifies disk
    ensures disk.Valid() && old(disk.history) <= disk.history
    ensures old(Guarded(hash, expected, binary, was, disk, n)) ==> Guarded(hash, expected, binary, was, disk, n)
    ensures SameExcept(old(disk.files), disk.files, dst)
    ensures disk.clock >= old(disk.clock) && (old(disk.NoFaults()) ==> ok == (src in old(disk.files)))
    ensures ok ==> src in old(disk.files) && ContentOf(disk.files, dst) == Some(if src == dst then [] else old(disk.files)[src])
  {
    hide OnlyChanged, AlwaysLive, LiveOk;
    ghost var before, m := disk.files, |disk.history|;
    ghost var guarded := Guarded(hash, expected, binary, was, disk, n);
    ok := disk.CopyFile(src, dst);
    if guarded {
      assert disk.history[..m] == old(disk.history);
      LiveUntouched(hash, expected, binary, was, before, disk.history, n, m, dst);
      LiveSame(hash, expected, binary, was, before, disk.files);
    }
  }

  method RemoveBeside(disk: Disk, path: string, ghost hash: Bytes -> string, ghost expected: string, ghost binary: string,
                      ghost was: Files, ghost n: nat)
    requires disk.Valid() && n <= |disk.history|
    modifies disk
    ensures disk.Valid() && old(disk.history) <= disk.history
    ensures path != binary ==> ContentOf(disk.files, binary) == ContentOf(old(disk.files), binary)
    ensures disk.clock >= old(disk.clock) && (old(disk.NoFaults()) ==> path !in disk.files)
    ensures path != binary && old(Guarded(hash, expected, binary, was, disk, n)) ==> Guarded(hash, expected, binary, was, disk, n)
  {
    hide AlwaysLive, LiveOk;
    ghost var before := disk.files;
    ghost var guarded := path != binary && Guarded(hash, expected, binary, was, disk, n);
    var _ := disk.Remove(path);
    if guarded {
      LiveSame(hash, expected, binary, was, before, disk.files);
      LiveAppend(hash, expected, binary, was, old(disk.history), n, disk.files);
    }
  }

  method RenameOver(disk: Disk, from: string, ghost hash: Bytes -> string, ghost expected: string, binary: string,
                    ghost was: Files, ghost n: nat) returns (ok: bool)
    requires disk.Valid() && from != binary && n <= |disk.history|
    modifies disk
    ensures disk.Valid() && old(disk.history) <= disk.history
    ensures ok ==> from in old(disk.files) && ContentOf(disk.files, binary) == ContentOf(old(disk.files), from)
    ensures ok ==> forall p :: p != from && p != binary ==> ContentOf(disk.files, p) == ContentOf(old(disk.files), p)
    ensures !ok ==> disk.files == old(disk.files)
    ensures ok ==> |disk.history| > |old(disk.history)|
    ensures disk.clock >= old(disk.clock) && (old(disk.NoFaults()) ==> ok == (from in old(disk.files)))
    ensures
      (ok ==> LiveOk(hash, expected, binary, was, disk.files)) && old(Guarded(hash, expected, binary, was, disk, n)) ==>
      Guarded(hash, expected, binary, was, disk, n)
  {
    hide AlwaysLive, LiveOk;
    ghost var guarded := Guarded(hash, expected, binary, was, disk, n);
    ok := disk.Rename(from, binary);
    if guarded && ok && LiveOk(hash, expected, binary, was, disk.files) {
      LiveAppend(hash, expected, binary, was, old(disk.history), n, disk.files);
    }
  }

  method Restore(disk: Disk, ghost hash: Bytes -> string, ghost expected: string, binary: string, ghost was: Files, ghost n: nat)
    returns (restored: bool)
    requires disk.Valid() && n <= |disk.history| && BackupPath(binary) in disk.files
    modifies disk
    ensures disk.Valid() && old(disk.history) <= disk.history
    ensures ContentOf(disk.files, binary) == ContentOf(old(disk.files), if restored then BackupPath(binary) else binary)
    ensures old(disk.NoFaults()) ==> restored
    ensures old(Guarded(hash, expected, binary, was, disk, n)) && old(ContentOf(disk.files, BackupPath(binary))) == ContentOf(was, binary) ==>
      Guarded(hash, expected, binary, was, disk, n)
  {
    hide AlwaysLive, NewPath, BackupPath, RollbackPath, Fits;
    PathsDiffer(binary);
    restored := CopyBeside(disk, BackupPath(binary), RollbackPath(binary), hash, expected, binary, was, n);
    if restored {
      restored := RenameOver(disk, RollbackPath(binary), hash, expected, binary, was, n);
    }
  }

  lemma NothingYet(hash: Bytes -> string, expected: string, binary: string, was: Files, history: seq<Files>)
    ensures AlwaysLive(hash, expected, binary, was, history, |history|) && LiveOk(hash, expected, binary, was, was)
  {
  }

  /**
    A job that cannot hurt: its staged file is not the binary, and if it is the `.new`
    file, which copying onto itself empties, then an empty binary would do.
   */
  ghost predicate Harmless(hash: Bytes -> string, expected: string, binary: string, staged: string, files: Files) {
    && staged != binary
    && (staged == NewPath(binary) ==> ContentOf(files, binary) == Some([]) || Fits(hash, expected, []))
  }

  predicate Activated(r: Outcome) {
    r.Done? || r.RolledBack? || r.RollbackFailed?
  }

  /** Activation put an empty file in place. */
  lemma EmptiedIsSeen(hash: Bytes -> string, expected: string, binary: string, was: Files, history: seq<Files>, n: nat, m: nat)
    requires n <= m < |history| && ContentOf(history[m], binary) == Some([]) && AlwaysLive(hash, expected, binary, was, history, n)
    ensures ContentOf(was, binary) == Some([]) || Fits(hash, expected, [])
  {
    hide Fits;
    assert LiveOk(hash, expected, binary, was, history[m]);
  }

  lemma RemovedIsSeen(hash: Bytes -> string, expected: string, binary: string, was: Files, history: seq<Files>, n: nat, m: nat)
    requires n <= m < |history| && binary !in history[m] && binary in was
    ensures !AlwaysLive(hash, expected, binary, was, history, n)
  {
    hide Fits;
    assert !LiveOk(hash, expected, binary, was, history[m]);
  }

  /** Copies the staged file beside the binary, backs the binary up and renames: `None` once the new file is in place. */
  method Activate(disk: Disk, ghost hash: Bytes -> string, ghost expected: string, binary: string, staged: string, ghost was: Files, ghost n: nat)
    returns (r: Option<Outcome>)
    requires disk.Valid() && n == |disk.history| && was == disk.files && staged in disk.files
    modifies disk
    ensures disk.Valid() && old(disk.history) <= disk.history && disk.clock >= old(disk.clock)
    ensures r.Some? ==> r.value in {PrepareFailed, BackupFailed, ActivateFailed}
    ensures r.Some? ==> ContentOf(disk.files, binary) == ContentOf(was, binary) && Guarded(hash, expected, binary, was, disk, n)
    ensures r.None? ==> binary in was && ContentOf(disk.files, BackupPath(binary)) == ContentOf(was, binary) && |disk.history| > n
    ensures r.None? ==> ContentOf(disk.files, binary) == Some(if staged == NewPath(binary) then [] else was[staged])
    ensures r.None? && LiveOk(hash, expected, binary, was, disk.files) ==> Guarded(hash, expected, binary, was, disk, n)
    ensures old(disk.NoFaults()) && binary in was ==> r.None?
  {
    hide AlwaysLive, NewPath, BackupPath, RollbackPath, LiveOk;
    PathsDiffer(binary);
    NothingYet(hash, expected, binary, was, disk.history);
    var newPath, backupPath := NewPath(binary), BackupPath(binary);
    var ok := CopyBeside(disk, staged, newPath, hash, expected, binary, was, n);
    if !ok {
      return Some(PrepareFailed);
    }
    ok := CopyBeside(disk, binary, backupPath, hash, expected, binary, was, n);
    if !ok {
      RemoveBeside(disk, newPath, hash, expected, binary, was, n);
      return Some(BackupFailed);
    }
    ok := RenameOver(disk, newPath, hash, expected, binary, was, n);
    if !ok {
      RemoveBeside(disk, newPath, hash, expected, binary, was, n);
      return Some(ActivateFailed);
    }
    return None;
  }

  /** After activation: the staged file goes, or the backup comes back if the service does not restart. */
  method Finish(disk: Disk, ghost hash: Bytes -> string, ghost expected: string, binary: string, staged: string, restarts: bool,
                ghost was: Files, ghost n: nat) returns (r: Outcome)
    requires disk.Valid() && n < |disk.history| && binary in was && ContentOf(disk.files, BackupPath(binary)) == ContentOf(was, binary)
    modifies disk
    ensures disk.Valid() && old(disk.history) <= disk.history && Activated(r)
    ensures r.RolledBack? ==> ContentOf(disk.files, binary) == ContentOf(was, binary)
    ensures r.RollbackFailed? || (r.Done? && staged != binary) ==> ContentOf(disk.files, binary) == ContentOf(old(disk.files), binary)
    ensures old(Guarded(hash, expected, binary, was, disk, n)) && staged != binary ==> Guarded(hash, expected, binary, was, disk, n)
    ensures old(disk.NoFaults()) ==> r == if restarts then Done else RolledBack
    ensures old(disk.NoFaults()) && r.Done? ==> staged !in disk.files
    ensures (staged == NewPath(binary) ==> old(ContentOf(disk.files, binary)) == Some([])) && (staged == binary ==> binary !in disk.files)
            && AlwaysLive(hash, expected, binary, was, disk.history, n) ==>
      Harmless(hash, expected, binary, staged, was)
  {
    hide AlwaysLive, NewPath, BackupPath, RollbackPath, LiveOk, Harmless;
    ghost var h, activated := disk.history, disk.files;
    if !restarts {
      var restored := Restore(disk, hash, expected, binary, was, n);
      r := if restored then RolledBack else RollbackFailed;
    } else {
      RemoveBeside(disk, staged, hash, expected, binary, was, n);
      r := Done;
    }
    StillThere(h, disk.history, |h| - 1);
    if (staged == NewPath(binary) ==> ContentOf(activated, binary) == Some([])) && (staged == binary ==> binary !in disk.files) {
      HarmfulIsSeen(hash, expected, binary, staged, was, disk.history, n, |h| - 1, |disk.history| - 1);
    }
  }

  /** An activated job that kept the guarantee was harmless. */
  lemma HarmfulIsSeen(hash: Bytes -> string, expected: string, binary: string, staged: string, was: Files, history: seq<Files>,
                      n: nat, m: nat, last: nat)
    requires n <= m < |history| && n <= last < |history|
    requires staged == NewPath(binary) ==> ContentOf(history[m], binary) == Some([])
    requires staged == binary ==> binary in was && binary !in history[last]
    ensures AlwaysLive(hash, expected, binary, was, history, n) ==> Harmless(hash, expected, binary, staged, was)
  {
    hide Fits, NewPath, AlwaysLive;
    if staged == binary {
      RemovedIsSeen(hash, expected, binary, was, history, n, last);
    } else if staged == NewPath(binary) && AlwaysLive(hash, expected, binary, was, history, n) {
      EmptiedIsSeen(hash, expected, binary, was, history, n, m);
    }
  }

  lemma StillThere(h: seq<Files>, history: seq<Files>, m: nat)
    requires h <= history && m < |h|
    ensures m < |history| && history[m] == h[m]
  {
  }

  lemma GuardedIsLive(hash: Bytes -> string, expected: string, binary: string, was: Files, disk: Disk, n: nat)
    requires Guarded(hash, expected, binary, was, disk, n)
    ensures AlwaysLive(hash, expected, binary, was, disk.history, n)
  {
  }

  /**
    Installs the staged binary. For a harmless job the live path holds the old bytes
    or bytes with the job's checksum after every single change; a job that reaches
    activation, and that does remove its staged file if that is the binary, keeps
    this only if it is harmless. Errors before activation and a rollback that
    succeeds leave the old bytes. Without faults a proper job is installed, or rolled
    back if the service does not restart.
   */
  method ApplyJob(disk: Disk, hash: Bytes -> string, root: string, binary: string, staged: string, expected: string, restarts: bool)
    returns (r: Outcome)
    requires disk.Valid()
    modifies disk
    ensures disk.Valid() && old(disk.history) <= disk.history
    ensures Harmless(hash, expected, binary, staged, old(disk.files)) ==>
      AlwaysLive(hash, expected, binary, old(disk.files), disk.history, |old(disk.history)|)
    ensures Activated(r) && (staged == binary ==> binary !in disk.files)
            && AlwaysLive(hash, expected, binary, old(disk.files), disk.history, |old(disk.history)|) ==>
      Harmless(hash, expected, binary, staged, old(disk.files))
    ensures r.Done? && (staged == binary ==> binary !in disk.files) ==>
      (LiveOk(hash, expected, binary, old(disk.files), disk.files) <==> Harmless(hash, expected, binary, staged, old(disk.files)))
    ensures !r.Done? && !r.RollbackFailed? ==> ContentOf(disk.files, binary) == ContentOf(old(disk.files), binary)
    ensures staged != binary && staged != NewPath(binary) && (r.Done? || r.RollbackFailed?) ==>
      binary in disk.files && Fits(hash, expected, disk.files[binary])
    ensures staged == NewPath(binary) && (r.Done? || r.RollbackFailed?) ==> ContentOf(disk.files, binary) == Some([])
    ensures old(disk.NoFaults()) && staged == binary && r.Done? ==> binary !in disk.files
    ensures old(disk.NoFaults()) && Under(root, staged) && staged in old(disk.files) && binary in old(disk.files)
            && Fits(hash, expected, old(disk.files)[staged]) ==>
      r == if restarts then Done else RolledBack
  {
    hide AlwaysLive, Fits, NewPath, BackupPath, LiveOk, Harmless, Guarded, RollbackPath, Under;
    PathsDiffer(binary);
    ghost var was, n := disk.files, |disk.history|;
    NothingYet(hash, expected, binary, was, disk.history);
    var fault := disk.Fault();
    if fault || !Under(root, staged) || staged !in disk.files {
      return Refused;
    }
    if !Fits(hash, expected, disk.files[staged]) {
      return HashMismatch;
    }
    fault := disk.Fault();
    if fault {
      return PrepareFailed;
    }
    var failed := Activate(disk, hash, expected, binary, staged, was, n);
    if failed.Some? {
      GuardedIsLive(hash, expected, binary, was, disk, n);
      return failed.value;
    }
    if Harmless(hash, expected, binary, staged, was) {
      HarmlessIsLive(hash, expected, binary, staged, was, disk.files);
    }
    r := Finish(disk, hash, expected, binary, staged, restarts, was, n);
    if Harmless(hash, expected, binary, staged, was) {
      GuardedIsLive(hash, expected, binary, was, disk, n);
    }
    if r.Done? && (staged == binary ==> binary !in disk.files) {
      FinalIsExact(hash, expected, binary, staged, was, disk.files);
    }
  }

  lemma FinalIsExact(hash: Bytes -> string, expected: string, binary: string, staged: string, was: Files, files: Files)
    requires binary in was && staged in was && Fits(hash, expected, was[staged])
    requires staged == binary ==> binary !in files
    requires staged != binary ==> ContentOf(files, binary) == Some(if staged == NewPath(binary) then [] else was[staged])
    ensures LiveOk(hash, expected, binary, was, files) <==> Harmless(hash, expected, binary, staged, was)
  {
  }

  lemma HarmlessIsLive(hash: Bytes -> string, expected: string, binary: string, staged: string, was: Files, activated: Files)
    requires Harmless(hash, expected, binary, staged, was) && staged in was && Fits(hash, expected, was[staged])
    requires ContentOf(activated, binary) == Some(if staged == NewPath(binary) then [] else was[staged])
    ensures LiveOk(hash, expected, binary, was, activated) && staged != binary
  {
  }

  // ---- The two harmful jobs -------------------------------------------------

  /** Without a fault, a job staged in the `.new` file replaces the binary by an empty one. */
  method StagedInNew(hash: Bytes -> string, current: Bytes, update: Bytes) returns (r: Outcome, files: Files)
    ensures r == Done && ContentOf(files, "/data/updates/app") == Some([])
    ensures current != [] && !Fits(hash, hash(update), []) ==>
      !LiveOk(hash, hash(update), "/data/updates/app", map["/data/updates/app" := current], files)
  {
    var binary, staged := "/data/updates/app", "/data/updates/app.new";
    var disk := new Disk(map[binary := current, staged := update], t => false, t => 0);
    assert NewPath(binary) == staged;
    r := ApplyJob(disk, hash, "/data/updates/", binary, staged, hash(update), true);
    files := disk.files;
  }

  /** Without a fault, a job staged in the binary itself removes it. */
  method StagedInPlace(hash: Bytes -> string, current: Bytes) returns (r: Outcome, files: Files)
    ensures r == Done && "/data/updates/app" !in files
  {
    var binary := "/data/updates/app";
    var disk := new Disk(map[binary := current], t => false, t => 0);
    r := ApplyJob(disk, hash, "/data/updates/", binary, binary, hash(current), true);
    files := disk.files;
  }
}
