/** The service commands on files changed in place (service.rs). */
module ProjectFiles {
  import opened Prelude
  import opened ServiceSync

  class Project {
    var files: Files

    constructor (files: Files)
      ensures this.files == files
    {
      this.files := files;
    }

    method Write(path: string, text: string, fault: Fault) returns (ok: bool)
      modifies this
      ensures files == Written(old(files), path, text, fault) && ok == fault.Fine?
    {
      if fault.Fine? {
        files := files[path := text];
      } else {
        files := Put(files, path, fault.left);
      }
      return fault.Fine?;
    }

    method UpdateFile(path: string, expected: string, check: bool, faults: Faults, changed0: seq<string>)
      returns (error: Option<Error>, changed: seq<string>)
      modifies this
      ensures var p := Updated(old(files), path, expected, check, faults);
              files == p.files && error == p.error && changed == changed0 + p.changed
    {
      changed := changed0;
      if faults(Comparing(path)).Fine? && path in files && files[path] == expected {
        return None, changed;
      }
      changed := changed + [path];
      if check {
        return Some(NotSynchronized(path)), changed;
      }
      if !faults(MakingDir(path)).Fine? {
        return Some(Io(MakingDir(path))), changed;
      }
      var ok := Write(path, expected, faults(Writing(path)));
      if !ok {
        return Some(Io(Writing(path))), changed;
      }
      return None, changed;
    }

    method SyncClients(plan: Plan, check: bool, faults: Faults) returns (updated: Result<bool, Error>)
      modifies this
      ensures var p := ClientsSynced(old(files), plan, check, faults);
              && files == p.files
              && updated == (if p.error.Some? then Err(p.error.value) else Ok(p.changed != []))
    {
      var text := Reread(files, SERVICE_CONTEXT, plan.service, faults);
      if text.Err? {
        return Err(text.error);
      }
      if files[SERVICE_CONTEXT] == text.value {
        return Ok(false);
      }
      if check {
        return Err(NotSynchronized(SERVICE_CONTEXT));
      }
      var ok := Write(SERVICE_CONTEXT, text.value, faults(Writing(SERVICE_CONTEXT)));
      if !ok {
        return Err(Io(Writing(SERVICE_CONTEXT)));
      }
      return Ok(true);
    }

    /** `sync_inner`. */
    method SyncInner(plan: Plan, check: bool, faults: Faults) returns (r: Result<seq<string>, Error>)
      modifies this
      ensures var p := Synced(old(files), plan, check, faults);
              files == p.files && r == (if p.error.Some? then Err(p.error.value) else Ok(p.changed))
    {
      hide Updated, Reread, ClientsSynced;
      if !plan.valid {
        return Err(InvalidManifest);
      }
      if !faults(ProjectKind).Fine? {
        return Err(Io(ProjectKind));
      }
      var cargo := Reread(files, CARGO, plan.cargo, faults);
      if cargo.Err? {
        return Err(cargo.error);
      }
      var error, changed := UpdateFile(CARGO, cargo.value, check, faults, []);
      if error.Some? {
        return Err(error.value);
      }
      ghost var a := CargoSynced(old(files), plan, check, faults);
      assert changed == [] + a.changed == a.changed && files == a.files;
      error, changed := UpdateFile(DEPENDENCY_CONFIG, plan.config, check, faults, changed);
      if error.Some? {
        return Err(error.value);
      }
      ghost var before := files;
      var updated := SyncClients(plan, check, faults);
      ClientsReport(before, plan, check, faults);
      if updated.Err? {
        return Err(updated.error);
      }
      assert changed + [] == changed;
      if updated.value {
        changed := changed + [SERVICE_CONTEXT];
      }
      return Ok(changed);
    }

    /** `ManagedFileSnapshot::capture`. */
    method Capture(paths: seq<string>, faults: Faults) returns (r: Result<seq<ManagedFileSnapshot>, Error>)
      ensures r == (if CaptureError(files, paths, faults).Some? then Err(CaptureError(files, paths, faults).value)
                    else Ok(Snapshots(files, paths)))
    {
      var snapshots: seq<ManagedFileSnapshot> := [];
      for i := 0 to |paths|
        invariant snapshots == Snapshots(files, paths[..i])
        invariant CaptureError(files, paths, faults) == CaptureError(files, paths[i..], faults)
      {
        assert paths[i..][0] == paths[i] && paths[i..][1..] == paths[i + 1..];
        if paths[i] in files && !faults(Snapshotting(paths[i])).Fine? {
          return Err(Io(Snapshotting(paths[i])));
        }
        snapshots := snapshots + [ManagedFileSnapshot(paths[i], Contents(files, paths[i]))];
      }
      assert paths[..|paths|] == paths;
      return Ok(snapshots);
    }

    /** One turn of `restore_all`. */
    method RestoreOne(s: ManagedFileSnapshot, faults: Faults) returns (error: Option<Error>)
      modifies this
      ensures var p := RestoredOne(old(files), s, faults);
              files == p.files && error == p.error
    {
      if s.contents.Some? {
        if !faults(UndoingDir(s.path)).Fine? {
          return Some(Io(UndoingDir(s.path)));
        }
        var ok := Write(s.path, s.contents.value, faults(UndoingWrite(s.path)));
        return if ok then None else Some(Io(UndoingWrite(s.path)));
      }
      if s.path in files {
        if !faults(UndoingCreation(s.path)).Fine? {
          return Some(Io(UndoingCreation(s.path)));
        }
        files := files - {s.path};
      }
      return None;
    }

    /** `ManagedFileSnapshot::restore_all`. */
    method RestoreAll(snapshots: seq<ManagedFileSnapshot>, faults: Faults) returns (error: Option<Error>)
      modifies this
      ensures var p := RestoredAll(old(files), snapshots, faults);
              files == p.files && error == p.error
    {
      hide RestoredOne;
      for i := 0 to |snapshots|
        invariant RestoredAll(old(files), snapshots, faults) == RestoredAll(files, snapshots[i..], faults)
      {
        assert snapshots[i..][0] == snapshots[i] && snapshots[i..][1..] == snapshots[i + 1..];
        RestoredOneShape(files, snapshots[i], faults);
        error := RestoreOne(snapshots[i], faults);
        if error.Some? {
          return;
        }
      }
      return None;
    }

    /** The end of either command: keep the result, or put the snapshots back. */
    method Conclude(result: Result<seq<string>, Error>, snapshots: seq<ManagedFileSnapshot>, faults: Faults)
      returns (outcome: Outcome)
      modifies this
      ensures result.Ok? ==> files == old(files) && outcome == Done(result.value)
      ensures result.Err? ==>
                var back := RestoredAll(old(files), snapshots, faults);
                && files == back.files
                && outcome == if back.error.Some? then NotRestored(result.error, back.error.value)
                   else Failed(result.error)
    {
      if result.Ok? {
        return Done(result.value);
      }
      var error := RestoreAll(snapshots, faults);
      return if error.Some? then NotRestored(result.error, error.value) else Failed(result.error);
    }

    method ApplyManifestTransaction(plan: Plan, faults: Faults) returns (outcome: Outcome)
      modifies this
      ensures var e := Applied(old(files), plan, faults);
              files == e.files && outcome == e.outcome
    {
      hide CaptureError, Synced, RestoredAll, Snapshots, Written;
      var snapshots := Capture(TransactionPaths, faults);
      if snapshots.Err? {
        return Failed(snapshots.error);
      }
      var ok := Write(MANIFEST_NAME, plan.manifest, faults(Writing(MANIFEST_NAME)));
      var result;
      if ok {
        result := SyncInner(plan, false, faults);
      } else {
        result := Err(Io(Writing(MANIFEST_NAME)));
      }
      outcome := Conclude(result, snapshots.value, faults);
    }

    method Sync(plan: Plan, check: bool, faults: Faults) returns (outcome: Outcome)
      modifies this
      ensures var e := SyncEffect(old(files), plan, check, faults);
              files == e.files && outcome == e.outcome
    {
      hide CaptureError, Synced, RestoredAll, Snapshots;
      if !faults(Load).Fine? {
        return Failed(Io(Load));
      }
      if check {
        var checked := SyncInner(plan, true, faults);
        return if checked.Ok? then Done(checked.value) else Failed(checked.error);
      }
      var snapshots := Capture(SyncPaths, faults);
      if snapshots.Err? {
        return Failed(snapshots.error);
      }
      var result := SyncInner(plan, false, faults);
      outcome := Conclude(result, snapshots.value, faults);
    }
  }

  lemma ClientsReport(files: Files, plan: Plan, check: bool, faults: Faults)
    ensures var p := ClientsSynced(files, plan, check, faults);
            p.changed == [] || p.changed == [SERVICE_CONTEXT]
  {
  }

  lemma RestoredOneShape(files: Files, s: ManagedFileSnapshot, faults: Faults)
    ensures RestoredOne(files, s, faults).changed == []
  {
  }
}
