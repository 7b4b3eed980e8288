/** The file transaction around a service's dependencies (service.rs). */
module ServiceSync {
  import opened Prelude

  const CARGO := "Cargo.toml"
  const DEPENDENCY_CONFIG := "config/roze-dependencies.yaml"
  const SERVICE_CONTEXT := "src/svc/mod.rs"
  const MANIFEST_NAME := "roze-service.yaml"

  type Files = map<string, string>

  /** What a manifest asks for: its own text, and how each managed file is rendered from what is there. */
  datatype Plan = Plan(
    valid: bool,
    manifest: string,
    cargo: string -> Option<string>,
    config: string,
    service: string -> Option<string>)

  // --------------------------------------------------------------- failures

  /** An operation works, or fails; a failed write leaves anything, or nothing, in its file. */
  datatype Fault = Fine | Fails(left: Option<string>)

  /** The operations that can fail; each happens at most once in a transaction. */
  datatype Point =
    | Load | Snapshotting(path: string) | ProjectKind
    | Reading(path: string) | Comparing(path: string) | MakingDir(path: string) | Writing(path: string)
    | UndoingDir(path: string) | UndoingWrite(path: string) | UndoingCreation(path: string)

  type Faults = Point -> Fault

  datatype Error =
    | Io(at: Point)
    | InvalidManifest
    | NoFile(path: string)
    | Malformed(path: string)
    | NotSynchronized(path: string)

  predicate Undoing(p: Point) {
    p.UndoingDir? || p.UndoingWrite? || p.UndoingCreation?
  }

  // --------------------------------------------------------------- single steps

  /** The files after some steps, and the error that stopped them. */
  datatype Progress = Progress(files: Files, error: Option<Error>, changed: seq<string>)

  function Put(files: Files, path: string, contents: Option<string>): Files {
    if contents.Some? then files[path := contents.value] else files - {path}
  }

  function Written(files: Files, path: string, text: string, fault: Fault): Files {
    if fault.Fine? then files[path := text] else Put(files, path, fault.left)
  }

  /** `update_file`. */
  function Updated(files: Files, path: string, expected: string, check: bool, faults: Faults): Progress {
    if faults(Comparing(path)).Fine? && path in files && files[path] == expected then Progress(files, None, [])
    else if check then Progress(files, Some(NotSynchronized(path)), [path])
    else if !faults(MakingDir(path)).Fine? then Progress(files, Some(Io(MakingDir(path))), [path])
    else
      var fault := faults(Writing(path));
      Progress(Written(files, path, expected, fault), if fault.Fine? then None else Some(Io(Writing(path))), [path])
  }

  /** Reading and rendering a file that must be there. */
  function Reread(files: Files, path: string, render: string -> Option<string>, faults: Faults): Result<string, Error> {
    if path !in files then Err(NoFile(path))
    else if !faults(Reading(path)).Fine? then Err(Io(Reading(path)))
    else if render(files[path]).None? then Err(Malformed(path))
    else Ok(render(files[path]).value)
  }

  /** `sync_project_rpc_clients`. */
  function ClientsSynced(files: Files, plan: Plan, check: bool, faults: Faults): Progress {
    var updated := Reread(files, SERVICE_CONTEXT, plan.service, faults);
    if updated.Err? then Progress(files, Some(updated.error), [])
    else if SERVICE_CONTEXT in files && files[SERVICE_CONTEXT] == updated.value then Progress(files, None, [])
    else if check then Progress(files, Some(NotSynchronized(SERVICE_CONTEXT)), [])
    else
      var fault := faults(Writing(SERVICE_CONTEXT));
      Progress(Written(files, SERVICE_CONTEXT, updated.value, fault),
               if fault.Fine? then None else Some(Io(Writing(SERVICE_CONTEXT))),
               [SERVICE_CONTEXT])
  }

  function CargoSynced(files: Files, plan: Plan, check: bool, faults: Faults): Progress {
    if !plan.valid then Progress(files, Some(InvalidManifest), [])
    else if !faults(ProjectKind).Fine? then Progress(files, Some(Io(ProjectKind)), [])
    else
      var cargo := Reread(files, CARGO, plan.cargo, faults);
      if cargo.Err? then Progress(files, Some(cargo.error), [])
      else Updated(files, CARGO, cargo.value, check, faults)
  }

  /** `sync_inner`. */
  function Synced(files: Files, plan: Plan, check: bool, faults: Faults): Progress {
    var a := CargoSynced(files, plan, check, faults);
    if a.error.Some? then a else
      var b := Updated(a.files, DEPENDENCY_CONFIG, plan.config, check, faults);
      if b.error.Some? then b.(changed := a.changed + b.changed) else
        var c := ClientsSynced(b.files, plan, check, faults);
        c.(changed := a.changed + b.changed + c.changed)
  }

  // --------------------------------------------------------------- snapshots

  datatype ManagedFileSnapshot = ManagedFileSnapshot(path: string, contents: Option<string>)

  const SyncPaths := [CARGO, DEPENDENCY_CONFIG, SERVICE_CONTEXT]
  const TransactionPaths := [CARGO, DEPENDENCY_CONFIG, SERVICE_CONTEXT, MANIFEST_NAME]

  function Contents(files: Files, path: string): Option<string> {
    if path in files then Some(files[path]) else None
  }

  /** The first path, if any, whose snapshot fails. */
  function CaptureError(files: Files, paths: seq<string>, faults: Faults): Option<Error> {
    if paths == [] then None
    else if paths[0] in files && !faults(Snapshotting(paths[0])).Fine? then Some(Io(Snapshotting(paths[0])))
    else CaptureError(files, paths[1..], faults)
  }

  function Snapshots(files: Files, paths: seq<string>): seq<ManagedFileSnapshot> {
    seq(|paths|, i requires 0 <= i < |paths| => ManagedFileSnapshot(paths[i], Contents(files, paths[i])))
  }

  function RestoredOne(files: Files, s: ManagedFileSnapshot, faults: Faults): Progress {
    match s.contents
    case Some(text) =>
      if !faults(UndoingDir(s.path)).Fine? then Progress(files, Some(Io(UndoingDir(s.path))), [])
      else
        var fault := faults(UndoingWrite(s.path));
        Progress(Written(files, s.path, text, fault), if fault.Fine? then None else Some(Io(UndoingWrite(s.path))), [])
    case None =>
      if s.path !in files then Progress(files, None, [])
      else if !faults(UndoingCreation(s.path)).Fine? then Progress(files, Some(Io(UndoingCreation(s.path))), [])
      else Progress(files - {s.path}, None, [])
  }

  function RestoredAll(files: Files, snapshots: seq<ManagedFileSnapshot>, faults: Faults): Progress
    decreases |snapshots|
  {
    if snapshots == [] then Progress(files, None, [])
    else
      var one := RestoredOne(files, snapshots[0], faults);
      if one.error.Some? then one else RestoredAll(one.files, snapshots[1..], faults)
  }

  // --------------------------------------------------------------- transactions

  datatype Outcome =
    | Done(changed: seq<string>)
    | Failed(error: Error)
    | NotRestored(error: Error, restoring: Error)

  datatype Effect = Effect(files: Files, outcome: Outcome)

  function Concluded(before: Files, paths: seq<string>, p: Progress, faults: Faults): Effect {
    if p.error.None? then Effect(p.files, Done(p.changed))
    else
      var back := RestoredAll(p.files, Snapshots(before, paths), faults);
      Effect(back.files, if back.error.Some? then NotRestored(p.error.value, back.error.value)
             else Failed(p.error.value))
  }

  /** `apply_manifest_transaction`. */
  function Applied(files: Files, plan: Plan, faults: Faults): Effect {
    var refused := CaptureError(files, TransactionPaths, faults);
    if refused.Some? then Effect(files, Failed(refused.value))
    else
      var fault := faults(Writing(MANIFEST_NAME));
      var noted := Written(files, MANIFEST_NAME, plan.manifest, fault);
      var p := if fault.Fine? then Synced(noted, plan, false, faults) else Progress(noted,
          Some(Io(Writing(MANIFEST_NAME))), []);
      Concluded(files, TransactionPaths, p, faults)
  }

  /** `sync`; `plan` is what the manifest on disk asks for. */
  function SyncEffect(files: Files, plan: Plan, check: bool, faults: Faults): Effect {
    if !faults(Load).Fine? then Effect(files, Failed(Io(Load)))
    else if check then
      var p := Synced(files, plan, true, faults);
      Effect(p.files, if p.error.Some? then Failed(p.error.value) else Done(p.changed))
    else
      var refused := CaptureError(files, SyncPaths, faults);
      if refused.Some? then Effect(files, Failed(refused.value))
      else Concluded(files, SyncPaths, Synced(files, plan, false, faults), faults)
  }

  // --------------------------------------------------------------- what steps touch

  /** Outside the paths the files are the same. */
  ghost predicate SameExcept(f: Files, g: Files, paths: seq<string>) {
    forall p | p !in paths :: Contents(f, p) == Contents(g, p)
  }

  lemma SyncedTouches(files: Files, plan: Plan, check: bool, faults: Faults)
    ensures SameExcept(files, Synced(files, plan, check, faults).files, SyncPaths)
  {
    hide Reread;
    var a := CargoSynced(files, plan, check, faults);
    assert SameExcept(files, a.files, [CARGO]);
    var b := Updated(a.files, DEPENDENCY_CONFIG, plan.config, check, faults);
    assert SameExcept(a.files, b.files, [DEPENDENCY_CONFIG]);
    var c := ClientsSynced(b.files, plan, check, faults);
    assert SameExcept(b.files, c.files, [SERVICE_CONTEXT]);
  }

  lemma RestoredOneSets(files: Files, s: ManagedFileSnapshot, faults: Faults)
    ensures var r := RestoredOne(files, s, faults);
            && SameExcept(files, r.files, [s.path])
            && (r.error.None? ==> Contents(r.files, s.path) == s.contents)
            && (r.error.Some? ==> r.error.value.Io? && Undoing(r.error.value.at) && !faults(r.error.value.at).Fine?)
  {
  }

  /** Restoring gives every listed path its snapshot again, and fails only if undoing itself fails. */
  lemma {:induction false} RestoredAllSets(before: Files, now: Files, paths: seq<string>, k: nat, faults: Faults)
    requires k <= |paths| && SameExcept(before, now, paths[k..])
    ensures var r := RestoredAll(now, Snapshots(before, paths[k..]), faults);
            && SameExcept(now, r.files, paths[k..])
            && (r.error.None? ==> r.files == before)
            && (r.error.Some? ==> r.error.value.Io? && Undoing(r.error.value.at) && !faults(r.error.value.at).Fine?)
    decreases |paths| - k
  {
    hide RestoredOne;
    if k == |paths| {
      assert paths[k..] == [];
      SameEverywhere(before, now);
    } else {
      var s := Snapshots(before, paths[k..])[0];
      assert Snapshots(before, paths[k..])[1..] == Snapshots(before, paths[k + 1..]);
      RestoredOneSets(now, s, faults);
      var one := RestoredOne(now, s, faults);
      if one.error.None? {
        forall p | p !in paths[k + 1..] ensures Contents(before, p) == Contents(one.files, p) {
          assert p in paths[k..] ==> p == paths[k];
        }
        RestoredAllSets(before, one.files, paths, k + 1, faults);
        forall p | p !in paths[k..] ensures Contents(now, p)
               == Contents(RestoredAll(one.files, Snapshots(before, paths[k + 1..]), faults).files, p) {
          assert p !in paths[k + 1..] && p !in [s.path];
        }
      } else {
        forall p | p !in paths[k..] ensures Contents(now, p) == Contents(one.files, p) {
          assert p !in [s.path];
        }
      }
    }
  }

  lemma SameEverywhere(f: Files, g: Files)
    requires SameExcept(f, g, [])
    ensures f == g
  {
    forall p ensures p in f <==> p in g {
      assert Contents(f, p) == Contents(g, p);
    }
    forall p | p in f ensures f[p] == g[p] {
      assert Contents(f, p) == Contents(g, p);
    }
  }

  lemma ConcludedAtomic(before: Files, paths: seq<string>, p: Progress, faults: Faults)
    requires SameExcept(before, p.files, paths)
    ensures var e := Concluded(before, paths, p, faults);
            && SameExcept(before, e.files, paths)
            && (e.outcome.Failed? ==> e.files == before)
            && (e.outcome.Done? ==> e.files == p.files && p.error.None?)
            && (e.outcome.NotRestored? ==>
                  e.outcome.restoring.Io? && Undoing(e.outcome.restoring.at) && !faults(e.outcome.restoring.at).Fine?)
  {
    hide RestoredAll;
    assert paths[0..] == paths;
    RestoredAllSets(before, p.files, paths, 0, faults);
  }

  // --------------------------------------------------------------- the laws

  /** The managed files are the ones the plan asks for. */
  ghost predicate AsPlanned(before: Files, after: Files, plan: Plan) {
    && CARGO in before && SERVICE_CONTEXT in before && CARGO in after && SERVICE_CONTEXT in after
    && Contents(after, CARGO) == plan.cargo(before[CARGO])
    && Contents(after, DEPENDENCY_CONFIG) == Some(plan.config)
    && Contents(after, SERVICE_CONTEXT) == plan.service(before[SERVICE_CONTEXT])
  }

  lemma PathsDiffer()
    ensures |CARGO| == 10 && |DEPENDENCY_CONFIG| == 29 && |SERVICE_CONTEXT| == 14 && |MANIFEST_NAME| == 17
  {
  }

  lemma CargoStep(files: Files, plan: Plan, check: bool, faults: Faults)
    ensures var a := CargoSynced(files, plan, check, faults);
            && SameExcept(files, a.files, [CARGO])
            && (a.error.None? ==>
                  CARGO in files && CARGO in a.files && plan.valid
                  && Contents(a.files, CARGO) == plan.cargo(files[CARGO]))
  {
  }

  lemma UpdateStep(files: Files, path: string, expected: string, check: bool, faults: Faults)
    ensures var b := Updated(files, path, expected, check, faults);
            SameExcept(files, b.files, [path]) && (b.error.None? ==> Contents(b.files, path) == Some(expected))
  {
  }

  lemma ClientsStep(files: Files, plan: Plan, check: bool, faults: Faults)
    ensures var c := ClientsSynced(files, plan, check, faults);
            && SameExcept(files, c.files, [SERVICE_CONTEXT])
            && (c.error.None? ==> SERVICE_CONTEXT in files && SERVICE_CONTEXT in c.files
                                  && Contents(c.files, SERVICE_CONTEXT) == plan.service(files[SERVICE_CONTEXT]))
  {
  }

  lemma SyncedAsPlanned(files: Files, plan: Plan, check: bool, faults: Faults)
    requires Synced(files, plan, check, faults).error.None?
    ensures plan.valid && AsPlanned(files, Synced(files, plan, check, faults).files, plan)
  {
    hide CargoSynced, Updated, ClientsSynced;
    PathsDiffer();
    CargoStep(files, plan, check, faults);
    var a := CargoSynced(files, plan, check, faults);
    UpdateStep(a.files, DEPENDENCY_CONFIG, plan.config, check, faults);
    var b := Updated(a.files, DEPENDENCY_CONFIG, plan.config, check, faults);
    ClientsStep(b.files, plan, check, faults);
    var c := ClientsSynced(b.files, plan, check, faults);
    assert Contents(a.files, CARGO) == Contents(b.files, CARGO) == Contents(c.files, CARGO);
    assert Contents(b.files, DEPENDENCY_CONFIG) == Contents(c.files, DEPENDENCY_CONFIG);
    assert Contents(files, SERVICE_CONTEXT) == Contents(a.files, SERVICE_CONTEXT) == Contents(b.files, SERVICE_CONTEXT);
  }

  /**
   * Whatever fails and wherever: a failed dependency change leaves every file as it was, unless undoing itself failed;
   * a successful one leaves all four managed files as planned; no other file is ever touched.
   */
  lemma DependencyChangeIsAtomic(files: Files, plan: Plan, faults: Faults)
    ensures var e := Applied(files, plan, faults);
            && SameExcept(files, e.files, TransactionPaths)
            && (e.outcome.Failed? ==> e.files == files)
            && (e.outcome.Done? ==>
                  plan.valid && AsPlanned(files, e.files, plan)
                  && Contents(e.files, MANIFEST_NAME) == Some(plan.manifest))
            && (e.outcome.NotRestored? ==>
                  e.outcome.restoring.Io? && Undoing(e.outcome.restoring.at) && !faults(e.outcome.restoring.at).Fine?)
  {
    hide Synced, Concluded, AsPlanned, CaptureError;
    PathsDiffer();
    var fault := faults(Writing(MANIFEST_NAME));
    var noted := Written(files, MANIFEST_NAME, plan.manifest, fault);
    assert SameExcept(files, noted, [MANIFEST_NAME]);
    var p := if fault.Fine? then Synced(noted, plan, false, faults) else Progress(noted,
        Some(Io(Writing(MANIFEST_NAME))), []);
    SyncedTouches(noted, plan, false, faults);
    forall q | q !in TransactionPaths ensures Contents(files, q) == Contents(p.files, q) {
      assert q !in [MANIFEST_NAME] && q !in SyncPaths;
      assert Contents(files, q) == Contents(noted, q);
    }
    ConcludedAtomic(files, TransactionPaths, p, faults);
    if p.error.None? {
      SyncedAsPlanned(noted, plan, false, faults);
      PlannedFrom(files, noted, p.files, plan);
      assert MANIFEST_NAME !in SyncPaths;
      assert Contents(noted, MANIFEST_NAME) == Contents(p.files, MANIFEST_NAME);
    }
  }

  lemma PlannedFrom(files: Files, noted: Files, after: Files, plan: Plan)
    requires SameExcept(files, noted, [MANIFEST_NAME]) && AsPlanned(noted, after, plan)
    ensures AsPlanned(files, after, plan)
  {
    PathsDiffer();
    assert Contents(files, CARGO) == Contents(noted, CARGO);
    assert Contents(files, SERVICE_CONTEXT) == Contents(noted, SERVICE_CONTEXT);
  }

  lemma CheckKeeps(files: Files, plan: Plan, faults: Faults)
    ensures Synced(files, plan, true, faults).files == files
  {
    hide Reread;
  }

  /** The same for a synchronization, which also never touches the manifest; checking writes nothing at all. */
  lemma SyncIsAtomic(files: Files, plan: Plan, check: bool, faults: Faults)
    ensures var e := SyncEffect(files, plan, check, faults);
            && SameExcept(files, e.files, SyncPaths)
            && (check || e.outcome.Failed? ==> e.files == files)
            && (e.outcome.Done? ==> plan.valid && AsPlanned(files, e.files, plan))
            && (e.outcome.NotRestored? ==>
                  e.outcome.restoring.Io? && Undoing(e.outcome.restoring.at) && !faults(e.outcome.restoring.at).Fine?)
  {
    hide Synced, Concluded, AsPlanned, CaptureError;
    var p := Synced(files, plan, check, faults);
    SyncedTouches(files, plan, check, faults);
    ConcludedAtomic(files, SyncPaths, p, faults);
    if check {
      CheckKeeps(files, plan, faults);
    }
    if p.error.None? {
      SyncedAsPlanned(files, plan, check, faults);
    }
  }

  ghost predicate AllFine(faults: Faults) {
    forall p :: faults(p).Fine?
  }

  /** The plan can be carried out: it is valid, and both files it renders are there and can be rendered. */
  ghost predicate Feasible(files: Files, plan: Plan) {
    && plan.valid
    && CARGO in files && plan.cargo(files[CARGO]).Some?
    && SERVICE_CONTEXT in files && plan.service(files[SERVICE_CONTEXT]).Some?
  }

  lemma {:induction false} NoCaptureError(files: Files, paths: seq<string>, faults: Faults)
    requires AllFine(faults)
    ensures CaptureError(files, paths, faults).None?
  {
    if paths != [] {
      NoCaptureError(files, paths[1..], faults);
    }
  }

  lemma SyncedIffFeasible(files: Files, plan: Plan, faults: Faults)
    requires AllFine(faults)
    ensures Synced(files, plan, false, faults).error.None? <==> Feasible(files, plan)
  {
    PathsDiffer();
    if Synced(files, plan, false, faults).error.None? {
      SyncedAsPlanned(files, plan, false, faults);
    }
  }

  /** When nothing fails, a dependency change goes through if and only if its plan can be carried out. */
  lemma ChangeDoneIffFeasible(files: Files, plan: Plan, faults: Faults)
    requires AllFine(faults)
    ensures Applied(files, plan, faults).outcome.Done? <==> Feasible(files, plan)
  {
    hide Synced, AllFine;
    PathsDiffer();
    NoCaptureError(files, TransactionPaths, faults);
    assert faults(Writing(MANIFEST_NAME)).Fine? by { FineAt(faults, Writing(MANIFEST_NAME)); }
    SyncedIffFeasible(files[MANIFEST_NAME := plan.manifest], plan, faults);
  }

  /** Likewise for a synchronization. */
  lemma SyncDoneIffFeasible(files: Files, plan: Plan, faults: Faults)
    requires AllFine(faults)
    ensures SyncEffect(files, plan, false, faults).outcome.Done? <==> Feasible(files, plan)
  {
    hide Synced, AllFine;
    NoCaptureError(files, SyncPaths, faults);
    FineAt(faults, Load);
    SyncedIffFeasible(files, plan, faults);
  }

  lemma FineAt(faults: Faults, p: Point)
    requires AllFine(faults)
    ensures faults(p).Fine?
  {
  }

  ghost predicate Stable(render: string -> Option<string>) {
    forall s :: render(s).Some? ==> render(render(s).value) == render(s)
  }

  /** A check passes exactly when the manifest is valid and every managed file already is what the plan asks for. */
  lemma CheckMeansInSync(files: Files, plan: Plan, faults: Faults)
    requires AllFine(faults)
    ensures SyncEffect(files, plan, true, faults) == Effect(files, Done([])) <==>
            plan.valid && AsPlanned(files, files, plan)
  {
    CheckKeeps(files, plan, faults);
    if Synced(files, plan, true, faults).error.None? {
      SyncedAsPlanned(files, plan, true, faults);
      NothingChanged(files, plan, faults);
    }
  }

  lemma NothingChanged(files: Files, plan: Plan, faults: Faults)
    requires Synced(files, plan, true, faults).error.None?
    ensures Synced(files, plan, true, faults).changed == []
  {
    hide Reread;
  }

  /** After a synchronization, a check passes if rendering what was rendered changes nothing. */
  lemma CheckPassesIfStable(files: Files, plan: Plan, faults: Faults)
    requires AllFine(faults) && Stable(plan.cargo) && Stable(plan.service)
    requires SyncEffect(files, plan, false, faults).outcome.Done?
    ensures var after := SyncEffect(files, plan, false, faults).files;
            SyncEffect(after, plan, true, faults) == Effect(after, Done([]))
  {
    hide SyncEffect, AllFine;
    SyncIsAtomic(files, plan, false, faults);
    var after := SyncEffect(files, plan, false, faults).files;
    assert plan.cargo(after[CARGO]) == plan.cargo(files[CARGO]);
    assert plan.service(after[SERVICE_CONTEXT]) == plan.service(files[SERVICE_CONTEXT]);
    CheckMeansInSync(SyncEffect(files, plan, false, faults).files, plan, faults);
  }
}
