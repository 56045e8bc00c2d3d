/** The whole of `deploy` in deploy/remote_release.py: preflight, snapshot, the way forward,
    and the way back. */
module ReleaseTransaction {
  import opened Wrappers
  import opened FileTree
  import opened ReleaseHost
  import opened ReleaseSnapshot
  import opened WebInstall
  import opened ReleaseDeploy
  import Migrations

  function FullStage(m: Manifest): Stage {
    Stage(HasBackend(m), "frontend" in m.components, "admin" in m.components, true, true)
  }

  /** The backend runs the verified binary with every gate off. */
  predicate RunsPaused(m: Manifest, backend: Option<Process>) {
    "backend/server" in m.files && backend.Some? && GatesOff(backend.value.env) && backend.value.binary == m.files["backend/server"]
  }

  lemma ResultApartFromTargets(root: Path)
    requires IsReleaseDir(root)
    ensures forall q :: IsTarget(q) ==> Apart(root + ["result.json"], q)
  {
    forall q | IsTarget(q) ensures Apart(root + ["result.json"], q) {
      TargetsElsewhere(q);
      ElsewhereIsApart(q, root, "result.json");
    }
  }

  method DeployFiles(h: Host, root: Path, m: Manifest, ghost t0: Files) returns (ok: bool)
    requires Rooted(h.files) && IsReleaseDir(root) && KeepsRelease(root, t0, h.files)
    requires HasBackend(m) ==> Done(root, t0, h.files, Stage(true, false, false, false, false))
    modifies h`files, h`seen
    ensures Rooted(h.files) && KeepsRelease(root, t0, h.files)
    ensures ok ==> Done(root, t0, h.files, FullStage(m))
    ensures LeavesBut(old(h.files), h.files, Places(root, m))
  {
    hide LeavesBut;
    hide SubTree;
    hide OnlyAt;
    hide Rooted;
    hide KeepsRelease;
    hide IsReleaseDir;
    hide Installed;
    hide WebInstalled;
    hide OnlyUnder;
    hide WebDir;
    KnownTargets();
    TargetsDiffer();
    hide IsTarget;
    assert "frontend"[0] != "admin"[0];
    ok := true;
    ghost var stage := Stage(HasBackend(m), false, false, false, false);
    ghost var t := h.files;
    ghost var start, ps := t, Places(root, m);
    NothingChanged(root, t);
    if "frontend" in m.components {
      ok := DeployWeb(h, root, "frontend", t0);
      ButUnder(t, h.files, WebDir("frontend"), ps);
      DoneUnder(root, t0, t, h.files, stage, "frontend");
      if !ok { return; }
      stage := stage.(app := true);
    }
    t := h.files;
    if "admin" in m.components {
      ok := DeployWeb(h, root, "admin", t0);
      ButUnder(t, h.files, WebDir("admin"), ps);
      ButTrans(start, t, h.files, ps);
      DoneUnder(root, t0, t, h.files, stage, "admin");
      if !ok { return; }
      stage := stage.(admin := true);
    }
    t := h.files;
    ok := Install(h, root, ["deploy", "httpd-alumni.conf"], HTTPD_CONFIG, t0);
    ButAt(t, h.files, {Staged(HTTPD_CONFIG), HTTPD_CONFIG}, ps);
    ButTrans(start, t, h.files, ps);
    DoneBesides(root, t0, t, h.files, stage, HTTPD_CONFIG);
    if !ok { return; }
    stage := stage.(config := true);
    t := h.files;
    ok := Install(h, root, ["deploy", "httpd-admin.conf"], ADMIN_HTTPD_CONFIG, t0);
    ButAt(t, h.files, {Staged(ADMIN_HTTPD_CONFIG), ADMIN_HTTPD_CONFIG}, ps);
    ButTrans(start, t, h.files, ps);
    DoneBesides(root, t0, t, h.files, stage, ADMIN_HTTPD_CONFIG);
    if !ok { return; }
    stage := stage.(adminConfig := true);
  }

  /** The configuration test, Apache, the health checks, and the result file. */
  method Finish(h: Host, root: Path, m: Manifest, ghost t0: Files) returns (ok: bool)
    requires Rooted(h.files) && IsReleaseDir(root) && KeepsRelease(root, t0, h.files) && Done(root, t0, h.files, FullStage(m))
    modifies h`files, h`seen, h`apache
    ensures Rooted(h.files) && KeepsRelease(root, t0, h.files)
    ensures ok ==> h.apache && Done(root, t0, h.files, FullStage(m))
    ensures LeavesBut(old(h.files), h.files, {root})
  {
    hide LeavesBut;
    hide SubTree;
    hide Targets;
    hide FullStage;
    hide OnlyAt;
    hide Rooted;
    hide KeepsRelease;
    hide IsReleaseDir;
    hide Done;
    hide Spares;
    hide IsTarget;
    NothingChanged(root, h.files);
    ok := *;
    if !ok { return; }
    ok := h.SwitchApache(true);
    if !ok { return; }
    ok := *;
    if !ok { return; }
    ghost var t := h.files;
    var text: Content := *;
    ok := h.PutFile(root + ["result.json"], text);
    ResultWritten(root, m, t0, t, h.files);
  }

  /** The result file disturbs nothing. */
  lemma ResultWritten(root: Path, m: Manifest, t0: Files, t: Files, t': Files)
    requires IsReleaseDir(root) && KeepsRelease(root, t0, t) && Done(root, t0, t, FullStage(m)) && OnlyAt(t, t', {root + ["result.json"]})
    ensures KeepsRelease(root, t0, t') && Done(root, t0, t', FullStage(m)) && LeavesBut(t, t', {root})
  {
    hide LeavesBut;
    hide SubTree;
    hide OnlyAt;
    hide KeepsRelease;
    hide Done;
    hide Spares;
    hide IsTarget;
    var p := root + ["result.json"];
    ResultSpares(root);
    ButBelow(t, t', p, root, {root});
    SparingKeeps(root, t, t', {p});
    KeepsTrans(root, t0, t, t');
    ResultApartFromTargets(root);
    DoneApart(root, t0, t, t', FullStage(m), p);
  }

  method Forward(h: Host, db: Migrations.Database, root: Path, m: Manifest, pending: seq<Migrations.Script>)
    returns (ok: bool, stopped: bool, ghost p: Migrations.Progress)
    requires Rooted(h.files) && IsReleaseDir(root) && (!HasBackend(m) ==> pending == [])
    modifies h, db
    ensures Rooted(h.files) && KeepsRelease(root, old(h.files), h.files)
    ensures Quiet(h.shadow, old(h.backend), h.backend) && (!HasBackend(m) ==> h.backend == old(h.backend))
    ensures Migrations.Reached(pending, p)
    ensures db.history == old(db.history) + pending[..p.done] && db.executed == old(db.executed) + Migrations.NamesOf(pending[..p.tried])
    ensures !stopped ==> !ok && h.files == old(h.files) && h.backend == old(h.backend) && h.inForce == old(h.inForce)
    ensures !stopped ==> p == Migrations.Progress(0, 0) && (h.apache ==> old(h.apache))
    ensures ok ==> h.apache && Done(root, old(h.files), h.files, FullStage(m)) && (HasBackend(m) ==> RunsPaused(m, h.backend))
    ensures ok && HasBackend(m) ==> h.backend.Some? && h.backend.value.env == LiveEnv(h.shadow, PAUSED)
    ensures ok ==> p == Migrations.Progress(|pending|, |pending|)
    ensures LeavesBut(old(h.files), h.files, Places(root, m))
  {
    hide LeavesBut;
    hide SubTree;
    hide OnlyAt;
    hide Rooted;
    hide KeepsRelease;
    hide IsReleaseDir;
    hide Installed;
    hide WebInstalled;
    ghost var t0, ps := h.files, Places(root, m);
    NothingChanged(root, t0);
    p := Migrations.Progress(0, 0);
    assert pending[..0] == [] && Migrations.NamesOf(pending[..0]) == [];
    ok := h.SwitchApache(false);
    stopped := ok;
    if !ok { return; }
    if HasBackend(m) {
      ok, p := DeployBackend(h, db, root, m, pending, t0);
      ButMore(t0, h.files, BackendPlaces(root), ps);
      if !ok { return; }
    }
    ghost var t := h.files;
    ok := DeployFiles(h, root, m, t0);
    ButTrans(t0, t, h.files, ps);
    if !ok { return; }
    t := h.files;
    ok := Finish(h, root, m, t0);
    ButMore(t, h.files, {root}, ps);
    ButTrans(t0, t, h.files, ps);
  }

  // --------------------------------------------------------------- the way back

  predicate IsRolloutFile(p: Path) {
    p == ROLLOUT_ENV || p == ROLLOUT_UNIT
  }

  /** Every target other than the two rollout files is what it was. */
  ghost predicate TargetsBack(m: Manifest, t0: Files, t: Files) {
    forall k :: 0 <= k < |Targets(m)| && !IsRolloutFile(Targets(m)[k]) ==> SubTree(t, Targets(m)[k]) == SubTree(t0, Targets(m)[k])
  }

  lemma RecordsAreSeparate(root: Path, m: Manifest, t0: Files, t: Files, records: seq<Record>)
    requires IsReleaseDir(root) && |records| == |Targets(m)| && AllSaved(t0, t, Backup(root), Targets(m), records)
    ensures Separate(records)
    ensures SparedByAll(root, records)
  {
    hide IsTarget;
    hide SubTree;
    hide Elsewhere;
    hide Targets;
    hide Item;
    TargetsAreTargets(m);
    forall k, j: nat | 0 <= k < |records| ensures Apart(records[k].path, Item(Backup(root), j)) && Apart(records[k].path, Payload(root)) {
      TargetsElsewhere(Targets(m)[k]);
      ElsewhereSpares(root, Targets(m)[k]);
    }
    forall j, k | 0 <= j < |records| && 0 <= k < |records|
      ensures records[j].path == records[k].path || Apart(records[j].path, records[k].path)
    {
      if records[j].path != records[k].path {
        TargetsApart(Targets(m)[j], Targets(m)[k]);
      }
    }
    forall j, k | 0 <= j < |records| && 0 <= k < |records| ensures Apart(records[j].path, records[k].backup) {
      assert records[k].backup == Item(Backup(root), k);
    }
  }

  lemma RestoredTargets(root: Path, m: Manifest, t0: Files, t: Files, records: seq<Record>)
    requires Rooted(t0) && IsReleaseDir(root) && |records| == |Targets(m)| && AllSaved(t0, t, Backup(root), Targets(m), records)
    requires Separate(records)
    ensures forall k :: 0 <= k < |Targets(m)| ==> SubTree(RestoreAll(t, records), Targets(m)[k]) == SubTree(t0, Targets(m)[k])
  {
    hide SubTree;
    hide Targets;
    hide Saved;
    hide RestoreAll;
    forall k | 0 <= k < |Targets(m)| ensures SubTree(RestoreAll(t, records), Targets(m)[k]) == SubTree(t0, Targets(m)[k]) {
      RestoreGivesBack(t0, t, records, k);
      assert records[k].path == Targets(m)[k];
    }
  }

  /** Writing the rollout files again leaves every other target as it is. */
  lemma BackAfterRollout(m: Manifest, t0: Files, t: Files, t': Files)
    requires OnlyAt(t, t', {ROLLOUT_ENV, ROLLOUT_UNIT}) && TargetsBack(m, t0, t)
    ensures TargetsBack(m, t0, t')
  {
    hide OnlyAt;
    hide SubTree;
    hide Targets;
    hide IsTarget;
    TargetsAreTargets(m);
    KnownTargets();
    forall k | 0 <= k < |Targets(m)| && !IsRolloutFile(Targets(m)[k])
      ensures SubTree(t', Targets(m)[k]) == SubTree(t0, Targets(m)[k])
    {
      TargetsApart(ROLLOUT_ENV, Targets(m)[k]);
      TargetsApart(ROLLOUT_UNIT, Targets(m)[k]);
      PairStays(t, t', ROLLOUT_ENV, ROLLOUT_UNIT, Targets(m)[k]);
    }
  }

  lemma BackFromAll(m: Manifest, t0: Files, t: Files)
    requires forall k :: 0 <= k < |Targets(m)| ==> SubTree(t, Targets(m)[k]) == SubTree(t0, Targets(m)[k])
    ensures TargetsBack(m, t0, t)
  {
  }

  lemma RestoreKeeps(root: Path, t: Files, t': Files, records: seq<Record>)
    requires LeavesApart(t, t', records) && SparedByAll(root, records)
    ensures KeepsRelease(root, t, t')
  {
    hide SubTree;
    hide Item;
  }

  /** No recorded path is in the way of the payload or of a saved item. */
  ghost predicate SparedByAll(root: Path, records: seq<Record>) {
    ApartFromAll(records, Payload(root)) && forall j: nat :: ApartFromAll(records, Item(Backup(root), j))
  }

  /** The rollout file says paused, the drop-in is in force, and the backend was started from
      the installed binary under them. */
  predicate RestartedPaused(t: Files, inForce: bool, shadow: Option<Env>, backend: Option<Process>) {
    && SaysRollout(t) && RolloutOf(t) == PAUSED && SaysOverride(t) && inForce
    && backend.Some? && IsFile(t, SERVER) && backend.value.binary == t[SERVER].content
    && backend.value.env == LiveEnv(shadow, PAUSED)
  }

  /** A rollback does not look at the live gates: they are off exactly when no other drop-in
      has the last word, or that one turns them off as well. */
  predicate OffUnlessShadowed(shadow: Option<Env>, backend: Option<Process>) {
    backend.Some? && (GatesOff(backend.value.env) <==> shadow.None? || GatesOff(shadow.value))
  }

  // ------------------------------------------- every place, by its own path

  /** A place that is not in the release directory, a rollout file or a staging name, nor on the
      way to one, and not on the way to a place where something is installed. */
  predicate Preserved(root: Path, q: Path) {
    && Apart(root, q) && Apart(ROLLOUT_ENV, q) && Apart(ROLLOUT_UNIT, q)
    && Apart(Staged(SERVER), q) && Apart(Staged(BACKFILL), q) && Apart(Staged(HTTPD_CONFIG), q) && Apart(Staged(ADMIN_HTTPD_CONFIG), q)
    && (SERVER <= q || Apart(SERVER, q)) && (BACKFILL <= q || Apart(BACKFILL, q))
    && (HTTPD_CONFIG <= q || Apart(HTTPD_CONFIG, q)) && (ADMIN_HTTPD_CONFIG <= q || Apart(ADMIN_HTTPD_CONFIG, q))
    && (WWW_APP <= q || Apart(WWW_APP, q)) && (WWW_ADMIN <= q || Apart(WWW_ADMIN, q))
  }

  ghost predicate AllPreserved(root: Path, t0: Files, t: Files) {
    forall q :: Preserved(root, q) ==> SubTree(t, q) == SubTree(t0, q)
  }

  /** The binaries, the two configurations and the two web trees are such places. */
  lemma InstalledPlacesArePreserved(root: Path, p: Path)
    requires IsReleaseDir(root) && p in {SERVER, BACKFILL, HTTPD_CONFIG, ADMIN_HTTPD_CONFIG, WWW_APP, WWW_ADMIN}
    ensures Preserved(root, p)
  {
    KnownTargets();
    TargetsElsewhere(p);
    ElsewhereIsApart(p, root, "payload");
    NoRolloutFile(p);
    hide IsTarget;
    forall q | q in {SERVER, BACKFILL, HTTPD_CONFIG, ADMIN_HTTPD_CONFIG, WWW_APP, WWW_ADMIN, ROLLOUT_ENV, ROLLOUT_UNIT} && q != p ensures Apart(q, p) {
      TargetsApart(q, p);
    }
    forall q | q in {SERVER, BACKFILL, HTTPD_CONFIG, ADMIN_HTTPD_CONFIG} ensures Apart(Staged(q), p) {
      StagedApartFromTargets(q, p);
    }
    hide SERVER;
    hide BACKFILL;
    hide HTTPD_CONFIG;
    hide ADMIN_HTTPD_CONFIG;
    hide WWW_APP;
    hide WWW_ADMIN;
    hide ROLLOUT_ENV;
    hide ROLLOUT_UNIT;
    hide Staged;
    hide Apart;
  }

  lemma NoRolloutFile(p: Path)
    requires p in {SERVER, BACKFILL, HTTPD_CONFIG, ADMIN_HTTPD_CONFIG, WWW_APP, WWW_ADMIN}
    ensures p != ROLLOUT_ENV && p != ROLLOUT_UNIT
  {
    assert SERVER[2][0] == 's' && BACKFILL[2][0] == 'b' && ROLLOUT_ENV[2][0] == 'r';
    assert HTTPD_CONFIG[0][0] == 'e' && ROLLOUT_ENV[0][0] == 'a' && WWW_APP[0][0] == 'v';
  }

  lemma {:induction false} WebTargetThere(components: seq<string>, c: string)
    requires c in components && c != "backend"
    ensures WebDir(c) in WebTargets(components)
    decreases |components|
  {
    if components[|components| - 1] != c {
      WebTargetThere(components[..|components| - 1], c);
    }
  }

  /** Whatever the way forward writes to outside the release directory, by its final name, is a
      target of the snapshot. */
  lemma PlaceIsTarget(root: Path, m: Manifest, p: Path)
    requires p in Places(root, m) && p in {SERVER, BACKFILL, HTTPD_CONFIG, ADMIN_HTTPD_CONFIG, WWW_APP, WWW_ADMIN}
    requires p !in {Staged(HTTPD_CONFIG), Staged(ADMIN_HTTPD_CONFIG), Staged(SERVER), Staged(BACKFILL), ROLLOUT_ENV, ROLLOUT_UNIT, root}
    ensures p in Targets(m)
  {
    hide SERVER;
    hide BACKFILL;
    hide HTTPD_CONFIG;
    hide ADMIN_HTTPD_CONFIG;
    hide WWW_APP;
    hide WWW_ADMIN;
    hide ROLLOUT_ENV;
    hide ROLLOUT_UNIT;
    hide WebDir;
    hide Staged;
    assert Targets(m)[0] == HTTPD_CONFIG && Targets(m)[1] == ADMIN_HTTPD_CONFIG;
    if HasBackend(m) {
      assert Targets(m)[2] == SERVER && Targets(m)[3] == BACKFILL;
    }
    if c :| c in m.components && c != "backend" && p == WebDir(c) {
      WebTargetThere(m.components, c);
    }
  }

  lemma UnderTarget(m: Manifest, t0: Files, t: Files, p: Path, q: Path)
    requires p in Targets(m) && !IsRolloutFile(p) && p <= q && TargetsBack(m, t0, t)
    ensures SubTree(t, q) == SubTree(t0, q)
  {
    hide SubTree;
    hide Targets;
    var k :| 0 <= k < |Targets(m)| && Targets(m)[k] == p;
    assert p + q[|p|..] == q;
    SubTreeTwice(t0, p, q[|p|..]);
    SubTreeTwice(t, p, q[|p|..]);
  }

  /** What the snapshot covers is back and nothing else was touched: every place is as before. */
  lemma BackEverywhere(root: Path, m: Manifest, t0: Files, t: Files)
    requires LeavesBut(t0, t, Places(root, m)) && TargetsBack(m, t0, t)
    ensures AllPreserved(root, t0, t)
  {
    hide SubTree;
    hide Places;
    hide TargetsBack;
    forall q | Preserved(root, q) ensures SubTree(t, q) == SubTree(t0, q) {
      hide Preserved;
      if p :| p in Places(root, m) && !Apart(p, q) {
        PlacesAre(root, m, p);
        NotInTheWay(root, p, q);
        PlaceIsTarget(root, m, p);
        UnderTarget(m, t0, t, p, q);
      }
    }
  }

  lemma NotInTheWay(root: Path, p: Path, q: Path)
    requires Preserved(root, q) && !Apart(p, q)
    ensures p !in {Staged(HTTPD_CONFIG), Staged(ADMIN_HTTPD_CONFIG), Staged(SERVER), Staged(BACKFILL), ROLLOUT_ENV, ROLLOUT_UNIT, root}
    ensures p in {SERVER, BACKFILL, HTTPD_CONFIG, ADMIN_HTTPD_CONFIG, WWW_APP, WWW_ADMIN} ==> p <= q
  {
    hide SERVER;
    hide BACKFILL;
    hide HTTPD_CONFIG;
    hide ADMIN_HTTPD_CONFIG;
    hide WWW_APP;
    hide WWW_ADMIN;
    hide ROLLOUT_ENV;
    hide ROLLOUT_UNIT;
    hide Staged;
    hide Apart;
  }

  lemma PlacesAre(root: Path, m: Manifest, p: Path)
    requires p in Places(root, m)
    ensures p in {SERVER, BACKFILL, HTTPD_CONFIG, ADMIN_HTTPD_CONFIG, WWW_APP, WWW_ADMIN}
         || p in {Staged(HTTPD_CONFIG), Staged(ADMIN_HTTPD_CONFIG), Staged(SERVER), Staged(BACKFILL), ROLLOUT_ENV, ROLLOUT_UNIT, root}
  {
  }

  lemma {:induction false} WebTargetFrom(components: seq<string>, p: Path)
    requires p in WebTargets(components)
    ensures exists c :: c in components && c != "backend" && p == WebDir(c)
    decreases |components|
  {
    var front := components[..|components| - 1];
    if p in WebTargets(front) {
      WebTargetFrom(front, p);
      var c :| c in front && c != "backend" && p == WebDir(c);
      assert c in components;
    } else {
      assert components[|components| - 1] in components;
    }
  }

  lemma TargetsArePlaces(root: Path, m: Manifest, p: Path)
    requires p in Targets(m)
    ensures p in Places(root, m)
  {
    hide WebDir;
    if p in WebTargets(m.components) {
      WebTargetFrom(m.components, p);
    }
  }

  lemma RestoreLeavesRest(root: Path, m: Manifest, t: Files, t': Files, records: seq<Record>)
    requires LeavesApart(t, t', records) && |records| == |Targets(m)|
    requires forall k :: 0 <= k < |records| ==> records[k].path == Targets(m)[k]
    ensures LeavesBut(t, t', Places(root, m))
  {
    hide SubTree;
    hide Places;
    hide Targets;
    forall q | forall p :: p in Places(root, m) ==> Apart(p, q) ensures SubTree(t', q) == SubTree(t, q) {
      forall k | 0 <= k < |records| ensures Apart(records[k].path, q) {
        TargetsArePlaces(root, m, Targets(m)[k]);
      }
    }
  }

  lemma RecordsAre(root: Path, m: Manifest, t0: Files, t: Files, records: seq<Record>)
    requires |records| == |Targets(m)| && AllSaved(t0, t, Backup(root), Targets(m), records)
    ensures forall k :: 0 <= k < |records| ==> records[k].path == Targets(m)[k]
  {
  }

  method Rollback(h: Host, root: Path, m: Manifest, records: seq<Record>, ghost t0: Files) returns (ok: bool)
    requires Rooted(h.files) && Rooted(t0) && IsReleaseDir(root)
    requires |records| == |Targets(m)| && AllSaved(t0, h.files, Backup(root), Targets(m), records)
    modifies h
    ensures Rooted(h.files) && KeepsRelease(root, old(h.files), h.files)
    ensures Quiet(h.shadow, old(h.backend), h.backend) && (!HasBackend(m) ==> h.backend == old(h.backend))
    ensures ok ==> h.apache && TargetsBack(m, t0, h.files)
    ensures LeavesBut(old(h.files), h.files, Places(root, m))
    ensures ok && HasBackend(m) ==> RestartedPaused(h.files, h.inForce, h.shadow, h.backend) && OffUnlessShadowed(h.shadow, h.backend)
  {
    hide SubTree;
    hide OnlyAt;
    hide Rooted;
    hide KeepsRelease;
    hide IsReleaseDir;
    hide Targets;
    hide AllSaved;
    hide TargetsBack;
    hide Separate;
    hide RestoreAll;
    hide SaysRollout;
    hide SaysOverride;
    hide LeavesBut;
    ghost var t, ps := h.files, Places(root, m);
    NothingChanged(root, t);
    RecordsAre(root, m, t0, t, records);
    RecordsAreSeparate(root, m, t0, t, records);
    RestoredTargets(root, m, t0, t, records);
    ok := h.SwitchApache(false);
    if !ok { return; }
    if HasBackend(m) {
      ok := h.StopBackend();
      if !ok { return; }
    }
    ok := Restore(h, records);
    RestoreKeeps(root, t, h.files, records);
    RestoreLeavesRest(root, m, t, h.files, records);
    if !ok { return; }
    BackFromAll(m, t0, h.files);
    ghost var t1 := h.files;
    if HasBackend(m) {
      ok := h.SetRollout(PAUSED);
      RolloutSpares(root, t1, h.files);
      KeepsTrans(root, t, t1, h.files);
      ButAt(t1, h.files, {ROLLOUT_ENV, ROLLOUT_UNIT}, ps);
      ButTrans(t, t1, h.files, ps);
      if !ok { return; }
      BackAfterRollout(m, t0, t1, h.files);
    }
    ok := h.DaemonReload();
    if !ok { return; }
    if HasBackend(m) {
      ok := h.StartBackend();
      if !ok { return; }
    }
    ok := h.SwitchApache(true);
  }

  // ------------------------------------------------------------ the transaction

  /** It went through; it was refused before Apache was stopped; it failed and was undone; or
      undoing it failed too. */
  datatype Outcome = Deployed | Refused | RolledBack | Stuck

  lemma NewDirIsEmpty(t: Files, t': Files, p: Path)
    requires Rooted(t') && p != [] && t' == Graft(t, p, map[[] := Dir])
    ensures IsDir(t', p) && NoItemsFrom(t', p, 0)
  {
    GraftAt(t, p, map[[] := Dir], p);
    assert p[|p|..] == [];
    forall k: nat ensures Item(p, k) !in t' {
      GraftAt(t, p, map[[] := Dir], Item(p, k));
      assert Item(p, k)[|p|..] == [ItemName(k)];
    }
  }

  lemma BackupIsOutside(root: Path, m: Manifest)
    requires IsReleaseDir(root)
    ensures Outside(Backup(root), Targets(m)) && Apart(Backup(root), Payload(root))
  {
    hide Targets;
    TargetsAreTargets(m);
    hide IsTarget;
    hide Elsewhere;
    forall k | 0 <= k < |Targets(m)| ensures Targets(m)[k] != [] && Apart(Backup(root), Targets(m)[k]) {
      TargetsElsewhere(Targets(m)[k]);
      ElsewhereIsApart(Targets(m)[k], root, "backup");
      NotEmpty(Targets(m)[k]);
    }
    assert Backup(root)[3] == "backup" && Payload(root)[3] == "payload" && "backup"[0] != "payload"[0];
    DifferAt(Backup(root), Payload(root), 3);
  }

  lemma NotEmpty(p: Path)
    requires Elsewhere(p)
    ensures p != []
  {
  }

  /** While only the backup directory changes, targets and payload are the same. */
  lemma PreparingKeeps(root: Path, m: Manifest, t: Files, t': Files)
    requires IsReleaseDir(root) && OnlyAt(t, t', {Backup(root)})
    ensures forall k :: 0 <= k < |Targets(m)| ==> SubTree(t', Targets(m)[k]) == SubTree(t, Targets(m)[k])
    ensures SubTree(t', Payload(root)) == SubTree(t, Payload(root))
  {
    hide SubTree;
    hide OnlyAt;
    hide Targets;
    BackupIsOutside(root, m);
    forall k | 0 <= k < |Targets(m)| ensures SubTree(t', Targets(m)[k]) == SubTree(t, Targets(m)[k]) {
      ApartStays(t, t', Backup(root), Targets(m)[k]);
    }
    ApartStays(t, t', Backup(root), Payload(root));
  }

  lemma SamePayloadFile(root: Path, t0: Files, t1: Files, t: Files, rel: Path, dst: Path)
    requires SubTree(t1, Payload(root)) == SubTree(t0, Payload(root)) && Installed(root, t1, t, rel, dst)
    ensures Installed(root, t0, t, rel, dst)
  {
    hide SubTree;
    assert Artifacts(root) + rel == Payload(root) + (["artifacts"] + rel);
    SubTreeHas(t0, Payload(root), ["artifacts"] + rel);
    SubTreeHas(t1, Payload(root), ["artifacts"] + rel);
  }

  lemma SamePayloadWeb(root: Path, t0: Files, t1: Files, t: Files, component: string)
    requires SubTree(t1, Payload(root)) == SubTree(t0, Payload(root)) && WebInstalled(root, t1, t, component)
    ensures WebInstalled(root, t0, t, component)
  {
    hide SubTree;
    hide InstalledFrom;
    assert Artifacts(root) + [component] == Payload(root) + ["artifacts", component];
    SubTreeTwice(t0, Payload(root), ["artifacts", component]);
    SubTreeTwice(t1, Payload(root), ["artifacts", component]);
  }

  lemma SamePayload(root: Path, t0: Files, t1: Files, t: Files, stage: Stage)
    requires SubTree(t1, Payload(root)) == SubTree(t0, Payload(root)) && Done(root, t1, t, stage)
    ensures Done(root, t0, t, stage)
  {
    hide SubTree;
    hide Installed;
    hide WebInstalled;
    if stage.binaries {
      SamePayloadFile(root, t0, t1, t, ["backend", "server"], SERVER);
      SamePayloadFile(root, t0, t1, t, ["backend", "backfill"], BACKFILL);
    }
    if stage.app { SamePayloadWeb(root, t0, t1, t, "frontend"); }
    if stage.admin { SamePayloadWeb(root, t0, t1, t, "admin"); }
    if stage.config { SamePayloadFile(root, t0, t1, t, ["deploy", "httpd-alumni.conf"], HTTPD_CONFIG); }
    if stage.adminConfig { SamePayloadFile(root, t0, t1, t, ["deploy", "httpd-admin.conf"], ADMIN_HTTPD_CONFIG); }
  }

  lemma RestoreFileKeeps(root: Path, t0: Files, t: Files, t': Files, targets: seq<Path>, records: seq<Record>)
    requires IsReleaseDir(root) && OnlyAt(t, t', {Backup(root) + ["application-restore.json"]})
    requires AllSaved(t0, t, Backup(root), targets, records)
    ensures AllSaved(t0, t', Backup(root), targets, records) && OnlyAt(t, t', {Backup(root)})
  {
    hide OnlyAt;
    hide SubTree;
    hide AllSaved;
    hide Spares;
    hide KeepsRelease;
    DataSpares(root, "application-restore.json");
    SparingKeeps(root, t, t', {Backup(root) + ["application-restore.json"]});
    KeepsSaved(root, t0, t, t', targets, records);
    FrameAbove(t, t', Backup(root) + ["application-restore.json"], Backup(root));
  }

  /** The snapshot, with everything that may refuse the release before anything is stopped. */
  method Prepare(h: Host, root: Path, m: Manifest) returns (ok: bool, records: seq<Record>, ghost t0: Files)
    requires Rooted(h.files) && IsReleaseDir(root)
    modifies h`files, h`seen
    ensures Rooted(h.files) && OnlyAt(old(h.files), h.files, {Backup(root)})
    ensures ok ==> Rooted(t0) && OnlyAt(old(h.files), t0, {Backup(root)})
    ensures ok ==> |records| == |Targets(m)| && AllSaved(t0, h.files, Backup(root), Targets(m), records)
  {
    hide OnlyAt;
    hide Rooted;
    hide SubTree;
    hide Targets;
    hide AllSaved;
    hide Outside;
    hide Graft;
    records := [];
    ghost var t := h.files;
    t0 := t;
    BackupIsOutside(root, m);
    ok := h.MkDir(Backup(root));
    t0 := h.files;
    if !ok { return; }
    NewDirIsEmpty(t, t0, Backup(root));
    ok, records := SnapshotAll(h, Targets(m), Backup(root));
    ghost var t1 := h.files;
    SamePathTwice(t, t0, t1, Backup(root));
    if !ok { return; }
    var text: Content := *;
    ok := h.PutFile(Backup(root) + ["application-restore.json"], text);
    RestoreFileKeeps(root, t0, t1, h.files, Targets(m), records);
    SamePathTwice(t, t1, h.files, Backup(root));
  }

  ghost function StateOf(db: Migrations.Database): Migrations.State
    reads db
  {
    Migrations.State(db.history, db.executed)
  }

  /** One attempt at the pending migrations of this payload, or none. */
  ghost predicate Advances(scripts: seq<Migrations.Script>, s: Migrations.State, s': Migrations.State, complete: bool) {
    exists a :: Migrations.IsAttempt(Migrations.Sort(scripts), s, a, s')
      && (complete ==> var n := |Migrations.Unrecorded(Migrations.Sort(scripts), s.history)|; a == Migrations.Attempted(Migrations.Progress(n, n)))
  }

  lemma NoAdvance(scripts: seq<Migrations.Script>, s: Migrations.State)
    ensures Advances(scripts, s, s, false)
  {
    assert Migrations.IsAttempt(Migrations.Sort(scripts), s, Migrations.Refused, s);
  }

  lemma AdvanceBy(scripts: seq<Migrations.Script>, s: Migrations.State, p: Migrations.Progress, s': Migrations.State)
    requires var payload := Migrations.Sort(scripts);
             var pending := Migrations.Unrecorded(payload, s.history);
             && Migrations.Compatible(payload, s.history) && Migrations.Reached(pending, p)
             && s' == Migrations.State(s.history + pending[..p.done], s.executed + Migrations.NamesOf(pending[..p.tried]))
    ensures var n := |Migrations.Unrecorded(Migrations.Sort(scripts), s.history)|; Advances(scripts, s, s', p == Migrations.Progress(n, n))
  {
    assert Migrations.IsAttempt(Migrations.Sort(scripts), s, Migrations.Attempted(p), s');
  }

  /** An attempt never records a migration twice. */
  lemma AdvanceKeepsDistinct(scripts: seq<Migrations.Script>, s: Migrations.State, s': Migrations.State, complete: bool)
    requires Migrations.Distinct(scripts) && Migrations.Distinct(s.history) && Advances(scripts, s, s', complete)
    ensures Migrations.Distinct(s'.history)
  {
    hide Migrations.IsAttempt;
    hide Migrations.Sort;
    hide Migrations.Distinct;
    var a :| Migrations.IsAttempt(Migrations.Sort(scripts), s, a, s');
    Migrations.SortIs(scripts);
    Migrations.AttemptKeepsDistinct(Migrations.Sort(scripts), s, a, s');
  }

  lemma AdvanceWeakens(scripts: seq<Migrations.Script>, s: Migrations.State, s': Migrations.State, complete: bool)
    requires Advances(scripts, s, s', complete)
    ensures Advances(scripts, s, s', false)
  {
  }

  /** A release is deployed whole and verified with the erasure jobs paused; or it is refused
      and nothing changed; or it fails and, if the commands of the rollback succeed, every
      target but the rollout files has exactly its earlier existence and contents, and the
      rollout file says that every gate is off, whatever it said before. */
  method Deploy(h: Host, db: Migrations.Database, root: Path, m: Manifest, scripts: seq<Migrations.Script>, applySchema: bool)
    returns (r: Outcome)
    requires Rooted(h.files) && IsReleaseDir(root) && Migrations.Distinct(db.history) && Migrations.Distinct(scripts)
    modifies h, db
    ensures Migrations.Distinct(db.history)
    ensures Rooted(h.files) && Quiet(h.shadow, old(h.backend), h.backend)
    ensures !HasBackend(m) ==> h.backend == old(h.backend) && db.history == old(db.history) && db.executed == old(db.executed)
    ensures HasBackend(m) ==> Advances(scripts, old(StateOf(db)), StateOf(db), r == Deployed)
    ensures r == Refused ==> h.backend == old(h.backend) && h.inForce == old(h.inForce) && (h.apache ==> old(h.apache))
    ensures r == Refused ==> forall k :: 0 <= k < |Targets(m)| ==> SubTree(h.files, Targets(m)[k]) == SubTree(old(h.files), Targets(m)[k])
    ensures r == Deployed ==> h.apache && Done(root, old(h.files), h.files, FullStage(m)) && (HasBackend(m) ==> RunsPaused(m, h.backend))
    ensures r == Deployed && HasBackend(m) ==> h.backend.Some? && h.backend.value.env == LiveEnv(h.shadow, PAUSED)
    ensures r == RolledBack ==> h.apache && TargetsBack(m, old(h.files), h.files)
    ensures r == Refused || r == RolledBack ==> AllPreserved(root, old(h.files), h.files)
    ensures LeavesBut(old(h.files), h.files, Places(root, m))
    ensures !applySchema ==> db.history == old(db.history) && db.executed == old(db.executed)
    ensures r == RolledBack && HasBackend(m) ==> RestartedPaused(h.files, h.inForce, h.shadow, h.backend) && OffUnlessShadowed(h.shadow, h.backend)
  {
    hide OnlyAt;
    hide Rooted;
    hide SubTree;
    hide Targets;
    hide AllSaved;
    hide KeepsRelease;
    hide Done;
    hide TargetsBack;
    hide RestartedPaused;
    hide OffUnlessShadowed;
    hide LeavesBut;
    hide AllPreserved;
    hide Places;
    hide RunsPaused;
    hide Advances;
    hide Migrations.Distinct;
    hide Migrations.Sort;
    ghost var s := StateOf(db);
    NoAdvance(scripts, s);
    NothingChanged(root, h.files);
    AllPreservedSame(root, h.files);
    var env := h.ProcessEnvironment();
    if env.None? { return Refused; }
    var found := Migrations.Pending(scripts, db.history, HasBackend(m), m.minimumWebMigration);
    if found.None? { return Refused; }
    var pending := found.value;
    if pending != [] && !applySchema { return Refused; }
    var admitted: bool := *;
    if !admitted { return Refused; }
    ghost var t := h.files;
    var ok, records;
    ghost var t0;
    ok, records, t0 := Prepare(h, root, m);
    PreparingKeeps(root, m, t, h.files);
    RootInPlaces(root, m);
    ButBelow(t, h.files, Backup(root), root, Places(root, m));
    AllBack(root, m, t, h.files);
    if !ok { return Refused; }
    PreparingKeeps(root, m, t, t0);
    ghost var t1 := h.files;
    var stopped;
    ghost var p;
    ok, stopped, p := Forward(h, db, root, m, pending);
    ButTrans(t, t1, h.files, Places(root, m));
    if HasBackend(m) {
      AdvanceBy(scripts, s, p, StateOf(db));
      AdvanceWeakens(scripts, s, StateOf(db), ok && p == Migrations.Progress(|pending|, |pending|));
      AdvanceKeepsDistinct(scripts, s, StateOf(db), false);
    } else {
      assert db.history == s.history;
    }
    if ok {
      SamePayload(root, t, t1, h.files, FullStage(m));
      return Deployed;
    }
    if !stopped { return Refused; }
    KeepsSaved(root, t0, t1, h.files, Targets(m), records);
    ghost var t2 := h.files;
    ok := Rollback(h, root, m, records, t0);
    ButTrans(t, t2, h.files, Places(root, m));
    SameBase(m, t, t0, h.files);
    if ok { BackEverywhere(root, m, t, h.files); }
    return if ok then RolledBack else Stuck;
  }

  lemma AllPreservedSame(root: Path, t: Files)
    ensures AllPreserved(root, t, t)
  {
  }

  lemma RootInPlaces(root: Path, m: Manifest)
    ensures root in Places(root, m) && root <= Backup(root)
  {
  }

  lemma AllBack(root: Path, m: Manifest, t: Files, t': Files)
    requires forall k :: 0 <= k < |Targets(m)| ==> SubTree(t', Targets(m)[k]) == SubTree(t, Targets(m)[k])
    requires LeavesBut(t, t', Places(root, m))
    ensures AllPreserved(root, t, t')
  {
    hide LeavesBut;
    hide AllPreserved;
    hide Targets;
    hide SubTree;
    BackEverywhere(root, m, t, t');
  }

  lemma SameBase(m: Manifest, t: Files, t0: Files, t': Files)
    requires forall k :: 0 <= k < |Targets(m)| ==> SubTree(t0, Targets(m)[k]) == SubTree(t, Targets(m)[k])
    ensures TargetsBack(m, t0, t') ==> TargetsBack(m, t, t')
  {
  }

  /** On a host whose other drop-in turns erasure on, a backend is never deployed, because the
      live gates are looked at before that.  A rollback does not look at them: a deployment that
      ends so leaves the backend running with the gates on, though the rollout file says paused. */
  method DeployShadowed(h: Host, db: Migrations.Database, root: Path, m: Manifest, scripts: seq<Migrations.Script>, applySchema: bool)
    returns (r: Outcome)
    requires Rooted(h.files) && IsReleaseDir(root) && Migrations.Distinct(db.history) && Migrations.Distinct(scripts)
    requires HasBackend(m) && h.shadow == Some(EnvOf(Rollout(true, 0, false)))
    modifies h, db
    ensures r != Deployed
    ensures r == RolledBack ==> SaysRollout(h.files) && RolloutOf(h.files) == PAUSED && h.backend.Some? && !GatesOff(h.backend.value.env)
  {
    hide Rooted;
    hide IsReleaseDir;
    hide TargetsBack;
    hide Advances;
    hide Done;
    hide Targets;
    hide Migrations.Distinct;
    r := Deploy(h, db, root, m, scripts, applySchema);
  }
}
