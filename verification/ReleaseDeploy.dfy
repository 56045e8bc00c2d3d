/** `deploy` of deploy/remote_release.py: stop, change, verify, and on any failure put
    everything back with the erasure jobs paused. */
module ReleaseDeploy {
  import opened Wrappers
  import opened FileTree
  import opened ReleaseHost
  import opened ReleaseSnapshot
  import opened WebOrder
  import opened WebInstall
  import Migrations

  /** `files` gives each artifact's digest, which stands for its contents. */
  datatype Manifest = Manifest(format: int, commit: string, components: seq<string>, files: map<string, Content>, minimumWebMigration: string)

  const WWW_APP: Path := ["var", "www", "app"]
  const WWW_ADMIN: Path := ["var", "www", "admin"]

  function WebDir(component: string): Path {
    if component == "frontend" then WWW_APP else WWW_ADMIN
  }

  predicate HasBackend(m: Manifest) {
    "backend" in m.components
  }

  function WebTargets(components: seq<string>): seq<Path> {
    if components == [] then []
    else WebTargets(components[..|components| - 1])
         + (if components[|components| - 1] == "backend" then [] else [WebDir(components[|components| - 1])])
  }

  function Targets(m: Manifest): seq<Path> {
    [HTTPD_CONFIG, ADMIN_HTTPD_CONFIG]
    + (if HasBackend(m) then [SERVER, BACKFILL, ROLLOUT_ENV, ROLLOUT_UNIT] else [])
    + WebTargets(m.components)
  }

  predicate IsTarget(p: Path) {
    || p == HTTPD_CONFIG || p == ADMIN_HTTPD_CONFIG || p == SERVER || p == BACKFILL
    || p == ROLLOUT_ENV || p == ROLLOUT_UNIT || p == WWW_APP || p == WWW_ADMIN
  }

  lemma {:induction false} WebTargetsAre(components: seq<string>, k: nat)
    requires k < |WebTargets(components)|
    ensures WebTargets(components)[k] == WWW_APP || WebTargets(components)[k] == WWW_ADMIN
    decreases |components|
  {
    var front := components[..|components| - 1];
    if k < |WebTargets(front)| {
      WebTargetsAre(front, k);
    }
  }

  lemma TargetsAreTargets(m: Manifest)
    ensures forall k :: 0 <= k < |Targets(m)| ==> IsTarget(Targets(m)[k])
  {
    hide IsTarget;
    KnownTargets();
    forall k | 0 <= k < |Targets(m)| ensures IsTarget(Targets(m)[k]) {
      var n := if HasBackend(m) then 6 else 2;
      if k >= n {
        WebTargetsAre(m.components, k - n);
      }
    }
  }

  lemma KnownTargets()
    ensures IsTarget(HTTPD_CONFIG) && IsTarget(ADMIN_HTTPD_CONFIG) && IsTarget(SERVER) && IsTarget(BACKFILL)
    ensures IsTarget(ROLLOUT_ENV) && IsTarget(ROLLOUT_UNIT) && IsTarget(WWW_APP) && IsTarget(WWW_ADMIN)
  {
  }

  // ------------------------------------------------------------ where things are

  /** Releases live in /app/releases, each in a directory of its own. */
  predicate IsReleaseDir(root: Path) {
    |root| == 3 && root[0] == "app" && root[1] == "releases"
  }

  /** A place that no release directory shares. */
  predicate Elsewhere(p: Path) {
    |p| >= 3 && (p[0] != "app" || p[1] != "releases")
  }

  lemma TargetsElsewhere(p: Path)
    requires IsTarget(p)
    ensures Elsewhere(p)
  {
    assert "app"[0] == 'a' && "etc"[0] == 'e' && "var"[0] == 'v';
    assert "backend"[0] == 'b' && "releases"[0] == 'r';
  }

  lemma ElsewhereIsApart(p: Path, root: Path, name: string)
    requires Elsewhere(p) && IsReleaseDir(root)
    ensures Apart(p, root + [name]) && Apart(root + [name], p) && Apart(p, root)
    ensures Elsewhere(Staged(p)) && Apart(Staged(p), root + [name])
  {
    var k := if p[0] != "app" then 0 else 1;
    DifferAt(p, root + [name], k);
    DifferAt(p, root, k);
    assert Staged(p)[k] == p[k];
    DifferAt(Staged(p), root + [name], k);
  }

  lemma SameLengthApart(p: Path, q: Path)
    requires |p| == |q| && p != q
    ensures Apart(p, q)
  {
  }

  lemma TargetsApart(p: Path, q: Path)
    requires IsTarget(p) && IsTarget(q) && p != q
    ensures Apart(p, q)
  {
    if |p| == |q| {
      SameLengthApart(p, q);
    } else {
      assert "app"[0] == 'a' && "etc"[0] == 'e' && "var"[0] == 'v' && "httpd"[0] == 'h' && "systemd"[0] == 's';
      var k := if p[0] != q[0] then 0 else 1;
      DifferAt(p, q, k);
    }
  }

  function Artifacts(root: Path): Path {
    root + ["payload"] + ["artifacts"]
  }

  function Backup(root: Path): Path {
    root + ["backup"]
  }

  function Payload(root: Path): Path {
    root + ["payload"]
  }

  // ------------------------------------------------- the copies stay as they are

  /** A place away from the payload and from every saved item. */
  ghost predicate Spares(root: Path, p: Path) {
    Apart(p, Payload(root)) && forall k: nat :: Apart(p, Item(Backup(root), k))
  }

  /** The payload and every saved item are unchanged. */
  ghost predicate KeepsRelease(root: Path, t: Files, t': Files) {
    && SubTree(t', Payload(root)) == SubTree(t, Payload(root))
    && forall k: nat :: SubTree(t', Item(Backup(root), k)) == SubTree(t, Item(Backup(root), k))
  }

  lemma SparingKeeps(root: Path, t: Files, t': Files, ps: set<Path>)
    requires OnlyAt(t, t', ps) && forall p :: p in ps ==> Spares(root, p)
    ensures KeepsRelease(root, t, t')
  {
    hide SubTree;
    hide Item;
  }

  lemma ElsewhereSpares(root: Path, p: Path)
    requires Elsewhere(p) && IsReleaseDir(root)
    ensures Spares(root, p) && Spares(root, Staged(p))
  {
    ElsewhereIsApart(p, root, "payload");
    ElsewhereIsApart(p, root, "backup");
    forall k: nat ensures Apart(p, Item(Backup(root), k)) && Apart(Staged(p), Item(Backup(root), k)) {
      ApartBelow(p, Backup(root), [ItemName(k)]);
      ApartBelow(Staged(p), Backup(root), [ItemName(k)]);
    }
  }

  /** Recovery data written beside the items. */
  lemma DataSpares(root: Path, name: string)
    requires IsReleaseDir(root) && name != "" && name[0] != 'i'
    ensures Spares(root, Backup(root) + [name])
  {
    assert Backup(root)[3] == "backup" && Payload(root)[3] == "payload" && "backup"[0] != "payload"[0];
    DifferAt(Backup(root) + [name], Payload(root), 3);
    forall k: nat ensures Apart(Backup(root) + [name], Item(Backup(root), k)) {
      assert ItemName(k)[0] == 'i';
      DifferAt(Backup(root) + [name], Item(Backup(root), k), 4);
    }
  }

  lemma ResultSpares(root: Path)
    requires IsReleaseDir(root)
    ensures Spares(root, root + ["result.json"])
  {
    var p := root + ["result.json"];
    assert p[3][0] == 'r' && Payload(root)[3][0] == 'p';
    DifferAt(p, Payload(root), 3);
    forall k: nat ensures Apart(p, Item(Backup(root), k)) {
      assert Item(Backup(root), k)[3] == "backup" && "backup"[0] == 'b';
      DifferAt(p, Item(Backup(root), k), 3);
    }
  }

  lemma KeepsTrans(root: Path, t: Files, t1: Files, t2: Files)
    requires KeepsRelease(root, t, t1) && KeepsRelease(root, t1, t2)
    ensures KeepsRelease(root, t, t2)
  {
  }

  lemma KeepsSaved(root: Path, t0: Files, t: Files, t': Files, targets: seq<Path>, records: seq<Record>)
    requires AllSaved(t0, t, Backup(root), targets, records) && KeepsRelease(root, t, t')
    ensures AllSaved(t0, t', Backup(root), targets, records)
  {
    hide SubTree;
    hide Item;
    forall k | 0 <= k < |records| ensures Saved(t0, t', records[k]) {
      assert records[k].backup == Item(Backup(root), k);
    }
  }

  // --------------------------------------------------- what else stays as it is

  /** Nothing changed but at these paths, below them and above them. */
  ghost predicate LeavesBut(t: Files, t': Files, ps: set<Path>) {
    forall q :: (forall p :: p in ps ==> Apart(p, q)) ==> SubTree(t', q) == SubTree(t, q)
  }

  /** The places the backend half of a deployment writes to, staging names included. */
  function BackendPlaces(root: Path): set<Path> {
    {root, SERVER, Staged(SERVER), BACKFILL, Staged(BACKFILL), ROLLOUT_ENV, ROLLOUT_UNIT}
  }

  function Places(root: Path, m: Manifest): set<Path> {
    {root, HTTPD_CONFIG, Staged(HTTPD_CONFIG), ADMIN_HTTPD_CONFIG, Staged(ADMIN_HTTPD_CONFIG)}
    + (if HasBackend(m) then BackendPlaces(root) else {})
    + (set c | c in m.components && c != "backend" :: WebDir(c))
  }

  lemma ButTrans(t: Files, t1: Files, t2: Files, ps: set<Path>)
    requires LeavesBut(t, t1, ps) && LeavesBut(t1, t2, ps)
    ensures LeavesBut(t, t2, ps)
  {
    hide SubTree;
    hide Apart;
  }

  lemma ButMore(t: Files, t': Files, ps: set<Path>, more: set<Path>)
    requires LeavesBut(t, t', ps) && ps <= more
    ensures LeavesBut(t, t', more)
  {
    hide SubTree;
    hide Apart;
  }

  lemma ButAt(t: Files, t': Files, ps: set<Path>, more: set<Path>)
    requires OnlyAt(t, t', ps) && ps <= more
    ensures LeavesBut(t, t', more)
  {
    hide SubTree;
    hide Apart;
  }

  lemma ButBelow(t: Files, t': Files, p: Path, above: Path, more: set<Path>)
    requires OnlyAt(t, t', {p}) && above <= p && above in more
    ensures LeavesBut(t, t', more)
  {
    FrameAbove(t, t', p, above);
    ButAt(t, t', {above}, more);
  }

  lemma ButUnder(t: Files, t': Files, dest: Path, more: set<Path>)
    requires OnlyUnder(t, t', dest) && dest in more
    ensures LeavesBut(t, t', more)
  {
    hide SubTree;
  }

  // ---------------------------------------------------------- what got installed

  /** The payload's file `rel` is at `dst`. */
  predicate Installed(root: Path, t0: Files, t: Files, rel: Path, dst: Path) {
    IsFile(t0, Artifacts(root) + rel) && SubTree(t, dst) == FileOf(t0[Artifacts(root) + rel].content)
  }

  lemma PayloadFile(root: Path, t0: Files, t: Files, rel: Path)
    requires KeepsRelease(root, t0, t)
    ensures IsFile(t, Artifacts(root) + rel) <==> IsFile(t0, Artifacts(root) + rel)
    ensures IsFile(t, Artifacts(root) + rel) ==> t[Artifacts(root) + rel] == t0[Artifacts(root) + rel]
  {
    var r := ["artifacts"] + rel;
    assert Artifacts(root) + rel == Payload(root) + r;
    SubTreeHas(t0, Payload(root), r);
    SubTreeHas(t, Payload(root), r);
    hide SubTree;
  }

  /** Of the two, the file that was at `dst` or the payload's is there at any moment. */
  method Install(h: Host, root: Path, rel: Path, dst: Path, ghost t0: Files) returns (ok: bool)
    requires Rooted(h.files) && IsReleaseDir(root) && IsTarget(dst) && KeepsRelease(root, t0, h.files)
    modifies h`files, h`seen
    ensures Rooted(h.files) && OnlyAt(old(h.files), h.files, {Staged(dst), dst}) && KeepsRelease(root, t0, h.files)
    ensures ok ==> Installed(root, t0, h.files, rel, dst)
  {
    hide SubTree;
    hide OnlyAt;
    hide Rooted;
    hide KeepsRelease;
    hide IsReleaseDir;
    hide Spares;
    TargetsElsewhere(dst);
    hide IsTarget;
    ElsewhereSpares(root, dst);
    ghost var t := h.files;
    PayloadFile(root, t0, t, rel);
    ok := h.InstallFile(Artifacts(root) + rel, dst);
    SparingKeeps(root, t, h.files, {Staged(dst), dst});
    KeepsTrans(root, t0, t, h.files);
  }

  // ---------------------------------------------------------- the way forward

  /** The backend was never stopped, is down, or runs paused as far as our drop-in decides. */
  predicate Quiet(shadow: Option<Env>, before: Option<Process>, now: Option<Process>) {
    now == before || now == None || now.value.env == LiveEnv(shadow, PAUSED)
  }

  predicate GatesOff(env: Env) {
    env.requests == Off && env.worker == Off && env.retention == Off
  }

  const RECOVERY: seq<string> := ["database.sql.gz", "uploads-0.tar.gz", "uploads-1.tar.gz", "data-checksums.json"]

  /** The dump, the archives and their checksums have been written; there is one archive when
      the two upload directories are the same. */
  predicate RecoveryReady(root: Path, t: Files) {
    IsFile(t, Backup(root) + ["database.sql.gz"]) && IsFile(t, Backup(root) + ["uploads-0.tar.gz"]) && IsFile(t, Backup(root) + ["data-checksums.json"])
  }

  /** The first `k` of the files are there, save a second archive that is not wanted. */
  predicate Recovered(root: Path, t: Files, k: nat, single: bool)
    requires k <= |RECOVERY|
  {
    forall j :: 0 <= j < k && !(single && j == 2) ==> IsFile(t, Backup(root) + [RECOVERY[j]])
  }

  lemma RecoveryApart(root: Path, j: nat, k: nat)
    requires j < |RECOVERY| && k < |RECOVERY| && j != k
    ensures Apart(Backup(root) + [RECOVERY[j]], Backup(root) + [RECOVERY[k]])
  {
    assert RECOVERY[j][0] != RECOVERY[k][0] || RECOVERY[j][1] != RECOVERY[k][1] || RECOVERY[j][8] != RECOVERY[k][8];
    DifferAt(Backup(root) + [RECOVERY[j]], Backup(root) + [RECOVERY[k]], |root| + 1);
  }

  lemma RecoveryStays(root: Path, t: Files, t': Files, k: nat, single: bool)
    requires k < |RECOVERY| && OnlyAt(t, t', {Backup(root) + [RECOVERY[k]]}) && Recovered(root, t, k, single)
    ensures Recovered(root, t', k, single)
  {
    hide RECOVERY;
    forall j | 0 <= j < k && !(single && j == 2) ensures IsFile(t', Backup(root) + [RECOVERY[j]]) {
      RecoveryApart(root, j, k);
      StaysAt(t, t', Backup(root) + [RECOVERY[k]], Backup(root) + [RECOVERY[j]]);
    }
  }

  lemma RecoveryIsReady(root: Path, t: Files, single: bool)
    requires Recovered(root, t, |RECOVERY|, single)
    ensures RecoveryReady(root, t)
  {
    assert RECOVERY[0] == "database.sql.gz" && RECOVERY[1] == "uploads-0.tar.gz" && RECOVERY[3] == "data-checksums.json";
  }

  lemma RecoveryNames(root: Path, k: nat)
    requires IsReleaseDir(root) && k < |RECOVERY|
    ensures Spares(root, Backup(root) + [RECOVERY[k]])
  {
    hide Spares;
    assert RECOVERY[k] != "" && RECOVERY[k][0] != 'i';
    DataSpares(root, RECOVERY[k]);
  }

  /** A dump, archives and their checksums, written beside the saved items. */
  method DatabaseBackup(h: Host, root: Path) returns (ok: bool)
    requires Rooted(h.files) && IsReleaseDir(root)
    modifies h`files, h`seen
    ensures Rooted(h.files) && KeepsRelease(root, old(h.files), h.files) && LeavesBut(old(h.files), h.files, {root})
    ensures ok ==> RecoveryReady(root, h.files)
  {
    hide SubTree;
    hide OnlyAt;
    hide Rooted;
    hide Spares;
    hide KeepsRelease;
    hide LeavesBut;
    hide RecoveryReady;
    hide RECOVERY;
    ok := true;
    ghost var t0 := h.files;
    NothingChanged(root, t0);
    var single: bool := *;
    for k := 0 to |RECOVERY|
      invariant Rooted(h.files) && KeepsRelease(root, t0, h.files) && LeavesBut(t0, h.files, {root})
      invariant Recovered(root, h.files, k, single)
    {
      if k == 2 && single { continue; }
      RecoveryNames(root, k);
      ghost var t := h.files;
      var data: Content := *;
      ok := h.PutFile(Backup(root) + [RECOVERY[k]], data);
      SparingKeeps(root, t, h.files, {Backup(root) + [RECOVERY[k]]});
      KeepsTrans(root, t0, t, h.files);
      ButBelow(t, h.files, Backup(root) + [RECOVERY[k]], root, {root});
      ButTrans(t0, t, h.files, {root});
      if !ok { return; }
      RecoveryStays(root, t, h.files, k, single);
      GraftedFile(t, Backup(root) + [RECOVERY[k]], data);
    }
    RecoveryIsReady(root, h.files, single);
    ok := *;
  }

  lemma NothingChanged(root: Path, t: Files)
    ensures KeepsRelease(root, t, t) && forall ps :: LeavesBut(t, t, ps)
  {
  }

  /** The pending migrations run with the backend down and the recovery data written. */
  method MigrateStopped(h: Host, db: Migrations.Database, root: Path, pending: seq<Migrations.Script>)
    returns (ok: bool, ghost p: Migrations.Progress)
    requires h.backend == None && RecoveryReady(root, h.files)
    modifies db
    ensures Migrations.Reached(pending, p)
    ensures db.history == old(db.history) + pending[..p.done] && db.executed == old(db.executed) + Migrations.NamesOf(pending[..p.tried])
    ensures ok ==> p == Migrations.Progress(|pending|, |pending|)
  {
    ok, p := db.ApplyMigrations(pending);
  }

  method DeployBackend(h: Host, db: Migrations.Database, root: Path, m: Manifest, pending: seq<Migrations.Script>, ghost t0: Files)
    returns (ok: bool, ghost p: Migrations.Progress)
    requires Rooted(h.files) && IsReleaseDir(root) && KeepsRelease(root, t0, h.files)
    modifies h`files, h`seen, h`inForce, h`backend, db
    ensures Rooted(h.files) && KeepsRelease(root, t0, h.files)
    ensures Quiet(h.shadow, old(h.backend), h.backend)
    ensures Migrations.Reached(pending, p)
    ensures db.history == old(db.history) + pending[..p.done] && db.executed == old(db.executed) + Migrations.NamesOf(pending[..p.tried])
    ensures ok ==> p == Migrations.Progress(|pending|, |pending|)
    ensures ok ==> Installed(root, t0, h.files, ["backend", "server"], SERVER) && Installed(root, t0, h.files, ["backend", "backfill"], BACKFILL)
    ensures ok ==> "backend/server" in m.files && h.backend.Some? && GatesOff(h.backend.value.env) && h.backend.value.binary == m.files["backend/server"]
    ensures ok ==> h.backend.value.env == LiveEnv(h.shadow, PAUSED)
    ensures LeavesBut(old(h.files), h.files, BackendPlaces(root))
  {
    hide LeavesBut;
    hide SubTree;
    hide OnlyAt;
    hide Rooted;
    hide KeepsRelease;
    hide IsReleaseDir;
    hide Spares;
    hide SaysRollout;
    hide SaysOverride;
    p := Migrations.Progress(0, 0);
    assert pending[..0] == [] && Migrations.NamesOf(pending[..0]) == [];
    KnownTargets();
    hide IsTarget;
    ghost var start, ps := h.files, BackendPlaces(root);
    NothingChanged(root, start);
    ok := h.StopBackend();
    if !ok { return; }
    ghost var t := h.files;
    ok := DatabaseBackup(h, root);
    KeepsTrans(root, t0, t, h.files);
    ButMore(t, h.files, {root}, ps);
    if !ok { return; }
    ok, p := MigrateStopped(h, db, root, pending);
    if !ok { return; }
    t := h.files;
    ok := h.SetRollout(PAUSED);
    RolloutSpares(root, t, h.files);
    KeepsTrans(root, t0, t, h.files);
    ButAt(t, h.files, {ROLLOUT_ENV, ROLLOUT_UNIT}, ps);
    ButTrans(start, t, h.files, ps);
    if !ok { return; }
    ghost var t1 := h.files;
    ok := Install(h, root, ["backend", "server"], SERVER, t0);
    RolloutStays(t1, h.files, SERVER);
    ButAt(t1, h.files, {Staged(SERVER), SERVER}, ps);
    ButTrans(start, t1, h.files, ps);
    if !ok { return; }
    ghost var t2 := h.files;
    ok := Install(h, root, ["backend", "backfill"], BACKFILL, t0);
    RolloutStays(t2, h.files, BACKFILL);
    ButAt(t2, h.files, {Staged(BACKFILL), BACKFILL}, ps);
    ButTrans(start, t2, h.files, ps);
    if !ok { return; }
    InstalledStays(root, t0, t2, h.files, ["backend", "server"], SERVER, BACKFILL);
    ok := h.StartBackend();
    if !ok { return; }
    ok := *;
    if !ok { return; }
    var live := h.ProcessEnvironment();
    if live.None? || !GatesOff(live.value) { return false, p; }
    if "backend/server" !in m.files || h.backend.value.binary != m.files["backend/server"] { return false, p; }
  }

  lemma RolloutSpares(root: Path, t: Files, t': Files)
    requires IsReleaseDir(root) && OnlyAt(t, t', {ROLLOUT_ENV, ROLLOUT_UNIT})
    ensures KeepsRelease(root, t, t')
  {
    hide Spares;
    hide OnlyAt;
    hide KeepsRelease;
    TargetsElsewhere(ROLLOUT_ENV);
    TargetsElsewhere(ROLLOUT_UNIT);
    ElsewhereSpares(root, ROLLOUT_ENV);
    ElsewhereSpares(root, ROLLOUT_UNIT);
    SparingKeeps(root, t, t', {ROLLOUT_ENV, ROLLOUT_UNIT});
  }

  /** A staging name is no target and lies apart from all of them. */
  lemma StagedApartFromTargets(p: Path, q: Path)
    requires IsTarget(p) && IsTarget(q)
    ensures Apart(Staged(p), q)
  {
    if |p| == |q| {
      LastCharDiffers(p, q);
      SameLengthApart(Staged(p), q);
    } else {
      TargetsApart(p, q);
      var k := if p[0] != q[0] then 0 else 1;
      assert "app"[0] == 'a' && "etc"[0] == 'e' && "var"[0] == 'v' && "httpd"[0] == 'h' && "systemd"[0] == 's';
      assert Staged(p)[k] == p[k];
      DifferAt(Staged(p), q, k);
    }
  }

  lemma LastCharDiffers(p: Path, q: Path)
    requires IsTarget(p) && IsTarget(q) && |p| == |q|
    ensures Staged(p) != q
  {
    var a, b := Staged(p)[|p| - 1], q[|q| - 1];
    assert ".release-new"[11] == 'w';
    assert a[|a| - 1] == 'w';
    assert b[|b| - 1] != 'w';
  }

  lemma TwoApartStays(t: Files, t': Files, dst: Path, q: Path)
    requires IsTarget(dst) && IsTarget(q) && dst != q && OnlyAt(t, t', {Staged(dst), dst})
    ensures SubTree(t', q) == SubTree(t, q)
    ensures q in t ==> q in t' && t'[q] == t[q]
  {
    hide OnlyAt;
    hide IsTarget;
    hide Staged;
    StagedApartFromTargets(dst, q);
    TargetsApart(dst, q);
    PairStays(t, t', Staged(dst), dst, q);
  }

  lemma PairStays(t: Files, t': Files, a: Path, b: Path, q: Path)
    requires OnlyAt(t, t', {a, b}) && Apart(a, q) && Apart(b, q)
    ensures SubTree(t', q) == SubTree(t, q)
    ensures q in t ==> q in t' && t'[q] == t[q]
  {
    hide SubTree;
    hide Rooted;
    var ps := {a, b};
    assert forall p :: p in ps ==> Apart(p, q) && !(p <= q);
  }

  lemma RolloutStays(t: Files, t': Files, dst: Path)
    requires (dst == SERVER || dst == BACKFILL) && OnlyAt(t, t', {Staged(dst), dst})
    ensures SaysRollout(t) ==> SaysRollout(t') && RolloutOf(t') == RolloutOf(t)
  {
    hide OnlyAt;
    KnownTargets();
    hide IsTarget;
    assert dst[2][0] != ROLLOUT_ENV[2][0];
    TwoApartStays(t, t', dst, ROLLOUT_ENV);
  }

  lemma InstalledStays(root: Path, t0: Files, t: Files, t': Files, rel: Path, q: Path, dst: Path)
    requires IsTarget(dst) && IsTarget(q) && dst != q && OnlyAt(t, t', {Staged(dst), dst})
    requires Installed(root, t0, t, rel, q)
    ensures Installed(root, t0, t', rel, q)
  {
    hide OnlyAt;
    TwoApartStays(t, t', dst, q);
  }

  /** The page of a component is in place, and of its assets exactly those whose place did not
      serve for staging another file after them; all of them if the source has no clash. */
  ghost predicate WebInstalled(root: Path, t0: Files, t: Files, component: string) {
    exists order :: InstalledFrom(SubTree(t0, Artifacts(root) + [component]), t, WebDir(component), order)
  }

  ghost predicate InstalledFrom(src: Files, t: Files, dest: Path, order: seq<Path>) {
    && Lists(order, Assets(src)) && IsFile(src, INDEX) && !Blocked(src) && Placed(src, t, dest, INDEX)
    && forall s :: s in Assets(src) ==> (Placed(src, t, dest, s) <==> !Hit(order + [INDEX], s))
  }

  /** Without a clash every asset is in place. */
  lemma NoClashWebComplete(root: Path, t0: Files, t: Files, component: string)
    requires WebInstalled(root, t0, t, component) && !Clashes(SubTree(t0, Artifacts(root) + [component]))
    ensures AllPlaced(SubTree(t0, Artifacts(root) + [component]), t, WebDir(component))
  {
    hide SubTree;
    hide Clashes;
    hide Hit;
    hide Blocked;
    hide WebDir;
    var src := SubTree(t0, Artifacts(root) + [component]);
    var order :| InstalledFrom(src, t, WebDir(component), order);
    RunIsToInstall(src, order);
    forall s | s in Assets(src) ensures Placed(src, t, WebDir(component), s) {
      NoClashNoHit(src, order + [INDEX], s);
    }
  }

  lemma PayloadPart(root: Path, t0: Files, t: Files, component: string)
    requires KeepsRelease(root, t0, t)
    ensures SubTree(t, Artifacts(root) + [component]) == SubTree(t0, Artifacts(root) + [component])
  {
    hide SubTree;
    assert Artifacts(root) + [component] == Payload(root) + ["artifacts", component];
    SubTreeTwice(t0, Payload(root), ["artifacts", component]);
    SubTreeTwice(t, Payload(root), ["artifacts", component]);
  }

  lemma WebStays(root: Path, t0: Files, t: Files, t': Files, component: string)
    requires WebInstalled(root, t0, t, component)
    requires forall r :: SubTree(t', WebDir(component) + r) == SubTree(t, WebDir(component) + r)
    ensures WebInstalled(root, t0, t', component)
  {
    hide SubTree;
    hide Hit;
    hide Blocked;
    hide Lists;
    hide WebDir;
    var src := SubTree(t0, Artifacts(root) + [component]);
    var order :| InstalledFrom(src, t, WebDir(component), order);
    assert InstalledFrom(src, t', WebDir(component), order);
  }

  lemma WebFromFinished(root: Path, t0: Files, t1: Files, t: Files, component: string)
    requires var src := SubTree(t0, Artifacts(root) + [component]);
             Graftable(src) && Finished(src, t1, t, WebDir(component))
    ensures WebInstalled(root, t0, t, component)
  {
    hide SubTree;
    hide Graftable;
    hide Hit;
    hide Blocked;
    hide FinishedBy;
    hide WebDir;
    hide At;
    var src, dest := SubTree(t0, Artifacts(root) + [component]), WebDir(component);
    var made, order :| FinishedBy(src, t1, t, dest, made, order);
    OrderLists(src, t1, t, dest, made, order);
    FinishedAt(src, t1, t, dest, made, order);
    var rs := order + [INDEX];
    PageIsNoHit(rs);
    forall s | s in Assets(src) + {INDEX} ensures s in FilesIn(src) && (Placed(src, t, dest, s) <==> !Hit(rs, s)) {
      assert s in rs;
      PlacedIff(src, t1, t, dest, rs, s);
    }
    assert InstalledFrom(src, t, dest, order);
  }

  lemma WebDirIs(component: string, root: Path, name: string)
    requires IsReleaseDir(root)
    ensures IsTarget(WebDir(component)) && Elsewhere(WebDir(component))
    ensures Apart(Artifacts(root) + [name], WebDir(component)) && Spares(root, WebDir(component))
  {
    TargetsElsewhere(WebDir(component));
    ElsewhereSpares(root, WebDir(component));
    ElsewhereIsApart(WebDir(component), root, "payload");
    ApartBelow(WebDir(component), Payload(root), ["artifacts", name]);
    assert Payload(root) + ["artifacts", name] == Artifacts(root) + [name];
  }

  lemma UnderKeeps(root: Path, t: Files, t': Files, dest: Path)
    requires Spares(root, dest) && OnlyUnder(t, t', dest)
    ensures KeepsRelease(root, t, t')
  {
    hide SubTree;
    hide Item;
  }

  method DeployWeb(h: Host, root: Path, component: string, ghost t0: Files) returns (ok: bool)
    requires Rooted(h.files) && IsReleaseDir(root) && KeepsRelease(root, t0, h.files)
    modifies h`files, h`seen
    ensures Rooted(h.files) && OnlyUnder(old(h.files), h.files, WebDir(component)) && KeepsRelease(root, t0, h.files)
    ensures ok ==> WebInstalled(root, t0, h.files, component)
  {
    hide SubTree;
    hide Rooted;
    hide KeepsRelease;
    hide IsReleaseDir;
    hide Spares;
    hide Finished;
    hide Orderly;
    hide WebDir;
    hide IsTarget;
    hide Graftable;
    ghost var t := h.files;
    WebDirIs(component, root, component);
    PayloadPart(root, t0, t, component);
    SubTreeGraftable(t, Artifacts(root) + [component]);
    ok := InstallWeb(h, Artifacts(root) + [component], WebDir(component));
    UnderKeeps(root, t, h.files, WebDir(component));
    KeepsTrans(root, t0, t, h.files);
    if ok {
      WebFromFinished(root, t0, t, h.files, component);
    }
  }

  lemma InstalledUnder(root: Path, t0: Files, t: Files, t': Files, rel: Path, q: Path, dest: Path)
    requires IsTarget(q) && IsTarget(dest) && q != dest && OnlyUnder(t, t', dest) && Installed(root, t0, t, rel, q)
    ensures Installed(root, t0, t', rel, q)
  {
    TargetsApart(q, dest);
  }

  lemma WebUnder(root: Path, t0: Files, t: Files, t': Files, component: string, dest: Path)
    requires IsTarget(dest) && dest != WebDir(component) && OnlyUnder(t, t', dest) && WebInstalled(root, t0, t, component)
    ensures WebInstalled(root, t0, t', component)
  {
    hide SubTree;
    TargetsApart(dest, WebDir(component));
    forall r ensures SubTree(t', WebDir(component) + r) == SubTree(t, WebDir(component) + r) {
      ApartBelow(dest, WebDir(component), r);
    }
    WebStays(root, t0, t, t', component);
  }

  lemma WebBesides(root: Path, t0: Files, t: Files, t': Files, component: string, dst: Path)
    requires IsTarget(dst) && dst != WebDir(component) && OnlyAt(t, t', {Staged(dst), dst}) && WebInstalled(root, t0, t, component)
    ensures WebInstalled(root, t0, t', component)
  {
    hide SubTree;
    hide OnlyAt;
    TargetsApart(dst, WebDir(component));
    StagedApartFromTargets(dst, WebDir(component));
    forall r ensures SubTree(t', WebDir(component) + r) == SubTree(t, WebDir(component) + r) {
      ApartBelow(dst, WebDir(component), r);
      ApartBelow(Staged(dst), WebDir(component), r);
      PairStays(t, t', Staged(dst), dst, WebDir(component) + r);
    }
    WebStays(root, t0, t, t', component);
  }

  /** What has been installed so far: binaries, the two web trees, the two configurations. */
  datatype Stage = Stage(binaries: bool, app: bool, admin: bool, config: bool, adminConfig: bool)

  ghost predicate Done(root: Path, t0: Files, t: Files, stage: Stage) {
    && (stage.binaries ==> Installed(root, t0, t, ["backend", "server"], SERVER) && Installed(root, t0, t, ["backend", "backfill"], BACKFILL))
    && (stage.app ==> WebInstalled(root, t0, t, "frontend"))
    && (stage.admin ==> WebInstalled(root, t0, t, "admin"))
    && (stage.config ==> Installed(root, t0, t, ["deploy", "httpd-alumni.conf"], HTTPD_CONFIG))
    && (stage.adminConfig ==> Installed(root, t0, t, ["deploy", "httpd-admin.conf"], ADMIN_HTTPD_CONFIG))
  }

  lemma TargetsDiffer()
    ensures WWW_APP != SERVER && WWW_APP != BACKFILL && WWW_ADMIN != SERVER && WWW_ADMIN != BACKFILL
    ensures HTTPD_CONFIG != SERVER && HTTPD_CONFIG != BACKFILL && ADMIN_HTTPD_CONFIG != SERVER && ADMIN_HTTPD_CONFIG != BACKFILL
    ensures HTTPD_CONFIG != WWW_APP && HTTPD_CONFIG != WWW_ADMIN && ADMIN_HTTPD_CONFIG != WWW_APP && ADMIN_HTTPD_CONFIG != WWW_ADMIN
    ensures WWW_APP != WWW_ADMIN && HTTPD_CONFIG != ADMIN_HTTPD_CONFIG
    ensures WebDir("frontend") == WWW_APP && WebDir("admin") == WWW_ADMIN
  {
    assert WWW_APP[0][0] == 'v' && SERVER[0][0] == 'a' && HTTPD_CONFIG[0][0] == 'e';
    assert WWW_APP[2][1] == 'p' && WWW_ADMIN[2][1] == 'd';
    assert HTTPD_CONFIG[3][6] == '.' && ADMIN_HTTPD_CONFIG[3][6] == '_';
    assert "frontend"[0] != "admin"[0];
  }

  lemma DoneUnder(root: Path, t0: Files, t: Files, t': Files, stage: Stage, component: string)
    requires component == "frontend" || component == "admin"
    requires Done(root, t0, t, stage) && !stage.config && !stage.adminConfig && OnlyUnder(t, t', WebDir(component))
    requires component == "frontend" ==> !stage.app
    requires component == "admin" ==> !stage.admin
    ensures Done(root, t0, t', stage)
  {
    hide OnlyUnder;
    hide Installed;
    hide WebInstalled;
    KnownTargets();
    hide IsTarget;
    TargetsDiffer();
    var dest := WebDir(component);
    assert "frontend"[0] != "admin"[0];
    if stage.binaries {
      InstalledUnder(root, t0, t, t', ["backend", "server"], SERVER, dest);
      InstalledUnder(root, t0, t, t', ["backend", "backfill"], BACKFILL, dest);
    }
    if stage.app { WebUnder(root, t0, t, t', "frontend", dest); }
    if stage.admin { WebUnder(root, t0, t, t', "admin", dest); }
  }

  lemma DoneBesides(root: Path, t0: Files, t: Files, t': Files, stage: Stage, dst: Path)
    requires dst == HTTPD_CONFIG || dst == ADMIN_HTTPD_CONFIG
    requires Done(root, t0, t, stage) && OnlyAt(t, t', {Staged(dst), dst})
    requires dst == HTTPD_CONFIG ==> !stage.config
    requires dst == ADMIN_HTTPD_CONFIG ==> !stage.adminConfig
    ensures Done(root, t0, t', stage)
  {
    hide OnlyAt;
    hide Installed;
    hide WebInstalled;
    KnownTargets();
    hide IsTarget;
    TargetsDiffer();
    if stage.binaries {
      InstalledStays(root, t0, t, t', ["backend", "server"], SERVER, dst);
      InstalledStays(root, t0, t, t', ["backend", "backfill"], BACKFILL, dst);
    }
    if stage.app { WebBesides(root, t0, t, t', "frontend", dst); }
    if stage.admin { WebBesides(root, t0, t, t', "admin", dst); }
    if stage.config { InstalledStays(root, t0, t, t', ["deploy", "httpd-alumni.conf"], HTTPD_CONFIG, dst); }
    if stage.adminConfig { InstalledStays(root, t0, t, t', ["deploy", "httpd-admin.conf"], ADMIN_HTTPD_CONFIG, dst); }
  }

  lemma InstalledApart(root: Path, t0: Files, t: Files, t': Files, rel: Path, q: Path, p: Path)
    requires OnlyAt(t, t', {p}) && Apart(p, q) && Installed(root, t0, t, rel, q)
    ensures Installed(root, t0, t', rel, q)
  {
  }

  lemma WebApart(root: Path, t0: Files, t: Files, t': Files, component: string, p: Path)
    requires OnlyAt(t, t', {p}) && Apart(p, WebDir(component)) && WebInstalled(root, t0, t, component)
    ensures WebInstalled(root, t0, t', component)
  {
    hide SubTree;
    hide OnlyAt;
    hide WebInstalled;
    hide WebDir;
    forall r ensures SubTree(t', WebDir(component) + r) == SubTree(t, WebDir(component) + r) {
      ApartBelow(p, WebDir(component), r);
      ApartStays(t, t', p, WebDir(component) + r);
    }
    WebStays(root, t0, t, t', component);
  }

  /** The result file changes nothing that was installed. */
  lemma DoneApart(root: Path, t0: Files, t: Files, t': Files, stage: Stage, p: Path)
    requires OnlyAt(t, t', {p}) && forall q :: IsTarget(q) ==> Apart(p, q)
    requires Done(root, t0, t, stage)
    ensures Done(root, t0, t', stage)
  {
    hide IsTarget;
    hide OnlyAt;
    hide Installed;
    hide WebInstalled;
    KnownTargets();
    TargetsDiffer();
    if stage.binaries {
      InstalledApart(root, t0, t, t', ["backend", "server"], SERVER, p);
      InstalledApart(root, t0, t, t', ["backend", "backfill"], BACKFILL, p);
    }
    if stage.app { WebApart(root, t0, t, t', "frontend", p); }
    if stage.admin { WebApart(root, t0, t, t', "admin", p); }
    if stage.config { InstalledApart(root, t0, t, t', ["deploy", "httpd-alumni.conf"], HTTPD_CONFIG, p); }
    if stage.adminConfig { InstalledApart(root, t0, t, t', ["deploy", "httpd-admin.conf"], ADMIN_HTTPD_CONFIG, p); }
  }
}
