/** From the archive to the installed release: what `unpack` accepted is what `deploy` puts in
    place and what the migrations are read from. */
module ReleasePayload {
  import opened Wrappers
  import opened FileTree
  import opened ReleaseHost
  import opened WebOrder
  import opened ReleaseDeploy
  import ReleaseTransaction
  import Bundle
  import Migrations

  /** An archive was unpacked to the payload of a release, and accepted. */
  ghost predicate Accepted(t: Files, root: Path, archive: seq<Bundle.Member>, v: Files, m: Manifest) {
    var dest := Payload(root);
    && Rooted(t) && dest !in t && IsDir(t, root)
    && Bundle.ExtractAll(Graft(t, dest, map[[] := Dir]), dest, archive) == Some(v) && Bundle.Unpacked(v, dest, m)
  }

  /** The file is there as the manifest lists it. */
  predicate AsListed(m: Manifest, name: string, t: Files, p: Path) {
    name in m.files && IsFile(t, p) && t[p].content == m.files[name]
  }

  /** The migrations directory of the payload, in whatever order it is read. */
  predicate ListsMigrations(v: Files, root: Path, scripts: seq<Migrations.Script>) {
    forall k :: 0 <= k < |scripts| ==>
      && Bundle.IsEntry(scripts[k].name)
      && IsFile(v, Artifacts(root) + ["migrations", scripts[k].name])
      && v[Artifacts(root) + ["migrations", scripts[k].name]].content == Bytes(scripts[k].body)
  }

  lemma AcceptedIsSound(t: Files, root: Path, archive: seq<Bundle.Member>, v: Files, m: Manifest)
    requires Accepted(t, root, archive, v, m)
    ensures Rooted(v) && OnlyAt(t, v, {Payload(root)})
    ensures forall r :: r in Bundle.FilePaths(SubTree(v, Artifacts(root))) ==> Bundle.Join(r) in m.files
    ensures forall name :: name in m.files ==> IsFile(v, Artifacts(root) + Bundle.Parts(name)) && v[Artifacts(root) + Bundle.Parts(name)].content == m.files[name]
  {
    var dest := Payload(root);
    assert dest != [] && Parent(dest) == root;
    assert dest + ["artifacts"] == Artifacts(root);
    Bundle.UnpackIsSound(t, dest, archive, v, m);
  }

  /** Every file of the payload with ordinary names is listed, with its contents. */
  lemma PayloadIsListed(t: Files, root: Path, archive: seq<Bundle.Member>, v: Files, m: Manifest, rel: Path)
    requires Accepted(t, root, archive, v, m) && rel != [] && Bundle.AllEntries(rel) && IsFile(v, Artifacts(root) + rel)
    ensures AsListed(m, Bundle.Join(rel), v, Artifacts(root) + rel)
  {
    AcceptedIsSound(t, root, archive, v, m);
    hide Accepted;
    hide OnlyAt;
    hide SubTree;
    hide Rooted;
    SubTreeHas(v, Artifacts(root), rel);
    assert rel in Bundle.FilePaths(SubTree(v, Artifacts(root)));
    Bundle.PartsOfJoin(rel);
  }

  /** A file installed from the payload is the one the manifest lists. */
  lemma InstalledIsListed(t: Files, root: Path, archive: seq<Bundle.Member>, v: Files, m: Manifest, rel: Path, t': Files, dst: Path)
    requires Accepted(t, root, archive, v, m) && rel != [] && Bundle.AllEntries(rel) && Installed(root, v, t', rel, dst)
    ensures AsListed(m, Bundle.Join(rel), t', dst)
  {
    hide Accepted;
    PayloadIsListed(t, root, archive, v, m, rel);
    WholeFile(t', dst, v[Artifacts(root) + rel].content);
  }

  lemma WholeFile(t: Files, p: Path, c: Content)
    requires SubTree(t, p) == FileOf(c)
    ensures IsFile(t, p) && t[p].content == c
  {
    SubTreeHas(t, p, []);
    assert p + [] == p;
  }

  lemma PairJoins(a: string, b: string)
    requires Bundle.IsEntry(a) && Bundle.IsEntry(b)
    ensures Bundle.AllEntries([a, b]) && Bundle.Join([a, b]) == a + "/" + b
  {
    assert Bundle.Join([a, b][1..]) == b;
  }

  /** The page of a web component is the one the manifest lists. */
  lemma PageIsListed(t: Files, root: Path, archive: seq<Bundle.Member>, v: Files, m: Manifest, component: string, t': Files)
    requires Accepted(t, root, archive, v, m) && Bundle.IsEntry(component) && WebInstalled(root, v, t', component)
    ensures AsListed(m, component + "/index.html", t', WebDir(component) + INDEX)
  {
    hide Accepted;
    hide Hit;
    var art := Artifacts(root) + [component];
    var src := SubTree(v, art);
    SubTreeHas(v, art, INDEX);
    assert art + INDEX == Artifacts(root) + [component, "index.html"];
    PairJoins(component, "index.html");
    assert component + "/" + "index.html" == component + "/index.html";
    PayloadIsListed(t, root, archive, v, m, [component, "index.html"]);
    assert Placed(src, t', WebDir(component), INDEX);
    WholeFile(t', WebDir(component) + INDEX, src[INDEX].content);
  }

  /** And so is every asset, provided no staging name clashes with one. */
  lemma AssetIsListed(t: Files, root: Path, archive: seq<Bundle.Member>, v: Files, m: Manifest, component: string, t': Files, r: Path)
    requires Accepted(t, root, archive, v, m) && Bundle.IsEntry(component) && WebInstalled(root, v, t', component)
    requires !Clashes(SubTree(v, Artifacts(root) + [component]))
    requires r in Assets(SubTree(v, Artifacts(root) + [component])) && Bundle.AllEntries(r)
    ensures AsListed(m, Bundle.Join([component] + r), t', WebDir(component) + r)
  {
    hide Accepted;
    hide Clashes;
    var art := Artifacts(root) + [component];
    var src := SubTree(v, art);
    NoClashWebComplete(root, v, t', component);
    hide WebInstalled;
    assert Placed(src, t', WebDir(component), r);
    SubTreeHas(v, art, r);
    assert art + r == Artifacts(root) + ([component] + r);
    PayloadIsListed(t, root, archive, v, m, [component] + r);
    WholeFile(t', WebDir(component) + r, src[r].content);
  }

  /** The name of an artifact one directory down. */
  predicate Names(name: string, a: string, b: string) {
    Bundle.IsEntry(a) && Bundle.IsEntry(b) && name == a + "/" + b
  }

  lemma BinaryNames()
    ensures Names("backend/server", "backend", "server") && Names("backend/backfill", "backend", "backfill")
  {
  }

  lemma SiteConfigName()
    ensures Names("deploy/httpd-alumni.conf", "deploy", "httpd-alumni.conf")
  {
  }

  lemma AdminConfigName()
    ensures Names("deploy/httpd-admin.conf", "deploy", "httpd-admin.conf")
  {
  }

  lemma PageNames()
    ensures Names("frontend/index.html", "frontend", "index.html") && Names("admin/index.html", "admin", "index.html")
  {
  }

  lemma NamedFile(t: Files, root: Path, archive: seq<Bundle.Member>, v: Files, m: Manifest, t': Files, name: string, a: string, b: string, dst: Path)
    requires Accepted(t, root, archive, v, m) && Names(name, a, b) && Installed(root, v, t', [a, b], dst)
    ensures AsListed(m, name, t', dst)
  {
    hide Accepted;
    hide Installed;
    PairJoins(a, b);
    InstalledIsListed(t, root, archive, v, m, [a, b], t', dst);
  }

  lemma NamedPage(t: Files, root: Path, archive: seq<Bundle.Member>, v: Files, m: Manifest, t': Files, name: string, component: string)
    requires Accepted(t, root, archive, v, m) && Names(name, component, "index.html") && WebInstalled(root, v, t', component)
    ensures AsListed(m, name, t', WebDir(component) + INDEX)
  {
    hide Accepted;
    hide WebInstalled;
    PageIsListed(t, root, archive, v, m, component, t');
    assert component + "/" + "index.html" == component + "/index.html";
  }

  /** After an archive was unpacked and its release deployed, what is installed is what the
      manifest lists: the binaries, both configurations and the pages, by their digests. */
  lemma DeployedIsListed(t: Files, root: Path, archive: seq<Bundle.Member>, v: Files, m: Manifest, t': Files)
    requires Accepted(t, root, archive, v, m) && Done(root, v, t', ReleaseTransaction.FullStage(m))
    ensures HasBackend(m) ==> AsListed(m, "backend/server", t', SERVER) && AsListed(m, "backend/backfill", t', BACKFILL)
    ensures AsListed(m, "deploy/httpd-alumni.conf", t', HTTPD_CONFIG) && AsListed(m, "deploy/httpd-admin.conf", t', ADMIN_HTTPD_CONFIG)
    ensures "frontend" in m.components ==> AsListed(m, "frontend/index.html", t', WebDir("frontend") + INDEX)
    ensures "admin" in m.components ==> AsListed(m, "admin/index.html", t', WebDir("admin") + INDEX)
  {
    hide Accepted;
    hide Installed;
    hide WebInstalled;
    hide AsListed;
    hide Names;
    BinaryNames();
    SiteConfigName();
    AdminConfigName();
    PageNames();
    NamedFile(t, root, archive, v, m, t', "deploy/httpd-alumni.conf", "deploy", "httpd-alumni.conf", HTTPD_CONFIG);
    NamedFile(t, root, archive, v, m, t', "deploy/httpd-admin.conf", "deploy", "httpd-admin.conf", ADMIN_HTTPD_CONFIG);
    if HasBackend(m) {
      NamedFile(t, root, archive, v, m, t', "backend/server", "backend", "server", SERVER);
      NamedFile(t, root, archive, v, m, t', "backend/backfill", "backend", "backfill", BACKFILL);
    }
    if "frontend" in m.components { NamedPage(t, root, archive, v, m, t', "frontend/index.html", "frontend"); }
    if "admin" in m.components { NamedPage(t, root, archive, v, m, t', "admin/index.html", "admin"); }
  }

  /** Every migration read from the payload is one the manifest lists. */
  lemma MigrationsAreListed(t: Files, root: Path, archive: seq<Bundle.Member>, v: Files, m: Manifest, scripts: seq<Migrations.Script>, k: nat)
    requires Accepted(t, root, archive, v, m) && ListsMigrations(v, root, scripts) && k < |scripts|
    ensures "migrations/" + scripts[k].name in m.files && m.files["migrations/" + scripts[k].name] == Bytes(scripts[k].body)
  {
    hide Accepted;
    PairJoins("migrations", scripts[k].name);
    assert "migrations" + "/" + scripts[k].name == "migrations/" + scripts[k].name;
    PayloadIsListed(t, root, archive, v, m, ["migrations", scripts[k].name]);
  }
}
