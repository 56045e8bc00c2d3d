/** The release bundle: `verify` of deploy/release_bundle.py, the archive the client builds
    (deploy/release.py) and `unpack` of deploy/remote_release.py. */
module Bundle {
  import opened Wrappers
  import opened FileTree
  import opened ReleaseHost
  import opened ReleaseSnapshot
  import opened ReleaseDeploy

  // ---------------------------------------------------------- names and paths

  /** What a directory entry can be called. */
  predicate IsEntry(c: string) {
    c != "" && '/' !in c && c != "." && c != ".."
  }

  predicate AllEntries(p: Path) {
    forall k :: 0 <= k < |p| ==> IsEntry(p[k])
  }

  function Join(p: Path): string {
    if p == [] then "" else if |p| == 1 then p[0] else p[0] + "/" + Join(p[1..])
  }

  function Split(s: string): (parts: Path)
    ensures |parts| >= 1
  {
    if s == "" then [""]
    else
      var rest := Split(s[1..]);
      if s[0] == '/' then [""] + rest else [[s[0]] + rest[0]] + rest[1..]
  }

  function Meaningful(p: Path): Path {
    if p == [] then []
    else (if p[0] == "" || p[0] == "." then [] else [p[0]]) + Meaningful(p[1..])
  }

  /** The parts of a relative path as Python's pathlib reads it. */
  function Parts(name: string): Path {
    Meaningful(Split(name))
  }

  predicate IsAbsolute(name: string) {
    "/" <= name
  }

  lemma {:induction false} SplitAt(a: string, b: string)
    requires '/' !in a
    ensures Split(a + "/" + b) == [a] + Split(b)
    decreases |a|
  {
    var s := a + "/" + b;
    if a == "" {
      assert s[1..] == b;
    } else {
      assert s[1..] == a[1..] + "/" + b;
      SplitAt(a[1..], b);
      assert [a[0]] + a[1..] == a;
    }
  }

  lemma {:induction false} SplitWhole(a: string)
    requires '/' !in a
    ensures Split(a) == [a]
  {
    if a != "" {
      SplitWhole(a[1..]);
      assert [a[0]] + a[1..] == a;
    }
  }

  lemma {:induction false} SplitJoin(p: Path)
    requires p != [] && AllEntries(p)
    ensures Split(Join(p)) == p
    decreases |p|
  {
    if |p| == 1 {
      SplitWhole(p[0]);
    } else {
      SplitAt(p[0], Join(p[1..]));
      SplitJoin(p[1..]);
    }
  }

  lemma {:induction false} EntriesAreMeaningful(p: Path)
    requires AllEntries(p)
    ensures Meaningful(p) == p
    decreases |p|
  {
    if p != [] {
      EntriesAreMeaningful(p[1..]);
    }
  }

  /** A path comes back from its name, alone or below a directory. */
  lemma PartsOfJoin(p: Path)
    requires p != [] && AllEntries(p)
    ensures Parts(Join(p)) == p
    ensures Parts("artifacts/" + Join(p)) == ["artifacts"] + p
  {
    SplitJoin(p);
    EntriesAreMeaningful(p);
    var a := "artifacts";
    assert "artifacts/" + Join(p) == a + "/" + Join(p);
    SplitAt(a, Join(p));
    assert ([a] + p)[1..] == p;
  }

  lemma ManifestParts()
    ensures Parts("manifest.json") == ["manifest.json"] && !IsAbsolute("manifest.json")
  {
    SplitWhole("manifest.json");
    EntriesAreMeaningful(["manifest.json"]);
  }

  // ------------------------------------------------------------------ verify

  const COMPONENTS: set<string> := {"backend", "frontend", "admin"}

  function RequiredOf(component: string): set<string> {
    if component == "backend" then {"backend/server", "backend/backfill"} else {component + "/index.html"}
  }

  function Required(components: seq<string>): set<string> {
    if components == [] then {"deploy/remote_release.py", "deploy/httpd-alumni.conf", "deploy/httpd-admin.conf"}
    else Required(components[..|components| - 1]) + RequiredOf(components[|components| - 1])
  }

  predicate IsHex(c: char) {
    '0' <= c <= '9' || 'a' <= c <= 'f'
  }

  predicate IsCommit(s: string) {
    |s| == 40 && forall k :: 0 <= k < |s| ==> IsHex(s[k])
  }

  function FilePaths(t: Files): set<Path> {
    set r | r in t && t[r].File? && r != []
  }

  /** The names of all files below a directory. */
  function Inventory(t: Files, dir: Path): set<string> {
    FileNames(SubTree(t, dir))
  }

  function FileNames(t: Files): set<string> {
    set r | r in FilePaths(t) :: Join(r)
  }

  predicate SafeName(name: string) {
    name != "" && !IsAbsolute(name) && ".." !in Parts(name)
  }

  /** The artifact is there with the digest the manifest gives. */
  predicate Matches(t: Files, dir: Path, m: Manifest, name: string)
    requires name in m.files
  {
    IsFile(t, dir + Parts(name)) && t[dir + Parts(name)].content == m.files[name]
  }

  predicate HeaderOk(m: Manifest) {
    && m.format == 1 && IsCommit(m.commit)
    && (forall c :: c in m.components ==> c in COMPONENTS) && m.components != []
    && Required(m.components) <= m.files.Keys && "migrations/" + m.minimumWebMigration in m.files
  }

  predicate Accepts(t: Files, root: Path, m: Manifest) {
    && HeaderOk(m)
    && Inventory(t, root + ["artifacts"]) == m.files.Keys
    && forall name :: name in m.files ==> SafeName(name) && Matches(t, root + ["artifacts"], m, name)
  }

  /** `parse` reads a manifest and `held` a review status. */
  method Verify(t: Files, root: Path, parse: Content -> Option<Manifest>, held: Content -> bool) returns (r: Option<Manifest>)
    ensures r.Some? <==>
      && !(IsFile(t, root + ["REVIEW_STATUS.json"]) && held(t[root + ["REVIEW_STATUS.json"]].content))
      && IsFile(t, root + ["manifest.json"])
      && parse(t[root + ["manifest.json"]].content).Some?
      && Accepts(t, root, parse(t[root + ["manifest.json"]].content).value)
    ensures r.Some? ==> r == parse(t[root + ["manifest.json"]].content)
  {
    hide Inventory;
    hide SafeName;
    if IsFile(t, root + ["REVIEW_STATUS.json"]) && held(t[root + ["REVIEW_STATUS.json"]].content) { return None; }
    if !IsFile(t, root + ["manifest.json"]) { return None; }
    var parsed := parse(t[root + ["manifest.json"]].content);
    if parsed.None? { return None; }
    var m := parsed.value;
    if m.format != 1 || !IsCommit(m.commit) { return None; }
    if !(forall c :: c in m.components ==> c in COMPONENTS) || m.components == [] { return None; }
    var required := Required([]);
    for k := 0 to |m.components|
      invariant required == Required(m.components[..k])
    {
      assert m.components[..k + 1][..k] == m.components[..k];
      required := required + RequiredOf(m.components[k]);
    }
    assert m.components[..|m.components|] == m.components;
    if !(required <= m.files.Keys) || "migrations/" + m.minimumWebMigration !in m.files { return None; }
    if Inventory(t, root + ["artifacts"]) != m.files.Keys { return None; }
    var todo := m.files.Keys;
    while todo != {}
      invariant todo <= m.files.Keys
      invariant forall name :: name in m.files && name !in todo ==> SafeName(name) && Matches(t, root + ["artifacts"], m, name)
      decreases |todo|
    {
      var name :| name in todo;
      if !SafeName(name) || !Matches(t, root + ["artifacts"], m, name) { return None; }
      todo := todo - {name};
    }
    return Some(m);
  }

  // ----------------------------------------------------------------- archive

  datatype Member = Member(name: string, content: Content, regular: bool)

  /** The names in some order, each once; the client sorts them. */
  predicate Lists(names: seq<string>, keys: set<string>) {
    && (forall k :: 0 <= k < |names| ==> names[k] in keys)
    && (forall key :: key in keys ==> key in names)
    && (forall i, j :: 0 <= i < j < |names| ==> names[i] != names[j])
  }

  function ArtifactMember(t: Files, root: Path, name: string): Member
    requires IsFile(t, root + ["artifacts"] + Parts(name))
  {
    Member("artifacts/" + name, t[root + ["artifacts"] + Parts(name)].content, true)
  }

  /** The archive of a verified bundle: the manifest, then every artifact under its name. */
  method BuildArchive(t: Files, root: Path, m: Manifest, names: seq<string>) returns (archive: seq<Member>)
    requires IsFile(t, root + ["manifest.json"]) && Lists(names, m.files.Keys)
    requires forall name :: name in m.files ==> IsFile(t, root + ["artifacts"] + Parts(name))
    ensures |archive| == |names| + 1 && archive[0] == Member("manifest.json", t[root + ["manifest.json"]].content, true)
    ensures forall k :: 0 <= k < |names| ==> archive[k + 1] == ArtifactMember(t, root, names[k])
  {
    archive := [Member("manifest.json", t[root + ["manifest.json"]].content, true)];
    for k := 0 to |names|
      invariant |archive| == k + 1 && archive[0] == Member("manifest.json", t[root + ["manifest.json"]].content, true)
      invariant forall j :: 0 <= j < k ==> archive[j + 1] == ArtifactMember(t, root, names[j])
    {
      archive := archive + [ArtifactMember(t, root, names[k])];
    }
  }

  // ------------------------------------------------------------------ unpack

  predicate MemberOk(x: Member) {
    && (x.name == "manifest.json" || "artifacts/" <= x.name)
    && !IsAbsolute(x.name) && ".." !in Parts(x.name) && x.regular
  }

  /** One member written below `dest`, unless it is unexpected, unsafe or there already. */
  function Extract(t: Files, dest: Path, x: Member): Option<Files> {
    var p := dest + Parts(x.name);
    if !MemberOk(x) || Parts(x.name) == [] || p in t || !Clear(t, Parent(p)) then None
    else Some(Graft(MakeDirs(t, Parent(p)), p, FileOf(x.content)))
  }

  function ExtractAll(t: Files, dest: Path, xs: seq<Member>): Option<Files> {
    if xs == [] then Some(t)
    else
      var front := ExtractAll(t, dest, xs[..|xs| - 1]);
      if front.None? then None else Extract(front.value, dest, xs[|xs| - 1])
  }

  lemma {:induction false} ExtractStops(t: Files, dest: Path, xs: seq<Member>, k: nat)
    requires k <= |xs| && ExtractAll(t, dest, xs[..k]).None?
    ensures ExtractAll(t, dest, xs).None?
    decreases |xs| - k
  {
    if k < |xs| {
      assert xs[..k + 1][..k] == xs[..k];
      ExtractStops(t, dest, xs, k + 1);
    } else {
      assert xs[..k] == xs;
    }
  }

  /** The checks on what was unpacked: the inventory and the digests. */
  predicate Unpacked(t: Files, dest: Path, m: Manifest) {
    && Inventory(t, dest + ["artifacts"]) == m.files.Keys
    && forall name :: name in m.files ==> Matches(t, dest + ["artifacts"], m, name)
  }

  method Unpack(t: Files, archive: seq<Member>, dest: Path, parse: Content -> Option<Manifest>) returns (r: Option<(Files, Manifest)>)
    requires dest != []
    ensures r.Some? <==>
      && dest !in t && IsDir(t, Parent(dest))
      && var out := ExtractAll(Graft(t, dest, map[[] := Dir]), dest, archive);
      && out.Some? && IsFile(out.value, dest + ["manifest.json"])
      && parse(out.value[dest + ["manifest.json"]].content).Some?
      && Unpacked(out.value, dest, parse(out.value[dest + ["manifest.json"]].content).value)
    ensures r.Some? ==>
      && ExtractAll(Graft(t, dest, map[[] := Dir]), dest, archive) == Some(r.value.0)
      && parse(r.value.0[dest + ["manifest.json"]].content) == Some(r.value.1)
  {
    hide Inventory;
    hide Extract;
    hide Graft;
    hide Matches;
    if dest in t || !IsDir(t, Parent(dest)) { return None; }
    var start := Graft(t, dest, map[[] := Dir]);
    var out := start;
    for k := 0 to |archive|
      invariant ExtractAll(start, dest, archive[..k]) == Some(out)
    {
      assert archive[..k + 1][..k] == archive[..k];
      var next := Extract(out, dest, archive[k]);
      if next.None? {
        ExtractStops(start, dest, archive, k + 1);
        return None;
      }
      out := next.value;
    }
    assert archive[..|archive|] == archive;
    if !IsFile(out, dest + ["manifest.json"]) { return None; }
    var parsed := parse(out[dest + ["manifest.json"]].content);
    if parsed.None? { return None; }
    var m := parsed.value;
    if Inventory(out, dest + ["artifacts"]) != m.files.Keys { return None; }
    var todo := m.files.Keys;
    while todo != {}
      invariant todo <= m.files.Keys
      invariant forall name :: name in m.files && name !in todo ==> Matches(out, dest + ["artifacts"], m, name)
      decreases |todo|
    {
      var name :| name in todo;
      if !Matches(out, dest + ["artifacts"], m, name) { return None; }
      todo := todo - {name};
    }
    return Some((out, m));
  }

  // ------------------------------------------------- what extraction does

  /** A member goes to its place; everything else stays, but for directories above it. */
  lemma ExtractAt(t: Files, dest: Path, x: Member, t': Files, q: Path)
    requires Rooted(t) && Extract(t, dest, x) == Some(t')
    ensures var p := dest + Parts(x.name);
            && p !in t && IsFile(t', p) && t'[p] == File(x.content)
            && (q in t ==> q in t' && t'[q] == t[q])
            && (q in t' && q !in t && q != p ==> q <= Parent(p) && t'[q] == Dir)
  {
    hide Graft;
    hide MakeDirs;
    hide Clear;
    hide MemberOk;
    hide Parts;
    var p := dest + Parts(x.name);
    var ready := MakeDirs(t, Parent(p));
    GraftedFile(ready, p, x.content);
    GraftAt(ready, p, FileOf(x.content), q);
    MakeDirsAt(t, Parent(p), q);
    if p <= q && q != p {
      NothingUnder(t, p, q);
      assert q[|p|..] != [];
    }
  }

  lemma ExtractFrame(t: Files, dest: Path, x: Member, t': Files)
    requires Rooted(t) && Extract(t, dest, x) == Some(t')
    ensures Rooted(t') && OnlyAt(t, t', {dest})
  {
    hide Graft;
    hide MakeDirs;
    hide OnlyAt;
    hide Rooted;
    hide MemberOk;
    hide Parts;
    hide Clear;
    var p := dest + Parts(x.name);
    var ready := MakeDirs(t, Parent(p));
    MakeDirsIsRooted(t, Parent(p));
    OnlyAtDirs(t, p, Parent(p));
    PutIsFramed(ready, p, x.content);
    OnlyAtTrans(t, ready, t', {p}, {p});
    assert {p} + {p} == {p};
    FrameAbove(t, t', p, dest);
  }

  /** Whatever the archive, nothing outside the destination changes. */
  lemma {:induction false} ExtractAllFrame(t: Files, dest: Path, xs: seq<Member>)
    requires Rooted(t) && ExtractAll(t, dest, xs).Some?
    ensures Rooted(ExtractAll(t, dest, xs).value) && OnlyAt(t, ExtractAll(t, dest, xs).value, {dest})
    decreases |xs|
  {
    hide OnlyAt;
    hide Rooted;
    hide Extract;
    OnlyAtSame(t);
    if xs != [] {
      ExtractAllFrame(t, dest, xs[..|xs| - 1]);
      var t1 := ExtractAll(t, dest, xs[..|xs| - 1]).value;
      ExtractFrame(t1, dest, xs[|xs| - 1], ExtractAll(t, dest, xs).value);
      SamePathTwice(t, t1, ExtractAll(t, dest, xs).value, dest);
    }
  }

  /** Every member of an archive that was extracted is a regular file with one of the two kinds of
      names, relative, and without a part that leads upwards. */
  lemma {:induction false} ExtractedIsSafe(t: Files, dest: Path, xs: seq<Member>, k: nat)
    requires ExtractAll(t, dest, xs).Some? && k < |xs|
    ensures xs[k].regular && (xs[k].name == "manifest.json" || "artifacts/" <= xs[k].name)
    ensures xs[k].name[0] != '/' && ".." !in Split(xs[k].name)
    decreases |xs|
  {
    hide MemberOk;
    hide Split;
    hide Graft;
    hide MakeDirs;
    hide Clear;
    hide Parts;
    var last := |xs| - 1;
    if k < last {
      assert xs[..last][k] == xs[k];
      ExtractedIsSafe(t, dest, xs[..last], k);
    } else {
      MemberIsSafe(xs[k]);
    }
  }

  lemma MemberIsSafe(x: Member)
    requires MemberOk(x)
    ensures x.regular && (x.name == "manifest.json" || "artifacts/" <= x.name) && x.name[0] != '/' && ".." !in Split(x.name)
  {
    hide Split;
    hide Meaningful;
    UpwardsIsMeaningful(Split(x.name));
    assert "manifest.json"[0] == 'm' && "artifacts/"[0] == 'a';
    assert "artifacts/" <= x.name ==> x.name[0] == "artifacts/"[0];
  }

  lemma {:induction false} UpwardsIsMeaningful(p: Path)
    ensures ".." in p ==> ".." in Meaningful(p)
  {
    if p != [] {
      assert ".."[1] == '.';
      UpwardsIsMeaningful(p[1..]);
    }
  }

  /** An accepted archive has changed nothing outside a new directory, and in it the files
      are exactly those of the manifest, each with the contents the manifest gives. */
  lemma UnpackIsSound(t: Files, dest: Path, archive: seq<Member>, v: Files, m: Manifest)
    requires Rooted(t) && dest != [] && dest !in t && IsDir(t, Parent(dest))
    requires ExtractAll(Graft(t, dest, map[[] := Dir]), dest, archive) == Some(v) && Unpacked(v, dest, m)
    ensures Rooted(v) && OnlyAt(t, v, {dest})
    ensures forall r :: r in FilePaths(SubTree(v, dest + ["artifacts"])) ==> Join(r) in m.files
    ensures forall name :: name in m.files ==> IsFile(v, dest + ["artifacts"] + Parts(name)) && v[dest + ["artifacts"] + Parts(name)].content == m.files[name]
  {
    hide OnlyAt;
    hide Rooted;
    hide Graft;
    hide SubTree;
    hide ExtractAll;
    var start := Graft(t, dest, map[[] := Dir]);
    CopyIsFramed(t, dest, map[[] := Dir]);
    ExtractAllFrame(start, dest, archive);
    SamePathTwice(t, start, v, dest);
  }

  // -------------------------------------------------------------- round trip

  predicate ProperNames(t: Files) {
    forall q :: q in t ==> AllEntries(q)
  }

  /** The artifacts extracted so far are part of the bundle's, and the files among them are
      the first `k` names. */
  predicate PartOf(b: Files, s: Files, names: seq<string>, k: nat)
    requires k <= |names|
  {
    && (forall r :: r in s ==> r in b && b[r] == s[r])
    && (forall r :: r in s && s[r].File? ==> Join(r) in names[..k])
    && (forall j :: 0 <= j < k ==> IsFile(s, Parts(names[j])))
  }

  lemma NameIsPath(b: Files, name: string)
    requires ProperNames(b) && name in FileNames(b)
    ensures Parts(name) != [] && IsFile(b, Parts(name)) && AllEntries(Parts(name)) && Join(Parts(name)) == name
    ensures Parts("artifacts/" + name) == ["artifacts"] + Parts(name)
  {
    var r :| r in FilePaths(b) && Join(r) == name;
    PartsOfJoin(r);
  }

  lemma SafeArtifact(name: string)
    requires Parts(name) != [] && AllEntries(Parts(name)) && Parts("artifacts/" + name) == ["artifacts"] + Parts(name)
    ensures MemberOk(Member("artifacts/" + name, Bytes(""), true))
    ensures forall c :: MemberOk(Member("artifacts/" + name, c, true))
  {
    assert "artifacts/" <= "artifacts/" + name;
    assert ("artifacts/" + name)[0] == 'a';
    assert "artifacts"[0] == 'a';
  }

  /** The place of an artifact not yet extracted is free. */
  lemma PlaceIsFree(v: Files, art: Path, b: Files, names: seq<string>, k: nat, p: Path)
    requires k < |names| && PartOf(b, SubTree(v, art), names, k) && IsFile(b, p) && Join(p) == names[k]
    requires forall i :: 0 <= i < k ==> names[i] != names[k]
    ensures art + p !in v
  {
    hide SubTree;
    hide Join;
    hide Parts;
    SubTreeHas(v, art, p);
    assert names[k] !in names[..k];
  }

  /** Nothing on the way to it is a file. */
  lemma WayIsClear(v: Files, dest: Path, b: Files, names: seq<string>, k: nat, p: Path)
    requires Rooted(v) && IsDir(v, dest) && Graftable(b)
    requires k < |names| && PartOf(b, SubTree(v, dest + ["artifacts"]), names, k) && p != [] && IsFile(b, p)
    ensures Clear(v, Parent(dest + ["artifacts"] + p))
  {
    hide Graftable;
    hide Rooted;
    hide SubTree;
    hide Join;
    hide Parts;
    var art := dest + ["artifacts"];
    var d := Parent(art + p);
    forall i | 0 <= i <= |d| ensures !IsFile(v, d[..i]) {
      if i <= |dest| {
        assert d[..i] == dest[..i];
        AboveIsDir(v, dest, i);
      } else {
        var r := p[..i - |art|];
        assert d[..i] == art + r;
        SubTreeHas(v, art, r);
        PrefixIsDir(b, p, i - |art|);
      }
    }
  }

  lemma {:induction false} AboveIsDir(v: Files, d: Path, i: nat)
    requires Rooted(v) && IsDir(v, d) && i <= |d|
    ensures IsDir(v, d[..i])
    decreases |d| - i
  {
    if i < |d| {
      AboveIsDir(v, d, i + 1);
      assert d[..i + 1][..i] == d[..i];
    } else {
      assert d[..i] == d;
    }
  }

  lemma NextPart(v: Files, v': Files, dest: Path, x: Member, b: Files, names: seq<string>, k: nat, p: Path)
    requires Rooted(v) && Extract(v, dest, x) == Some(v') && Parts(x.name) == ["artifacts"] + p && p != []
    requires Graftable(b) && IsFile(b, p) && b[p] == File(x.content) && k < |names| && Join(p) == names[k] && Parts(names[k]) == p
    requires PartOf(b, SubTree(v, dest + ["artifacts"]), names, k)
    ensures PartOf(b, SubTree(v', dest + ["artifacts"]), names, k + 1)
  {
    hide Extract;
    hide Rooted;
    hide Graftable;
    hide SubTree;
    hide Join;
    hide Parts;
    var art := dest + ["artifacts"];
    var s, s' := SubTree(v, art), SubTree(v', art);
    assert names[..k + 1] == names[..k] + [names[k]];
    forall r ensures r in s ==> r in s' && s'[r] == s[r]
      ensures p in s' && s'[p] == b[p]
      ensures r in s' && r !in s && r != p ==> IsDir(b, r) && s'[r] == Dir
    {
      NextPartAt(v, v', dest, x, b, p, r);
      SubTreeHas(v, art, r);
      SubTreeHas(v', art, r);
      SubTreeHas(v', art, p);
    }
    PartGrows(b, s, s', names, k, p);
  }

  lemma PartGrows(b: Files, s: Files, s': Files, names: seq<string>, k: nat, p: Path)
    requires k < |names| && PartOf(b, s, names, k) && IsFile(b, p) && Join(p) == names[k] && Parts(names[k]) == p
    requires forall r :: r in s ==> r in s' && s'[r] == s[r]
    requires p in s' && s'[p] == b[p]
    requires forall r :: r in s' && r !in s && r != p ==> IsDir(b, r) && s'[r] == Dir
    ensures PartOf(b, s', names, k + 1)
  {
    hide Join;
    hide Parts;
    hide IsDir;
    assert names[..k + 1] == names[..k] + [names[k]];
    forall r | r in s' ensures r in b && b[r] == s'[r] && (s'[r].File? ==> Join(r) in names[..k + 1]) {
      if r !in s && r != p { DirIs(b, r); }
    }
    forall j | 0 <= j < k + 1 ensures IsFile(s', Parts(names[j])) {
      if j < k { assert IsFile(s, Parts(names[j])); }
    }
  }

  lemma DirIs(b: Files, r: Path)
    requires IsDir(b, r)
    ensures r in b && b[r] == Dir
  {
  }

  /** What is below the artifacts after one more: the file itself, what was there, or a
      directory the bundle has too. */
  lemma NextPartAt(v: Files, v': Files, dest: Path, x: Member, b: Files, p: Path, r: Path)
    requires Rooted(v) && Extract(v, dest, x) == Some(v') && Parts(x.name) == ["artifacts"] + p && p != []
    requires Graftable(b) && p in b
    ensures var art := dest + ["artifacts"];
            && (art + r in v ==> art + r in v' && v'[art + r] == v[art + r])
            && (art + p in v' && v'[art + p] == File(x.content))
            && (art + r in v' && art + r !in v && r != p ==> IsDir(b, r) && v'[art + r] == Dir)
  {
    hide Extract;
    hide Rooted;
    hide Graftable;
    var art := dest + ["artifacts"];
    assert dest + Parts(x.name) == art + p;
    ExtractAt(v, dest, x, v', art + r);
    if art + r == art + p {
      assert r == (art + r)[|art|..] == p;
    }
    if art + r in v' && art + r !in v && r != p {
      assert Parent(art + p) == art + p[..|p| - 1];
      WithinBoth(art, r, p[..|p| - 1]);
      assert r == p[..|r|];
      PrefixIsDir(b, p, |r|);
    }
  }

  lemma WithinBoth(art: Path, r: Path, q: Path)
    requires art + r <= art + q
    ensures r <= q
  {
    assert (art + r)[|art|..] == r && (art + q)[|art|..] == q;
  }

  /** The state after the manifest and the first `k` artifacts. */
  predicate Going(v: Option<Files>, dest: Path, text: Content, b: Files, names: seq<string>, k: nat)
    requires k <= |names|
  {
    && v.Some? && Rooted(v.value) && IsDir(v.value, dest)
    && IsFile(v.value, dest + ["manifest.json"]) && v.value[dest + ["manifest.json"]].content == text
    && PartOf(b, SubTree(v.value, dest + ["artifacts"]), names, k)
  }

  lemma FreshDir(u: Files, dest: Path)
    requires Rooted(u) && dest != [] && dest !in u && IsDir(u, Parent(dest))
    ensures var start := Graft(u, dest, map[[] := Dir]);
            Rooted(start) && IsDir(start, dest) && forall r :: r != [] ==> dest + r !in start
  {
    CopyIsFramed(u, dest, map[[] := Dir]);
    GraftAt(u, dest, map[[] := Dir], dest);
    assert dest[|dest|..] == [];
    forall r: Path | r != [] ensures dest + r !in Graft(u, dest, map[[] := Dir]) {
      GraftAt(u, dest, map[[] := Dir], dest + r);
      assert (dest + r)[|dest|..] == r;
    }
  }

  lemma ManifestExtracts(start: Files, dest: Path, text: Content)
    requires Rooted(start) && IsDir(start, dest) && forall r :: r != [] ==> dest + r !in start
    ensures Extract(start, dest, Member("manifest.json", text, true)).Some?
    ensures Parts("manifest.json") == ["manifest.json"]
  {
    hide Rooted;
    hide Graft;
    hide MakeDirs;
    hide Parts;
    ManifestParts();
    assert "manifest.json"[0] == 'm';
    assert Parent(dest + ["manifest.json"]) == dest;
    assert ".." !in ["manifest.json"] by { assert |".."| == 2 && |"manifest.json"| == 13; }
    assert Clear(start, dest) by {
      forall i | 0 <= i <= |dest| ensures !IsFile(start, dest[..i]) { AboveIsDir(start, dest, i); }
    }
  }

  lemma ManifestFirst(start: Files, dest: Path, text: Content, b: Files, names: seq<string>)
    requires Rooted(start) && IsDir(start, dest) && forall r :: r != [] ==> dest + r !in start
    ensures Going(Extract(start, dest, Member("manifest.json", text, true)), dest, text, b, names, 0)
  {
    hide Rooted;
    hide Extract;
    hide Parts;
    hide SubTree;
    hide Join;
    ManifestExtracts(start, dest, text);
    var x := Member("manifest.json", text, true);
    var v := Extract(start, dest, x).value;
    ExtractFrame(start, dest, x, v);
    ExtractAt(start, dest, x, v, dest);
    var art := dest + ["artifacts"];
    assert Parent(dest + ["manifest.json"]) == dest;
    forall r ensures r !in SubTree(v, art) {
      SubTreeHas(v, art, r);
      ExtractAt(start, dest, x, v, art + r);
      assert art + r == dest + (["artifacts"] + r);
      NotTheManifest(dest, r);
    }
  }

  lemma NotTheManifest(dest: Path, r: Path)
    ensures dest + ["artifacts"] + r != dest + ["manifest.json"] && !(dest + ["artifacts"] + r <= dest)
  {
    assert (dest + ["artifacts"] + r)[|dest|] == "artifacts" && "artifacts"[0] == 'a' && "manifest.json"[0] == 'm';
  }

  lemma OneMore(v: Files, dest: Path, text: Content, b: Files, names: seq<string>, k: nat, x: Member)
    requires k < |names| && Going(Some(v), dest, text, b, names, k) && Graftable(b) && ProperNames(b)
    requires names[k] in FileNames(b) && forall i :: 0 <= i < k ==> names[i] != names[k]
    requires x.name == "artifacts/" + names[k] && x.regular && IsFile(b, Parts(names[k])) && b[Parts(names[k])] == File(x.content)
    ensures Going(Extract(v, dest, x), dest, text, b, names, k + 1)
  {
    hide Graftable;
    hide Rooted;
    hide SubTree;
    hide PartOf;
    hide Join;
    var p := Parts(names[k]);
    NameIsPath(b, names[k]);
    SafeArtifact(names[k]);
    hide Parts;
    var art := dest + ["artifacts"];
    assert dest + Parts(x.name) == art + p;
    PlaceIsFree(v, art, b, names, k, p);
    WayIsClear(v, dest, b, names, k, p);
    assert MemberOk(Member("artifacts/" + names[k], x.content, true));
    var v' := Extract(v, dest, x);
    assert v'.Some?;
    hide Extract;
    NextPart(v, v'.value, dest, x, b, names, k, p);
    ExtractFrame(v, dest, x, v'.value);
    ExtractAt(v, dest, x, v'.value, dest);
    ExtractAt(v, dest, x, v'.value, dest + ["manifest.json"]);
  }

  lemma {:induction false} AllExtracted(start: Files, dest: Path, text: Content, b: Files, names: seq<string>, archive: seq<Member>, k: nat)
    requires Rooted(start) && IsDir(start, dest) && forall r :: r != [] ==> dest + r !in start
    requires Graftable(b) && ProperNames(b) && Lists(names, FileNames(b)) && k <= |names|
    requires |archive| == |names| + 1 && archive[0] == Member("manifest.json", text, true)
    requires forall j :: 0 <= j < |names| ==> Carries(b, names[j], archive[j + 1])
    ensures Going(ExtractAll(start, dest, archive[..k + 1]), dest, text, b, names, k)
    decreases k
  {
    hide Graftable;
    hide Rooted;
    hide Extract;
    hide ProperNames;
    hide FileNames;
    hide Going;
    hide Parts;
    var upTo := archive[..k + 1];
    assert upTo[..|upTo| - 1] == archive[..k] && upTo[|upTo| - 1] == archive[k];
    if k == 0 {
      ManifestFirst(start, dest, text, b, names);
    } else {
      AllExtracted(start, dest, text, b, names, archive, k - 1);
      assert archive[..k - 1 + 1] == archive[..k];
      assert Carries(b, names[k - 1], archive[k - 1 + 1]);
      GoingIsSome(ExtractAll(start, dest, archive[..k]), dest, text, b, names, k - 1);
      OneMore(ExtractAll(start, dest, archive[..k]).value, dest, text, b, names, k - 1, archive[k]);
    }
  }

  lemma GoingIsSome(v: Option<Files>, dest: Path, text: Content, b: Files, names: seq<string>, k: nat)
    requires k <= |names| && Going(v, dest, text, b, names, k)
    ensures v.Some?
  {
  }

  predicate Carries(b: Files, name: string, x: Member) {
    x.name == "artifacts/" + name && x.regular && IsFile(b, Parts(name)) && b[Parts(name)] == File(x.content)
  }

  /** For every bundle `verify` accepts, and whatever order the artifacts are packed in, the
      archive is accepted by `unpack` in a fresh directory, which then holds the same manifest
      and exactly the same artifact files with the same contents. */
  lemma BundleRoundTrip(t: Files, root: Path, m: Manifest, names: seq<string>, archive: seq<Member>, u: Files, dest: Path)
    requires Rooted(t) && ProperNames(t) && IsFile(t, root + ["manifest.json"]) && Accepts(t, root, m) && Lists(names, m.files.Keys)
    requires |archive| == |names| + 1 && archive[0] == Member("manifest.json", t[root + ["manifest.json"]].content, true)
    requires forall k :: 0 <= k < |names| ==>
      IsFile(t, root + ["artifacts"] + Parts(names[k])) && archive[k + 1] == ArtifactMember(t, root, names[k])
    requires Rooted(u) && dest != [] && dest !in u && IsDir(u, Parent(dest))
    ensures var out := ExtractAll(Graft(u, dest, map[[] := Dir]), dest, archive);
            && out.Some? && IsFile(out.value, dest + ["manifest.json"])
            && out.value[dest + ["manifest.json"]] == t[root + ["manifest.json"]]
            && Unpacked(out.value, dest, m)
            && SameFiles(SubTree(t, root + ["artifacts"]), SubTree(out.value, dest + ["artifacts"]))
  {
    hide Rooted;
    hide Graft;
    hide HeaderOk;
    hide SafeName;
    hide Parts;
    hide FileNames;
    hide Graftable;
    hide SubTree;
    hide ExtractAll;
    hide Extract;
    hide ProperNames;
    hide Matches;
    hide PartOf;
    hide SameFiles;
    hide Unpacked;
    var b := SubTree(t, root + ["artifacts"]);
    var text := t[root + ["manifest.json"]].content;
    SubTreeGraftable(t, root + ["artifacts"]);
    ProperBelow(t, root + ["artifacts"]);
    FreshDir(u, dest);
    forall k | 0 <= k < |names| ensures Carries(b, names[k], archive[k + 1]) {
      SubTreeHas(t, root + ["artifacts"], Parts(names[k]));
    }
    AllExtracted(Graft(u, dest, map[[] := Dir]), dest, text, b, names, archive, |names|);
    assert archive[..|names| + 1] == archive;
    var out := ExtractAll(Graft(u, dest, map[[] := Dir]), dest, archive);
    WholeIsSame(t, root, m, names, b, out.value, dest);
  }

  /** The same files with the same contents. */
  predicate SameFiles(a: Files, b: Files) {
    && FilePaths(a) == FilePaths(b)
    && forall r :: r in FilePaths(a) ==> a[r] == b[r]
  }

  lemma ProperBelow(t: Files, p: Path)
    requires ProperNames(t)
    ensures ProperNames(SubTree(t, p))
  {
    forall r | r in SubTree(t, p) ensures AllEntries(r) {
      SubTreeHas(t, p, r);
      forall k | 0 <= k < |r| ensures IsEntry(r[k]) {
        assert (p + r)[|p| + k] == r[k];
        assert AllEntries(p + r);
      }
    }
  }

  lemma WholeIsSame(t: Files, root: Path, m: Manifest, names: seq<string>, b: Files, v: Files, dest: Path)
    requires b == SubTree(t, root + ["artifacts"]) && ProperNames(b) && Accepts(t, root, m) && Lists(names, m.files.Keys)
    requires PartOf(b, SubTree(v, dest + ["artifacts"]), names, |names|)
    ensures Unpacked(v, dest, m) && SameFiles(b, SubTree(v, dest + ["artifacts"]))
  {
    hide HeaderOk;
    hide SafeName;
    hide SubTree;
    hide Join;
    hide Parts;
    var s := SubTree(v, dest + ["artifacts"]);
    forall r | r in FilePaths(b) ensures r in FilePaths(s) && s[r] == b[r] {
      assert Join(r) in names;
      NameIsPath(b, Join(r));
      PathOfName(b, r);
    }
    forall name | name in m.files ensures Matches(v, dest + ["artifacts"], m, name) {
      assert Matches(t, root + ["artifacts"], m, name);
      NameIsPath(b, name);
      SubTreeHas(t, root + ["artifacts"], Parts(name));
      SubTreeHas(v, dest + ["artifacts"], Parts(name));
      assert IsFile(s, Parts(name)) by {
        var j :| 0 <= j < |names| && names[j] == name;
      }
    }
    assert FilePaths(s) == FilePaths(b);
    assert Inventory(v, dest + ["artifacts"]) == Inventory(t, root + ["artifacts"]);
  }

  lemma PathOfName(b: Files, r: Path)
    requires ProperNames(b) && r in FilePaths(b)
    ensures Parts(Join(r)) == r
  {
    PartsOfJoin(r);
  }
}
