/** Files and directories as a map from paths, with one operation: putting a tree in the place
    of another.  Removing, writing, renaming and copying are all cases of it. */
module FileTree {
  type Path = seq<string>

  datatype Node<C> = File(content: C) | Dir

  type Tree<C> = map<Path, Node<C>>

  /** The tree at `p`, with paths relative to it; empty when there is nothing at `p`. */
  function SubTree<C>(t: Tree<C>, p: Path): Tree<C> {
    map r | r in Tails(t.Keys, p) :: t[p + r]
  }

  function Tails(paths: set<Path>, p: Path): (tails: set<Path>)
    ensures forall r :: r in tails <==> p + r in paths
  {
    var tails := set q | q in paths && p <= q :: q[|p|..];
    assert forall r :: p + r in paths ==> (p + r)[|p|..] == r;
    assert forall q :: q in paths && p <= q ==> p + q[|p|..] == q;
    tails
  }

  /** The tree with `sub` in the place of whatever was at `p`. */
  function Graft<C>(t: Tree<C>, p: Path, sub: Tree<C>): Tree<C> {
    var rest := set q | q in t && !(p <= q);
    map q | q in rest + (set r | r in sub :: p + r) :: if q in rest then t[q] else sub[q[|p|..]]
  }

  lemma GraftAt<C>(t: Tree<C>, p: Path, sub: Tree<C>, q: Path)
    ensures p <= q ==> (q in Graft(t, p, sub) <==> q[|p|..] in sub) && (q in Graft(t, p, sub) ==> Graft(t, p, sub)[q] == sub[q[|p|..]])
    ensures !(p <= q) ==> (q in Graft(t, p, sub) <==> q in t) && (q in t ==> Graft(t, p, sub)[q] == t[q])
  {
    assert forall r :: (p + r)[|p|..] == r;
    if p <= q {
      assert p + q[|p|..] == q;
    }
  }

  /** Every directory on the way to something is there, so nothing lies under a file or under
      a missing path. */
  predicate Rooted<C>(t: Tree<C>) {
    forall q :: q in t && q != [] ==> IsDir(t, q[..|q| - 1])
  }

  predicate IsDir<C>(t: Tree<C>, p: Path) {
    p in t && t[p].Dir?
  }

  predicate IsFile<C>(t: Tree<C>, p: Path) {
    p in t && t[p].File?
  }

  predicate Apart(p: Path, q: Path) {
    !(p <= q) && !(q <= p)
  }

  lemma SubTreeOfGraft<C>(t: Tree<C>, p: Path, sub: Tree<C>)
    ensures SubTree(Graft(t, p, sub), p) == sub
  {
    forall r ensures (r in SubTree(Graft(t, p, sub), p) <==> r in sub) && (r in sub ==> SubTree(Graft(t, p, sub), p)[r] == sub[r]) {
      assert (p + r)[|p|..] == r;
      GraftAt(t, p, sub, p + r);
    }
  }

  lemma SubTreeApart<C>(t: Tree<C>, p: Path, sub: Tree<C>, q: Path)
    requires Apart(p, q)
    ensures SubTree(Graft(t, p, sub), q) == SubTree(t, q)
  {
    forall r ensures q + r in Graft(t, p, sub) <==> q + r in t
      ensures q + r in t ==> Graft(t, p, sub)[q + r] == t[q + r]
    {
      GraftAt(t, p, sub, q + r);
      if p <= q + r {
        PrefixesCompare(p, q, q + r);
      }
    }
    assert SubTree(Graft(t, p, sub), q).Keys == SubTree(t, q).Keys;
  }

  lemma SubTreeHas<C>(t: Tree<C>, p: Path, r: Path)
    ensures r in SubTree(t, p) <==> p + r in t
    ensures p + r in t ==> SubTree(t, p)[r] == t[p + r]
  {
  }

  lemma SubTreeTwice<C>(t: Tree<C>, p: Path, q: Path)
    ensures SubTree(t, p + q) == SubTree(SubTree(t, p), q)
  {
    hide SubTree;
    var once, twice := SubTree(t, p + q), SubTree(SubTree(t, p), q);
    forall r ensures (r in once <==> r in twice) && (r in once ==> once[r] == twice[r]) {
      assert p + q + r == p + (q + r);
      SubTreeHas(t, p + q, r);
      SubTreeHas(t, p, q + r);
      SubTreeHas(SubTree(t, p), q, r);
    }
  }

  lemma PrefixesCompare(p: Path, q: Path, r: Path)
    requires p <= r && q <= r
    ensures p <= q || q <= p
  {
    if |p| <= |q| { assert p == r[..|p|] == q[..|p|]; } else { assert q == r[..|q|] == p[..|q|]; }
  }

  lemma {:induction false} NothingUnder<C>(t: Tree<C>, p: Path, q: Path)
    requires Rooted(t) && p <= q && p != q && !IsDir(t, p)
    ensures q !in t
    decreases |q|
  {
    if q in t {
      var parent := q[..|q| - 1];
      assert IsDir(t, parent) && p <= parent;
      if parent != p {
        NothingUnder(t, p, parent);
      }
    }
  }

  lemma MissingIsEmpty<C>(t: Tree<C>, p: Path)
    requires Rooted(t) && p !in t
    ensures SubTree(t, p) == map[]
  {
    forall r ensures p + r !in t {
      if r == [] { assert p + r == p; } else { NothingUnder(t, p, p + r); }
    }
  }

  /** What may be put at `p`: nothing, a file, or a rooted tree with a directory on top. */
  predicate Graftable<C>(sub: Tree<C>) {
    forall r :: r in sub && r != [] ==> [] in sub && sub[[]].Dir? && IsDir(sub, r[..|r| - 1])
  }

  lemma SubTreeGraftable<C>(t: Tree<C>, p: Path)
    requires Rooted(t)
    ensures Graftable(SubTree(t, p))
  {
    forall r | r in SubTree(t, p) && r != []
      ensures [] in SubTree(t, p) && SubTree(t, p)[[]].Dir? && IsDir(SubTree(t, p), r[..|r| - 1])
    {
      assert (p + r)[..|p + r| - 1] == p + r[..|r| - 1];
      assert p + [] == p;
      if !IsDir(t, p) { NothingUnder(t, p, p + r); }
    }
  }

  lemma {:induction false} PrefixIsDir<C>(sub: Tree<C>, p: Path, i: nat)
    requires Graftable(sub) && p in sub && i < |p|
    ensures IsDir(sub, p[..i])
    decreases |p|
  {
    assert IsDir(sub, p[..|p| - 1]);
    if i < |p| - 1 {
      PrefixIsDir(sub, p[..|p| - 1], i);
      assert p[..|p| - 1][..i] == p[..i];
    }
  }

  lemma GraftIsRooted<C>(t: Tree<C>, p: Path, sub: Tree<C>)
    requires Rooted(t) && Graftable(sub) && p != [] && IsDir(t, p[..|p| - 1])
    ensures Rooted(Graft(t, p, sub))
  {
    forall q | q in Graft(t, p, sub) && q != [] ensures IsDir(Graft(t, p, sub), q[..|q| - 1]) {
      GraftKeepsParent(t, p, sub, q);
    }
  }

  lemma GraftKeepsParent<C>(t: Tree<C>, p: Path, sub: Tree<C>, q: Path)
    requires Rooted(t) && Graftable(sub) && p != [] && IsDir(t, p[..|p| - 1]) && q in Graft(t, p, sub) && q != []
    ensures IsDir(Graft(t, p, sub), q[..|q| - 1])
  {
    var parent := q[..|q| - 1];
    GraftAt(t, p, sub, q);
    GraftAt(t, p, sub, parent);
    hide Graft;
    hide Graftable;
    if p <= q && p != q {
      UnderGraft(sub, p, q);
    } else if p == q {
      assert !(p <= parent);
    }
  }

  lemma UnderGraft<C>(sub: Tree<C>, p: Path, q: Path)
    requires Graftable(sub) && p <= q && p != q && q[|p|..] in sub
    ensures IsDir(sub, q[..|q| - 1][|p|..])
  {
    var r := q[|p|..];
    assert r[..|r| - 1] == q[..|q| - 1][|p|..];
  }

  /** Taking away what is not there changes nothing. */
  lemma GraftNothing<C>(t: Tree<C>, p: Path)
    requires Rooted(t) && p !in t
    ensures Graft(t, p, map[]) == t
  {
    forall q ensures (q in Graft(t, p, map[]) <==> q in t) && (q in t ==> Graft(t, p, map[])[q] == t[q]) {
      GraftAt(t, p, map[], q);
      if p <= q && q != p { NothingUnder(t, p, q); }
    }
  }

  /** Missing directories down to `p`. */
  function MakeDirs<C>(t: Tree<C>, p: Path): Tree<C>
    decreases |p|
  {
    if p in t then t
    else if p == [] then t[p := Dir]
    else MakeDirs(t, p[..|p| - 1])[p := Dir]
  }

  /** Nothing on the way to `p` is a file. */
  predicate Clear<C>(t: Tree<C>, p: Path) {
    forall k :: 0 <= k <= |p| ==> !IsFile(t, p[..k])
  }

  lemma {:induction false} MakeDirsAt<C>(t: Tree<C>, p: Path, q: Path)
    ensures q in t ==> q in MakeDirs(t, p) && MakeDirs(t, p)[q] == t[q]
    ensures q !in t && q in MakeDirs(t, p) ==> q <= p && MakeDirs(t, p)[q] == Dir
    ensures p in MakeDirs(t, p)
    decreases |p|
  {
    if p !in t && p != [] {
      MakeDirsAt(t, p[..|p| - 1], q);
    }
  }

  lemma AddDir<C>(t: Tree<C>, p: Path)
    requires Rooted(t) && p != [] && IsDir(t, p[..|p| - 1]) && p !in t
    ensures Rooted(t[p := Dir])
  {
  }

  lemma {:induction false} MakeDirsIsRooted<C>(t: Tree<C>, p: Path)
    requires Rooted(t) && Clear(t, p)
    ensures Rooted(MakeDirs(t, p)) && IsDir(MakeDirs(t, p), p)
    decreases |p|
  {
    hide Rooted;
    assert p[..|p|] == p;
    if p !in t {
      if p == [] {
        OnlyRoot(t);
      } else {
        var parent := p[..|p| - 1];
        assert Clear(t, parent) by {
          assert forall k :: 0 <= k <= |parent| ==> parent[..k] == p[..k];
        }
        MakeDirsIsRooted(t, parent);
        MakeDirsAt(t, parent, p);
        AddDir(MakeDirs(t, parent), p);
      }
    }
  }

  lemma OnlyRoot<C>(t: Tree<C>)
    requires Rooted(t)
    ensures [] !in t ==> Rooted(t[[] := Dir])
  {
  }

  lemma LongerPrefix(q: Path, r: Path, p: Path)
    ensures q + r <= p ==> q <= p
  {
  }

  lemma MakeDirsApart<C>(t: Tree<C>, p: Path, q: Path)
    requires !(q <= p)
    ensures SubTree(MakeDirs(t, p), q) == SubTree(t, q)
  {
    forall r ensures q + r in MakeDirs(t, p) <==> q + r in t
      ensures q + r in t ==> MakeDirs(t, p)[q + r] == t[q + r]
    {
      MakeDirsAt(t, p, q + r);
      LongerPrefix(q, r, p);
    }
    assert SubTree(MakeDirs(t, p), q).Keys == SubTree(t, q).Keys;
  }

  // --------------------------------------------------------------- frames

  /** Nothing changed but what is at the paths of `ps` and the directories above them. */
  ghost predicate OnlyAt<C(!new)>(t: Tree<C>, t': Tree<C>, ps: set<Path>) {
    && (Rooted(t) ==> Rooted(t'))
    && (forall q :: q in t && (forall p :: p in ps ==> !(p <= q)) ==> q in t' && t'[q] == t[q])
    && (forall q :: (forall p :: p in ps ==> Apart(p, q)) ==> SubTree(t', q) == SubTree(t, q))
  }

  lemma OnlyAtTrans<C(!new)>(t: Tree<C>, t1: Tree<C>, t2: Tree<C>, ps: set<Path>, ps': set<Path>)
    requires OnlyAt(t, t1, ps) && OnlyAt(t1, t2, ps')
    ensures OnlyAt(t, t2, ps + ps')
  {
  }

  lemma OnlyAtGraft<C(!new)>(t: Tree<C>, p: Path, sub: Tree<C>)
    requires p != [] && IsDir(t, p[..|p| - 1]) && Graftable(sub)
    ensures OnlyAt(t, Graft(t, p, sub), {p})
  {
    if Rooted(t) { GraftIsRooted(t, p, sub); }
    forall q | Apart(p, q) ensures SubTree(Graft(t, p, sub), q) == SubTree(t, q) {
      SubTreeApart(t, p, sub, q);
    }
    forall q | q in t && !(p <= q) ensures q in Graft(t, p, sub) && Graft(t, p, sub)[q] == t[q] {
      GraftAt(t, p, sub, q);
    }
  }

  lemma OnlyAtDirs<C(!new)>(t: Tree<C>, p: Path, d: Path)
    requires d <= p && Clear(t, d)
    ensures OnlyAt(t, MakeDirs(t, d), {p})
  {
    if Rooted(t) { MakeDirsIsRooted(t, d); }
    forall q | Apart(p, q) ensures SubTree(MakeDirs(t, d), q) == SubTree(t, q) {
      MakeDirsApart(t, d, q);
    }
    forall q | q in t ensures q in MakeDirs(t, d) && MakeDirs(t, d)[q] == t[q] {
      MakeDirsAt(t, d, q);
    }
  }
}
