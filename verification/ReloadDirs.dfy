/** Which directories the reloader watches (config.py): nested directories are pruned to the outermost ones, and
    excluded directories are removed with everything under them. A resolved path is the list of its components. */
module ReloadDirs {
  import opened Lists

  type Path = seq<string>

  /** `b` is `a` or lies under it. */
  predicate Under(a: Path, b: Path) { a <= b }

  /** `a in b.parents` */
  predicate ParentOf(a: Path, b: Path) { a < b }

  lemma Nested(a: Path, b: Path, c: Path)
    ensures Under(a, a) && !ParentOf(a, a)
    ensures Under(a, b) && Under(b, c) ==> Under(a, c)
    ensures Under(a, b) && ParentOf(b, c) ==> ParentOf(a, c)
    ensures ParentOf(a, b) ==> Under(a, b) && |a| < |b|
    ensures Under(a, b) ==> a == b || ParentOf(a, b)
  {
  }

  /** The directories that lie under no other. */
  ghost function Outermost(dirs: set<Path>): set<Path> { set d | d in dirs && !exists e :: e in dirs && ParentOf(e, d) }

  ghost predicate Antichain(dirs: set<Path>) { forall a, b :: a in dirs && b in dirs ==> !ParentOf(a, b) }

  ghost predicate Covers(watched: set<Path>, dirs: set<Path>) {
    forall d :: d in dirs ==> exists w :: w in watched && Under(w, d)
  }

  /** Every directory has itself or an ancestor among the outermost. */
  lemma {:induction false} HasOutermost(dirs: set<Path>, d: Path)
    requires d in dirs
    ensures exists w :: w in Outermost(dirs) && Under(w, d)
    decreases |d|
  {
    hide Under, ParentOf;
    if exists e :: e in dirs && ParentOf(e, d) {
      var e :| e in dirs && ParentOf(e, d);
      Nested(e, d, d);
      HasOutermost(dirs, e);
      var w :| w in Outermost(dirs) && Under(w, e);
      Nested(w, e, d);
    } else {
      Nested(d, d, d);
      assert d in Outermost(dirs) && Under(d, d);
    }
  }

  lemma CoverHasOutermost(dirs: set<Path>, watched: set<Path>, d: Path)
    requires watched <= dirs && Antichain(watched) && Covers(watched, dirs)
    ensures d in watched <==> d in Outermost(dirs)
  {
    hide Under, ParentOf;
    if d in watched {
      forall e | e in dirs ensures !ParentOf(e, d) {
        var w :| w in watched && Under(w, e);
        Nested(w, e, d);
        assert !ParentOf(w, d);
      }
    }
    if d in Outermost(dirs) {
      var w :| w in watched && Under(w, d);
      Nested(w, d, d);
      assert !ParentOf(w, d);
    }
  }

  /** The outermost directories are the one and only antichain of the directories that covers them all: whatever the
      order in which the loops visit them, no other list would do. */
  lemma OutermostIsTheOnlyCover(dirs: set<Path>, watched: set<Path>)
    ensures watched <= dirs && Antichain(watched) && Covers(watched, dirs) <==> watched == Outermost(dirs)
  {
    hide Under, ParentOf;
    if watched <= dirs && Antichain(watched) && Covers(watched, dirs) {
      forall d ensures d in watched <==> d in Outermost(dirs) { CoverHasOutermost(dirs, watched, d); }
    }
    if watched == Outermost(dirs) {
      forall d | d in dirs ensures exists w :: w in watched && Under(w, d) { HasOutermost(dirs, d); }
    }
  }

  // ---------- pruning ----------

  /** `list(set(...))`: in any order. */
  method ListOf(s: set<Path>) returns (l: seq<Path>)
    ensures Elements(l) == s && Distinct(l)
  {
    l := [];
    var todo := s;
    while todo != {}
      invariant todo <= s && Elements(l) == s - todo && Distinct(l)
    {
      var x :| x in todo;
      assert x !in Elements(l);
      assert Elements(l + [x]) == Elements(l) + {x};
      l := l + [x];
      todo := todo - {x};
    }
  }

  /** The children found so far are directories under another,
      and every one of a pair compared that is under the other. */
  ghost predicate Found(directories: seq<Path>, children: seq<Path>, j: nat, k: nat) {
    && (forall c :: c in children ==> c in directories && exists e :: e in directories && ParentOf(e, c))
    && (forall a, b :: 0 <= a < b < |directories| && (a < j || (a == j && b < k)) ==>
          && (ParentOf(directories[a], directories[b]) ==> directories[b] in children)
          && (ParentOf(directories[b], directories[a]) ==> directories[a] in children))
  }

  lemma FoundOne(directories: seq<Path>, children: seq<Path>, j: nat, k: nat, more: seq<Path>)
    requires j < k < |directories| && Found(directories, children, j, k)
    requires more == if ParentOf(directories[j], directories[k]) then children + [directories[k]]
                     else if ParentOf(directories[k], directories[j]) then children + [directories[j]] else children
    ensures Found(directories, more, j, k + 1)
  {
    var x, y := directories[j], directories[k];
    Nested(x, y, x);
    hide ParentOf;
    assert forall c :: c in children ==> c in more;
    if ParentOf(x, y) { assert y in more; } else if ParentOf(y, x) { assert x in more; }
    forall c | c in more ensures c in directories && exists e :: e in directories && ParentOf(e, c) { }
  }

  /** The pruning loops of `resolve_reload_patterns`. */
  method Prune(directories: seq<Path>) returns (watched: seq<Path>)
    ensures Elements(watched) == Outermost(Elements(directories)) && Distinct(watched)
  {
    hide Outermost, Distinct, Found, ParentOf;
    var children: seq<Path> := [];
    NothingFound(directories);
    for j := 0 to |directories|
      invariant Found(directories, children, j, j + 1)
    {
      for k := j + 1 to |directories|
        invariant Found(directories, children, j, k)
      {
        ghost var before := children;
        if ParentOf(directories[j], directories[k]) {
          children := children + [directories[k]];
        } else if ParentOf(directories[k], directories[j]) {
          children := children + [directories[j]];
        }
        FoundOne(directories, before, j, k, children);
      }
      RowFound(directories, children, j);
    }
    ChildrenFound(directories, children);
    watched := ListOf(Elements(directories) - Elements(children));
  }

  lemma NothingFound(directories: seq<Path>)
    ensures Found(directories, [], 0, 1)
  {
  }

  lemma RowFound(directories: seq<Path>, children: seq<Path>, j: nat)
    requires j < |directories| && Found(directories, children, j, |directories|)
    ensures Found(directories, children, j + 1, j + 2)
  {
    hide ParentOf;
  }

  lemma ChildrenFound(directories: seq<Path>, children: seq<Path>)
    requires Found(directories, children, |directories|, |directories| + 1)
    ensures Elements(directories) - Elements(children) == Outermost(Elements(directories))
  {
    forall d | d in directories ensures d in children <==> exists e :: e in Elements(directories) && ParentOf(e, d) {
      if exists e :: e in Elements(directories) && ParentOf(e, d) {
        var e :| e in Elements(directories) && ParentOf(e, d);
        Nested(e, d, d);
        hide ParentOf;
        var a :| 0 <= a < |directories| && directories[a] == d;
        var b :| 0 <= b < |directories| && directories[b] == e;
        if a < b { assert directories[a] in children; } else { assert directories[a] in children; }
      }
      if d in children { assert exists e :: e in directories && ParentOf(e, d); }
    }
  }

  // ---------- exclusion ----------

  ghost predicate Excluded(excludes: set<Path>, d: Path) { exists e :: e in excludes && Under(e, d) }

  /** Pruning the excluded directories excludes the same. */
  lemma ExclusionByOutermost(excludes: set<Path>, d: Path)
    ensures Excluded(Outermost(excludes), d) <==> Excluded(excludes, d)
  {
    if Excluded(excludes, d) {
      var e :| e in excludes && Under(e, d);
      HasOutermost(excludes, e);
      var w :| w in Outermost(excludes) && Under(w, e);
      assert Under(w, d);
    }
  }

  /** `self.reload_dirs.remove(d)`, without the ValueError that the caller ignores. */
  method Remove(dirs: seq<Path>, d: Path) returns (rest: seq<Path>)
    requires Distinct(dirs)
    ensures Distinct(rest) && Elements(rest) == Elements(dirs) - {d}
  {
    if d !in dirs { return dirs; }
    var i :| 0 <= i < |dirs| && dirs[i] == d;
    rest := dirs[..i] + dirs[i + 1..];
    forall x ensures x in rest <==> x in dirs && x != d {
      if x in dirs && x != d {
        var k :| 0 <= k < |dirs| && dirs[k] == x;
        assert rest[if k < i then k else k - 1] == x;
      }
    }
  }

  /** The exclude-removal loops of `Config.__init__`. */
  method RemoveExcluded(reloadDirs: seq<Path>, excludes: seq<Path>) returns (watched: seq<Path>)
    requires Distinct(reloadDirs)
    ensures Distinct(watched)
    ensures forall d :: d in watched <==> d in reloadDirs && !Excluded(Elements(excludes), d)
  {
    hide Distinct;
    watched := reloadDirs;
    var tmp := reloadDirs;
    for i := 0 to |excludes|
      invariant Distinct(watched)
      invariant forall d :: d in watched <==> d in tmp && !Excluded(Elements(excludes[..i]), d)
    {
      ghost var before := watched;
      for j := 0 to |tmp|
        invariant Distinct(watched)
        invariant forall d :: d in watched <==> d in before && !(d in tmp[..j] && Under(excludes[i], d))
      {
        assert tmp[..j + 1] == tmp[..j] + [tmp[j]];
        if Under(excludes[i], tmp[j]) {
          ghost var was := watched;
          watched := Remove(watched, tmp[j]);
          assert forall d :: d in watched <==> d in Elements(was) - {tmp[j]};
        }
      }
      assert tmp[..|tmp|] == tmp;
      OneMore(excludes, i);
    }
    assert excludes[..|excludes|] == excludes;
  }

  lemma OneMore(excludes: seq<Path>, i: nat)
    requires i < |excludes|
    ensures forall d :: Excluded(Elements(excludes[..i + 1]), d) <==>
                        Excluded(Elements(excludes[..i]), d) || Under(excludes[i], d)
  {
    assert excludes[..i + 1] == excludes[..i] + [excludes[i]];
    assert Elements(excludes[..i + 1]) == Elements(excludes[..i]) + {excludes[i]};
  }

  /** From the directories and exclusions given to the directories watched, before the current directory is taken for
      want of any other. */
  method Watched(directories: seq<Path>, excludes: seq<Path>) returns (watched: seq<Path>)
    ensures forall d :: d in watched <==>
              d in Outermost(Elements(directories)) && !Excluded(Elements(excludes), d)
  {
    hide Outermost, Excluded, Distinct;
    var dirs := Prune(directories);
    var out := Prune(excludes);
    watched := RemoveExcluded(dirs, out);
    forall d ensures d in watched <==> d in Outermost(Elements(directories)) && !Excluded(Elements(excludes), d) {
      ExclusionByOutermost(Elements(excludes), d);
      assert d in dirs <==> d in Elements(dirs);
    }
  }

  /** No directory watched is excluded or lies under an excluded one, and none lies under another; and every
      directory given that is not excluded has itself or an ancestor watched. */
  lemma WatchedIsRight(directories: set<Path>, excludes: set<Path>, d: Path)
    ensures var watched := set w | w in Outermost(directories) && !Excluded(excludes, w);
            && (d in watched ==>
                  d in directories && !Excluded(excludes, d) && forall w :: w in watched ==> !ParentOf(w, d))
            && (d in directories && !Excluded(excludes, d) ==> exists w :: w in watched && Under(w, d))
  {
    if d in directories && !Excluded(excludes, d) {
      HasOutermost(directories, d);
      var w :| w in Outermost(directories) && Under(w, d);
      if Excluded(excludes, w) {
        var e :| e in excludes && Under(e, w);
        assert Under(e, d);
      }
    }
  }
}
