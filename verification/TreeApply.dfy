/** Applying a plan to the disk, with a failure or the end of the process possible at every
    file-system call. */
module TreeApply {
  import opened Domain
  import opened Paths
  import opened BrowseTree

  // ---------------------------------------------------------------------------
  // What one change does to the invariants
  // ---------------------------------------------------------------------------

  /** Adding or changing one entry below an existing directory. */
  lemma SetKeepsForm(t: Tree, p: Path, node: Node)
    requires WellFormed(t) && (p == [] ==> node.Dir?) && (p != [] ==> Parent(p) in t && t[Parent(p)].Dir?)
    requires p in t ==> !t[p].Dir?
    ensures WellFormed(t[p := node])
  {
    forall q | q in t && q != [] ensures Parent(q) != p || p !in t {
    }
  }

  /** Removing an entry that holds nothing. */
  lemma DropKeepsForm(t: Tree, p: Path)
    requires WellFormed(t) && (forall q :: q in t && q != [] ==> Parent(q) != p)
    ensures WellFormed(t - {p})
  {
  }

  lemma FileHoldsNothing(t: Tree, p: Path)
    requires WellFormed(t) && p in t && !t[p].Dir?
    ensures forall q :: q in t && q != [] ==> Parent(q) != p
  {
  }

  /** Trees that differ only where neither holds anything of the user's. */
  lemma DifferOutside(at: Place, t: Tree, u: Tree, p: Path)
    requires forall q :: q != p ==> (q in t <==> q in u) && (q in t ==> t[q] == u[q])
    requires !Foreign(at, t, p) && !Foreign(at, u, p)
    ensures SameForeign(at, t, u)
    ensures forall q :: Owned(at, u, q) ==> q == p || Owned(at, t, q)
  {
    forall q | q != p ensures Foreign(at, t, q) == Foreign(at, u, q) && Owned(at, t, q) == Owned(at, u, q) {
    }
  }

  /** A new directory. */
  lemma AddDir(at: Place, t: Tree, p: Path)
    requires WellFormed(t) && p !in t && (p != [] ==> Parent(p) in t && t[Parent(p)].Dir?)
    ensures WellFormed(t[p := Dir]) && SameForeign(at, t, t[p := Dir])
    ensures forall q :: Owned(at, t[p := Dir], q) ==> Owned(at, t, q)
  {
    SetKeepsForm(t, p, Dir);
    DifferOutside(at, t, t[p := Dir], p);
  }

  /** A new link of the tool's own, or a new text for one. */
  lemma SetOwnLink(at: Place, t: Tree, p: Path, text: Text)
    requires WellFormed(t) && p != [] && OwnText(at, p, text) && Parent(p) in t && t[Parent(p)].Dir?
    requires p in t ==> Owned(at, t, p)
    ensures WellFormed(t[p := Link(text)]) && SameForeign(at, t, t[p := Link(text)])
    ensures forall q :: Owned(at, t[p := Link(text)], q) ==> q == p || Owned(at, t, q)
  {
    SetKeepsForm(t, p, Link(text));
    DifferOutside(at, t, t[p := Link(text)], p);
  }

  lemma DropOwnLink(at: Place, t: Tree, p: Path)
    requires WellFormed(t) && Owned(at, t, p)
    ensures WellFormed(t - {p}) && SameForeign(at, t, t - {p})
    ensures forall q :: Owned(at, t - {p}, q) ==> q != p && Owned(at, t, q)
  {
    FileHoldsNothing(t, p);
    DropKeepsForm(t, p);
    DifferOutside(at, t, t - {p}, p);
  }

  lemma DropEmptyDir(at: Place, t: Tree, p: Path)
    requires WellFormed(t) && p in t && t[p].Dir? && (forall q :: q in t && q != [] ==> Parent(q) != p)
    ensures WellFormed(t - {p}) && SameForeign(at, t, t - {p})
    ensures forall q :: Owned(at, t - {p}, q) ==> Owned(at, t, q)
  {
    DropKeepsForm(t, p);
    DifferOutside(at, t, t - {p}, p);
  }

  lemma SameForeignChains(at: Place, t: Tree, u: Tree, w: Tree)
    requires SameForeign(at, t, u) && SameForeign(at, u, w)
    ensures SameForeign(at, t, w)
  {
    forall p | Foreign(at, t, p) ensures p in w && w[p] == t[p] {
      assert Foreign(at, u, p);
    }
    forall p | Foreign(at, w, p) ensures p in t && t[p] == w[p] {
      assert Foreign(at, u, p);
    }
  }

  /** Whatever happens to the rest, a path that held nothing of the user's still does not. */
  lemma StaysFree(at: Place, t: Tree, u: Tree, p: Path)
    requires SameForeign(at, t, u) && !Foreign(at, t, p)
    ensures !Foreign(at, u, p)
  {
  }

  /** A temporary entry leaves no trace, whether it is renamed or removed. */
  lemma NoTrace<K, V>(m: map<K, V>, temp: K, k: K, v: V)
    requires temp !in m
    ensures m[temp := v] - {temp} == m
    ensures (m[temp := v] - {temp})[k := v] == m[k := v]
  {
  }

  datatype DirRemoval = Removed | Absent | NotEmpty | Failed

  class Disk {
    var tree: Tree

    constructor (t: Tree)
      ensures tree == t
    {
      tree := t;
    }

    method CreateDir(p: Path) returns (ok: bool)
      modifies this
      ensures ok ==> p !in old(tree) && (p != [] ==> Parent(p) in old(tree) && old(tree)[Parent(p)].Dir?)
      ensures tree == if ok then old(tree)[p := Dir] else old(tree)
    {
      ok := *;
      if p in tree || (p != [] && (Parent(p) !in tree || !tree[Parent(p)].Dir?)) {
        ok := false;
      }
      if ok {
        tree := tree[p := Dir];
      }
    }

    method Symlink(p: Path, text: Text) returns (ok: bool)
      modifies this
      ensures ok ==> p != [] && p !in old(tree) && Parent(p) in old(tree) && old(tree)[Parent(p)].Dir?
      ensures tree == if ok then old(tree)[p := Link(text)] else old(tree)
    {
      ok := *;
      if p == [] || p in tree || Parent(p) !in tree || !tree[Parent(p)].Dir? {
        ok := false;
      }
      if ok {
        tree := tree[p := Link(text)];
      }
    }

    /** Rename one link over another. */
    method Rename(from: Path, to: Path) returns (ok: bool)
      requires from in tree && tree[from].Link? && to in tree && tree[to].Link? && from != to
      modifies this
      ensures tree == if ok then (old(tree) - {from})[to := old(tree)[from]] else old(tree)
    {
      ok := *;
      if ok {
        tree := (tree - {from})[to := tree[from]];
      }
    }

    method RemoveFile(p: Path) returns (ok: bool)
      modifies this
      ensures ok ==> p in old(tree) && !old(tree)[p].Dir?
      ensures tree == if ok then old(tree) - {p} else old(tree)
    {
      ok := *;
      if p !in tree || tree[p].Dir? {
        ok := false;
      }
      if ok {
        tree := tree - {p};
      }
    }

    method RemoveDir(p: Path) returns (r: DirRemoval)
      modifies this
      ensures r.Removed? ==> p in old(tree) && old(tree)[p].Dir? && (forall q :: q in old(tree) && q != [] ==> Parent(q) != p)
      ensures tree == if r.Removed? then old(tree) - {p} else old(tree)
    {
      var fails: bool := *;
      if fails || (p in tree && !tree[p].Dir?) {
        r := Failed;
      } else if p !in tree {
        r := Absent;
      } else if exists q :: q in tree && q != [] && Parent(q) == p {
        r := NotEmpty;
      } else {
        r := Removed;
        tree := tree - {p};
      }
    }

    /** Put one link in place: create it, leave it, or replace it through a temporary link beside
        it. Stopping half way leaves at most that temporary link, which is the tool's own. */
    method ApplyDesiredLink(at: Place, p: Path, text: Text) returns (ok: bool)
      requires WellFormed(tree) && p != [] && OwnText(at, p, text) && !Foreign(at, tree, p)
      modifies this
      ensures WellFormed(tree) && SameForeign(at, old(tree), tree)
      ensures ok ==> tree == old(tree)[p := Link(text)]
      ensures ok ==> forall q :: Owned(at, tree, q) ==> q == p || Owned(at, old(tree), q)
    {
      if p !in tree {
        ok := Symlink(p, text);
        if ok {
          SetOwnLink(at, old(tree), p, text);
        }
        return;
      }
      if !tree[p].Link? {
        return false;
      }
      if tree[p].text == text {
        assert tree == tree[p := Link(text)];
        return true;
      }
      ok := Replace(at, p, text);
    }

    method Replace(at: Place, p: Path, text: Text) returns (ok: bool)
      requires WellFormed(tree) && Owned(at, tree, p) && OwnText(at, p, text)
      modifies this
      ensures WellFormed(tree) && SameForeign(at, old(tree), tree)
      ensures ok ==> tree == old(tree)[p := Link(text)]
      ensures ok ==> forall q :: Owned(at, tree, q) ==> q == p || Owned(at, old(tree), q)
    {
      var name: string := *;
      var temp := Parent(p) + [name];
      assert Parent(temp) == Parent(p);
      ok := Symlink(temp, text);
      if !ok {
        return;
      }
      NoTrace(old(tree), temp, p, Link(text));
      SetOwnLink(at, old(tree), temp, text);
      ok := Rename(temp, p);
      if ok {
        SetOwnLink(at, old(tree), p, text);
      } else {
        var cleaned := RemoveFile(temp);
      }
    }

    method CreateDirectories(at: Place, create: set<Path>) returns (ok: bool)
      requires WellFormed(tree)
      modifies this
      ensures WellFormed(tree) && SameForeign(at, old(tree), tree)
      ensures ok ==> forall q :: Owned(at, tree, q) ==> Owned(at, old(tree), q)
      ensures ok ==> ([] in create || [] in old(tree) ==> [] in tree)
    {
      var todo := create;
      while todo != {}
        invariant WellFormed(tree) && SameForeign(at, old(tree), tree)
        invariant forall q :: Owned(at, tree, q) ==> Owned(at, old(tree), q)
        invariant todo <= create && (([] in create && [] !in todo) || [] in old(tree) ==> [] in tree)
        decreases |todo|
      {
        var p :| p in todo;
        ghost var before := tree;
        ok := CreateDir(p);
        if !ok {
          return;
        }
        AddDir(at, before, p);
        SameForeignChains(at, old(tree), before, tree);
        todo := todo - {p};
      }
      ok := true;
    }

    method ApplyLinks(at: Place, desired: map<Path, Text>) returns (ok: bool)
      requires WellFormed(tree) && Desirable(at, desired) && [] in tree
      requires forall p :: p in desired ==> !Foreign(at, tree, p)
      modifies this
      ensures WellFormed(tree) && SameForeign(at, old(tree), tree)
      ensures ok ==> [] in tree && forall p :: p in desired ==> p in tree && tree[p] == Link(desired[p])
      ensures ok ==> forall q :: Owned(at, tree, q) ==> q in desired || Owned(at, old(tree), q)
    {
      var todo := desired.Keys;
      while todo != {}
        invariant todo <= desired.Keys && WellFormed(tree) && SameForeign(at, old(tree), tree) && [] in tree
        invariant forall p :: p in desired && p !in todo ==> p in tree && tree[p] == Link(desired[p])
        invariant forall q :: Owned(at, tree, q) ==> q in desired || Owned(at, old(tree), q)
        decreases |todo|
      {
        var p :| p in todo;
        ghost var before := tree;
        StaysFree(at, old(tree), tree, p);
        ok := ApplyDesiredLink(at, p, desired[p]);
        SameForeignChains(at, old(tree), before, tree);
        if !ok {
          return;
        }
        todo := todo - {p};
      }
      ok := true;
    }

    method RemoveStale(at: Place, desired: map<Path, Text>, stale: set<Path>) returns (ok: bool)
      requires WellFormed(tree) && [] in tree && stale !! desired.Keys
      requires forall p :: p in stale ==> !Foreign(at, tree, p)
      requires forall p :: p in desired ==> p in tree && tree[p] == Link(desired[p])
      requires forall q :: Owned(at, tree, q) ==> q in desired || q in stale
      modifies this
      ensures WellFormed(tree) && SameForeign(at, old(tree), tree)
      ensures ok ==> [] in tree && Converged(at, tree, desired)
    {
      var todo := stale;
      while todo != {}
        invariant todo <= stale && WellFormed(tree) && SameForeign(at, old(tree), tree) && [] in tree
        invariant forall p :: p in desired ==> p in tree && tree[p] == Link(desired[p])
        invariant forall q :: Owned(at, tree, q) ==> q in desired || q in todo
        decreases |todo|
      {
        var p :| p in todo;
        ghost var before := tree;
        StaysFree(at, old(tree), tree, p);
        ok := RemoveFile(p);
        if !ok {
          return;
        }
        DropOwnLink(at, before, p);
        SameForeignChains(at, old(tree), before, tree);
        todo := todo - {p};
      }
      ok := true;
    }

    /** Remove directories that are empty by now; others are left alone. */
    method PruneDirectories(at: Place, desired: map<Path, Text>, prune: seq<Path>) returns (ok: bool)
      requires WellFormed(tree) && [] in tree && Converged(at, tree, desired) && [] !in prune
      modifies this
      ensures WellFormed(tree) && SameForeign(at, old(tree), tree) && [] in tree && Converged(at, tree, desired)
    {
      var i := 0;
      while i < |prune|
        invariant 0 <= i <= |prune| && WellFormed(tree) && SameForeign(at, old(tree), tree)
        invariant [] in tree && Converged(at, tree, desired)
      {
        ghost var before := tree;
        var r := RemoveDir(prune[i]);
        if r.Failed? {
          return false;
        }
        if r.Removed? {
          DropEmptyDir(at, before, prune[i]);
          SameForeignChains(at, old(tree), before, tree);
        }
        i := i + 1;
      }
      ok := true;
    }

    /** From any tree. Whatever fails and wherever the process stops, the user's files and links
        are as they were, and the tree can be planned again. If nothing fails, the tool's own
        links are exactly the desired ones. */
    method Apply(at: Place, plan: Plan, prune: seq<Path>) returns (ok: bool)
      requires WellFormed(tree) && Desirable(at, plan.desired) && IsPlan(at, tree, plan.desired, plan) && [] !in prune
      modifies this
      ensures WellFormed(tree) && SameForeign(at, old(tree), tree)
      ensures ok ==> [] in tree && Converged(at, tree, plan.desired)
    {
      ok := CreateDirectories(at, plan.create);
      if !ok {
        return;
      }
      ghost var made := tree;
      forall p | p in plan.desired ensures !Foreign(at, tree, p) {
        StaysFree(at, old(tree), tree, p);
      }
      ok := ApplyLinks(at, plan.desired);
      SameForeignChains(at, old(tree), made, tree);
      if !ok {
        return;
      }
      ghost var linked := tree;
      forall p | p in plan.stale ensures !Foreign(at, tree, p) {
        StaysFree(at, old(tree), tree, p);
      }
      ok := RemoveStale(at, plan.desired, plan.stale);
      SameForeignChains(at, old(tree), linked, tree);
      if !ok {
        return;
      }
      ghost var cleaned := tree;
      ok := PruneDirectories(at, plan.desired, prune);
      SameForeignChains(at, old(tree), cleaned, tree);
    }
  }
}
