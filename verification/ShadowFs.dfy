/**
 The file tree under the base directory of the shadow sysfs, and the file operations that build it.
 Each operation may fail; a schedule says at which paths they do. One building of a shadow tries each
 path at most once, so this covers every pattern of failures. Removing always works.
 */
module ShadowFs {
  /** Components below the base directory. */
  type Path = seq<string>

  /** The host directories that files are copied from. */
  datatype HostDir = HostBus | HostCard | HostQueue

  /** Text written, a copy of a host file, or what a write that failed half-way left. */
  datatype Content = Text(text: string) | CopyOf(from: HostDir, name: string) | Truncated

  /** A relative link "../" repeated ups times, followed by the names of downs. */
  datatype Entry = Dir | File(content: Content) | Link(ups: nat, downs: seq<string>)

  type Tree = map<Path, Entry>

  ghost predicate IsDir(t: Tree, p: Path) {
    p in t && t[p].Dir?
  }

  /** Where a link at p leads: as many directories up from its own, then down. */
  function Destination(p: Path, link: Entry): Path
    requires p != [] && link.Link? && link.ups < |p|
  {
    p[..|p| - 1 - link.ups] + link.downs
  }

  /** Following the link from its directory meets only directories on the way and ends at an existing entry. */
  ghost predicate Resolves(t: Tree, p: Path, link: Entry)
    requires link.Link?
  {
    && p != [] && link.ups < |p|
    && (forall i :: 0 <= i < |link.downs| ==> IsDir(t, p[..|p| - 1 - link.ups] + link.downs[..i]))
    && Destination(p, link) in t
  }

  ghost predicate Below(p: Path, dir: Path) {
    dir <= p
  }

  /** Every link below the root resolves to an entry below the root. */
  ghost predicate Closed(t: Tree, root: Path) {
    forall p :: p in t && Below(p, root) && t[p].Link? ==> Resolves(t, p, t[p]) && Below(Destination(p, t[p]), root)
  }

  /** Entries are only added, and only below dir. */
  ghost predicate Grows(t: Tree, t': Tree, dir: Path) {
    && (forall p :: p in t ==> p in t' && t'[p] == t[p])
    && (forall p :: p in t' && p !in t ==> Below(p, dir))
  }

  /** No new links. */
  ghost predicate NoNewLinks(t: Tree, t': Tree) {
    forall p :: p in t' && t'[p].Link? ==> p in t && t[p] == t'[p]
  }

  ghost predicate NothingBelow(t: Tree, dir: Path) {
    forall p :: p in t ==> !Below(p, dir)
  }

  /** Below the directory there are only entries of these names. */
  ghost predicate Holds(t: Tree, dir: Path, names: seq<string>) {
    forall p :: p in t && Below(p, dir) && |p| > |dir| ==> p[|dir|] in names
  }

  ghost predicate HasDirs(t: Tree, p: Path) {
    forall i :: 0 <= i <= |p| ==> IsDir(t, p[..i])
  }

  ghost predicate Distinct(names: seq<string>) {
    forall i, j :: 0 <= i < j < |names| ==> names[i] != names[j]
  }

  lemma DistinctPrefix(a: seq<string>, b: seq<string>)
    requires Distinct(a + b)
    ensures Distinct(a)
  {
    forall i, j | 0 <= i < j < |a|
      ensures a[i] != a[j]
    {
      assert (a + b)[i] != (a + b)[j];
    }
  }

  /** The next of distinct names is not among those before it. */
  lemma NextIsFresh(prior: seq<string>, names: seq<string>, i: nat)
    requires Distinct(prior + names) && i < |names|
    ensures names[i] !in prior + names[..i]
  {
    var all := prior + names;
    assert all[|prior| + i] == names[i];
    forall k | 0 <= k < |prior| + i
      ensures (prior + names[..i])[k] != names[i]
    {
      assert (prior + names[..i])[k] == all[k];
    }
  }

  lemma HoldsNothing(t: Tree, dir: Path, names: seq<string>, name: string)
    requires Holds(t, dir, names) && name !in names
    ensures NothingBelow(t, dir + [name])
  {
    forall p | p in t && Below(p, dir)
      ensures !Below(p, dir + [name])
    {
      assert |p| > |dir| ==> p[|dir|] in names;
      assert (dir + [name])[|dir|] == name;
    }
    assert dir <= dir + [name];
  }

  lemma GrowsHolds(t: Tree, t': Tree, dir: Path, names: seq<string>, name: string)
    requires Holds(t, dir, names) && Grows(t, t', dir + [name])
    ensures Holds(t', dir, names + [name])
  {
    forall p | p in t' && Below(p, dir) && |p| > |dir|
      ensures p[|dir|] in names + [name]
    {
      if p !in t {
        assert p[|dir|] == (dir + [name])[|dir|];
      }
    }
  }

  lemma GrowsTransitive(t: Tree, t1: Tree, t2: Tree, dir: Path, dir1: Path, dir2: Path)
    requires Grows(t, t1, dir1) && Grows(t1, t2, dir2) && Below(dir1, dir) && Below(dir2, dir)
    ensures Grows(t, t2, dir)
  {
  }

  /** Whatever is new was made by a step that worked, or is what a failed write left. */
  ghost predicate NewWorked(works: Path -> bool, t: Tree, t': Tree) {
    forall p :: p in t' && p !in t ==> works(p) || t'[p] == File(Truncated)
  }

  /** The first i directories on the way to p are there, and below top only such have been made. */
  ghost predicate DirsMade(works: Path -> bool, t: Tree, t': Tree, top: Path, p: Path, i: nat) {
    && Grows(t, t', top) && NoNewLinks(t, t')
    && (forall q :: q in t' && q !in t ==> q <= p && |q| < i && t'[q].Dir? && works(q))
    && forall k :: 0 <= k < i && k <= |p| ==> IsDir(t', p[..k])
  }

  lemma DirsBegin(works: Path -> bool, t: Tree, top: Path, p: Path)
    ensures DirsMade(works, t, t, top, p, 0)
  {
  }

  lemma AboveIsThere(t: Tree, top: Path, p: Path)
    requires Below(p, top) && top != [] && HasDirs(t, top[..|top| - 1])
    ensures forall k :: 0 <= k < |top| ==> IsDir(t, p[..k])
  {
    forall k | 0 <= k < |top|
      ensures IsDir(t, p[..k])
    {
      assert p[..k] == top[..|top| - 1][..k];
    }
  }

  /** Above top everything is there, so a directory that is missing or no directory is below top. */
  lemma NotMadeYet(works: Path -> bool, t: Tree, t': Tree, top: Path, p: Path, i: nat)
    requires DirsMade(works, t, t', top, p, i) && i <= |p| && Below(p, top) && top != []
    requires HasDirs(t, top[..|top| - 1]) && !IsDir(t', p[..i])
    ensures |top| <= i && top <= p[..i]
    ensures NothingBelow(t, top) ==> p[..i] !in t'
    ensures p !in t' || p in t
  {
    AboveIsThere(t, top, p);
  }

  lemma OneMoreDir(works: Path -> bool, t: Tree, t1: Tree, t2: Tree, top: Path, p: Path, i: nat)
    requires DirsMade(works, t, t1, top, p, i) && i <= |p|
    requires if p[..i] in t1 then t1[p[..i]].Dir? && t2 == t1
             else top <= p[..i] && works(p[..i]) && t2 == t1[p[..i] := Dir]
    ensures DirsMade(works, t, t2, top, p, i + 1)
  {
  }

  class FileSystem {
    const works: Path -> bool
    const truncates: Path -> bool
    const readable: (HostDir, string) -> bool
    const hostHas: (HostDir, string) -> bool
    var tree: Tree

    constructor (works: Path -> bool, truncates: Path -> bool, readable: (HostDir, string) -> bool,
                 hostHas: (HostDir, string) -> bool, tree: Tree)
      ensures this.works == works && this.truncates == truncates
      ensures this.readable == readable && this.hostHas == hostHas && this.tree == tree
    {
      this.works, this.truncates, this.readable, this.hostHas := works, truncates, readable, hostHas;
      this.tree := tree;
    }

    /** The directories from top down to p can be made. */
    ghost predicate DirsWork(top: Path, p: Path) {
      forall k :: |top| <= k <= |p| ==> works(p[..k])
    }

    ghost predicate NamesWork(dir: Path, names: seq<string>) {
      forall i :: 0 <= i < |names| ==> works(dir + [names[i]])
    }

    ghost predicate CopyWorks(from: HostDir, dir: Path, name: string) {
      readable(from, name) && works(dir + [name])
    }

    ghost predicate CopiesWork(from: HostDir, dir: Path, names: seq<string>) {
      forall i :: 0 <= i < |names| ==> CopyWorks(from, dir, names[i])
    }

    ghost predicate MaybeCopiesWork(from: HostDir, dir: Path, names: seq<string>) {
      forall i :: 0 <= i < |names| ==> (hostHas(from, names[i]) ==> CopyWorks(from, dir, names[i]))
    }

    /** Copies of those files that the host has. */
    ghost predicate HasMaybeCopies(t: Tree, from: HostDir, dir: Path, names: seq<string>) {
      forall i :: 0 <= i < |names| ==>
        (hostHas(from, names[i]) ==> HasEntry(t, dir + [names[i]], File(CopyOf(from, names[i]))))
    }

    /** The first i files have been copied. */
    ghost predicate Copied(t: Tree, from: HostDir, dir: Path, names: seq<string>, i: nat) {
      i <= |names| && forall k :: 0 <= k < i ==>
        CopyWorks(from, dir, names[k]) && HasEntry(t, dir + [names[k]], File(CopyOf(from, names[k])))
    }

    lemma OneMoreCopied(t: Tree, t': Tree, from: HostDir, dir: Path, names: seq<string>, i: nat)
      requires i < |names| && Copied(t, from, dir, names, i) && Grows(t, t', dir + [names[i]])
      requires CopyWorks(from, dir, names[i]) && HasEntry(t', dir + [names[i]], File(CopyOf(from, names[i])))
      ensures Copied(t', from, dir, names, i + 1)
    {
    }

    ghost predicate MaybeCopied(t: Tree, from: HostDir, dir: Path, names: seq<string>, i: nat) {
      i <= |names| && forall k :: 0 <= k < i ==> hostHas(from, names[k]) ==>
        CopyWorks(from, dir, names[k]) && HasEntry(t, dir + [names[k]], File(CopyOf(from, names[k])))
    }

    lemma OneMoreMaybeCopied(t: Tree, t': Tree, from: HostDir, dir: Path, names: seq<string>, i: nat)
      requires i < |names| && MaybeCopied(t, from, dir, names, i) && Grows(t, t', dir + [names[i]])
      requires hostHas(from, names[i]) ==>
                 CopyWorks(from, dir, names[i]) && HasEntry(t', dir + [names[i]], File(CopyOf(from, names[i])))
      ensures MaybeCopied(t', from, dir, names, i + 1)
    {
    }

    ghost predicate Written(t: Tree, dir: Path, files: seq<(string, string)>, i: nat) {
      i <= |files| && forall k :: 0 <= k < i ==>
        works(dir + [files[k].0]) && HasEntry(t, dir + [files[k].0], File(Text(files[k].1)))
    }

    lemma OneMoreWritten(t: Tree, t': Tree, dir: Path, files: seq<(string, string)>, i: nat)
      requires i < |files| && Written(t, dir, files, i) && Grows(t, t', dir + [files[i].0])
      requires works(dir + [files[i].0]) && HasEntry(t', dir + [files[i].0], File(Text(files[i].1)))
      ensures Written(t', dir, files, i + 1)
    {
    }

    method RemoveAll(root: Path)
      modifies this
      ensures tree == map p | p in old(tree) && !Below(p, root) :: old(tree)[p]
    {
      tree := map p | p in tree && !(root <= p) :: tree[p];
    }

    /** Makes a directory and the directories above it that are missing. */
    method MakeDir(p: Path, ghost top: Path) returns (ok: bool)
      requires Below(p, top) && top != [] && HasDirs(tree, top[..|top| - 1])
      modifies this
      ensures Grows(old(tree), tree, top) && NoNewLinks(old(tree), tree)
      ensures forall q :: q in tree && q !in old(tree) ==> q <= p && tree[q].Dir? && works(q)
      ensures if ok then HasDirs(tree, p) else p !in tree || p in old(tree)
      ensures NothingBelow(old(tree), top) ==> (ok <==> DirsWork(top, p))
    {
      ghost var was := tree;
      DirsBegin(works, was, top, p);
      for i := 0 to |p| + 1
        invariant DirsMade(works, was, tree, top, p, i)
        invariant NothingBelow(was, top) ==> forall k :: |top| <= k < i ==> works(p[..k])
      {
        var q := p[..i];
        ghost var before := tree;
        if q in tree {
          if !tree[q].Dir? {
            NotMadeYet(works, was, tree, top, p, i);
            return false;
          }
        } else {
          NotMadeYet(works, was, tree, top, p, i);
          if !works(q) {
            return false;
          }
          tree := tree[q := Dir];
        }
        OneMoreDir(works, was, before, tree, top, p, i);
      }
      return true;
    }

    /** Writes a new file into a directory; a failing write may leave a truncated one. */
    method MakeFile(dir: Path, name: string, content: Content) returns (ok: bool)
      requires dir + [name] !in tree
      modifies this
      ensures Grows(old(tree), tree, dir + [name]) && NoNewLinks(old(tree), tree)
      ensures ok <==> IsDir(old(tree), dir) && works(dir + [name])
      ensures ok ==> tree == old(tree)[dir + [name] := File(content)]
      ensures !ok ==> tree == old(tree) || tree == old(tree)[dir + [name] := File(Truncated)]
    {
      var p := dir + [name];
      if !(dir in tree && tree[dir].Dir?) {
        return false;
      }
      ok := works(p);
      if ok {
        tree := tree[p := File(content)];
      } else if truncates(p) {
        tree := tree[p := File(Truncated)];
      }
    }

    /** Makes a symbolic link; it fails when there is something of that name. */
    method MakeLink(dir: Path, name: string, link: Entry) returns (ok: bool)
      requires link.Link?
      modifies this
      ensures Grows(old(tree), tree, dir + [name])
      ensures ok <==> IsDir(old(tree), dir) && dir + [name] !in old(tree) && works(dir + [name])
      ensures tree == if ok then old(tree)[dir + [name] := link] else old(tree)
    {
      var p := dir + [name];
      ok := dir in tree && tree[dir].Dir? && p !in tree && works(p);
      if ok {
        tree := tree[p := link];
      }
    }

    /** Copies a host file. */
    method CopyFile(from: HostDir, dir: Path, name: string) returns (ok: bool)
      requires dir + [name] !in tree
      modifies this
      ensures Grows(old(tree), tree, dir + [name]) && NoNewLinks(old(tree), tree)
      ensures ok <==> IsDir(old(tree), dir) && CopyWorks(from, dir, name)
      ensures ok ==> tree == old(tree)[dir + [name] := File(CopyOf(from, name))]
      ensures OnlyNewFile(old(tree), tree, dir + [name]) && NewWorked(works, old(tree), tree)
    {
      if !readable(from, name) {
        return false;
      }
      ok := MakeFile(dir, name, CopyOf(from, name));
    }

    /** Copies files of a host directory into one that has none of these names. */
    method CopyFiles(from: HostDir, dir: Path, names: seq<string>, ghost prior: seq<string>) returns (ok: bool)
      requires IsDir(tree, dir) && Holds(tree, dir, prior) && Distinct(prior + names)
      modifies this
      ensures Filled(works, old(tree), tree, dir, prior + names)
      ensures ok <==> CopiesWork(from, dir, names)
      ensures ok ==> HasCopies(tree, from, dir, names)
    {
      for i := 0 to |names|
        invariant Filled(works, old(tree), tree, dir, prior + names[..i])
        invariant Copied(tree, from, dir, names, i)
      {
        ghost var before := tree;
        FreshInDir(tree, dir, prior, names, i);
        ok := CopyFile(from, dir, names[i]);
        FilledOneMore(works, old(tree), before, tree, dir, prior, names, i);
        if !ok {
          return;
        }
        OneMoreCopied(before, tree, from, dir, names, i);
      }
      assert names[..|names|] == names;
      return true;
    }

    /** Copies those files of a host directory that are there. */
    method MaybeCopyFiles(from: HostDir, dir: Path, names: seq<string>, ghost prior: seq<string>) returns (ok: bool)
      requires IsDir(tree, dir) && Holds(tree, dir, prior) && Distinct(prior + names)
      modifies this
      ensures Filled(works, old(tree), tree, dir, prior + names)
      ensures ok <==> MaybeCopiesWork(from, dir, names)
      ensures ok ==> HasMaybeCopies(tree, from, dir, names)
    {
      for i := 0 to |names|
        invariant Filled(works, old(tree), tree, dir, prior + names[..i])
        invariant MaybeCopied(tree, from, dir, names, i)
      {
        ghost var before := tree;
        FreshInDir(tree, dir, prior, names, i);
        if hostHas(from, names[i]) {
          ok := CopyFile(from, dir, names[i]);
        } else {
          ok := true;
        }
        FilledOneMore(works, old(tree), before, tree, dir, prior, names, i);
        if !ok {
          return;
        }
        OneMoreMaybeCopied(before, tree, from, dir, names, i);
      }
      assert names[..|names|] == names;
      return true;
    }

    /** Writes new files with the given text. */
    method MakeFiles(dir: Path, files: seq<(string, string)>, ghost prior: seq<string>) returns (ok: bool)
      requires IsDir(tree, dir) && Holds(tree, dir, prior) && Distinct(prior + NamesOf(files))
      modifies this
      ensures Filled(works, old(tree), tree, dir, prior + NamesOf(files))
      ensures ok <==> NamesWork(dir, NamesOf(files))
      ensures ok ==> HasTexts(tree, dir, files)
    {
      ghost var names := NamesOf(files);
      for i := 0 to |files|
        invariant Filled(works, old(tree), tree, dir, prior + names[..i])
        invariant Written(tree, dir, files, i)
      {
        ghost var before := tree;
        FreshInDir(tree, dir, prior, names, i);
        assert names[i] == files[i].0;
        ok := MakeFile(dir, files[i].0, Text(files[i].1));
        FilledOneMore(works, old(tree), before, tree, dir, prior, names, i);
        if !ok {
          return;
        }
        OneMoreWritten(before, tree, dir, files, i);
      }
      assert names[..|names|] == names;
      return true;
    }
  }

  function NamesOf(files: seq<(string, string)>): (names: seq<string>)
    ensures |names| == |files|
  {
    seq(|files|, i requires 0 <= i < |files| => files[i].0)
  }

  lemma FreshInDir(t: Tree, dir: Path, prior: seq<string>, names: seq<string>, i: nat)
    requires i < |names| && Holds(t, dir, prior + names[..i]) && Distinct(prior + names)
    ensures dir + [names[i]] !in t
  {
    NextIsFresh(prior, names, i);
    HoldsNothing(t, dir, prior + names[..i], names[i]);
  }

  /** At most this file is new. */
  ghost predicate OnlyNewFile(t: Tree, t': Tree, p: Path) {
    forall q :: q in t' && q !in t ==> q == p && t'[q].File?
  }

  /** Files have been added to a directory that then holds only these names. */
  ghost predicate Filled(works: Path -> bool, t0: Tree, t: Tree, dir: Path, names: seq<string>) {
    && Grows(t0, t, dir) && NoNewLinks(t0, t) && Holds(t, dir, names) && NewWorked(works, t0, t)
    && forall p :: p in t && p !in t0 ==> |p| == |dir| + 1 && t[p].File?
  }

  lemma FilledOneMore(works: Path -> bool, t0: Tree, t: Tree, t': Tree, dir: Path, prior: seq<string>,
                      names: seq<string>, i: nat)
    requires i < |names| && Filled(works, t0, t, dir, prior + names[..i])
    requires Grows(t, t', dir + [names[i]]) && NoNewLinks(t, t') && OnlyNewFile(t, t', dir + [names[i]])
    requires NewWorked(works, t, t')
    ensures Filled(works, t0, t', dir, prior + names[..i + 1]) && Filled(works, t0, t', dir, prior + names)
  {
    GrowsTransitive(t0, t, t', dir, dir, dir + [names[i]]);
    GrowsHolds(t, t', dir, prior + names[..i], names[i]);
    assert prior + names[..i] + [names[i]] == prior + names[..i + 1];
    assert prior + names[..i + 1] + names[i + 1..] == prior + names;
  }

  ghost predicate HasEntry(t: Tree, p: Path, e: Entry) {
    p in t && t[p] == e
  }

  ghost predicate HasCopies(t: Tree, from: HostDir, dir: Path, names: seq<string>) {
    forall i :: 0 <= i < |names| ==> HasEntry(t, dir + [names[i]], File(CopyOf(from, names[i])))
  }

  ghost predicate HasTexts(t: Tree, dir: Path, files: seq<(string, string)>) {
    forall i :: 0 <= i < |files| ==> HasEntry(t, dir + [files[i].0], File(Text(files[i].1)))
  }
}
