/** What an accepted archive is once it is unpacked. */
module ArchiveTree {
  import opened Common
  import opened ArchivePaths
  import opened ArchiveLinks
  import opened Archives

  /** A name stands for a directory, a symbolic link, or the regular file that this entry brought. */
  datatype Node = Dir | Link(target: string) | Regular(entry: nat)

  /** Unpacking in order: a hard link is one more name of the node that its target names by then; if
      there is none, unpacking it fails and the name stays away. */
  function Unpacked(archive: seq<Entry>): map<string, Node> {
    if |archive| == 0 then map[]
    else
      var n := |archive| - 1;
      var tree, last := Unpacked(archive[..n]), archive[n];
      match last.kind
      case File => tree[Cleaned(last.name) := Regular(n)]
      case Directory => tree[Cleaned(last.name) := Dir]
      case Symlink => tree[Cleaned(last.name) := Link(last.linkname)]
      case Hardlink =>
        if Cleaned(last.linkname) in tree then tree[Cleaned(last.name) := tree[Cleaned(last.linkname)]] else tree
      case Special => tree
  }

  /** The names in the tree that are symbolic links, by whatever entry. */
  function TreeLinks(tree: map<string, Node>): Links {
    map name | name in tree && tree[name].Link? :: tree[name].target
  }

  /** A hard link of the archive names an archived regular file. */
  lemma HardLinksAreFiles(archive: seq<Entry>, i: nat)
    requires Acceptable(archive) && i < |archive| && archive[i].kind.Hardlink?
    ensures exists j :: 0 <= j < |archive| && archive[j].kind.File? && Cleaned(archive[j].name) == Cleaned(archive[i].linkname)
  {
    hide Cleaned, Splice, Split, ParentsOk, PathOf, EntryOk;
    assert HardLinkOk(Entries(archive), archive[i]);
    EntryOfName(archive, Cleaned(archive[i].linkname));
  }

  lemma {:induction false} EntryOfName(archive: seq<Entry>, name: string)
    requires name in Entries(archive)
    ensures exists j :: 0 <= j < |archive| && Cleaned(archive[j].name) == name && archive[j] == Entries(archive)[name]
  {
    hide Cleaned;
    var n := |archive| - 1;
    if name == Cleaned(archive[n].name) {
      assert archive[n] == Entries(archive)[name];
    } else {
      EntryOfName(archive[..n], name);
      var j :| 0 <= j < n && Cleaned(archive[..n][j].name) == name && archive[..n][j] == Entries(archive[..n])[name];
      assert archive[j] == archive[..n][j];
    }
  }

  /** The node of a name in the tree after `n` entries, told from the entry of that name. */
  ghost predicate NodeFits(archive: seq<Entry>, n: nat, i: nat)
    requires i < |archive| && n <= |archive|
  {
    var tree, name := Unpacked(archive[..n]), Cleaned(archive[i].name);
    match archive[i].kind
    case File => name in tree && tree[name] == Regular(i)
    case Directory => name in tree && tree[name] == Dir
    case Symlink => name in tree && tree[name] == Link(archive[i].linkname)
    case Hardlink =>
      name in tree ==> exists j :: 0 <= j < n && archive[j].kind.File? && Cleaned(archive[j].name) == Cleaned(archive[i].linkname)
                                   && tree[name] == Regular(j)
    case Special => true
  }

  /** The tree has only names of entries. */
  ghost predicate NamesFit(archive: seq<Entry>, n: nat)
    requires n <= |archive|
  {
    forall name :: name in Unpacked(archive[..n]) ==> Names(archive, n, name)
  }

  ghost predicate Names(archive: seq<Entry>, n: nat, name: string)
    requires n <= |archive|
  {
    exists i :: 0 <= i < n && Cleaned(archive[i].name) == name
  }

  lemma {:induction false} TreeFits(archive: seq<Entry>, n: nat)
    requires Acceptable(archive) && n <= |archive|
    ensures NamesFit(archive, n) && forall i :: 0 <= i < n ==> NodeFits(archive, n, i)
  {
    hide Cleaned, Acceptable, NodeFits;
    if n > 0 {
      var m := n - 1;
      TreeFits(archive, m);
      NamesDiffer(archive);
      LastFits(archive, m);
      NamesStillFit(archive, m);
      forall i | 0 <= i < n ensures NodeFits(archive, n, i) {
        if i < m {
          StillFits(archive, m, i);
        }
      }
    }
  }

  lemma NamesDiffer(archive: seq<Entry>)
    requires Acceptable(archive)
    ensures forall i, j :: 0 <= i < j < |archive| ==> Cleaned(archive[i].name) != Cleaned(archive[j].name)
    ensures forall i :: 0 <= i < |archive| ==> !archive[i].kind.Special?
  {
    hide Cleaned, Splice, Split, ParentsOk, PathOf, HardLinkOk, MemberOk, TargetOk;
    forall i | 0 <= i < |archive| ensures !archive[i].kind.Special? {
      assert EntryOk(archive[i]);
    }
  }

  lemma NamesStillFit(archive: seq<Entry>, m: nat)
    requires m < |archive| && NamesFit(archive, m)
    ensures NamesFit(archive, m + 1)
  {
    hide Cleaned;
    assert archive[..m + 1][..m] == archive[..m];
    var tree := Unpacked(archive[..m + 1]);
    forall name | name in tree ensures Names(archive, m + 1, name) {
      if name == Cleaned(archive[m].name) {
      } else {
        assert Names(archive, m, name);
      }
    }
  }

  /** An entry does not change the node of an earlier one. */
  lemma StillFits(archive: seq<Entry>, m: nat, i: nat)
    requires i < m < |archive| && NodeFits(archive, m, i) && Cleaned(archive[i].name) != Cleaned(archive[m].name)
    ensures NodeFits(archive, m + 1, i)
  {
    hide Cleaned;
    assert archive[..m + 1][..m] == archive[..m];
  }

  lemma LastFits(archive: seq<Entry>, m: nat)
    requires Acceptable(archive) && m < |archive| && NamesFit(archive, m) && forall i :: 0 <= i < m ==> NodeFits(archive, m, i)
    ensures NodeFits(archive, m + 1, m)
  {
    hide Cleaned, Acceptable;
    var last, before := archive[m], Unpacked(archive[..m]);
    assert archive[..m + 1][..m] == archive[..m];
    NamesDiffer(archive);
    if last.kind.Hardlink? && Cleaned(last.linkname) in before {
      HardLinksAreFiles(archive, m);
      var j :| 0 <= j < |archive| && archive[j].kind.File? && Cleaned(archive[j].name) == Cleaned(last.linkname);
      assert Names(archive, m, Cleaned(last.linkname));
      var i :| 0 <= i < m && Cleaned(archive[i].name) == Cleaned(last.linkname);
      assert i == j && NodeFits(archive, m, j);
    } else if last.kind.Hardlink? {
      NotYetThere(archive, m);
    }
  }

  lemma NotYetThere(archive: seq<Entry>, m: nat)
    requires Acceptable(archive) && m < |archive| && NamesFit(archive, m)
    ensures Cleaned(archive[m].name) !in Unpacked(archive[..m])
  {
    hide Cleaned, Acceptable;
    NamesDiffer(archive);
    var tree := Unpacked(archive[..m]);
    forall name | name in tree ensures name != Cleaned(archive[m].name) {
      assert Names(archive, m, name);
    }
  }

  /******* The links of the tree *******/

  predicate Maps(links: Links, name: string, target: string) {
    name in links && links[name] == target
  }

  /** Entry `i` is a symbolic link of this name and target. */
  predicate IsLink(archive: seq<Entry>, i: nat, name: string, target: string) {
    i < |archive| && archive[i].kind.Symlink? && Cleaned(archive[i].name) == name && archive[i].linkname == target
  }

  /** One of the first `n` entries is. */
  ghost predicate HasLink(archive: seq<Entry>, n: nat, name: string, target: string) {
    exists i :: 0 <= i < n && IsLink(archive, i, name, target)
  }

  lemma {:induction false} LinkIsEntry(archive: seq<Entry>, n: nat, name: string, target: string)
    requires n <= |archive|
    requires forall i, j :: 0 <= i < j < |archive| ==> Cleaned(archive[i].name) != Cleaned(archive[j].name)
    ensures Maps(LinksOf(archive[..n]), name, target) <==> HasLink(archive, n, name, target)
  {
    hide Cleaned;
    if n > 0 {
      var m := n - 1;
      LinkIsEntry(archive, m, name, target);
      assert archive[..n][..m] == archive[..m];
      if HasLink(archive, m, name, target) {
        var i :| 0 <= i < m && IsLink(archive, i, name, target);
        assert HasLink(archive, n, name, target) && Cleaned(archive[m].name) != name;
      } else if Maps(LinksOf(archive[..n]), name, target) {
        assert IsLink(archive, m, name, target);
      }
    }
  }

  lemma LinkNodeIsEntry(archive: seq<Entry>, n: nat, name: string, target: string)
    requires Acceptable(archive) && n <= |archive|
    ensures Maps(TreeLinks(Unpacked(archive[..n])), name, target) <==> HasLink(archive, n, name, target)
  {
    hide Cleaned, Acceptable, Unpacked;
    TreeFits(archive, n);
    NamesDiffer(archive);
    var tree := Unpacked(archive[..n]);
    if Maps(TreeLinks(tree), name, target) {
      assert Names(archive, n, name);
      var i :| 0 <= i < n && Cleaned(archive[i].name) == name;
      assert NodeFits(archive, n, i);
      assert IsLink(archive, i, name, target);
    }
    if HasLink(archive, n, name, target) {
      var i :| 0 <= i < n && IsLink(archive, i, name, target);
      assert NodeFits(archive, n, i);
    }
  }

  /** While an accepted archive is unpacked, and after it, the symbolic links of the tree are those of
      the archive so far: no hard link is another name of one. */
  lemma TreeLinksAreArchived(archive: seq<Entry>, n: nat)
    requires Acceptable(archive) && n <= |archive|
    ensures TreeLinks(Unpacked(archive[..n])) == LinksOf(archive[..n])
    ensures forall name :: name in LinksOf(archive[..n]) ==> name in LinksOf(archive)
  {
    hide Acceptable, Unpacked, LinksOf, HasLink, TreeLinks;
    NamesDiffer(archive);
    assert archive[..|archive|] == archive;
    var tree, links, whole := TreeLinks(Unpacked(archive[..n])), LinksOf(archive[..n]), LinksOf(archive);
    forall name, target ensures Maps(tree, name, target) <==> Maps(links, name, target) {
      LinkNodeIsEntry(archive, n, name, target);
      LinkIsEntry(archive, n, name, target);
    }
    SameLinks(tree, links);
    forall name | name in links ensures name in whole {
      assert Maps(links, name, links[name]);
      LinkIsEntry(archive, n, name, links[name]);
      LinkIsEntry(archive, |archive|, name, links[name]);
      LaterToo(archive, n, name, links[name]);
    }
  }

  lemma SameLinks(a: Links, b: Links)
    requires forall name, target :: Maps(a, name, target) <==> Maps(b, name, target)
    ensures a == b
  {
    forall name ensures (name in a <==> name in b) && (name in a ==> a[name] == b[name]) {
      if name in a {
        assert Maps(a, name, a[name]);
      }
      if name in b {
        assert Maps(b, name, b[name]);
      }
    }
  }

  lemma LaterToo(archive: seq<Entry>, n: nat, name: string, target: string)
    requires n <= |archive| && HasLink(archive, n, name, target)
    ensures HasLink(archive, |archive|, name, target)
  {
    var i :| 0 <= i < n && IsLink(archive, i, name, target);
  }

  /******* What acceptance means for the tree *******/

  /** The text of a target is no path from the root of the host. */
  predicate Relative(target: string) {
    |target| == 0 || target[0] != '/'
  }

  /** In the tree that an accepted archive unpacks to, every path without "..", through whatever names
      of whatever nodes, ends inside the volume, and no link's target is absolute. */
  lemma TreeIsConfined(archive: seq<Entry>, path: string)
    requires Acceptable(archive) && ".." !in Split(path)
    ensures var links := TreeLinks(Unpacked(archive));
            && (exists walk, to :: Leads(links, walk, [], Split(path), to) && AllPlain(to))
            && (forall name :: name in links ==> Relative(links[name]))
  {
    hide Acceptable, Leads, Unpacked, LinksOf, Split, TreeLinks;
    assert archive[..|archive|] == archive;
    TreeLinksAreArchived(archive, |archive|);
    AcceptedStaysInside(archive, path);
    var links := LinksOf(archive);
    NamesDiffer(archive);
    forall name | name in links ensures Relative(links[name]) {
      LinkIsEntry(archive, |archive|, name, links[name]);
      assert Maps(links, name, links[name]);
      var i :| 0 <= i < |archive| && IsLink(archive, i, name, links[name]);
      TargetIsRelative(archive, i);
    }
  }

  lemma TargetIsRelative(archive: seq<Entry>, i: nat)
    requires Acceptable(archive) && i < |archive| && archive[i].kind.Symlink?
    ensures Relative(archive[i].linkname)
  {
    hide Splice, Split, ParentsOk, PathOf, HardLinkOk, MemberOk;
    assert EntryOk(archive[i]);
  }

  /** Nothing is written through a link: when entry `n` is unpacked, no directory above it, and no
      directory above the target of a hard link, is a symbolic link of the tree by then. */
  lemma NothingIsWrittenThroughLinks(archive: seq<Entry>, n: nat, k: nat)
    requires Acceptable(archive) && n < |archive|
    ensures 0 < k < |PathOf(archive[n].name)| ==>
              Join(PathOf(archive[n].name)[..k]) !in TreeLinks(Unpacked(archive[..n]))
    ensures archive[n].kind.Hardlink? && 0 < k <= |PathOf(archive[n].linkname)| ==>
              Join(PathOf(archive[n].linkname)[..k]) !in TreeLinks(Unpacked(archive[..n]))
  {
    hide Unpacked, LinksOf, Splice, Split, PathOf, Cleaned, EntryOk, TreeLinks;
    TreeLinksAreArchived(archive, n);
    assert ParentsOk(LinksOf(archive), PathOf(archive[n].name));
    if archive[n].kind.Hardlink? {
      HardLinksAreFiles(archive, n);
      var j :| 0 <= j < |archive| && archive[j].kind.File? && Cleaned(archive[j].name) == Cleaned(archive[n].linkname);
      assert ParentsOk(LinksOf(archive), PathOf(archive[j].name));
      TargetPath(archive, n, j);
      var path := PathOf(archive[n].linkname);
      assert path[..|path|] == path;
    }
  }

  lemma TargetPath(archive: seq<Entry>, n: nat, j: nat)
    requires Acceptable(archive) && n < |archive| && j < |archive| && archive[j].kind.File? && archive[n].kind.Hardlink?
    requires Cleaned(archive[j].name) == Cleaned(archive[n].linkname)
    ensures PathOf(archive[j].name) == PathOf(archive[n].linkname)
    ensures |PathOf(archive[j].name)| > 0 && Join(PathOf(archive[j].name)) !in LinksOf(archive)
  {
    hide Splice, Split, Normalized, NameOf, TargetOk, ParentsOk, LinksOf, HardLinkOk;
    assert EntryOk(archive[j]) && EntryOk(archive[n]);
    MemberIsPlain(archive[j].name);
    MemberIsPlain(archive[n].linkname);
    NamedParts(PathOf(archive[j].name));
    NamedParts(PathOf(archive[n].linkname));
    FileIsNoLink(archive, j);
    NameIsJoined(PathOf(archive[j].name));
  }

  lemma NameIsJoined(path: seq<string>)
    requires |path| > 0
    ensures NameOf(path) == Join(path)
  {
  }

  lemma FileIsNoLink(archive: seq<Entry>, j: nat)
    requires Acceptable(archive) && j < |archive| && archive[j].kind.File?
    ensures Cleaned(archive[j].name) !in LinksOf(archive)
  {
    hide Acceptable, LinksOf, Cleaned;
    NamesDiffer(archive);
    assert archive[..|archive|] == archive;
    var links := LinksOf(archive);
    forall name | name in links ensures name != Cleaned(archive[j].name) {
      assert Maps(links, name, links[name]);
      LinkIsEntry(archive, |archive|, name, links[name]);
      var i :| 0 <= i < |archive| && IsLink(archive, i, name, links[name]);
      assert i != j;
    }
  }
}
