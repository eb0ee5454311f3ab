/** What the check of one archive entry asks, told from the text of its names. */
module ArchiveExactly {
  import opened Common
  import opened ArchivePaths
  import opened ArchiveLinks
  import opened Archives
  import opened ArchiveTree

  /******* Components of a text *******/

  /** The text holds the word at `i`, between slashes or the ends of the text. */
  predicate Component(text: string, word: string, i: nat) {
    && i + |word| <= |text| && text[i..i + |word|] == word
    && (i == 0 || text[i - 1] == '/') && (i + |word| == |text| || text[i + |word|] == '/')
  }

  predicate Holds(text: string, word: string) {
    exists i :: 0 <= i <= |text| && Component(text, word, i)
  }

  function FirstSlash(text: string): (k: nat)
    requires '/' in text
    ensures k < |text| && text[k] == '/' && '/' !in text[..k]
  {
    if text[0] == '/' then 0
    else
      var k := FirstSlash(text[1..]) + 1;
      assert text[..k] == [text[0]] + text[1..][..k - 1];
      k
  }

  /** The components that splitting gives are exactly the words between slashes. */
  lemma {:induction false} ComponentsExactly(text: string, word: string)
    requires '/' !in word
    ensures word in Split(text) <==> Holds(text, word)
    decreases |text|
  {
    hide Split, Component, Holds;
    if '/' !in text {
      SplitWord(text);
      OnlyComponent(text, word);
    } else {
      var k := FirstSlash(text);
      assert text == text[..k] + "/" + text[k + 1..];
      SplitFirst(text[..k], text[k + 1..]);
      ComponentsExactly(text[k + 1..], word);
      FirstOrLater(text, word, k);
    }
  }

  lemma OnlyComponent(text: string, word: string)
    requires '/' !in text
    ensures Holds(text, word) <==> word == text
  {
    assert text[0..|text|] == text;
    if Holds(text, word) {
      var i :| 0 <= i <= |text| && Component(text, word, i);
      assert i == 0 && i + |word| == |text|;
    } else {
      assert !Component(text, text, 0) || word != text;
    }
  }

  lemma FirstOrLater(text: string, word: string, k: nat)
    requires '/' !in word && k < |text| && text[k] == '/' && '/' !in text[..k]
    ensures Holds(text, word) <==> word == text[..k] || Holds(text[k + 1..], word)
  {
    hide Component;
    var rest := text[k + 1..];
    forall i | 0 <= i <= |text| ensures Component(text, word, i) ==> word == text[..k] || (k < i && Component(rest, word, i - (k + 1))) {
      LaterComponent(text, word, k, i);
    }
    forall i | 0 <= i <= |rest| ensures Component(rest, word, i) ==> Component(text, word, k + 1 + i) {
      MovedComponent(text, word, k, i);
    }
    FirstComponent(text, k);
    assert 0 <= 0 <= |text| && Component(text, text[..k], 0);
  }

  lemma FirstComponent(text: string, k: nat)
    requires k < |text| && text[k] == '/'
    ensures Component(text, text[..k], 0)
  {
  }

  lemma MovedComponent(text: string, word: string, k: nat, i: nat)
    requires k < |text| && text[k] == '/' && i <= |text[k + 1..]|
    ensures Component(text[k + 1..], word, i) ==> Component(text, word, k + 1 + i)
  {
    var rest := text[k + 1..];
    if i + |word| <= |rest| {
      assert text[k + 1 + i..k + 1 + i + |word|] == rest[i..i + |word|];
    }
  }

  lemma LaterComponent(text: string, word: string, k: nat, i: nat)
    requires '/' !in word && k < |text| && text[k] == '/' && '/' !in text[..k] && i <= |text|
    ensures Component(text, word, i) ==> word == text[..k] || (k < i && Component(text[k + 1..], word, i - (k + 1)))
  {
    assert forall j :: 0 <= j < k ==> text[j] == text[..k][j];
    if Component(text, word, i) {
      assert forall j :: 0 <= j < |word| ==> word[j] == text[i..i + |word|][j] == text[i + j];
      if i > k {
        assert text[k + 1..][i - (k + 1)..i - (k + 1) + |word|] == text[i..i + |word|];
      } else {
        assert text[i + (k - i)] == '/';
      }
    }
  }

  /******* Depth *******/

  /** How much deeper the components lead than where they start. */
  function Depth(parts: seq<string>): int {
    if |parts| == 0 then 0
    else
      var part := parts[|parts| - 1];
      Depth(parts[..|parts| - 1]) + if part == "" || part == "." then 0 else if part == ".." then -1 else 1
  }

  /** Some first part of the path leads above where it starts. */
  predicate Climbs(parts: seq<string>) {
    exists k :: 0 <= k <= |parts| && Depth(parts[..k]) < 0
  }

  /** The normal form starts with ".." exactly if the path climbs at some point; else it is as long as
      the path is deep. */
  lemma {:induction false} NormalFormClimbsExactly(parts: seq<string>)
    ensures Climbs(parts) <==> |Normalized(parts)| > 0 && Normalized(parts)[0] == ".."
    ensures !Climbs(parts) ==> |Normalized(parts)| == Depth(parts) && ".." !in Normalized(parts)
  {
    if |parts| == 0 {
      assert parts[..0] == [];
    } else {
      var n := |parts| - 1;
      var before := parts[..n];
      NormalFormClimbsExactly(before);
      assert parts[..|parts|] == parts;
      forall k | 0 <= k <= n ensures parts[..k] == before[..k] {
      }
      assert Climbs(parts) <==> Climbs(before) || Depth(parts) < 0;
    }
  }

  /** A path that goes on climbs exactly if it did before, or its continuation does from where it was. */
  lemma {:induction false} DepthAdds(dir: seq<string>, parts: seq<string>)
    ensures Depth(dir + parts) == Depth(dir) + Depth(parts)
  {
    if |parts| == 0 {
      assert dir + parts == dir;
    } else {
      var n := |parts| - 1;
      assert (dir + parts)[..|dir + parts| - 1] == dir + parts[..n];
      DepthAdds(dir, parts[..n]);
    }
  }

  lemma {:induction false} PlainDepth(path: seq<string>)
    requires AllPlain(path)
    ensures Depth(path) == |path|
  {
    if |path| > 0 {
      PlainDepth(path[..|path| - 1]);
    }
  }

  /** From a directory of plain names, a path climbs exactly if it leads higher than the directory is
      deep. */
  lemma ClimbsFrom(dir: seq<string>, parts: seq<string>)
    requires AllPlain(dir)
    ensures Climbs(dir + parts) <==> exists k :: 0 <= k <= |parts| && |dir| + Depth(parts[..k]) < 0
  {
    forall k | 0 <= k <= |dir| + |parts|
      ensures Depth((dir + parts)[..k]) == if k <= |dir| then k else |dir| + Depth(parts[..k - |dir|])
    {
      if k <= |dir| {
        assert (dir + parts)[..k] == dir[..k];
        PlainDepth(dir[..k]);
      } else {
        assert (dir + parts)[..k] == dir + parts[..k - |dir|];
        DepthAdds(dir, parts[..k - |dir|]);
        PlainDepth(dir);
      }
    }
    assert forall k :: 0 <= k <= |parts| ==> (dir + parts)[..|dir| + k] == dir + parts[..k];
    if k :| 0 <= k <= |parts| && |dir| + Depth(parts[..k]) < 0 {
      assert Depth((dir + parts)[..|dir| + k]) < 0;
    }
    if Climbs(dir + parts) {
      var k :| 0 <= k <= |dir + parts| && Depth((dir + parts)[..k]) < 0;
      assert |dir| + Depth(parts[..k - |dir|]) < 0;
    }
  }

  /******* One entry *******/

  /** A relative path in which no other system sees more than this one does. */
  predicate Portable(text: string) {
    && (text != "" ==> text[0] != '/')
    && forall i :: 0 <= i < |text| ==> text[i] != '\\' && text[i] != '\0'
  }

  /** Walked as text from the directory of the link, the target never leads above the volume. */
  predicate StaysBelow(name: string, linkname: string) {
    forall k :: 0 <= k <= |Split(linkname)| ==> Depth(Split(name)) - 1 + Depth(Split(linkname)[..k]) >= 0
  }

  /** An entry is accepted by itself exactly if its name is portable and has no parent part, only a
      directory is the root, it is no special file, the target of a symbolic link is portable and never
      leads above the volume, and that of a hard link is what a name must be. */
  lemma EntryExactly(entry: Entry)
    ensures EntryOk(entry) <==>
              && Portable(entry.name) && !Holds(entry.name, "..")
              && (Depth(Split(entry.name)) == 0 ==> entry.kind == Directory)
              && entry.kind != Special
              && (entry.kind == Symlink ==> Portable(entry.linkname) && StaysBelow(entry.name, entry.linkname))
              && (entry.kind == Hardlink ==> Portable(entry.linkname) && !Holds(entry.linkname, ".."))
  {
    hide Split, Normalized, Depth, Climbs, Holds, NameOf;
    ComponentsExactly(entry.name, "..");
    ComponentsExactly(entry.linkname, "..");
    if ".." !in Split(entry.name) {
      PathDepth(entry.name);
      var path := PathOf(entry.name);
      if |path| > 0 {
        var dir := path[..|path| - 1];
        NormalFormClimbsExactly(dir + Split(entry.linkname));
        ClimbsFrom(dir, Split(entry.linkname));
      }
    }
  }

  /** A name without parent parts is as deep as it has components left. */
  lemma PathDepth(name: string)
    requires ".." !in Split(name)
    ensures AllPlain(PathOf(name)) && |PathOf(name)| == Depth(Split(name)) && (Cleaned(name) == "." <==> |PathOf(name)| == 0)
  {
    NormalizedIsPlain(Split(name));
    NamedParts(PathOf(name));
    NormalFormClimbsExactly(Split(name));
    assert forall i :: 0 <= i < |PathOf(name)| ==> Plain(PathOf(name)[i]);
  }

  /** The size of an archive is that of its parts. */
  lemma {:induction false} SizeAdds(front: seq<Entry>, back: seq<Entry>)
    ensures TotalSize(front + back) == TotalSize(front) + TotalSize(back)
    ensures |back| == 1 ==> TotalSize(back) == back[0].size
  {
    if |back| == 0 {
      assert front + back == front;
    } else {
      var n := |back| - 1;
      assert (front + back)[..|front + back| - 1] == front + back[..n];
      SizeAdds(front, back[..n]);
    }
  }

  /******* The whole archive *******/

  /** The directory contains the path, at whatever depth. */
  predicate Above(dir: seq<string>, path: seq<string>) {
    |dir| < |path| && path[..|dir|] == dir
  }

  predicate IsFile(archive: seq<Entry>, path: seq<string>) {
    exists k :: 0 <= k < |archive| && archive[k].kind == File && PathOf(archive[k].name) == path
  }

  /** Followed as a file system does, the path ends inside after at most forty links. */
  ghost predicate Settles(links: Links, path: seq<string>) {
    exists to, followed: nat :: followed <= 40 && ResolvesInside(links, [], path, to, followed)
  }

  predicate AllPass(archive: seq<Entry>) {
    forall i :: 0 <= i < |archive| ==> EntryOk(archive[i])
  }

  predicate PathsDiffer(archive: seq<Entry>) {
    forall i, j :: 0 <= i < j < |archive| ==> PathOf(archive[i].name) != PathOf(archive[j].name)
  }

  predicate NoLinkAbove(archive: seq<Entry>, i: nat)
    requires i < |archive|
  {
    forall j :: 0 <= j < |archive| && archive[j].kind == Symlink ==> !Above(PathOf(archive[j].name), PathOf(archive[i].name))
  }

  predicate HardLinkNamesFile(archive: seq<Entry>, i: nat)
    requires i < |archive|
  {
    archive[i].kind == Hardlink ==> IsFile(archive, PathOf(archive[i].linkname))
  }

  /** An archive is accepted exactly if every entry passes by itself, no two have one path, no symbolic link
      is a directory above an entry, every hard link names an archived regular file, and every
      symbolic link settles inside the volume. */
  lemma AcceptableExactly(archive: seq<Entry>)
    ensures Acceptable(archive) <==>
              && AllPass(archive) && PathsDiffer(archive)
              && (forall i :: 0 <= i < |archive| ==> NoLinkAbove(archive, i) && HardLinkNamesFile(archive, i))
              && forall j :: 0 <= j < |archive| && archive[j].kind == Symlink ==> Settles(LinksOf(archive), PathOf(archive[j].name))
  {
    hide EntryOk, ParentsOk, HardLinkOk, Cleaned, PathOf, Splice, Split, Settles, NoLinkAbove, HardLinkNamesFile, LinksOf;
    if AllPass(archive) {
      NamesAreDifferent(archive);
      LinksSettle(archive);
      forall i | 0 <= i < |archive| ensures ParentsOk(LinksOf(archive), PathOf(archive[i].name)) <==> NoLinkAbove(archive, i) {
        ParentsExactly(archive, i);
      }
      if AllDifferent(archive) {
        forall i | 0 <= i < |archive| ensures HardLinkOk(Entries(archive), archive[i]) <==> HardLinkNamesFile(archive, i) {
          HardLinkExactly(archive, i);
        }
      }
    }
  }

  /** Plain paths are the same exactly if their names are. */
  lemma SameName(p: seq<string>, q: seq<string>)
    requires AllPlain(p) && AllPlain(q)
    ensures NameOf(p) == NameOf(q) <==> p == q
  {
    NamedParts(p);
    NamedParts(q);
  }

  lemma PassingName(entry: Entry)
    requires EntryOk(entry)
    ensures AllPlain(PathOf(entry.name)) && Cleaned(entry.name) == NameOf(PathOf(entry.name))
    ensures entry.kind == Symlink ==> |PathOf(entry.name)| > 0 && Split(Cleaned(entry.name)) == PathOf(entry.name)
    ensures entry.kind == Hardlink ==>
              AllPlain(PathOf(entry.linkname)) && Cleaned(entry.linkname) == NameOf(PathOf(entry.linkname))
  {
    hide Split, Normalized, NameOf, TargetOk;
    PathDepth(entry.name);
    if entry.kind == Hardlink {
      PathDepth(entry.linkname);
    }
    if entry.kind == Symlink {
      NamedParts(PathOf(entry.name));
    }
  }

  lemma NamesAreDifferent(archive: seq<Entry>)
    requires AllPass(archive)
    ensures AllDifferent(archive) <==> PathsDiffer(archive)
  {
    hide EntryOk, Cleaned, PathOf;
    forall i, j | 0 <= i < j < |archive|
      ensures Cleaned(archive[i].name) == Cleaned(archive[j].name) <==> PathOf(archive[i].name) == PathOf(archive[j].name)
    {
      PassingName(archive[i]);
      PassingName(archive[j]);
      SameName(PathOf(archive[i].name), PathOf(archive[j].name));
    }
  }

  predicate NamesLink(archive: seq<Entry>, name: string) {
    exists j :: 0 <= j < |archive| && archive[j].kind == Symlink && Cleaned(archive[j].name) == name
  }

  lemma {:induction false} LinkNames(archive: seq<Entry>, name: string)
    ensures name in LinksOf(archive) <==> NamesLink(archive, name)
  {
    hide Cleaned;
    if |archive| > 0 {
      var n := |archive| - 1;
      LinkNames(archive[..n], name);
      if j :| 0 <= j < |archive| && archive[j].kind == Symlink && Cleaned(archive[j].name) == name {
        assert j < n ==> archive[..n][j] == archive[j];
      }
      if j :| 0 <= j < n && archive[..n][j].kind == Symlink && Cleaned(archive[..n][j].name) == name {
        assert archive[j] == archive[..n][j];
      }
    }
  }

  lemma ParentsExactly(archive: seq<Entry>, i: nat)
    requires AllPass(archive) && i < |archive|
    ensures ParentsOk(LinksOf(archive), PathOf(archive[i].name)) <==> NoLinkAbove(archive, i)
  {
    hide EntryOk, Cleaned, PathOf, Join, LinksOf;
    PassingName(archive[i]);
    var path := PathOf(archive[i].name);
    forall j | 0 <= j < |archive| && archive[j].kind == Symlink
      ensures Above(PathOf(archive[j].name), path) <==>
                var n := |PathOf(archive[j].name)|; 0 < n < |path| && Join(path[..n]) == Cleaned(archive[j].name)
    {
      LinkAboveExactly(archive[j], path);
    }
    forall n | 0 < n < |path| ensures Join(path[..n]) in LinksOf(archive) <==> NamesLink(archive, Join(path[..n])) {
      LinkNames(archive, Join(path[..n]));
    }
    forall n, j | 0 < n < |path| && 0 <= j < |archive| && archive[j].kind == Symlink && Cleaned(archive[j].name) == Join(path[..n])
      ensures |PathOf(archive[j].name)| == n
    {
      PassingName(archive[j]);
      SameName(PathOf(archive[j].name), path[..n]);
    }
  }

  lemma LinkAboveExactly(link: Entry, path: seq<string>)
    requires EntryOk(link) && link.kind == Symlink && AllPlain(path)
    ensures Above(PathOf(link.name), path) <==>
              var n := |PathOf(link.name)|; 0 < n < |path| && Join(path[..n]) == Cleaned(link.name)
  {
    hide EntryOk, Cleaned, PathOf, Join;
    PassingName(link);
    var n := |PathOf(link.name)|;
    if n < |path| {
      SameName(PathOf(link.name), path[..n]);
    }
  }

  lemma HardLinkExactly(archive: seq<Entry>, i: nat)
    requires AllPass(archive) && AllDifferent(archive) && i < |archive|
    ensures HardLinkOk(Entries(archive), archive[i]) <==> HardLinkNamesFile(archive, i)
  {
    hide EntryOk, Cleaned, PathOf, Entries;
    if archive[i].kind == Hardlink {
      PassingName(archive[i]);
      var name := Cleaned(archive[i].linkname);
      forall k | 0 <= k < |archive| ensures Cleaned(archive[k].name) == name <==> PathOf(archive[k].name) == PathOf(archive[i].linkname) {
        PassingName(archive[k]);
        SameName(PathOf(archive[k].name), PathOf(archive[i].linkname));
      }
      EntryNames(archive);
      if name in Entries(archive) {
        EntryOfName(archive, name);
      }
    }
  }

  lemma LinksSettle(archive: seq<Entry>)
    requires AllPass(archive)
    ensures (forall name :: name in LinksOf(archive) ==> Splice(LinksOf(archive), [], Split(name), 0).Inside?) <==>
              forall j :: 0 <= j < |archive| && archive[j].kind == Symlink ==> Settles(LinksOf(archive), PathOf(archive[j].name))
  {
    hide EntryOk, Cleaned, PathOf, Splice, Split, LinksOf;
    var links := LinksOf(archive);
    forall j | 0 <= j < |archive| && archive[j].kind == Symlink
      ensures Cleaned(archive[j].name) in links
      ensures Splice(links, [], Split(Cleaned(archive[j].name)), 0).Inside? <==> Settles(links, PathOf(archive[j].name))
    {
      LinkNames(archive, Cleaned(archive[j].name));
      PassingName(archive[j]);
      SettlesExactly(links, PathOf(archive[j].name));
    }
    forall name | name in links ensures NamesLink(archive, name) {
      LinkNames(archive, name);
    }
  }

  lemma SettlesExactly(links: Links, path: seq<string>)
    ensures Splice(links, [], path, 0).Inside? <==> Settles(links, path)
  {
    hide Splice, ResolvesInside;
    var end := Splice(links, [], path, 0);
    if end.Inside? {
      SpliceIsExact(links, path, end.at, end.followed);
    }
    if Settles(links, path) {
      var to, followed: nat :| followed <= 40 && ResolvesInside(links, [], path, to, followed);
      SpliceIsExact(links, path, to, followed);
    }
  }
}
