/** The check of a volume's archive before it is unpacked (scripts/host-recovery.py). */
module Archives {
  import opened Common
  import opened ArchivePaths
  import opened ArchiveLinks

  datatype EntryKind = File | Directory | Symlink | Hardlink | Special
  datatype Entry = Entry(name: string, kind: EntryKind, linkname: string, size: nat)

  datatype Rejection =
    | UnsafePath | ParentTraversal | RootNotDirectory | Duplicate | SpecialFile | AbsoluteLink | LexicalEscape
    | ThroughLink | BadHardLink | ChainEscapes | ChainTooLong

  /******* What is accepted *******/

  predicate SafeText(name: string) {
    !(|name| > 0 && name[0] == '/') && '\\' !in name && '\0' !in name
  }

  /** `member_path` accepts the name. */
  predicate MemberOk(name: string) {
    ".." !in Split(name) && SafeText(name)
  }

  function PathOf(name: string): seq<string> {
    Normalized(Split(name))
  }

  /** The cleaned name of an entry. */
  function Cleaned(name: string): string {
    NameOf(PathOf(name))
  }

  /** Seen as text, the link's target lies inside the volume. */
  predicate TargetOk(path: seq<string>, linkname: string) {
    && |path| > 0 && SafeText(linkname)
    && var target := Normalized(path[..|path| - 1] + Split(linkname));
       !(|target| > 0 && target[0] == "..")
  }

  predicate EntryOk(entry: Entry) {
    && MemberOk(entry.name)
    && (Cleaned(entry.name) == "." ==> entry.kind.Directory?)
    && !entry.kind.Special?
    && (entry.kind.Symlink? ==> TargetOk(PathOf(entry.name), entry.linkname))
    && (entry.kind.Hardlink? ==> MemberOk(entry.linkname))
  }

  function Entries(archive: seq<Entry>): map<string, Entry> {
    if |archive| == 0 then map[]
    else
      var last := archive[|archive| - 1];
      Entries(archive[..|archive| - 1])[Cleaned(last.name) := last]
  }

  function LinksOf(archive: seq<Entry>): Links {
    if |archive| == 0 then map[]
    else
      var links, last := LinksOf(archive[..|archive| - 1]), archive[|archive| - 1];
      if last.kind.Symlink? then links[Cleaned(last.name) := last.linkname] else links
  }

  function TotalSize(archive: seq<Entry>): nat {
    if |archive| == 0 then 0 else TotalSize(archive[..|archive| - 1]) + archive[|archive| - 1].size
  }

  /** No directory above the entry is a link. */
  predicate ParentsOk(links: Links, path: seq<string>) {
    forall i :: 0 < i < |path| ==> Join(path[..i]) !in links
  }

  predicate HardLinkOk(entries: map<string, Entry>, entry: Entry) {
    entry.kind.Hardlink? ==> Cleaned(entry.linkname) in entries && entries[Cleaned(entry.linkname)].kind.File?
  }

  predicate AllDifferent(archive: seq<Entry>) {
    forall i, j :: 0 <= i < j < |archive| ==> Cleaned(archive[i].name) != Cleaned(archive[j].name)
  }

  predicate Acceptable(archive: seq<Entry>) {
    && (forall i :: 0 <= i < |archive| ==> EntryOk(archive[i]))
    && AllDifferent(archive)
    && (forall i :: 0 <= i < |archive| ==>
                      ParentsOk(LinksOf(archive), PathOf(archive[i].name)) && HardLinkOk(Entries(archive), archive[i]))
    && (forall name :: name in LinksOf(archive) ==> Splice(LinksOf(archive), [], Split(name), 0).Inside?)
  }

  /******* The check *******/

  lemma {:induction false} EntryNames(archive: seq<Entry>)
    ensures forall name :: name in Entries(archive) <==> exists i :: 0 <= i < |archive| && Cleaned(archive[i].name) == name
    ensures forall name :: name in LinksOf(archive) ==>
                             exists i :: 0 <= i < |archive| && archive[i].kind.Symlink? && Cleaned(archive[i].name) == name
  {
    hide Cleaned;
    if |archive| > 0 {
      var last := |archive| - 1;
      EntryNames(archive[..last]);
      forall name | name in Entries(archive) ensures exists i :: 0 <= i < |archive| && Cleaned(archive[i].name) == name {
        if name in Entries(archive[..last]) {
          var i :| 0 <= i < last && Cleaned(archive[..last][i].name) == name;
          assert archive[i] == archive[..last][i];
        } else {
          assert Cleaned(archive[last].name) == name;
        }
      }
      forall name | exists i :: 0 <= i < |archive| && Cleaned(archive[i].name) == name ensures name in Entries(archive) {
        var i :| 0 <= i < |archive| && Cleaned(archive[i].name) == name;
        assert i < last ==> archive[i] == archive[..last][i];
      }
      forall name | name in LinksOf(archive)
        ensures exists i :: 0 <= i < |archive| && archive[i].kind.Symlink? && Cleaned(archive[i].name) == name
      {
        if name in LinksOf(archive[..last]) {
          var i :| 0 <= i < last && archive[..last][i].kind.Symlink? && Cleaned(archive[..last][i].name) == name;
          assert archive[i] == archive[..last][i];
        } else {
          assert archive[last].kind.Symlink? && Cleaned(archive[last].name) == name;
        }
      }
    }
  }

  method CheckMember(name: string) returns (r: Result<Unit, Rejection>)
    ensures r.Ok? <==> MemberOk(name)
  {
    if ".." in Split(name) {
      return Err(ParentTraversal);
    }
    if !SafeText(name) {
      return Err(UnsafePath);
    }
    return Ok(Unit);
  }

  method CheckEntry(entry: Entry) returns (r: Result<Unit, Rejection>)
    ensures r.Ok? <==> EntryOk(entry)
  {
    hide Split, Normalized, NameOf;
    r := CheckMember(entry.name);
    if r.Err? {
      return;
    }
    if Cleaned(entry.name) == "." && !entry.kind.Directory? {
      return Err(RootNotDirectory);
    }
    if entry.kind.Special? {
      return Err(SpecialFile);
    }
    if entry.kind.Symlink? {
      if |entry.linkname| > 0 && entry.linkname[0] == '/' {
        return Err(AbsoluteLink);
      }
      if !SafeText(entry.linkname) {
        return Err(UnsafePath);
      }
      var path := PathOf(entry.name);
      NameOfRoot(path);
      var target := Normalized(path[..|path| - 1] + Split(entry.linkname));
      if |target| > 0 && target[0] == ".." {
        return Err(LexicalEscape);
      }
    }
    if entry.kind.Hardlink? {
      r := CheckMember(entry.linkname);
    }
  }

  lemma NameOfRoot(path: seq<string>)
    ensures |path| == 0 ==> NameOf(path) == "."
  {
  }

  /** The three passes of the check; the total size is returned when everything is accepted. */
  method VolumeArchive(archive: seq<Entry>) returns (r: Result<nat, Rejection>)
    ensures r.Ok? <==> Acceptable(archive)
    ensures r.Ok? ==> r.value == TotalSize(archive)
  {
    hide EntryOk, ParentsOk, HardLinkOk, Cleaned, PathOf, Splice, Split;
    var entries: map<string, Entry>, links: Links, total := map[], map[], 0;
    for i := 0 to |archive|
      invariant forall j :: 0 <= j < i ==> EntryOk(archive[j])
      invariant AllDifferent(archive[..i])
      invariant entries == Entries(archive[..i]) && links == LinksOf(archive[..i]) && total == TotalSize(archive[..i])
    {
      var entry := archive[i];
      assert archive[..i + 1][..i] == archive[..i];
      EntryNames(archive[..i]);
      var checked := CheckEntry(entry);
      if checked.Err? {
        return Err(checked.error);
      }
      var name := Cleaned(entry.name);
      if name in entries {
        assert !AllDifferent(archive) by {
          var j :| 0 <= j < i && Cleaned(archive[..i][j].name) == name;
          assert archive[..i][j] == archive[j];
        }
        return Err(Duplicate);
      }
      if entry.kind.Symlink? {
        links := links[name := entry.linkname];
      }
      entries := entries[name := entry];
      total := total + entry.size;
      StillDifferent(archive, i);
    }
    assert archive[..|archive|] == archive;
    for i := 0 to |archive|
      invariant forall j :: 0 <= j < i ==> ParentsOk(links, PathOf(archive[j].name)) && HardLinkOk(entries, archive[j])
    {
      if !ParentsOk(links, PathOf(archive[i].name)) {
        return Err(ThroughLink);
      }
      if !HardLinkOk(entries, archive[i]) {
        return Err(BadHardLink);
      }
    }
    var rest := links.Keys;
    while rest != {}
      invariant rest <= links.Keys
      invariant forall name :: name in links.Keys - rest ==> Splice(links, [], Split(name), 0).Inside?
      decreases |rest|
    {
      var name :| name in rest;
      var end := ResolveLink(links, name);
      if !end.Inside? {
        return Err(if end.Escapes? then ChainEscapes else ChainTooLong);
      }
      rest := rest - {name};
    }
    return Ok(total);
  }

  lemma StillDifferent(archive: seq<Entry>, i: nat)
    requires i < |archive| && AllDifferent(archive[..i]) && Cleaned(archive[i].name) !in Entries(archive[..i])
    ensures AllDifferent(archive[..i + 1])
  {
    hide Cleaned;
    EntryNames(archive[..i]);
    var now := archive[..i + 1];
    forall j, k | 0 <= j < k < |now| ensures Cleaned(now[j].name) != Cleaned(now[k].name) {
      assert archive[..i][j] == now[j];
      assert k < i ==> archive[..i][k] == now[k];
    }
  }

  /** The resolver: `pending` is what is still to be walked, a link's target goes in front. */
  method ResolveLink(links: Links, name: string) returns (end: End)
    ensures end == Splice(links, [], Split(name), 0)
  {
    hide Split, Join;
    var resolved: seq<string>, pending, followed: nat := [], Split(name), 0;
    while |pending| > 0
      invariant followed <= MAX_FOLLOWED
      invariant Splice(links, resolved, pending, followed) == Splice(links, [], Split(name), 0)
      decreases MAX_FOLLOWED - followed, |pending|
    {
      var part := pending[0];
      pending := pending[1..];
      if part == "" || part == "." {
        continue;
      }
      if part == ".." {
        if |resolved| == 0 {
          return Escapes;
        }
        resolved := resolved[..|resolved| - 1];
        continue;
      }
      var candidate := Join(resolved + [part]);
      if candidate in links {
        if followed == MAX_FOLLOWED {
          return TooMany;
        }
        followed := followed + 1;
        pending := Split(links[candidate]) + pending;
      } else {
        resolved := resolved + [part];
      }
    }
    return Inside(resolved, followed);
  }

  /******* What acceptance means *******/

  lemma MemberIsPlain(name: string)
    requires MemberOk(name)
    ensures AllPlain(PathOf(name)) && (Cleaned(name) != "." ==> |PathOf(name)| > 0 && Split(Cleaned(name)) == PathOf(name))
  {
    NormalizedIsPlain(Split(name));
    NamedParts(PathOf(name));
  }

  lemma LinksAreAccepted(archive: seq<Entry>)
    requires Acceptable(archive)
    ensures AllAccepted(LinksOf(archive))
  {
    hide Splice, Split, Cleaned, PathOf, Normalized, NameOf, TargetOk, MemberOk;
    var links := LinksOf(archive);
    EntryNames(archive);
    forall name | name in links ensures LinkAccepted(links, Split(name)) {
      var i :| 0 <= i < |archive| && archive[i].kind.Symlink? && Cleaned(archive[i].name) == name;
      assert EntryOk(archive[i]) && ParentsOk(links, PathOf(archive[i].name));
      MemberIsPlain(archive[i].name);
    }
  }

  /** In an accepted archive every path without "..", through whatever links, resolves to a place
      inside the volume. */
  lemma AcceptedStaysInside(archive: seq<Entry>, path: string)
    requires Acceptable(archive) && ".." !in Split(path)
    ensures exists walk, to :: Leads(LinksOf(archive), walk, [], Split(path), to) && AllPlain(to)
  {
    hide Acceptable, Leads, AllAccepted;
    LinksAreAccepted(archive);
    var walk, to := PathStaysInside(LinksOf(archive), [], Split(path));
  }

  lemma {:induction false} DirectWalk(links: Links, from: seq<string>, path: seq<string>) returns (walk: Walk)
    requires AllPlain(path) && forall i :: 0 < i <= |path| ==> Join(from + path[..i]) !in links
    ensures Leads(links, walk, from, path, from + path) && Expansions(walk) == 0
    decreases |path|
  {
    if |path| == 0 {
      assert from + path == from;
      return Stay;
    }
    assert Plain(path[0]) && [path[0]] == path[..1];
    forall i | 0 < i <= |path[1..]| ensures Join(from + [path[0]] + path[1..][..i]) !in links {
      assert from + [path[0]] + path[1..][..i] == from + path[..i + 1];
    }
    assert from + [path[0]] + path[1..] == from + path;
    var rest := DirectWalk(links, from + [path[0]], path[1..]);
    walk := Enter(rest);
  }

  /** No entry of an accepted archive is written through a link: its directory resolves to itself
      without following any. */
  lemma EntriesLandInPlace(archive: seq<Entry>, i: nat)
    requires Acceptable(archive) && i < |archive| && Cleaned(archive[i].name) != "."
    ensures var path := PathOf(archive[i].name);
            && |path| > 0
            && ResolvesInside(LinksOf(archive), [], path[..|path| - 1], path[..|path| - 1], 0)
  {
    hide Splice, Split, Cleaned, PathOf, Normalized, NameOf, TargetOk, MemberOk;
    var path, links := PathOf(archive[i].name), LinksOf(archive);
    assert EntryOk(archive[i]) && ParentsOk(links, path);
    MemberIsPlain(archive[i].name);
    var parent := path[..|path| - 1];
    forall k | 0 < k <= |parent| ensures Join([] + parent[..k]) !in links {
      assert [] + parent[..k] == path[..k];
    }
    assert [] + parent == parent;
    var walk := DirectWalk(links, [], parent);
  }
}
