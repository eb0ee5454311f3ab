/** Symbolic links: the resolver that splices targets into the pending path, and the nested
    resolution of a file system. */
module ArchiveLinks {
  import opened ArchivePaths

  const MAX_FOLLOWED: nat := 40

  /** The target of each archived link. */
  type Links = map<string, string>

  /** The reasons to end a resolution. */
  datatype End = Inside(at: seq<string>, followed: nat) | Escapes | TooMany

  /** The loop of the recovery script, from any point of it. */
  function Splice(links: Links, resolved: seq<string>, pending: seq<string>, followed: nat): End
    requires followed <= MAX_FOLLOWED
    decreases MAX_FOLLOWED - followed, |pending|
  {
    if |pending| == 0 then Inside(resolved, followed)
    else
      var part, rest := pending[0], pending[1..];
      if part == "" || part == "." then Splice(links, resolved, rest, followed)
      else if part == ".." then
        (if |resolved| == 0 then Escapes else Splice(links, resolved[..|resolved| - 1], rest, followed))
      else
        var candidate := Join(resolved + [part]);
        if candidate !in links then Splice(links, resolved + [part], rest, followed)
        else if followed == MAX_FOLLOWED then TooMany
        else Splice(links, resolved, Split(links[candidate]) + rest, followed + 1)
  }

  /** A resolution in file-system order: at a link, the link's own target is resolved to its end
      first, from the directory that holds the link, and then the rest of the path. */
  datatype Walk = Stay | Skip(rest: Walk) | Up(rest: Walk) | Enter(rest: Walk) | Follow(target: Walk, at: seq<string>, rest: Walk)

  function Expansions(walk: Walk): nat {
    match walk
    case Stay => 0
    case Skip(rest) => Expansions(rest)
    case Up(rest) => Expansions(rest)
    case Enter(rest) => Expansions(rest)
    case Follow(target, _, rest) => 1 + Expansions(target) + Expansions(rest)
  }

  /** `walk` leads from directory `from` along `path` to `to`, and never above the root. */
  predicate Leads(links: Links, walk: Walk, from: seq<string>, path: seq<string>, to: seq<string>)
    decreases walk
  {
    match walk
    case Stay => |path| == 0 && to == from
    case Skip(rest) => |path| > 0 && (path[0] == "" || path[0] == ".") && Leads(links, rest, from, path[1..], to)
    case Up(rest) => |path| > 0 && path[0] == ".." && |from| > 0 && Leads(links, rest, from[..|from| - 1], path[1..], to)
    case Enter(rest) =>
      && |path| > 0 && path[0] != "" && path[0] != "." && path[0] != ".."
      && Join(from + [path[0]]) !in links && Leads(links, rest, from + [path[0]], path[1..], to)
    case Follow(target, at, rest) =>
      && |path| > 0 && path[0] != "" && path[0] != "." && path[0] != ".."
      && Join(from + [path[0]]) in links
      && Leads(links, target, from, Split(links[Join(from + [path[0]])]), at)
      && Leads(links, rest, at, path[1..], to)
  }

  /** Splicing carries out a nested resolution and then goes on with what is left. */
  lemma {:induction false} SpliceFollowsWalk(
    links: Links, walk: Walk, from: seq<string>, path: seq<string>, to: seq<string>, rest: seq<string>, followed: nat)
    requires Leads(links, walk, from, path, to) && followed + Expansions(walk) <= MAX_FOLLOWED
    ensures Splice(links, from, path + rest, followed) == Splice(links, to, rest, followed + Expansions(walk))
    decreases walk
  {
    if |path| == 0 {
      assert path + rest == rest;
    } else {
      assert (path + rest)[1..] == path[1..] + rest && (path + rest)[0] == path[0];
      match walk
      case Stay =>
      case Skip(next) => SpliceFollowsWalk(links, next, from, path[1..], to, rest, followed);
      case Up(next) => SpliceFollowsWalk(links, next, from[..|from| - 1], path[1..], to, rest, followed);
      case Enter(next) => SpliceFollowsWalk(links, next, from + [path[0]], path[1..], to, rest, followed);
      case Follow(target, at, next) =>
        var spliced := Split(links[Join(from + [path[0]])]);
        SpliceFollowsWalk(links, target, from, spliced, at, path[1..] + rest, followed + 1);
        SpliceFollowsWalk(links, next, at, path[1..], to, rest, followed + 1 + Expansions(target));
    }
  }

  /** Every accepted splicing run is a nested resolution of the path followed by one of the rest. */
  lemma {:induction false} WalkOfSplice(links: Links, from: seq<string>, path: seq<string>, rest: seq<string>, followed: nat)
    returns (walk: Walk, to: seq<string>)
    requires followed <= MAX_FOLLOWED && Splice(links, from, path + rest, followed).Inside?
    ensures Leads(links, walk, from, path, to) && followed + Expansions(walk) <= MAX_FOLLOWED
    ensures Splice(links, from, path + rest, followed) == Splice(links, to, rest, followed + Expansions(walk))
    decreases MAX_FOLLOWED - followed, |path| + |rest|
  {
    if |path| == 0 {
      assert path + rest == rest;
      return Stay, from;
    }
    var next;
    var part := path[0];
    assert (path + rest)[1..] == path[1..] + rest && (path + rest)[0] == part;
    if part == "" || part == "." {
      next, to := WalkOfSplice(links, from, path[1..], rest, followed);
      walk := Skip(next);
    } else if part == ".." {
      next, to := WalkOfSplice(links, from[..|from| - 1], path[1..], rest, followed);
      walk := Up(next);
    } else if Join(from + [part]) !in links {
      next, to := WalkOfSplice(links, from + [part], path[1..], rest, followed);
      walk := Enter(next);
    } else {
      var spliced := Split(links[Join(from + [part])]);
      var target, at := WalkOfSplice(links, from, spliced, path[1..] + rest, followed + 1);
      next, to := WalkOfSplice(links, at, path[1..], rest, followed + 1 + Expansions(target));
      walk := Follow(target, at, next);
    }
  }

  /** The nested resolution ends inside the volume within the budget. */
  ghost predicate ResolvesInside(links: Links, from: seq<string>, path: seq<string>, to: seq<string>, followed: nat) {
    exists walk :: Leads(links, walk, from, path, to) && Expansions(walk) == followed
  }

  /** The loop accepts a path exactly when its nested resolution ends inside the volume after at
      most forty links, and it then knows where and after how many. */
  lemma SpliceIsExact(links: Links, path: seq<string>, to: seq<string>, followed: nat)
    ensures Splice(links, [], path, 0) == Inside(to, followed)
       <==> followed <= 40 && ResolvesInside(links, [], path, to, followed)
  {
    assert path + [] == path;
    if followed <= MAX_FOLLOWED && ResolvesInside(links, [], path, to, followed) {
      var walk :| Leads(links, walk, [], path, to) && Expansions(walk) == followed;
      SpliceFollowsWalk(links, walk, [], path, to, [], 0);
    }
    if Splice(links, [], path, 0) == Inside(to, followed) {
      var walk, at := WalkOfSplice(links, [], path, [], 0);
    }
  }

  /** Resolution is a function: two walks along one path are one and the same. */
  lemma {:induction false} WalkIsUnique(
    links: Links, w: Walk, v: Walk, from: seq<string>, path: seq<string>, to: seq<string>, at: seq<string>)
    requires Leads(links, w, from, path, to) && Leads(links, v, from, path, at)
    ensures w == v && to == at
    decreases w
  {
    match w
    case Stay =>
    case Skip(rest) => WalkIsUnique(links, rest, v.rest, from, path[1..], to, at);
    case Up(rest) => WalkIsUnique(links, rest, v.rest, from[..|from| - 1], path[1..], to, at);
    case Enter(rest) => WalkIsUnique(links, rest, v.rest, from + [path[0]], path[1..], to, at);
    case Follow(target, mid, rest) =>
      WalkIsUnique(links, target, v.target, from, Split(links[Join(from + [path[0]])]), mid, v.at);
      WalkIsUnique(links, rest, v.rest, mid, path[1..], to, at);
  }

  /******* Every path through accepted links stays inside *******/

  /** The link at `c` was accepted: its own path resolves, and no directory above it is a link. */
  ghost predicate LinkAccepted(links: Links, c: seq<string>) {
    && |c| > 0 && AllPlain(c)
    && (forall i :: 0 < i < |c| ==> Join(c[..i]) !in links)
    && Splice(links, [], c, 0).Inside?
  }

  /** All links of the map are accepted, under their components. */
  ghost predicate AllAccepted(links: Links) {
    forall name :: name in links ==> LinkAccepted(links, Split(name))
  }

  /** A walk along directories that are no links ends where it lexically should. */
  lemma {:induction false} WalkToParent(links: Links, walk: Walk, from: seq<string>, path: seq<string>, to: seq<string>)
    returns (target: Walk, at: seq<string>)
    requires |path| > 0 && AllPlain(path)
    requires forall i :: 0 < i < |path| ==> Join(from + path[..i]) !in links
    requires Join(from + path) in links
    requires Leads(links, walk, from, path, to)
    ensures Leads(links, target, from + path[..|path| - 1], Split(links[Join(from + path)]), at)
    decreases |path|
  {
    assert Plain(path[0]);
    if |path| == 1 {
      assert path == [path[0]] && from + path[..0] == from;
      assert walk.Follow?;
      return walk.target, walk.at;
    }
    assert [path[0]] == path[..1];
    assert walk.Enter?;
    forall i | 0 < i < |path[1..]| ensures Join(from + [path[0]] + path[1..][..i]) !in links {
      assert from + [path[0]] + path[1..][..i] == from + path[..i + 1];
    }
    assert from + [path[0]] + path[1..] == from + path;
    assert from + [path[0]] + path[1..][..|path| - 2] == from + path[..|path| - 1];
    target, at := WalkToParent(links, walk.rest, from + [path[0]], path[1..], to);
  }

  lemma TargetResolves(links: Links, c: seq<string>) returns (target: Walk, at: seq<string>)
    requires LinkAccepted(links, c) && Join(c) in links
    ensures Leads(links, target, c[..|c| - 1], Split(links[Join(c)]), at)
  {
    hide LinkAccepted, Splice;
    AcceptedFacts(links, c);
    assert c + [] == c && [] + c == c;
    var walk, to := WalkOfSplice(links, [], c, [], 0);
    forall i | 0 < i < |c| ensures Join([] + c[..i]) !in links {
      assert [] + c[..i] == c[..i];
    }
    assert [] + c[..|c| - 1] == c[..|c| - 1];
    target, at := WalkToParent(links, walk, [], c, to);
  }

  lemma AcceptedFacts(links: Links, c: seq<string>)
    requires LinkAccepted(links, c)
    ensures |c| > 0 && AllPlain(c) && Splice(links, [], c, 0).Inside?
    ensures forall i :: 0 < i < |c| ==> Join(c[..i]) !in links
  {
  }

  lemma {:induction false} WalkStaysPlain(links: Links, walk: Walk, from: seq<string>, path: seq<string>, to: seq<string>)
    requires Leads(links, walk, from, path, to) && AllPlain(from) && SlashFree(path)
    ensures AllPlain(to)
    decreases walk
  {
    match walk
    case Stay =>
    case Skip(rest) => WalkStaysPlain(links, rest, from, path[1..], to);
    case Up(rest) => WalkStaysPlain(links, rest, from[..|from| - 1], path[1..], to);
    case Enter(rest) => WalkStaysPlain(links, rest, from + [path[0]], path[1..], to);
    case Follow(target, at, rest) =>
      WalkStaysPlain(links, target, from, Split(links[Join(from + [path[0]])]), at);
      WalkStaysPlain(links, rest, at, path[1..], to);
  }

  /** From any directory of the volume, every path without ".." resolves, through however many
      links, to a place inside the volume. */
  lemma {:induction false} PathStaysInside(links: Links, from: seq<string>, path: seq<string>)
    returns (walk: Walk, to: seq<string>)
    requires AllAccepted(links) && AllPlain(from) && SlashFree(path) && ".." !in path
    ensures Leads(links, walk, from, path, to) && AllPlain(to)
    decreases |path|
  {
    if |path| == 0 {
      return Stay, from;
    }
    var rest;
    if path[0] == "" || path[0] == "." {
      rest, to := PathStaysInside(links, from, path[1..]);
      walk := Skip(rest);
    } else if Join(from + [path[0]]) !in links {
      rest, to := PathStaysInside(links, from + [path[0]], path[1..]);
      walk := Enter(rest);
    } else {
      var c := from + [path[0]];
      assert AllPlain(c);
      NamedParts(c);
      assert LinkAccepted(links, Split(Join(c)));
      var target, at := TargetResolves(links, c);
      assert c[..|c| - 1] == from;
      WalkStaysPlain(links, target, from, Split(links[Join(c)]), at);
      rest, to := PathStaysInside(links, at, path[1..]);
      walk := Follow(target, at, rest);
    }
  }
}
