/** Paths as strings and as components. */
module ArchivePaths {

  /** `name.split('/')`. */
  function Split(name: string): (parts: seq<string>)
    ensures |parts| >= 1 && forall i :: 0 <= i < |parts| ==> '/' !in parts[i]
  {
    if name == "" then [""]
    else
      var rest := Split(name[1..]);
      if name[0] == '/' then [""] + rest else [[name[0]] + rest[0]] + rest[1..]
  }

  /** `'/'.join(parts)`. */
  function Join(parts: seq<string>): string {
    if |parts| == 0 then "" else if |parts| == 1 then parts[0] else parts[0] + "/" + Join(parts[1..])
  }

  predicate SlashFree(parts: seq<string>) {
    forall i :: 0 <= i < |parts| ==> '/' !in parts[i]
  }

  lemma {:induction false} SplitWord(word: string)
    requires '/' !in word
    ensures Split(word) == [word]
  {
    if word != "" {
      assert '/' !in word[1..];
      SplitWord(word[1..]);
      assert [word[0]] + word[1..] == word;
    }
  }

  lemma {:induction false} SplitFirst(word: string, rest: string)
    requires '/' !in word
    ensures Split(word + "/" + rest) == [word] + Split(rest)
  {
    var name := word + "/" + rest;
    if word == "" {
      assert name[1..] == rest;
    } else {
      assert '/' !in word[1..];
      SplitFirst(word[1..], rest);
      assert name[1..] == word[1..] + "/" + rest;
      assert name[0] == word[0] && name[0] != '/' && [word[0]] + word[1..] == word;
      assert ([word[1..]] + Split(rest))[1..] == Split(rest);
    }
  }

  /** Joining and splitting again gives the components back, so a joined path determines them. */
  lemma {:induction false} SplitJoin(parts: seq<string>)
    requires |parts| >= 1 && SlashFree(parts)
    ensures Split(Join(parts)) == parts
  {
    if |parts| == 1 {
      SplitWord(parts[0]);
    } else {
      SplitJoin(parts[1..]);
      SplitFirst(parts[0], Join(parts[1..]));
    }
  }

  /******* Normal paths *******/

  /** `posixpath.normpath` of a relative path, as components. */
  function Normalized(parts: seq<string>): seq<string> {
    if |parts| == 0 then []
    else
      var done, part := Normalized(parts[..|parts| - 1]), parts[|parts| - 1];
      if part == "" || part == "." then done
      else if part == ".." && |done| > 0 && done[|done| - 1] != ".." then done[..|done| - 1]
      else done + [part]
  }

  /** The volume's root is called ".". */
  function NameOf(parts: seq<string>): string {
    if |parts| == 0 then "." else Join(parts)
  }

  predicate Plain(part: string) {
    part != "" && part != "." && part != ".." && '/' !in part
  }

  predicate AllPlain(parts: seq<string>) {
    forall i :: 0 <= i < |parts| ==> Plain(parts[i])
  }

  lemma {:induction false} NormalizedIsPlain(parts: seq<string>)
    requires SlashFree(parts) && ".." !in parts
    ensures AllPlain(Normalized(parts))
  {
    if |parts| > 0 {
      NormalizedIsPlain(parts[..|parts| - 1]);
    }
  }

  lemma {:induction false} NormalizedOfPlain(parts: seq<string>)
    requires AllPlain(parts)
    ensures Normalized(parts) == parts
  {
    if |parts| > 0 {
      NormalizedOfPlain(parts[..|parts| - 1]);
      assert parts == parts[..|parts| - 1] + [parts[|parts| - 1]];
    }
  }

  /** The name of a plain path gives its components back. */
  lemma NamedParts(parts: seq<string>)
    requires AllPlain(parts)
    ensures Normalized(Split(NameOf(parts))) == parts
    ensures |parts| > 0 ==> Split(NameOf(parts)) == parts
    ensures (NameOf(parts) == ".") == (|parts| == 0)
  {
    if |parts| == 0 {
      SplitWord(".");
      assert Normalized([]) == [];
    } else {
      assert SlashFree(parts) by {
        forall i | 0 <= i < |parts| ensures '/' !in parts[i] {
          assert Plain(parts[i]);
        }
      }
      SplitJoin(parts);
      NormalizedOfPlain(parts);
      SplitWord(".");
      assert Plain(parts[0]);
    }
  }
}
