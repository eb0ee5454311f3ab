/** Every variable has a value, and what that value is. */
module VariableResolution {
  import opened Common
  import opened VariableModel
  import opened ReferenceGraph
  import opened VariableInvariant
  import opened BucketBindings

  /******* Plain recursion *******/

  /** Resolution as one would write it for a graph without cycles: nothing is remembered. */
  ghost function Value(c: Config, rank: nat -> nat, k: Key): Result<string, ResolveError>
    requires Ranked(c.refs, rank)
    decreases rank(k.service)
  {
    if k !in c.vars then Err(NoRow)
    else
      var fallback := Open(c.vars[k].sealed, ForVariable(k));
      if fallback.None? then Err(Unreadable)
      else if !c.vars[k].kind.Reference? then Ok(fallback.value)
      else if k !in c.refs then (if fallback.value != "" then Ok(fallback.value) else Err(NoRow))
      else
        var resolved := Value(c, rank, c.refs[k]);
        if resolved == Err(NoRow) && fallback.value != "" then Ok(fallback.value) else resolved
  }

  /** On a graph without cycles the set of visited keys is never needed. */
  lemma {:induction false} VisitingIsNotNeeded(c: Config, rank: nat -> nat, k: Key, visiting: set<Key>)
    requires Ranked(c.refs, rank)
    requires forall v :: v in visiting ==> rank(k.service) < rank(v.service)
    ensures Resolve(c, k, visiting) == Value(c, rank, k)
    decreases rank(k.service)
  {
    if k in c.refs {
      VisitingIsNotNeeded(c, rank, c.refs[k], visiting + {k});
    }
  }

  lemma {:induction false} HasNoCycleError(c: Config, rank: nat -> nat, k: Key)
    requires Ranked(c.refs, rank)
    ensures Value(c, rank, k) != Err(Cycle)
    decreases rank(k.service)
  {
    if k in c.refs {
      HasNoCycleError(c, rank, c.refs[k]);
    }
  }

  ghost predicate Readable(vars: map<Key, Variable>) {
    forall k :: k in vars ==> vars[k].sealed.purpose == ForVariable(k)
  }

  lemma {:induction false} ValueExists(c: Config, rank: nat -> nat, k: Key)
    requires Ranked(c.refs, rank) && Readable(c.vars) && ValuesOk(c.vars, c.refs) && k in c.vars
    ensures Value(c, rank, k).Ok?
    decreases rank(k.service)
  {
    assert HasValue(c.vars, c.refs, k);
    if k in c.refs && c.refs[k] in c.vars {
      ValueExists(c, rank, c.refs[k]);
    }
  }

  /** In every state that satisfies the invariant, resolution never reports a cycle and yields a
      value for every variable. */
  lemma ResolutionIsTotal(c: Config, k: Key)
    requires VarInv(c)
    ensures Resolve(c, k, {}) != Err(Cycle)
    ensures k in c.vars ==> Resolve(c, k, {}).Ok?
  {
    hide ValuesOk, SizesOk, FieldsOk, BindingsOk, BucketsOk, Ranked;
    var rank: nat -> nat :| Ranked(c.refs, rank);
    VisitingIsNotNeeded(c, rank, k, {});
    HasNoCycleError(c, rank, k);
    if k in c.vars {
      ValueExists(c, rank, k);
    }
  }

  /** So every service has an environment. */
  lemma EnvironmentExists(c: Config, s: nat)
    requires VarInv(c)
    ensures exists env :: Environment(c, s, env)
  {
    hide VarInv, Resolve;
    forall name | name in Names(c.vars, s) ensures Resolve(c, Key(s, name), {}).Ok? {
      ResolutionIsTotal(c, Key(s, name));
    }
    var env := map name | name in Names(c.vars, s) :: Resolve(c, Key(s, name), {}).value;
    assert Environment(c, s, env);
  }

  /** The value that a variable shows was stored for `o`, a variable of a service of the same project
      and environment. */
  ghost predicate StoredNearby(c: Config, k: Key, o: Key) {
    && k in c.vars && k.service < |c.services| && o in c.vars && o.service < |c.services|
    && c.services[o.service].place == c.services[k.service].place
    && c.vars[o].sealed.purpose == ForVariable(o)
  }

  lemma {:induction false} ValueIsStoredNearby(c: Config, rank: nat -> nat, k: Key) returns (o: Key)
    requires RowsOk(c.services, c.vars, c.refs) && ValuesOk(c.vars, c.refs) && Ranked(c.refs, rank) && k in c.vars
    ensures StoredNearby(c, k, o) && Value(c, rank, k) == Ok(c.vars[o].sealed.value)
    decreases rank(k.service)
  {
    assert HasValue(c.vars, c.refs, k);
    if c.vars[k].kind.Reference? && k in c.refs && c.refs[k] in c.vars {
      o := ValueIsStoredNearby(c, rank, c.refs[k]);
    } else {
      o := k;
    }
  }

  /** No service sees a value that was stored for a service of another project or environment. */
  lemma NothingCrossesPlaces(c: Config, s: nat, env: map<string, string>, name: string) returns (o: Key)
    requires VarInv(c) && Environment(c, s, env) && name in env
    ensures StoredNearby(c, Key(s, name), o) && env[name] == c.vars[o].sealed.value
  {
    hide SizesOk, FieldsOk, BindingsOk, BucketsOk, TemplatesOk, RowsOk, ValuesOk, Ranked, Resolve, StoredNearby;
    NamesOf(c.vars, s);
    var rank: nat -> nat :| Ranked(c.refs, rank);
    o := ValueIsStoredNearby(c, rank, Key(s, name));
    VisitingIsNotNeeded(c, rank, Key(s, name), {});
  }

  /** The variables of a binding resolve to the bucket's current fields and credentials. */
  lemma BindingIsCurrent(c: Config, x: Binding, field: Field)
    requires VarInv(c) && x in c.bindings
    ensures x.bucket < |c.buckets|
    ensures var bucket := c.buckets[x.bucket];
            && Open(bucket.sealed, ForBucket(x.bucket)).Some?
            && Resolve(c, FieldKey(x.service, c.bindings[x], field), {})
               == Ok(FieldValue(bucket, Open(bucket.sealed, ForBucket(x.bucket)).value, field))
  {
    hide ValuesOk, SizesOk, Acyclic, FieldKey, FieldValue;
    assert FieldHolds(c.vars, x.service, c.bindings[x], c.buckets[x.bucket], field);
  }

  /******* Renaming *******/

  lemma RenamedFacts(c: Config, s: nat, oldName: string, newName: string, c': Config)
    requires VarInv(c) && RenameVariable(c, s, oldName, newName) == Outcome(c', Ok(Unit))
    ensures var before, after := Key(s, oldName), Key(s, newName);
            && before in c.vars && after !in c.vars && !(before in c.refs && after in c.refs) && IsApp(c.services, s)
            && c.vars[before].sealed.purpose == ForVariable(before)
            && c' == c.(vars := MoveVariable(c.vars, before, after), refs := MoveTargets(MoveSource(c.refs, before, after), before, after))
  {
    hide ValuesOk, SizesOk, Acyclic, FieldsOk, BindingsOk, BucketsOk, Managed, ValidName, MoveSource, MoveTargets;
  }

  lemma RenamedRank(refs: map<Key, Key>, rank: nat -> nat, before: Key, after: Key)
    requires Ranked(refs, rank) && before.service == after.service
    ensures Ranked(MoveTargets(MoveSource(refs, before, after), before, after), rank)
  {
    var moved := MoveTargets(MoveSource(refs, before, after), before, after);
    forall k | k in moved ensures rank(moved[k].service) < rank(k.service) {
      assert (if k == after && before in refs then before else k) in refs;
    }
  }

  /** One step of resolution is the same before and after, unless a reference finds a row at its
      new name. */
  lemma RenamedStep(c: Config, before: Key, after: Key, k: Key)
    requires before in c.vars && after !in c.vars && !(before in c.refs && after in c.refs) && k in c.vars
    ensures var vars' := MoveVariable(c.vars, before, after);
            var refs' := MoveTargets(MoveSource(c.refs, before, after), before, after);
            var k' := Moved(k, before, after);
            && k' in vars' && vars'[k'].kind == c.vars[k].kind
            && (c.vars[k].sealed.purpose == ForVariable(k) ==> vars'[k'].sealed == Sealed(c.vars[k].sealed.value, ForVariable(k')))
            && (k' in refs' <==> k in c.refs || (k == before && after in c.refs))
            && (k in c.refs ==> refs'[k'] == Moved(c.refs[k], before, after))
            && (k == before && after in c.refs ==> refs'[k'] == Moved(c.refs[after], before, after))
  {
  }

  /** The new name still carries the reference row of a variable that was deleted, and it leads to a
      value that differs from the one of the reference that is renamed. */
  predicate Adopts(c: Config, before: Key, after: Key) {
    && before in c.vars && after in c.refs && c.vars[before].kind.Reference?
    && c.refs[after] in c.vars && c.vars[c.refs[after]].sealed.value != c.vars[before].sealed.value
  }

  lemma NewNameIsNoTarget(c: Config, before: Key, after: Key, k: Key)
    requires RowsOk(c.services, c.vars, c.refs) && after !in c.vars && IsApp(c.services, after.service)
    requires before in c.vars && before != after && k in c.refs && c.refs[k] !in c.vars
    ensures Moved(c.refs[k], before, after) == c.refs[k] && c.refs[k] !in MoveVariable(c.vars, before, after)
  {
  }

  /** What a renamed reference shows that finds a row at its new name. */
  lemma AdoptedValue(c: Config, c': Config, rank: nat -> nat, before: Key, after: Key)
    requires RowsOk(c.services, c.vars, c.refs) && ValuesOk(c.vars, c.refs) && IsApp(c.services, after.service)
    requires before in c.vars && after !in c.vars && before !in c.refs && after in c.refs && before.service == after.service
    requires c'.vars == MoveVariable(c.vars, before, after)
    requires c'.refs == MoveTargets(MoveSource(c.refs, before, after), before, after)
    requires Ranked(c.refs, rank) && Ranked(c'.refs, rank)
    ensures Value(c', rank, after) == Value(c, rank, before) <==> !Adopts(c, before, after)
  {
    hide MoveTargets, MoveSource, Ranked;
    RenamedStep(c, before, after, before);
    assert HasValue(c.vars, c.refs, before);
    var to := c.refs[after];
    if c.vars[before].kind.Reference? {
      assert to.service != before.service && c'.refs[after] == to;
      if to in c.vars {
        RenamedStep(c, before, after, to);
        assert HasValue(c.vars, c.refs, to);
        assert Value(c', rank, to) == Ok(c.vars[to].sealed.value);
      }
    }
  }

  lemma {:induction false} RenamedValue(c: Config, c': Config, rank: nat -> nat, before: Key, after: Key, k: Key)
    requires RowsOk(c.services, c.vars, c.refs) && ValuesOk(c.vars, c.refs) && IsApp(c.services, after.service)
    requires before in c.vars && after !in c.vars && !(before in c.refs && after in c.refs) && before.service == after.service
    requires c'.vars == MoveVariable(c.vars, before, after)
    requires c'.refs == MoveTargets(MoveSource(c.refs, before, after), before, after)
    requires Ranked(c.refs, rank) && Ranked(c'.refs, rank) && k in c.vars && !Adopts(c, before, after)
    ensures Value(c', rank, Moved(k, before, after)) == Value(c, rank, k)
    decreases rank(k.service)
  {
    hide MoveVariable, MoveTargets, MoveSource, ValuesOk, Adopts;
    RenamedStep(c, before, after, k);
    if k == before && after in c.refs {
      AdoptedValue(c, c', rank, before, after);
    } else if k in c.refs {
      if c.refs[k] in c.vars {
        RenamedValue(c, c', rank, before, after, c.refs[k]);
      } else {
        NewNameIsNoTarget(c, before, after, k);
      }
    }
  }

  /** The renamed variable resolves as before under its new name, and every other one, of this or any
      other service, as before under its own. */
  ghost predicate SameValues(c: Config, c': Config, before: Key, after: Key) {
    forall k :: k in c.vars ==> Resolve(c', Moved(k, before, after), {}) == Resolve(c, k, {})
  }

  /** Renaming changes no value, exactly unless the new name still carries the reference row of a
      deleted variable and the renamed one, a reference itself, adopts its value. */
  lemma RenameKeepsValues(c: Config, s: nat, oldName: string, newName: string, c': Config)
    requires VarInv(c) && RenameVariable(c, s, oldName, newName) == Outcome(c', Ok(Unit))
    ensures SameValues(c, c', Key(s, oldName), Key(s, newName)) <==> !Adopts(c, Key(s, oldName), Key(s, newName))
  {
    hide ValuesOk, SizesOk, FieldsOk, BindingsOk, BucketsOk, Ranked, RenameVariable, MoveVariable, MoveTargets, MoveSource, RowsOk;
    hide Resolve;
    RenamedFacts(c, s, oldName, newName, c');
    var before, after := Key(s, oldName), Key(s, newName);
    var rank: nat -> nat :| Ranked(c.refs, rank);
    RenamedRank(c.refs, rank, before, after);
    if Adopts(c, before, after) {
      AdoptedValue(c, c', rank, before, after);
      VisitingIsNotNeeded(c, rank, before, {});
      VisitingIsNotNeeded(c', rank, after, {});
      assert Moved(before, before, after) == after;
    } else {
      forall k | k in c.vars ensures Resolve(c', Moved(k, before, after), {}) == Resolve(c, k, {}) {
        RenamedValue(c, c', rank, before, after, k);
        VisitingIsNotNeeded(c, rank, k, {});
        VisitingIsNotNeeded(c', rank, Moved(k, before, after), {});
      }
    }
  }

  /** The environment of the renamed variable's service only has one key moved. */
  function Rekeyed(env: map<string, string>, oldName: string, newName: string): map<string, string> {
    if oldName in env then (env - {oldName})[newName := env[oldName]] else env
  }

  lemma RenamedNames(vars: map<Key, Variable>, before: Key, after: Key, s: nat)
    requires before in vars && after !in vars && before.service == after.service
    ensures Names(MoveVariable(vars, before, after), s)
            == if s == before.service then (Names(vars, s) - {before.name}) + {after.name} else Names(vars, s)
  {
    hide Names;
    MovedName(vars, before, after, MoveVariable(vars, before, after)[after], s);
  }

  lemma RenameKeepsEnvironments(
    c: Config, s: nat, oldName: string, newName: string, c': Config, other: nat, env: map<string, string>)
    requires VarInv(c) && RenameVariable(c, s, oldName, newName) == Outcome(c', Ok(Unit))
    requires Environment(c, other, env) && !Adopts(c, Key(s, oldName), Key(s, newName))
    ensures Environment(c', other, if other == s then Rekeyed(env, oldName, newName) else env)
  {
    hide VarInv, RenameVariable, Resolve, MoveTargets, MoveSource, Names, MoveVariable;
    RenamedFacts(c, s, oldName, newName, c');
    var before, after := Key(s, oldName), Key(s, newName);
    RenamedNames(c.vars, before, after, other);
    NamesOf(c.vars, other);
    RenameKeepsValues(c, s, oldName, newName, c');
    var env' := if other == s then Rekeyed(env, oldName, newName) else env;
    forall name | name in env' ensures Resolve(c', Key(other, name), {}) == Ok(env'[name]) {
      var k := if Key(other, name) == after then before else Key(other, name);
      assert k in c.vars && Moved(k, before, after) == Key(other, name);
    }
  }

  /******* What an edit means *******/

  ghost predicate KeyPath(refs: map<Key, Key>, p: seq<Key>) {
    |p| >= 2 && forall i :: 0 <= i < |p| - 1 ==> p[i] in refs && refs[p[i]] == p[i + 1]
  }

  /** References lead from variable `j`, in one or more steps, to one of `keys`. */
  ghost predicate LeadsTo(refs: map<Key, Key>, j: Key, keys: set<Key>) {
    exists p :: KeyPath(refs, p) && p[0] == j && p[|p| - 1] in keys
  }

  lemma LeadsToStep(refs: map<Key, Key>, j: Key, keys: set<Key>)
    ensures LeadsTo(refs, j, keys) <==> j in refs && (refs[j] in keys || LeadsTo(refs, refs[j], keys))
  {
    if LeadsTo(refs, j, keys) {
      var p :| KeyPath(refs, p) && p[0] == j && p[|p| - 1] in keys;
      assert p[0] in refs && refs[p[0]] == p[0 + 1];
      if |p| > 2 {
        var q := p[1..];
        forall i | 0 <= i < |q| - 1 ensures q[i] in refs && refs[q[i]] == q[i + 1] {
          assert p[i + 1] in refs && refs[p[i + 1]] == p[i + 1 + 1];
        }
        assert KeyPath(refs, q) && q[0] == refs[j] && q[|q| - 1] in keys;
      }
    }
    if j in refs && refs[j] in keys {
      var p := [j, refs[j]];
      assert KeyPath(refs, p) && p[0] == j && p[|p| - 1] in keys;
    } else if j in refs && LeadsTo(refs, refs[j], keys) {
      var q :| KeyPath(refs, q) && q[0] == refs[j] && q[|q| - 1] in keys;
      var p := [j] + q;
      forall i | 0 <= i < |p| - 1 ensures p[i] in refs && refs[p[i]] == p[i + 1] {
        assert i > 0 ==> q[i - 1] in refs && refs[q[i - 1]] == q[i - 1 + 1];
      }
      assert KeyPath(refs, p) && p[0] == j && p[|p| - 1] in keys;
    }
  }

  lemma {:induction false} NothingLeadsTo(refs: map<Key, Key>, j: Key, keys: set<Key>)
    requires forall k :: k in refs ==> refs[k] !in keys
    ensures !LeadsTo(refs, j, keys)
  {
    forall p | KeyPath(refs, p) ensures p[|p| - 1] !in keys {
      assert p[|p| - 2] in refs && refs[p[|p| - 2]] == p[|p| - 2 + 1];
    }
  }

  /** The references that resolution follows: those of variables marked as references. */
  function Followed(c: Config): map<Key, Key> {
    map j | j in c.refs && j in c.vars && c.vars[j].kind.Reference? :: c.refs[j]
  }

  /** `k` now shows this, so does exactly every variable that resolution leads from to it, however
      indirectly, and all others show what they did. */
  ghost predicate ShowsExactly(c: Config, c': Config, k: Key, shown: Result<string, ResolveError>) {
    forall j :: Resolve(c', j, {}) == if j == k || LeadsTo(Followed(c), j, {k}) then shown else Resolve(c, j, {})
  }

  /** The two states differ at most in the row and the reference of `k`. */
  ghost predicate DifferAt(c: Config, c': Config, k: Key) {
    && (forall j :: j != k ==> (j in c.vars <==> j in c'.vars) && (j in c.refs <==> j in c'.refs))
    && (forall j :: j != k && j in c.vars ==> c'.vars[j] == c.vars[j])
    && (forall j :: j != k && j in c.refs ==> c'.refs[j] == c.refs[j])
  }

  lemma {:induction false} ElsewhereSame(c: Config, c': Config, rank: nat -> nat, rank': nat -> nat, k: Key, j: Key)
    requires DifferAt(c, c', k) && Ranked(c.refs, rank) && Ranked(c'.refs, rank')
    requires j != k && !IsTarget(c.refs, k)
    ensures Value(c', rank', j) == Value(c, rank, j)
    decreases rank(j.service)
  {
    if j in c.refs {
      ElsewhereSame(c, c', rank, rank', k, c.refs[j]);
    }
  }

  /** A deleted variable was nobody's target: every other variable keeps its value. */
  lemma DeleteKeepsOthers(c: Config, s: nat, name: string, c': Config, j: Key)
    requires VarInv(c) && DeleteVariable(c, s, name) == Outcome(c', Ok(Unit))
    ensures j == Key(s, name) ==> Resolve(c', j, {}) == Err(NoRow)
    ensures j != Key(s, name) ==> Resolve(c', j, {}) == Resolve(c, j, {})
  {
    hide RowsOk, ValuesOk, SizesOk, FieldsOk, BindingsOk, BucketsOk, TemplatesOk, Ranked, Managed;
    var k := Key(s, name);
    DeleteVariableInv(c, s, name);
    var rank: nat -> nat :| Ranked(c.refs, rank);
    var rank': nat -> nat :| Ranked(c'.refs, rank');
    if j != k {
      ElsewhereSame(c, c', rank, rank', k, j);
      VisitingIsNotNeeded(c, rank, j, {});
      VisitingIsNotNeeded(c', rank', j, {});
    }
  }

  lemma SetRow(c: Config, s: nat, name: string, value: string, kind: VariableKind, c': Config)
    requires SetVariable(c, s, name, value, kind) == Outcome(c', Ok(Unit))
    ensures var k := Key(s, name);
            && DifferAt(c, c', k) && k in c'.vars && c'.vars[k] == Variable(Sealed(value, ForVariable(k)), kind) && !kind.Reference?
  {
    hide Managed, ValidName, Names;
  }

  lemma {:induction false} ShownSpreads(c: Config, c': Config, rank: nat -> nat, rank': nat -> nat, k: Key, j: Key)
    requires DifferAt(c, c', k) && Readable(c.vars) && Ranked(c.refs, rank) && Ranked(c'.refs, rank')
    requires j != k && Value(c', rank', k).Ok?
    ensures Value(c', rank', j) == if LeadsTo(Followed(c), j, {k}) then Value(c', rank', k) else Value(c, rank, j)
    decreases rank(j.service)
  {
    hide LeadsTo;
    LeadsToStep(Followed(c), j, {k});
    if j in c.refs && c.refs[j] != k {
      ShownSpreads(c, c', rank, rank', k, c.refs[j]);
    }
  }

  lemma ShownExactly(c: Config, c': Config, k: Key)
    requires VarInv(c) && DifferAt(c, c', k) && Acyclic(c'.refs) && Resolve(c', k, {}).Ok?
    ensures ShowsExactly(c, c', k, Resolve(c', k, {}))
  {
    hide ValuesOk, SizesOk, FieldsOk, BindingsOk, BucketsOk, TemplatesOk, Ranked, DifferAt, LeadsTo, Resolve, Followed;
    var rank: nat -> nat :| Ranked(c.refs, rank);
    var rank': nat -> nat :| Ranked(c'.refs, rank');
    VisitingIsNotNeeded(c', rank', k, {});
    forall j ensures Resolve(c', j, {}) == if j == k || LeadsTo(Followed(c), j, {k}) then Resolve(c', k, {}) else Resolve(c, j, {}) {
      if j != k {
        VisitingIsNotNeeded(c, rank, j, {});
        VisitingIsNotNeeded(c', rank', j, {});
        ShownSpreads(c, c', rank, rank', k, j);
      }
    }
  }

  /** A set variable has its new value, and so has exactly what leads to it; if nobody refers to it,
      all others keep theirs. */
  lemma SetMeans(c: Config, s: nat, name: string, value: string, kind: VariableKind, c': Config)
    requires VarInv(c) && SetVariable(c, s, name, value, kind) == Outcome(c', Ok(Unit))
    ensures ShowsExactly(c, c', Key(s, name), Ok(value))
    ensures !IsTarget(c.refs, Key(s, name)) ==> forall j :: j != Key(s, name) ==> Resolve(c', j, {}) == Resolve(c, j, {})
  {
    hide VarInv, IsTarget, SetVariable, DifferAt, LeadsTo, Acyclic;
    var k := Key(s, name);
    SetRow(c, s, name, value, kind, c');
    SetVariableInv(c, s, name, value, kind);
    GraphIsAcyclic(c');
    hide Resolve;
    ShownExactly(c, c', k);
    if !IsTarget(c.refs, k) {
      forall j | j != k ensures Resolve(c', j, {}) == Resolve(c, j, {}) {
        NoTarget(c.refs, k);
        NothingLeadsTo(Followed(c), j, {k});
      }
    }
  }

  lemma NoTarget(refs: map<Key, Key>, k: Key)
    requires !IsTarget(refs, k)
    ensures forall j :: j in refs ==> refs[j] != k
  {
  }

  lemma GraphIsAcyclic(c: Config)
    requires VarInv(c)
    ensures Acyclic(c.refs)
  {
    hide RowsOk, ValuesOk, SizesOk, FieldsOk, BindingsOk, BucketsOk, TemplatesOk, Acyclic;
  }

  lemma {:induction false} UpstreamSame(c: Config, c': Config, rank: nat -> nat, rank': nat -> nat, k: Key, j: Key)
    requires DifferAt(c, c', k) && Ranked(c.refs, rank) && Ranked(c'.refs, rank')
    requires j.service != k.service && !Reaches(c.refs, j.service, k.service)
    ensures Value(c', rank', j) == Value(c, rank, j)
    decreases rank(j.service)
  {
    hide Reaches;
    if j in c.refs {
      var to := c.refs[j];
      assert Edge(c.refs, j.service, to.service);
      if to.service == k.service {
        EdgeReaches(c.refs, j.service, k.service);
      } else if Reaches(c.refs, to.service, k.service) {
        EdgeThenReaches(c.refs, j.service, to.service, k.service);
      }
      UpstreamSame(c, c', rank, rank', k, to);
    }
  }

  lemma ReferenceRow(c: Config, source: nat, name: string, target: nat, targetName: string, c': Config)
    requires SetReference(c, source, name, target, targetName) == Outcome(c', Ok(Unit))
    ensures var k := Key(source, name);
            && DifferAt(c, c', k) && source != target && !Reaches(c.refs, target, source)
            && k in c'.vars && c'.vars[k] == Variable(Sealed("", ForVariable(k)), Reference)
            && k in c'.refs && c'.refs[k] == Key(target, targetName) && Key(target, targetName) in c.vars
  {
    hide Managed, ValidName, Reaches, Names;
  }

  /** A new reference has the value of its target, and so has exactly what leads to the reference;
      no service that the source refers to, nor any other that does not lead to the source, sees a
      change. */
  lemma ReferenceMeans(c: Config, source: nat, name: string, target: nat, targetName: string, c': Config)
    requires VarInv(c) && SetReference(c, source, name, target, targetName) == Outcome(c', Ok(Unit))
    ensures ShowsExactly(c, c', Key(source, name), Resolve(c, Key(target, targetName), {}))
    ensures forall j: Key :: j.service != source && !Reaches(c.refs, j.service, source) ==> Resolve(c', j, {}) == Resolve(c, j, {})
  {
    hide ValuesOk, SizesOk, FieldsOk, BindingsOk, BucketsOk, TemplatesOk, Ranked, Reaches, Resolve, SetReference, DifferAt, RowsOk;
    ReferenceRow(c, source, name, target, targetName, c');
    var k, to := Key(source, name), Key(target, targetName);
    SetReferenceInv(c, source, name, target, targetName);
    var rank: nat -> nat :| Ranked(c.refs, rank);
    var rank': nat -> nat :| Ranked(c'.refs, rank');
    UpstreamSame(c, c', rank, rank', k, to);
    VisitingIsNotNeeded(c, rank, to, {});
    VisitingIsNotNeeded(c', rank', k, {});
    ResolutionIsTotal(c, to);
    ShownExactly(c, c', k);
    forall j: Key | j.service != source && !Reaches(c.refs, j.service, source) ensures Resolve(c', j, {}) == Resolve(c, j, {}) {
      UpstreamSame(c, c', rank, rank', k, j);
      VisitingIsNotNeeded(c, rank, j, {});
      VisitingIsNotNeeded(c', rank', j, {});
    }
  }

  /******* Binding a database *******/

  /** A variable of a database refers to nothing: it resolves to what is stored, also on the way
      from another variable. */
  lemma DatabaseValue(c: Config, k: Key, visiting: set<Key>)
    requires VarInv(c) && IsDatabase(c.services, k.service) && k in c.vars && k !in visiting
    ensures Resolve(c, k, visiting) == Ok(c.vars[k].sealed.value)
  {
    hide SizesOk, Acyclic, FieldsOk, BindingsOk, BucketsOk, TemplatesOk;
    assert HasValue(c.vars, c.refs, k);
  }

  /** The connection that the database's environment gives at the time of binding. */
  ghost predicate Reads(c: Config, database: nat, host: string, connection: string) {
    && database < |c.services|
    && exists env :: Environment(c, database, env) && connection == Connection(c.services[database].kind, host, env)
  }

  /** What a binding refers to is the connection itself, or is not there at all. */
  lemma ConnectionTarget(c: Config, database: nat, host: string, connection: string)
    requires VarInv(c) && IsDatabase(c.services, database) && Reads(c, database, host, connection) && connection != ""
    ensures var k := ConnectionKey(c, database); k in c.vars ==> c.vars[k].sealed.value == connection
  {
    hide Resolve, SizesOk, Acyclic, FieldsOk, BindingsOk, BucketsOk, ValuesOk, RowsOk;
    var env :| Environment(c, database, env) && connection == Connection(c.services[database].kind, host, env);
    var k := ConnectionKey(c, database);
    NamesOf(c.vars, database);
    if k in c.vars && !c.services[database].kind.Postgres? {
      assert k.name in env;
      DatabaseValue(c, k, {});
    }
  }

  /** Binding a database takes three transactions; between any two of them, and at the end, the
      variable resolves to the connection string. */
  lemma BindingIsNeverInterrupted(c: Config, database: nat, target: nat, name: string, host: string, connection: string)
    requires VarInv(c) && Bindable(c, database, target) && Reads(c, database, host, connection) && connection != ""
    requires SetVariable(c, target, name, connection, Secret).reply.Ok?
    ensures var stored := SetVariable(c, target, name, connection, Secret).config;
            var linked := LinkDatabase(stored, database, target, name);
            && Resolve(stored, Key(target, name), {}) == Ok(connection)
            && Resolve(linked, Key(target, name), {}) == Ok(connection)
            && Resolve(MarkReference(linked, target, name), Key(target, name), {}) == Ok(connection)
  {
    hide VarInv, Managed, ValidName, Names, ConnectionName;
    var stored := SetVariable(c, target, name, connection, Secret).config;
    var marked := MarkReference(LinkDatabase(stored, database, target, name), target, name);
    var k, to := Key(target, name), ConnectionKey(c, database);
    SetVariableInv(c, target, name, connection, Secret);
    StoredIsLinkable(c, database, target, name, connection);
    LinkDatabaseInv(stored, database, target, name);
    MarkReferenceInv(LinkDatabase(stored, database, target, name), target, name);
    ConnectionTarget(c, database, host, connection);
    assert marked.vars[k] == Variable(Sealed(connection, ForVariable(k)), Reference) && marked.refs[k] == to;
    assert to in marked.vars <==> to in c.vars;
    if to in marked.vars {
      DatabaseValue(marked, to, {k});
    }
  }

  /******* Which variables stop resolving *******/

  /** The two states differ at most in the rows and references of `keys`, which are applications'
      variables and no longer resolve in the second one. */
  ghost predicate Lost(c: Config, c': Config, keys: set<Key>) {
    && c'.services == c.services
    && (forall j :: j !in keys ==> (j in c.vars <==> j in c'.vars) && (j in c.refs <==> j in c'.refs))
    && (forall j :: j !in keys && j in c.vars ==> c'.vars[j] == c.vars[j])
    && (forall j :: j !in keys && j in c.refs ==> c'.refs[j] == c.refs[j])
    && (forall j :: j in keys ==> IsApp(c.services, j.service))
    && (forall j :: j in keys && j in c'.vars ==>
                      && c'.vars[j].kind.Reference? && c'.vars[j].sealed.value == "" && c'.vars[j].sealed.purpose == ForVariable(j)
                      && (j in c'.refs ==> c'.refs[j] !in c'.vars))
  }

  lemma {:induction false} LostSpreads(c: Config, c': Config, rank: nat -> nat, rank': nat -> nat, keys: set<Key>, j: Key)
    requires RowsOk(c.services, c.vars, c.refs) && Lost(c, c', keys)
    requires Ranked(c.refs, rank) && Ranked(c'.refs, rank') && j !in keys
    ensures LeadsTo(c.refs, j, keys) ==> Value(c', rank', j) == Err(NoRow) && IsApp(c.services, j.service)
    ensures !LeadsTo(c.refs, j, keys) ==> Value(c', rank', j) == Value(c, rank, j)
    decreases rank(j.service)
  {
    hide LeadsTo;
    LeadsToStep(c.refs, j, keys);
    if j in c.refs {
      var to := c.refs[j];
      if to in keys {
        assert Value(c', rank', to) == Err(NoRow) by { KeyIsLost(c, c', rank', keys, to); }
      } else {
        LostSpreads(c, c', rank, rank', keys, to);
      }
    }
  }

  lemma KeyIsLost(c: Config, c': Config, rank': nat -> nat, keys: set<Key>, k: Key)
    requires Lost(c, c', keys) && Ranked(c'.refs, rank') && k in keys
    ensures Value(c', rank', k) == Err(NoRow)
  {
  }

  /** What losing some variables does: they and exactly those that refer to them, however
      indirectly, stop resolving, and every other variable keeps its value. */
  ghost predicate LosesExactly(c: Config, c': Config, keys: set<Key>) {
    forall j :: j in c'.vars ==>
                  Resolve(c', j, {}) == if j in keys || LeadsTo(c.refs, j, keys) then Err(NoRow) else Resolve(c, j, {})
  }

  lemma LostExactly(c: Config, c': Config, keys: set<Key>)
    requires VarInv(c) && Lost(c, c', keys) && Acyclic(c'.refs)
    ensures LosesExactly(c, c', keys)
  {
    hide ValuesOk, SizesOk, FieldsOk, BindingsOk, BucketsOk, TemplatesOk, Ranked, Lost, LeadsTo, Resolve, RowsOk;
    var rank: nat -> nat :| Ranked(c.refs, rank);
    var rank': nat -> nat :| Ranked(c'.refs, rank');
    forall j | j in c'.vars
      ensures Resolve(c', j, {}) == if j in keys || LeadsTo(c.refs, j, keys) then Err(NoRow) else Resolve(c, j, {})
    {
      VisitingIsNotNeeded(c', rank', j, {});
      VisitingIsNotNeeded(c, rank, j, {});
      if j in keys {
        KeyIsLost(c, c', rank', keys, j);
      } else {
        LostSpreads(c, c', rank, rank', keys, j);
      }
    }
  }

  ghost predicate AllResolve(c: Config) {
    forall k :: k in c.vars ==> Resolve(c, k, {}).Ok?
  }

  /** With a value at hand for every variable and no cycle, everything resolves. */
  lemma ValuesResolve(c: Config)
    requires Acyclic(c.refs) && Readable(c.vars) && ValuesOk(c.vars, c.refs)
    ensures AllResolve(c)
  {
    hide ValuesOk, Ranked, Readable, Resolve;
    var rank: nat -> nat :| Ranked(c.refs, rank);
    forall k | k in c.vars ensures Resolve(c, k, {}).Ok? {
      VisitingIsNotNeeded(c, rank, k, {});
      ValueExists(c, rank, k);
    }
  }

  /******* Disconnecting a bucket *******/

  /** Disconnecting a bucket stops exactly the variables that refer to its six, however indirectly;
      so everything still resolves exactly when nothing refers to one of them. */
  lemma UnbindBucketExactly(c: Config, b: nat, s: nat)
    requires VarInv(c) && Binding(b, s) in c.bindings
    ensures LosesExactly(c, UnbindBucket(c, b, s).config, FieldKeys(s, c.bindings[Binding(b, s)]))
    ensures AllResolve(UnbindBucket(c, b, s).config) <==> Unreferenced(c, s, c.bindings[Binding(b, s)])
  {
    hide VarInv, LeadsTo, Resolve, FieldKeys, RowsOk;
    var keys, after := FieldKeys(s, c.bindings[Binding(b, s)]), UnbindBucket(c, b, s).config;
    UnboundIsLost(c, b, s);
    LostExactly(c, after, keys);
    if Unreferenced(c, s, c.bindings[Binding(b, s)]) {
      forall j | j in after.vars ensures Resolve(after, j, {}).Ok? {
        NothingLeadsTo(c.refs, j, keys);
        ResolutionIsTotal(c, j);
      }
    } else {
      var j :| j in c.refs && c.refs[j] in keys;
      LeadsToStep(c.refs, j, keys);
      ReferrerStays(c, b, s, j);
    }
  }

  lemma UnboundIsLost(c: Config, b: nat, s: nat)
    requires VarInv(c) && Binding(b, s) in c.bindings
    ensures Lost(c, UnbindBucket(c, b, s).config, FieldKeys(s, c.bindings[Binding(b, s)]))
    ensures Acyclic(UnbindBucket(c, b, s).config.refs)
  {
    hide RowsOk, ValuesOk, SizesOk, Acyclic, FieldsOk, BucketsOk, TemplatesOk, FieldKeys;
    var prefix := c.bindings[Binding(b, s)];
    forall k | k in FieldKeys(s, prefix) ensures IsApp(c.services, k.service) {
      KeyService(s, prefix, k);
    }
  }

  lemma ReferrerStays(c: Config, b: nat, s: nat, j: Key)
    requires VarInv(c) && Binding(b, s) in c.bindings && j in c.refs && c.refs[j] in FieldKeys(s, c.bindings[Binding(b, s)])
    ensures j in UnbindBucket(c, b, s).config.vars
  {
    hide ValuesOk, SizesOk, Acyclic, FieldsOk, BucketsOk, TemplatesOk, FieldKeys;
    BoundKeys(c, Binding(b, s));
    KeyService(s, c.bindings[Binding(b, s)], c.refs[j]);
  }

  /******* Edits between the three transactions of a binding *******/

  /** Whatever others did before it, the second transaction leaves every variable with a value
      unless it redirects a reference that lives from its target to a connection that is not there;
      then that variable and exactly those that refer to it stop resolving. */
  lemma LinkDatabaseExactly(c: Config, database: nat, target: nat, name: string)
    requires VarInv(c) && Bindable(c, database, target)
    ensures AllResolve(LinkDatabase(c, database, target, name)) <==> !Starved(c, database, Key(target, name))
    ensures Starved(c, database, Key(target, name)) ==>
              LosesExactly(c, LinkDatabase(c, database, target, name), {Key(target, name)})
  {
    hide SizesOk, FieldsOk, BucketsOk, TemplatesOk, BindingsOk, ConnectionName, LeadsTo, Resolve, Acyclic;
    var k, after := Key(target, name), LinkDatabase(c, database, target, name);
    LinkedGraph(c, database, target, name);
    if Starved(c, database, k) {
      LostExactly(c, after, {k});
      assert k in {k} && k in after.vars;
    } else {
      LinkDatabaseInv(c, database, target, name);
      ValuesResolve(after);
    }
  }

  /** The variable has no value of its own and refers to nothing that is there. */
  predicate Empty(c: Config, k: Key) {
    k in c.vars && c.vars[k].sealed.value == "" && !(k in c.refs && c.refs[k] in c.vars)
  }

  /** Whatever others did before it, the third transaction leaves every variable with a value unless
      the variable is empty by then; then it and exactly those that refer to it stop resolving. */
  lemma MarkReferenceExactly(c: Config, target: nat, name: string)
    requires VarInv(c) && IsApp(c.services, target)
    ensures AllResolve(MarkReference(c, target, name)) <==> !Empty(c, Key(target, name))
    ensures Empty(c, Key(target, name)) ==> LosesExactly(c, MarkReference(c, target, name), {Key(target, name)})
  {
    hide SizesOk, FieldsOk, BucketsOk, TemplatesOk, BindingsOk, LeadsTo, Resolve, Acyclic;
    var k, after := Key(target, name), MarkReference(c, target, name);
    if Empty(c, k) {
      MarkedIsLost(c, target, name);
      LostExactly(c, after, {k});
      assert k in {k} && k in after.vars;
    } else {
      forall j | j in after.vars ensures HasValue(after.vars, after.refs, j) {
        assert HasValue(c.vars, c.refs, j);
      }
      ValuesResolve(after);
    }
  }

  lemma MarkedIsLost(c: Config, target: nat, name: string)
    requires RowsOk(c.services, c.vars, c.refs) && Empty(c, Key(target, name)) && IsApp(c.services, target)
    ensures Lost(c, MarkReference(c, target, name), {Key(target, name)})
  {
  }

  /** The application sees the bucket's own field. */
  predicate Mirrors(c: Config, x: Binding, field: Field)
    requires x in c.bindings
  {
    && x.bucket < |c.buckets|
    && Resolve(c, FieldKey(x.service, c.bindings[x], field), {})
       == Ok(FieldValue(c.buckets[x.bucket], c.buckets[x.bucket].sealed.value, field))
  }

  lemma BindingMirrors(c: Config, x: Binding, field: Field)
    requires VarInv(c) && x in c.bindings
    ensures Mirrors(c, x, field)
  {
    hide VarInv, Resolve, FieldKey, FieldValue;
    BindingIsCurrent(c, x, field);
  }

  lemma BindingRow(c: Config, x: Binding, field: Field)
    requires VarInv(c) && x in c.bindings
    ensures x.bucket < |c.buckets|
    ensures FieldHolds(c.vars, x.service, c.bindings[x], c.buckets[x.bucket], field)
    ensures var k := FieldKey(x.service, c.bindings[x], field);
            && k in c.vars && c.vars[k].sealed.purpose == ForVariable(k) && c.vars[k].kind.Secret?
            && (k in c.refs ==> IsDatabase(c.services, c.refs[k].service))
  {
    hide ValuesOk, SizesOk, Acyclic, FieldValue, BucketsOk, TemplatesOk, FieldKey;
  }

  /** A reference to `to`, if there is one, with this own value shows that value. */
  predicate ShownAs(c: Config, to: Option<Key>, own: string) {
    if to.Some? && to.value in c.vars then c.vars[to.value].sealed.value == own else own != ""
  }

  function RowOf(refs: map<Key, Key>, k: Key): Option<Key> {
    if k in refs then Some(refs[k]) else None
  }

  /** The variable that is marked is not the binding's, or shows the same as a reference. */
  predicate StillShown(c: Config, target: nat, name: string, x: Binding, field: Field)
    requires x in c.bindings
  {
    var k := FieldKey(x.service, c.bindings[x], field);
    k == Key(target, name) ==> k in c.vars && ShownAs(c, RowOf(c.refs, k), c.vars[k].sealed.value)
  }

  /** The reference row changes nothing of what a bucket's variable shows.  Marking the variable
      keeps it exactly if its row leads to the same value, or if it has no row that leads anywhere
      and the bucket's field is not empty. */
  lemma BoundVariableExactly(c: Config, database: nat, target: nat, name: string, x: Binding, field: Field)
    requires VarInv(c) && Bindable(c, database, target) && x in c.bindings
    ensures Mirrors(LinkDatabase(c, database, target, name), x, field)
    ensures Mirrors(MarkReference(c, target, name), x, field) <==> StillShown(c, target, name, x, field)
  {
    hide VarInv, FieldKey, FieldValue, ConnectionName, Resolve, ShownAs;
    BindingRow(c, x, field);
    BoundSteps(c, database, target, name, FieldKey(x.service, c.bindings[x], field));
  }

  lemma BoundSteps(c: Config, database: nat, target: nat, name: string, k: Key)
    requires VarInv(c) && Bindable(c, database, target)
    requires k in c.vars && c.vars[k].kind.Secret? && c.vars[k].sealed.purpose == ForVariable(k)
    requires k in c.refs ==> IsDatabase(c.services, c.refs[k].service)
    ensures var own := c.vars[k].sealed.value;
            && Resolve(LinkDatabase(c, database, target, name), k, {}) == Ok(own)
            && (Resolve(MarkReference(c, target, name), k, {}) == Ok(own)
                <==> (k == Key(target, name) ==> ShownAs(c, RowOf(c.refs, k), own)))
  {
    hide VarInv, ConnectionName;
    var marked := MarkReference(c, target, name);
    if k == Key(target, name) && k in c.refs && c.refs[k] in c.vars {
      DatabaseRow(c, c.refs[k]);
      assert Resolve(marked, c.refs[k], {k}) == Ok(c.vars[c.refs[k]].sealed.value);
    }
  }

  lemma DatabaseRow(c: Config, k: Key)
    requires VarInv(c) && IsDatabase(c.services, k.service) && k in c.vars
    ensures k !in c.refs && c.vars[k].sealed.purpose == ForVariable(k)
    ensures c.vars[k].kind.Reference? ==> c.vars[k].sealed.value != ""
  {
    hide SizesOk, Acyclic, FieldsOk, BindingsOk, BucketsOk, TemplatesOk;
    assert HasValue(c.vars, c.refs, k);
  }
}
