/** Whole runs of edits to variables, references and bindings. */
module VariableRuns {
  import opened Common
  import opened VariableModel
  import opened ReferenceGraph
  import opened VariableInvariant
  import opened BucketBindings
  import opened VariableResolution

  datatype Edit =
    | NewApp(place: Place)
    | NewDatabase(place: Place, template: Kind, host: string, password: string, root: string)
    | NewBucket(bucket: Bucket, credentials: Credentials, valid: bool)
    | Set(s: nat, name: string, value: string, kind: VariableKind)
    | Refer(s: nat, name: string, target: nat, targetName: string)
    | Rename(s: nat, oldName: string, newName: string)
    | Delete(s: nat, name: string)
    | Link(database: nat, s: nat, name: string)
    | Mark(s: nat, name: string)
    | Connect(b: nat, s: nat, prefix: string)
    | Rotate(b: nat, credentials: Credentials, valid: bool)
    | Disconnect(b: nat, s: nat)

  ghost function Edited(c: Config, edit: Edit): Config {
    match edit
    case NewApp(place) => AddApp(c, place).config
    case NewDatabase(place, kind, host, password, root) => AddDatabase(c, place, kind, host, password, root).config
    case NewBucket(bucket, credentials, valid) => CreateBucket(c, bucket, credentials, valid).config
    case Set(s, name, value, kind) => SetVariable(c, s, name, value, kind).config
    case Refer(s, name, target, targetName) => SetReference(c, s, name, target, targetName).config
    case Rename(s, oldName, newName) => RenameVariable(c, s, oldName, newName).config
    case Delete(s, name) => DeleteVariable(c, s, name).config
    case Link(database, s, name) => if database < |c.services| then LinkDatabase(c, database, s, name) else c
    case Mark(s, name) => MarkReference(c, s, name)
    case Connect(b, s, prefix) => BindBucket(c, b, s, prefix).config
    case Rotate(b, credentials, valid) => RotateBucketCredentials(c, b, credentials, valid).config
    case Disconnect(b, s) => UnbindBucket(c, b, s).config
  }

  /** Nobody disconnects a bucket whose variables are referred to, and nobody edits a variable
      between the transactions of its binding so that the next one does harm.  Other edits, and a
      crash, may fall between them. */
  predicate Considerate(c: Config, edit: Edit) {
    match edit
    case Disconnect(b, s) => Binding(b, s) in c.bindings ==> Unreferenced(c, s, c.bindings[Binding(b, s)])
    case Link(database, s, name) => Bindable(c, database, s) && !Starved(c, database, Key(s, name))
    case Mark(s, name) => Markable(c, s, name)
    case _ => true
  }

  lemma EditKeepsInvariant(c: Config, edit: Edit)
    requires VarInv(c) && Considerate(c, edit)
    ensures VarInv(Edited(c, edit))
  {
    hide VarInv, Unreferenced, Starved, Markable;
    match edit
    case NewApp(place) => AddAppInv(c, place);
    case NewDatabase(place, kind, host, password, root) => AddDatabaseInv(c, place, kind, host, password, root);
    case NewBucket(bucket, credentials, valid) => CreateBucketInv(c, bucket, credentials, valid);
    case Set(s, name, value, kind) => SetVariableInv(c, s, name, value, kind);
    case Refer(s, name, target, targetName) => SetReferenceInv(c, s, name, target, targetName);
    case Rename(s, oldName, newName) => RenameVariableInv(c, s, oldName, newName);
    case Delete(s, name) => DeleteVariableInv(c, s, name);
    case Link(database, s, name) => LinkDatabaseInv(c, database, s, name);
    case Mark(s, name) => MarkReferenceInv(c, s, name);
    case Connect(b, s, prefix) => BindBucketInv(c, b, s, prefix);
    case Rotate(b, credentials, valid) => RotateBucketCredentialsInv(c, b, credentials, valid);
    case Disconnect(b, s) =>
      if Binding(b, s) in c.bindings {
        UnreferencedExactly(c, b, s);
      }
  }

  ghost function AfterEdits(c: Config, edits: seq<Edit>): Config
    decreases |edits|
  {
    if |edits| == 0 then c else AfterEdits(Edited(c, edits[0]), edits[1..])
  }

  ghost predicate AllConsiderate(c: Config, edits: seq<Edit>)
    decreases |edits|
  {
    |edits| > 0 ==> Considerate(c, edits[0]) && AllConsiderate(Edited(c, edits[0]), edits[1..])
  }

  lemma {:induction false} EditsKeepInvariant(c: Config, edits: seq<Edit>)
    requires VarInv(c) && AllConsiderate(c, edits)
    ensures VarInv(AfterEdits(c, edits))
    decreases |edits|
  {
    hide VarInv, Edited;
    if |edits| > 0 {
      EditKeepsInvariant(c, edits[0]);
      EditsKeepInvariant(Edited(c, edits[0]), edits[1..]);
    }
  }

  lemma {:induction false} EditsOneAfterTheOther(c: Config, edits: seq<Edit>, more: seq<Edit>)
    ensures AfterEdits(c, edits + more) == AfterEdits(AfterEdits(c, edits), more)
    decreases |edits|
  {
    hide Edited;
    if |edits| == 0 {
      assert edits + more == more;
    } else {
      assert (edits + more)[1..] == edits[1..] + more;
      EditsOneAfterTheOther(Edited(c, edits[0]), edits[1..], more);
    }
  }

  /** Services are only added. */
  lemma {:induction false} EditsKeepServices(c: Config, edits: seq<Edit>)
    ensures c.services <= AfterEdits(c, edits).services
    decreases |edits|
  {
    hide Edited;
    if |edits| > 0 {
      EditKeepsServices(c, edits[0]);
      EditsKeepServices(Edited(c, edits[0]), edits[1..]);
    }
  }

  predicate OfBucket(edit: Edit) {
    edit.NewBucket? || edit.Connect? || edit.Rotate? || edit.Disconnect?
  }

  lemma EditKeepsServices(c: Config, edit: Edit)
    ensures c.services <= Edited(c, edit).services
  {
    hide Edited;
    if OfBucket(edit) {
      BucketEditKeepsServices(c, edit);
    } else {
      OtherEditKeepsServices(c, edit);
    }
  }

  lemma BucketEditKeepsServices(c: Config, edit: Edit)
    requires OfBucket(edit)
    ensures c.services == Edited(c, edit).services
  {
    hide Managed, Names, FieldKeys, PrefixUsed, WriteFields, Rewrite, ValidPrefix;
  }

  lemma OtherEditKeepsServices(c: Config, edit: Edit)
    requires !OfBucket(edit)
    ensures c.services <= Edited(c, edit).services
  {
    hide Managed, Names, ValidName, Reaches, SealAll, TemplateVariables, MoveVariable, MoveSource, MoveTargets, IsTarget;
  }

  /** The edits of a binding that ends after this many commits, with what others do in between. */
  function BindingEdits(
    database: nat, target: nat, name: string, connection: string, first: seq<Edit>, second: seq<Edit>, commits: nat): seq<Edit>
  {
    if commits == 0 then []
    else if commits == 1 then [Set(target, name, connection, Secret)]
    else if commits == 2 then [Set(target, name, connection, Secret)] + first + [Link(database, target, name)]
    else [Set(target, name, connection, Secret)] + first + [Link(database, target, name)] + second + [Mark(target, name)]
  }

  /** A binding that nobody comes in between is considerate, wherever a crash ends it. */
  lemma BindingIsConsiderate(c: Config, database: nat, target: nat, name: string, connection: string, commits: nat)
    requires Bindable(c, database, target) && connection != ""
    requires SetVariable(c, target, name, connection, Secret).reply.Ok?
    ensures AllConsiderate(c, BindingEdits(database, target, name, connection, [], [], commits))
  {
    hide SetVariable, LinkDatabase, Bindable, Starved, Markable;
    var stored := SetVariable(c, target, name, connection, Secret).config;
    StoredIsLinkable(c, database, target, name, connection);
    var put, link, mark := Set(target, name, connection, Secret), Link(database, target, name), Mark(target, name);
    BindableIsThere(stored, database, target);
    assert BindingEdits(database, target, name, connection, [], [], 2) == [put, link];
    assert BindingEdits(database, target, name, connection, [], [], 3) == [put, link, mark];
    var linked := LinkDatabase(stored, database, target, name);
    assert AllConsiderate(linked, [mark]);
    assert [link][1..] == [] && [link, mark][1..] == [mark];
    assert [mark][1..] == [] && Edited(stored, link) == linked && Considerate(stored, link);
    assert AllConsiderate(stored, [link]);
    assert AllConsiderate(Edited(stored, link), [link, mark][1..]);
    assert AllConsiderate(stored, [link, mark]);
    assert [put][1..] == [] && [put, link][1..] == [link] && [put, link, mark][1..] == [link, mark];
  }

  lemma BindableIsThere(c: Config, database: nat, target: nat)
    requires Bindable(c, database, target)
    ensures database < |c.services|
  {
  }

  predicate InOnePlace(c: Config, s: nat, t: nat) {
    s < |c.services| && t < |c.services| && c.services[s].place == c.services[t].place
  }

  predicate BoundInPlace(c: Config, x: Binding) {
    x.service < |c.services| && x.bucket < |c.buckets| && c.services[x.service].place == c.buckets[x.bucket].place
  }

  /** In every reachable state, those between the transactions of a binding included: only
      applications refer, references and bindings stay within a project and environment, no service
      refers to itself, however indirectly, resolution never meets a cycle, every variable has a
      value, no service has more than 64 variables, and every binding's variables equal the bucket's
      current fields. */
  lemma ReachableStates(edits: seq<Edit>)
    requires AllConsiderate(Nothing(), edits)
    ensures var c := AfterEdits(Nothing(), edits);
            && (forall k :: k in c.refs ==> IsApp(c.services, k.service) && InOnePlace(c, k.service, c.refs[k].service))
            && (forall x :: x in c.bindings ==> BoundInPlace(c, x))
            && (forall s: nat :: !Reaches(c.refs, s, s) && |Names(c.vars, s)| <= MAX_VARIABLES)
            && (forall k :: Resolve(c, k, {}) != Err(Cycle) && (k in c.vars ==> Resolve(c, k, {}).Ok?))
            && (forall x, field :: x in c.bindings ==> Mirrors(c, x, field))
  {
    hide VarInv, AfterEdits, AllConsiderate, Resolve, Reaches, Names, Mirrors;
    NothingInv();
    EditsKeepInvariant(Nothing(), edits);
    var c := AfterEdits(Nothing(), edits);
    OnlyApplicationsRefer(c);
    BindingsInPlace(c);
    forall s: nat ensures !Reaches(c.refs, s, s) && |Names(c.vars, s)| <= MAX_VARIABLES {
      GraphAndSize(c, s);
    }
    forall k ensures Resolve(c, k, {}) != Err(Cycle) && (k in c.vars ==> Resolve(c, k, {}).Ok?) {
      ResolutionIsTotal(c, k);
    }
    forall x, field | x in c.bindings ensures Mirrors(c, x, field) {
      BindingMirrors(c, x, field);
    }
  }

  lemma OnlyApplicationsRefer(c: Config)
    requires VarInv(c)
    ensures forall k :: k in c.refs ==> IsApp(c.services, k.service) && InOnePlace(c, k.service, c.refs[k].service)
  {
    hide ValuesOk, FieldsOk, BindingsOk, BucketsOk, TemplatesOk, Acyclic, SizesOk;
  }

  lemma BindingsInPlace(c: Config)
    requires VarInv(c)
    ensures forall x :: x in c.bindings ==> BoundInPlace(c, x)
  {
    hide RowsOk, ValuesOk, FieldsOk, BucketsOk, TemplatesOk, Acyclic, SizesOk;
  }

  /** Over every run from nothing: whatever a service sees was stored for a service of its own project
      and environment. */
  lemma SecretsStayInPlace(edits: seq<Edit>, s: nat, env: map<string, string>, name: string) returns (o: Key)
    requires AllConsiderate(Nothing(), edits)
    requires Environment(AfterEdits(Nothing(), edits), s, env) && name in env
    ensures var c := AfterEdits(Nothing(), edits); StoredNearby(c, Key(s, name), o) && env[name] == c.vars[o].sealed.value
  {
    hide VarInv, AfterEdits, AllConsiderate, StoredNearby, Environment;
    NothingInv();
    EditsKeepInvariant(Nothing(), edits);
    o := NothingCrossesPlaces(AfterEdits(Nothing(), edits), s, env, name);
  }

  lemma GraphAndSize(c: Config, s: nat)
    requires VarInv(c)
    ensures !Reaches(c.refs, s, s) && |Names(c.vars, s)| <= MAX_VARIABLES
  {
    hide RowsOk, ValuesOk, FieldsOk, BindingsOk, BucketsOk, TemplatesOk, Reaches, Acyclic;
    AcyclicHasNoCycle(c.refs, s);
  }
}
