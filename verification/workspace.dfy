/** The workspace side of the store (internal/deployment/workspace.go, buckets.go and the binding
    of databases in operations.go): methods that update the tables, statement by statement. */
module Workspaces {
  import opened Common
  import opened VariableModel
  import opened ReferenceGraph
  import opened VariableResolution
  import opened VariableRuns
  import StoreModel

  /** The set of keys on the way, shared by the nested calls of one resolution. */
  class Visiting {
    var keys: set<Key>

    constructor ()
      ensures keys == {}
    {
      keys := {};
    }
  }

  class Workspace {
    var services: seq<Owner>
    var vars: map<Key, Variable>
    var refs: map<Key, Key>
    var buckets: seq<Bucket>
    var bindings: map<Binding, string>

    function Model(): Config
      reads this
    {
      Config(services, vars, refs, buckets, bindings)
    }

    constructor ()
      ensures Model() == Nothing()
    {
      services, vars, refs, buckets, bindings := [], map[], map[], [], map[];
    }

    method AddApp(place: Place)
      modifies this
      ensures Model() == VariableModel.AddApp(old(Model()), place).config
    {
      services := services + [Owner(place, StoreModel.Http)];
    }

    method AddDatabase(place: Place, kind: Kind, host: string, password: string, root: string) returns (reply: Result<Unit, Failure>)
      modifies this
      ensures Outcome(Model(), reply) == VariableModel.AddDatabase(old(Model()), place, kind, host, password, root)
    {
      hide TemplateVariables, SealAll;
      if !StoreModel.IsData(kind) {
        return Err(Invalid);
      }
      vars := vars + SealAll(|services|, TemplateVariables(kind, host, password, root));
      services := services + [Owner(place, kind)];
      return Ok(Unit);
    }

    /******* Resolution *******/

    /** Whatever happens on the way, the key is taken out of `visiting` again. */
    method ResolveVariable(k: Key, visiting: Visiting) returns (r: Result<string, ResolveError>)
      modifies visiting
      ensures visiting.keys == old(visiting.keys) && Model() == old(Model())
      ensures r == Resolve(Model(), k, visiting.keys)
      decreases vars.Keys - visiting.keys
    {
      if k in visiting.keys {
        return Err(Cycle);
      }
      if k !in vars {
        return Err(NoRow);
      }
      visiting.keys := visiting.keys + {k};
      var fallback := Open(vars[k].sealed, ForVariable(k));
      if fallback.None? {
        r := Err(Unreadable);
      } else if !vars[k].kind.Reference? {
        r := Ok(fallback.value);
      } else if k !in refs {
        r := if fallback.value != "" then Ok(fallback.value) else Err(NoRow);
      } else {
        r := ResolveVariable(refs[k], visiting);
        if r == Err(NoRow) && fallback.value != "" {
          r := Ok(fallback.value);
        }
      }
      visiting.keys := visiting.keys - {k};
      assert visiting.keys == old(visiting.keys);
    }

    method ResolveAfresh(k: Key) returns (r: Result<string, ResolveError>)
      ensures r == Resolve(Model(), k, {})
    {
      hide Resolve;
      var visiting := new Visiting();
      r := ResolveVariable(k, visiting);
    }

    /** The whole environment of a service, or the error of one of its variables. */
    method Variables(s: nat) returns (r: Result<map<string, string>, ResolveError>)
      ensures r.Ok? ==> Environment(Model(), s, r.value)
      ensures r.Err? ==> exists name :: name in Names(vars, s) && Resolve(Model(), Key(s, name), {}) == Err(r.error)
    {
      hide Resolve, Names;
      var values: map<string, string> := map[];
      var rest := Names(vars, s);
      while rest != {}
        invariant values.Keys !! rest && values.Keys + rest == Names(vars, s)
        invariant forall name :: name in values ==> Resolve(Model(), Key(s, name), {}) == Ok(values[name])
        decreases |rest|
      {
        var name :| name in rest;
        var value := ResolveAfresh(Key(s, name));
        if value.Err? {
          return Err(value.error);
        }
        values := values[name := value.value];
        rest := rest - {name};
      }
      return Ok(values);
    }

    /******* Variables *******/

    method SetVariable(s: nat, name: string, value: string, kind: VariableKind) returns (reply: Result<Unit, Failure>)
      modifies this
      ensures Outcome(Model(), reply) == VariableModel.SetVariable(old(Model()), s, name, value, kind)
    {
      hide ValidName, Managed, Names;
      if s >= |services| {
        return Err(NotFound);
      }
      if StoreModel.IsData(services[s].kind) {
        return Err(TemplateManaged);
      }
      if !ValidName(name) || |value| > 8192 || kind.Reference? {
        return Err(Invalid);
      }
      if Managed(bindings, s, name) {
        return Err(BucketManaged);
      }
      if |Names(vars, s) - {name}| >= MAX_VARIABLES {
        return Err(Full);
      }
      var k := Key(s, name);
      vars := vars[k := Variable(Sealed(value, ForVariable(k)), kind)];
      refs := refs - {k};
      return Ok(Unit);
    }

    function Targets(sources: set<nat>): set<nat>
      reads this
    {
      set k | k in refs && k.service in sources :: refs[k].service
    }

    function AllTargets(): set<nat>
      reads this
    {
      set k | k in refs :: refs[k].service
    }

    /** The recursive query: everything reached from a service by one or more references. */
    method Reachable(from: nat) returns (reached: set<nat>)
      ensures forall b: nat :: b in reached <==> Reaches(refs, from, b)
    {
      hide Reaches;
      reached := Targets({from});
      var working := reached;
      forall b | b in reached ensures Reaches(refs, from, b) {
        EdgeReaches(refs, from, b);
      }
      while working != {}
        invariant working <= reached <= AllTargets() && Targets({from}) <= reached
        invariant forall b :: b in reached ==> Reaches(refs, from, b)
        invariant Targets(reached - working) <= reached
        decreases AllTargets() - reached, |working|
      {
        var found := Targets(working) - reached;
        forall b | b in found ensures Reaches(refs, from, b) {
          var k :| k in refs && k.service in working && refs[k].service == b;
          ReachesThenEdge(refs, from, k.service, b);
        }
        if found != {} {
          assert exists b :: b in found && b in AllTargets() - reached;
        }
        assert Targets((reached + found) - found) <= Targets(reached - working) + Targets(working);
        reached, working := reached + found, found;
      }
      assert reached - working == reached;
      forall b: nat | Reaches(refs, from, b) ensures b in reached {
        ClosedUnderReaches(from, reached, b);
      }
    }

    lemma ClosedUnderReaches(from: nat, reached: set<nat>, b: nat)
      requires Targets({from}) <= reached && Targets(reached) <= reached && Reaches(refs, from, b)
      ensures b in reached
    {
      var p :| Between(refs, p, from, b);
      AlongPath(from, reached, p, |p| - 1);
    }

    lemma {:induction false} AlongPath(from: nat, reached: set<nat>, p: seq<nat>, i: nat)
      requires Targets({from}) <= reached && Targets(reached) <= reached
      requires Path(refs, p) && p[0] == from && 1 <= i < |p|
      ensures p[i] in reached
    {
      assert Edge(refs, p[i - 1], p[i - 1 + 1]);
      var k :| k in refs && k.service == p[i - 1] && refs[k].service == p[i];
      if i == 1 {
        assert p[i] in Targets({from});
      } else {
        AlongPath(from, reached, p, i - 1);
        assert p[i] in Targets(reached);
      }
    }

    method SetReference(source: nat, name: string, target: nat, targetName: string) returns (reply: Result<Unit, Failure>)
      modifies this
      ensures Outcome(Model(), reply) == VariableModel.SetReference(old(Model()), source, name, target, targetName)
    {
      hide ValidName, Managed, Names, Reaches;
      if !ValidName(name) || !ValidName(targetName) || source == target {
        return Err(Invalid);
      }
      if Managed(bindings, source, name) {
        return Err(BucketManaged);
      }
      if !IsApp(services, source) || target >= |services| || services[source].place != services[target].place {
        return Err(WrongPlace);
      }
      if Key(target, targetName) !in vars {
        return Err(NotFound);
      }
      var reached := Reachable(target);
      if source in reached {
        return Err(Cyclic);
      }
      if |Names(vars, source) - {name}| >= MAX_VARIABLES {
        return Err(Full);
      }
      var k := Key(source, name);
      vars := vars[k := Variable(Sealed("", ForVariable(k)), Reference)];
      refs := refs[k := Key(target, targetName)];
      return Ok(Unit);
    }

    method RenameVariable(s: nat, oldName: string, newName: string) returns (reply: Result<Unit, Failure>)
      modifies this
      ensures Outcome(Model(), reply) == VariableModel.RenameVariable(old(Model()), s, oldName, newName)
    {
      hide ValidName, Managed;
      var before, after := Key(s, oldName), Key(s, newName);
      if !ValidName(oldName) || !ValidName(newName) || oldName == newName {
        return Err(Invalid);
      }
      if s >= |services| {
        return Err(NotFound);
      }
      if StoreModel.IsData(services[s].kind) {
        return Err(TemplateManaged);
      }
      if Managed(bindings, s, oldName) || Managed(bindings, s, newName) {
        return Err(BucketManaged);
      }
      if before !in vars {
        return Err(NotFound);
      }
      if after in vars {
        return Err(Collision);
      }
      var plain := Open(vars[before].sealed, ForVariable(before));
      if plain.None? {
        return Err(Undecipherable);
      }
      if before in refs && after in refs {
        return Err(Collision);
      }
      vars := (vars - {before})[after := Variable(Sealed(plain.value, ForVariable(after)), vars[before].kind)];
      if before in refs {
        refs := (refs - {before})[after := refs[before]];
      }
      refs := map k | k in refs :: if refs[k] == before then after else refs[k];
      return Ok(Unit);
    }

    method DeleteVariable(s: nat, name: string) returns (reply: Result<Unit, Failure>)
      modifies this
      ensures Outcome(Model(), reply) == VariableModel.DeleteVariable(old(Model()), s, name)
    {
      hide Managed;
      var k := Key(s, name);
      if Managed(bindings, s, name) {
        return Err(BucketManaged);
      }
      if k in refs.Values {
        return Err(Referenced);
      }
      vars := vars - {k};
      refs := refs - {k};
      return Ok(Unit);
    }

    /******* Buckets *******/

    method CreateBucket(bucket: Bucket, credentials: Credentials, valid: bool) returns (reply: Result<Unit, Failure>)
      modifies this
      ensures Outcome(Model(), reply) == VariableModel.CreateBucket(old(Model()), bucket, credentials, valid)
    {
      if !valid {
        return Err(Invalid);
      }
      buckets := buckets + [bucket.(version := 1, sealed := Sealed(credentials, ForBucket(|buckets|)))];
      return Ok(Unit);
    }

    method BindBucketVariables(s: nat, prefix: string, bucket: Bucket, credentials: Credentials)
      modifies this
      ensures Model() == old(Model()).(vars := WriteFields(old(vars), s, prefix, bucket, credentials, FIELDS))
    {
      hide FieldKey, FieldValue;
      for i := 0 to |FIELDS|
        invariant Model() == old(Model()).(vars := WriteFields(old(vars), s, prefix, bucket, credentials, FIELDS[..i]))
      {
        var k := FieldKey(s, prefix, FIELDS[i]);
        var sealed := Sealed(FieldValue(bucket, credentials, FIELDS[i]), ForVariable(k));
        vars := vars[k := Variable(sealed, if k in vars then vars[k].kind else Secret)];
        assert FIELDS[..i + 1][..i] == FIELDS[..i];
      }
      assert FIELDS[..|FIELDS|] == FIELDS;
    }

    method BindBucket(b: nat, s: nat, prefix: string) returns (reply: Result<Unit, Failure>)
      modifies this
      ensures Outcome(Model(), reply) == VariableModel.BindBucket(old(Model()), b, s, prefix)
    {
      hide ValidPrefix, PrefixUsed, FieldKeys, Names, WriteFields;
      var binding := Binding(b, s);
      if !ValidPrefix(prefix) {
        return Err(Invalid);
      }
      if b >= |buckets| {
        return Err(NotFound);
      }
      if !IsApp(services, s) || services[s].place != buckets[b].place {
        return Err(WrongPlace);
      }
      if binding in bindings && bindings[binding] != prefix {
        return Err(PrefixFixed);
      }
      if PrefixUsed(bindings, b, s, prefix) {
        return Err(PrefixTaken);
      }
      if binding !in bindings {
        if FieldKeys(s, prefix) * vars.Keys != {} {
          return Err(Collision);
        }
        if |Names(vars, s)| + |FIELDS| > MAX_VARIABLES {
          return Err(Full);
        }
      }
      var credentials := Open(buckets[b].sealed, ForBucket(b));
      if credentials.None? {
        return Err(Undecipherable);
      }
      BindBucketVariables(s, prefix, buckets[b], credentials.value);
      bindings := bindings[binding := prefix];
      return Ok(Unit);
    }

    method RotateBucketCredentials(b: nat, credentials: Credentials, valid: bool) returns (reply: Result<Unit, Failure>)
      modifies this
      ensures Outcome(Model(), reply) == VariableModel.RotateBucketCredentials(old(Model()), b, credentials, valid)
    {
      hide WriteFields;
      if !valid {
        return Err(Invalid);
      }
      if b >= |buckets| {
        return Err(NotFound);
      }
      var bucket := buckets[b].(version := buckets[b].version + 1, sealed := Sealed(credentials, ForBucket(b)));
      buckets := buckets[b := bucket];
      for s := 0 to |services|
        invariant services == old(services) && refs == old(refs) && bindings == old(bindings)
        invariant buckets == old(buckets)[b := bucket]
        invariant vars == Rewrite(old(vars), bindings, b, bucket, credentials, s)
      {
        if Binding(b, s) in bindings {
          BindBucketVariables(s, bindings[Binding(b, s)], bucket, credentials);
        }
      }
      return Ok(Unit);
    }

    method UnbindBucket(b: nat, s: nat) returns (reply: Result<Unit, Failure>)
      modifies this
      ensures Outcome(Model(), reply) == VariableModel.UnbindBucket(old(Model()), b, s)
    {
      hide FieldKeys;
      var binding := Binding(b, s);
      if binding !in bindings {
        return Err(NotFound);
      }
      vars := vars - FieldKeys(s, bindings[binding]);
      bindings := bindings - {binding};
      return Ok(Unit);
    }

    /******* Binding a database *******/

    method LinkDatabase(database: nat, target: nat, name: string, variable: string)
      requires database < |services| && variable == ConnectionName(services[database].kind)
      modifies this
      ensures Model() == VariableModel.LinkDatabase(old(Model()), database, target, name)
    {
      refs := refs[Key(target, name) := Key(database, variable)];
    }

    method MarkReference(target: nat, name: string)
      modifies this
      ensures Model() == VariableModel.MarkReference(old(Model()), target, name)
    {
      var k := Key(target, name);
      if k in vars {
        vars := vars[k := vars[k].(kind := Reference)];
      }
    }

    /** What another request does in one transaction. */
    method Perform(edit: Edit)
      modifies this
      ensures Model() == Edited(old(Model()), edit)
    {
      hide VariableModel.SetVariable, VariableModel.SetReference, VariableModel.RenameVariable, VariableModel.DeleteVariable;
      hide VariableModel.LinkDatabase, VariableModel.MarkReference, VariableModel.BindBucket, VariableModel.AddDatabase;
      hide VariableModel.RotateBucketCredentials, VariableModel.UnbindBucket, VariableModel.AddApp, VariableModel.CreateBucket;
      var reply;
      match edit
      case NewApp(place) => AddApp(place);
      case NewDatabase(place, kind, host, password, root) => reply := AddDatabase(place, kind, host, password, root);
      case NewBucket(bucket, credentials, valid) => reply := CreateBucket(bucket, credentials, valid);
      case Set(s, name, value, kind) => reply := SetVariable(s, name, value, kind);
      case Refer(s, name, target, targetName) => reply := SetReference(s, name, target, targetName);
      case Rename(s, oldName, newName) => reply := RenameVariable(s, oldName, newName);
      case Delete(s, name) => reply := DeleteVariable(s, name);
      case Link(database, s, name) =>
        if database < |services| {
          LinkDatabase(database, s, name, ConnectionName(services[database].kind));
        }
      case Mark(s, name) => MarkReference(s, name);
      case Connect(b, s, prefix) => reply := BindBucket(b, s, prefix);
      case Rotate(b, credentials, valid) => reply := RotateBucketCredentials(b, credentials, valid);
      case Disconnect(b, s) => reply := UnbindBucket(b, s);
    }

    method PerformAll(edits: seq<Edit>)
      modifies this
      ensures Model() == AfterEdits(old(Model()), edits)
    {
      hide Edited, AfterEdits;
      NoEdits(Model());
      for i := 0 to |edits|
        invariant Model() == AfterEdits(old(Model()), edits[..i])
      {
        NextEdit(old(Model()), edits[..i], edits[i]);
        assert edits[..i + 1] == edits[..i] + [edits[i]];
        Perform(edits[i]);
      }
      assert edits[..|edits|] == edits;
    }

    lemma NoEdits(c: Config)
      ensures AfterEdits(c, []) == c
    {
    }

    lemma NextEdit(c: Config, edits: seq<Edit>, edit: Edit)
      ensures AfterEdits(c, edits + [edit]) == Edited(AfterEdits(c, edits), edit)
    {
      hide Edited;
      EditsOneAfterTheOther(c, edits, [edit]);
      assert [edit][1..] == [];
    }

    /** Three transactions, with what others do between them; the request may end, by a crash, after
        any number of them.  A rejection changes nothing. */
    method BindDatabase(
      database: nat, target: nat, name: string, host: string, first: seq<Edit>, second: seq<Edit>, commits: nat)
      returns (reply: Result<Unit, Failure>, ghost connection: string)
      modifies this
      ensures reply == Err(Unresolved) ==>
                exists other :: other in Names(old(vars), database) && Resolve(old(Model()), Key(database, other), {}).Err?
      ensures reply != Err(Unresolved) && ValidName(name) && Bindable(old(Model()), database, target) ==>
                Reads(old(Model()), database, host, connection)
      ensures reply != Err(Unresolved) && commits > 0 ==>
                reply == VariableModel.BindDatabase(old(Model()), database, target, name, connection).reply
      ensures Model() == if reply.Err? then old(Model())
                         else AfterEdits(old(Model()), BindingEdits(database, target, name, connection, first, second, commits))
    {
      hide ValidName, Managed, Names, Resolve, Connection, ConnectionName, Edited, AfterEdits;
      ghost var start := Model();
      connection := "";
      if !ValidName(name) {
        return Err(Invalid), connection;
      }
      if !(IsDatabase(services, database) && IsApp(services, target) && services[database].place == services[target].place) {
        return Err(WrongPlace), connection;
      }
      var values := Variables(database);
      if values.Err? {
        return Err(Unresolved), connection;
      }
      var url, variable := Connection(services[database].kind, host, values.value), ConnectionName(services[database].kind);
      connection := url;
      assert Reads(start, database, host, connection);
      if url == "" {
        return Err(NoCredentials), connection;
      }
      NoEdits(start);
      if commits == 0 {
        return Ok(Unit), connection;
      }
      reply := SetVariable(target, name, url, Secret);
      if reply.Err? {
        return;
      }
      ghost var done := [Set(target, name, url, Secret)];
      NextEdit(start, [], Set(target, name, url, Secret));
      assert [] + done == done && Model() == AfterEdits(start, done) by {
        EditedBySet(start, target, name, url);
      }
      if commits == 1 {
        return;
      }
      PerformAll(first);
      EditsOneAfterTheOther(start, done, first);
      EditsKeepServices(start, done + first);
      NextEdit(start, done + first, Link(database, target, name));
      EditedByLink(Model(), database, target, name);
      LinkDatabase(database, target, name, variable);
      done := done + first + [Link(database, target, name)];
      if commits == 2 {
        return;
      }
      PerformAll(second);
      EditsOneAfterTheOther(start, done, second);
      NextEdit(start, done + second, Mark(target, name));
      EditedByMark(Model(), target, name);
      MarkReference(target, name);
    }

    lemma EditedBySet(c: Config, s: nat, name: string, value: string)
      ensures Edited(c, Set(s, name, value, Secret)) == VariableModel.SetVariable(c, s, name, value, Secret).config
    {
    }

    lemma EditedByLink(c: Config, database: nat, s: nat, name: string)
      requires database < |c.services|
      ensures Edited(c, Link(database, s, name)) == VariableModel.LinkDatabase(c, database, s, name)
    {
    }

    lemma EditedByMark(c: Config, s: nat, name: string)
      ensures Edited(c, Mark(s, name)) == VariableModel.MarkReference(c, s, name)
    {
    }
  }
}
