/** The invariant of variables, references and bindings, and that every transaction keeps it. */
module VariableInvariant {
  import opened VariableModel
  import opened ReferenceGraph
  import StoreModel

  /******* The clauses *******/

  ghost predicate RowsOk(services: seq<Owner>, vars: map<Key, Variable>, refs: map<Key, Key>) {
    && (forall k :: k in vars ==> k.service < |services| && vars[k].sealed.purpose == ForVariable(k))
    && (forall k :: k in refs ==>
                      && IsApp(services, k.service) && refs[k].service < |services|
                      && services[k.service].place == services[refs[k].service].place
                      && (IsApp(services, refs[k].service) ==>
                            k in vars && refs[k] in vars && vars[k].kind.Reference? && vars[k].sealed.value == ""))
  }

  /** A value is at hand for every variable: its own, or that of the variable it refers to. */
  predicate HasValue(vars: map<Key, Variable>, refs: map<Key, Key>, k: Key)
    requires k in vars
  {
    vars[k].kind.Reference? ==> vars[k].sealed.value != "" || (k in refs && refs[k] in vars)
  }

  ghost predicate ValuesOk(vars: map<Key, Variable>, refs: map<Key, Key>) {
    forall k :: k in vars ==> HasValue(vars, refs, k)
  }

  ghost predicate SizesOk(vars: map<Key, Variable>) {
    forall s: nat :: |Names(vars, s)| <= MAX_VARIABLES
  }

  ghost predicate BucketsOk(buckets: seq<Bucket>) {
    forall b :: 0 <= b < |buckets| ==> buckets[b].sealed.purpose == ForBucket(b)
  }

  ghost predicate BindingsOk(services: seq<Owner>, buckets: seq<Bucket>, bindings: map<Binding, string>) {
    && (forall x :: x in bindings ==>
                      && x.bucket < |buckets| && IsApp(services, x.service)
                      && services[x.service].place == buckets[x.bucket].place && ValidPrefix(bindings[x]))
    && (forall x, y :: x in bindings && y in bindings && x.service == y.service && bindings[x] == bindings[y] ==> x == y)
  }

  /** The variable of a binding's field is a plain copy of the bucket's own field. */
  predicate FieldHolds(vars: map<Key, Variable>, s: nat, prefix: string, bucket: Bucket, field: Field) {
    var k := FieldKey(s, prefix, field);
    k in vars && vars[k].kind.Secret? && vars[k].sealed.value == FieldValue(bucket, bucket.sealed.value, field)
  }

  ghost predicate FieldsOk(vars: map<Key, Variable>, buckets: seq<Bucket>, bindings: map<Binding, string>) {
    forall x, field :: x in bindings && x.bucket < |buckets| ==>
                         FieldHolds(vars, x.service, bindings[x], buckets[x.bucket], field)
  }

  /** A PostgreSQL service keeps no connection string of its own. */
  ghost predicate TemplatesOk(services: seq<Owner>, vars: map<Key, Variable>) {
    forall k :: k in vars && k.service < |services| && services[k.service].kind.Postgres? ==>
                  k.name != ConnectionName(StoreModel.Postgres)
  }

  ghost predicate VarInv(c: Config) {
    && RowsOk(c.services, c.vars, c.refs)
    && TemplatesOk(c.services, c.vars)
    && Acyclic(c.refs)
    && ValuesOk(c.vars, c.refs)
    && SizesOk(c.vars)
    && BucketsOk(c.buckets)
    && BindingsOk(c.services, c.buckets, c.bindings)
    && FieldsOk(c.vars, c.buckets, c.bindings)
  }

  lemma NothingInv()
    ensures VarInv(Nothing())
  {
    assert Ranked(map[], (s: nat) => 0);
  }

  /** New variables of applications are no concern of the templates. */
  lemma TemplatesFrame(services: seq<Owner>, vars: map<Key, Variable>, vars': map<Key, Variable>)
    requires TemplatesOk(services, vars)
    requires forall k :: k in vars' ==> k in vars || IsApp(services, k.service)
    ensures TemplatesOk(services, vars')
  {
    hide ConnectionName;
  }

  lemma SealedTemplates(
    services: seq<Owner>, place: Place, kind: Kind, vars: map<Key, Variable>, refs: map<Key, Key>,
    host: string, password: string, root: string)
    requires RowsOk(services, vars, refs) && TemplatesOk(services, vars)
    ensures TemplatesOk(services + [Owner(place, kind)], vars + SealAll(|services|, TemplateVariables(kind, host, password, root)))
  {
    hide ConnectionName, TemplateVariables;
    if kind.Postgres? {
      PostgresNames(host, password, root);
    }
  }

  lemma PostgresNames(host: string, password: string, root: string)
    ensures ConnectionName(StoreModel.Postgres) !in TemplateVariables(StoreModel.Postgres, host, password, root)
  {
    assert |"DATABASE_URL"| == 12 && |"POSTGRES_USER"| == 13 && |"POSTGRES_DB"| == 11 && |"POSTGRES_PASSWORD"| == 17;
  }

  /******* Names *******/

  lemma {:induction false} SubsetSize<T>(a: set<T>, b: set<T>)
    requires a <= b
    ensures |a| <= |b|
  {
    if x :| x in a {
      SubsetSize(a - {x}, b - {x});
    }
  }

  lemma FewerNames(vars: map<Key, Variable>, fewer: map<Key, Variable>)
    requires SizesOk(vars) && fewer.Keys <= vars.Keys
    ensures SizesOk(fewer)
  {
    forall s: nat ensures |Names(fewer, s)| <= MAX_VARIABLES {
      SubsetSize(Names(fewer, s), Names(vars, s));
    }
  }

  lemma NamesOf(vars: map<Key, Variable>, s: nat)
    ensures forall name :: name in Names(vars, s) <==> Key(s, name) in vars
  {
    forall name ensures name in Names(vars, s) <==> Key(s, name) in vars {
      assert Key(s, name) in vars ==> Key(s, name).name in Names(vars, s);
    }
  }

  lemma NamesPut(vars: map<Key, Variable>, k: Key, v: Variable, s: nat)
    ensures Names(vars[k := v], s) == if s == k.service then (Names(vars, s) - {k.name}) + {k.name} else Names(vars, s)
  {
    NamesOf(vars, s);
    NamesOf(vars[k := v], s);
    hide Names;
  }

  lemma OneName(vars: map<Key, Variable>, k: Key, v: Variable)
    requires SizesOk(vars) && |Names(vars, k.service) - {k.name}| < MAX_VARIABLES
    ensures SizesOk(vars[k := v])
  {
    var more := vars[k := v];
    forall s: nat ensures |Names(more, s)| <= MAX_VARIABLES {
      NamesPut(vars, k, v, s);
      hide Names;
    }
  }

  /******* The names of a binding's fields *******/

  function Ending(field: Field): (char, char) {
    match field
    case BucketField => ('E', 'T')
    case EndpointField => ('N', 'T')
    case RegionField => ('O', 'N')
    case AccessKeyField => ('I', 'D')
    case SecretKeyField => ('E', 'Y')
    case PathStyleField => ('L', 'E')
  }

  lemma SuffixEnds(field: Field)
    ensures |Suffix(field)| >= 2
    ensures (Suffix(field)[|Suffix(field)| - 2], Suffix(field)[|Suffix(field)| - 1]) == Ending(field)
  {
  }

  /** A name determines its prefix and its field. */
  lemma FieldNameInjective(p: string, f: Field, q: string, g: Field)
    requires p + Suffix(f) == q + Suffix(g)
    ensures p == q && f == g
  {
    hide Suffix;
    SuffixEnds(f);
    SuffixEnds(g);
    var n := |p + Suffix(f)|;
    assert (p + Suffix(f))[n - 1] == Suffix(f)[|Suffix(f)| - 1] && (p + Suffix(f))[n - 2] == Suffix(f)[|Suffix(f)| - 2];
    assert (q + Suffix(g))[n - 1] == Suffix(g)[|Suffix(g)| - 1] && (q + Suffix(g))[n - 2] == Suffix(g)[|Suffix(g)| - 2];
    assert f == g;
    assert (p + Suffix(f))[..|p|] == p && (q + Suffix(g))[..|q|] == q;
  }

  lemma FieldKeysDiffer(s: nat, p: string, f: Field, q: string, g: Field)
    requires p != q || f != g
    ensures FieldKey(s, p, f) != FieldKey(s, q, g)
  {
    hide Suffix;
    if p + Suffix(f) == q + Suffix(g) {
      FieldNameInjective(p, f, q, g);
    }
  }

  lemma ManagedKey(bindings: map<Binding, string>, x: Binding, field: Field)
    requires x in bindings
    ensures Managed(bindings, x.service, FieldKey(x.service, bindings[x], field).name)
  {
    hide Suffix;
    assert Key(x.service, FieldKey(x.service, bindings[x], field).name) == FieldKey(x.service, bindings[x], field);
  }

  /******* Services *******/

  lemma AddAppInv(c: Config, place: Place)
    requires VarInv(c)
    ensures VarInv(AddApp(c, place).config)
  {
    hide FieldsOk, ValuesOk, SizesOk, Acyclic, ConnectionName;
  }

  lemma FiveAtMost<T>(a: T, b: T, c: T, d: T, e: T)
    ensures |{a, b, c, d, e}| <= 5
  {
  }

  lemma TemplateSize(kind: Kind, host: string, password: string, root: string)
    ensures |TemplateVariables(kind, host, password, root).Keys| <= 5
  {
    var names := TemplateVariables(kind, host, password, root).Keys;
    match kind
    case Http =>
    case Postgres =>
      var user, db, password := "POSTGRES_USER", "POSTGRES_DB", "POSTGRES_PASSWORD";
      assert names == {user, db, password, password, password};
      FiveAtMost(user, db, password, password, password);
    case Redis =>
      var h, user, port, password, url := "REDISHOST", "REDISUSER", "REDISPORT", "REDIS_PASSWORD", "REDIS_URL";
      assert names == {h, user, port, password, url};
      FiveAtMost(h, user, port, password, url);
    case MySql =>
      var r, db, user, password, url := "MYSQL_ROOT_PASSWORD", "MYSQL_DATABASE", "MYSQL_USER", "MYSQL_PASSWORD", "MYSQL_URL";
      assert names == {r, db, user, password, url};
      FiveAtMost(r, db, user, password, url);
    case Mongo =>
      var user, password, db, url :=
        "MONGO_INITDB_ROOT_USERNAME", "MONGO_INITDB_ROOT_PASSWORD", "MONGO_INITDB_DATABASE", "MONGO_URL";
      assert names == {user, password, db, url, url};
      FiveAtMost(user, password, db, url, url);
  }

  lemma SealedKeys(s: nat, values: map<string, string>)
    ensures forall k :: k in SealAll(s, values) ==>
                          && k.service == s && SealAll(s, values)[k].sealed.purpose == ForVariable(k)
                          && SealAll(s, values)[k].kind.Secret?
  {
  }

  lemma MergedRows(services: seq<Owner>, owner: Owner, vars: map<Key, Variable>, refs: map<Key, Key>, more: map<Key, Variable>)
    requires RowsOk(services, vars, refs)
    requires forall k :: k in more ==> k.service == |services| && more[k].sealed.purpose == ForVariable(k)
    ensures RowsOk(services + [owner], vars + more, refs)
  {
    var services', vars' := services + [owner], vars + more;
    forall k | k in vars' ensures k.service < |services'| && vars'[k].sealed.purpose == ForVariable(k) {
    }
    forall k | k in refs
      ensures IsApp(services', k.service) && refs[k].service < |services'|
      ensures services'[k.service].place == services'[refs[k].service].place
      ensures IsApp(services', refs[k].service) ==>
                k in vars' && refs[k] in vars' && vars'[k].kind.Reference? && vars'[k].sealed.value == ""
    {
      assert services'[k.service] == services[k.service] && services'[refs[k].service] == services[refs[k].service];
      assert k.service < |services| && k !in more;
    }
  }

  lemma MergedValues(vars: map<Key, Variable>, refs: map<Key, Key>, more: map<Key, Variable>)
    requires ValuesOk(vars, refs) && forall k :: k in more ==> k !in vars && more[k].kind.Secret?
    ensures ValuesOk(vars + more, refs)
  {
    forall k | k in vars + more ensures HasValue(vars + more, refs, k) {
      assert k in vars ==> HasValue(vars, refs, k);
    }
  }

  lemma SealedRows(services: seq<Owner>, owner: Owner, vars: map<Key, Variable>, refs: map<Key, Key>, values: map<string, string>)
    requires RowsOk(services, vars, refs) && ValuesOk(vars, refs)
    ensures RowsOk(services + [owner], vars + SealAll(|services|, values), refs)
    ensures ValuesOk(vars + SealAll(|services|, values), refs)
  {
    SealedKeys(|services|, values);
    forall k | k in SealAll(|services|, values) ensures k !in vars {
      if k in vars {
        SealedApart(services, vars, refs, values, k);
      }
    }
    hide SealAll, RowsOk, ValuesOk;
    MergedRows(services, owner, vars, refs, SealAll(|services|, values));
    MergedValues(vars, refs, SealAll(|services|, values));
  }

  lemma SealedNames(services: seq<Owner>, vars: map<Key, Variable>, refs: map<Key, Key>, values: map<string, string>)
    requires RowsOk(services, vars, refs)
    ensures Names(vars + SealAll(|services|, values), |services|) == values.Keys
  {
    var s := |services|;
    var more := vars + SealAll(s, values);
    forall name ensures name in Names(more, s) <==> name in values.Keys {
      assert name in values <==> Key(s, name) in SealAll(s, values);
      assert name in Names(more, s) <==> Key(s, name) in more;
    }
  }

  lemma SealedSizes(services: seq<Owner>, vars: map<Key, Variable>, refs: map<Key, Key>, values: map<string, string>)
    requires RowsOk(services, vars, refs) && SizesOk(vars) && |values.Keys| <= MAX_VARIABLES
    ensures SizesOk(vars + SealAll(|services|, values))
  {
    var more := vars + SealAll(|services|, values);
    forall s: nat ensures |Names(more, s)| <= MAX_VARIABLES {
      if s == |services| {
        SealedNames(services, vars, refs, values);
      } else {
        assert Names(more, s) == Names(vars, s);
      }
    }
  }

  lemma FieldsFrame(
    vars: map<Key, Variable>, buckets: seq<Bucket>, bindings: map<Binding, string>, vars': map<Key, Variable>)
    requires FieldsOk(vars, buckets, bindings)
    requires forall k :: k in vars && Managed(bindings, k.service, k.name) ==>
                           k in vars' && vars'[k] == vars[k]
    ensures FieldsOk(vars', buckets, bindings)
  {
    hide Managed, FieldKey, FieldValue;
    forall x, field | x in bindings && x.bucket < |buckets|
      ensures FieldHolds(vars', x.service, bindings[x], buckets[x.bucket], field)
    {
      assert FieldHolds(vars, x.service, bindings[x], buckets[x.bucket], field);
      ManagedKey(bindings, x, field);
      FieldKeyOwner(x.service, bindings[x], field);
    }
  }

  lemma FieldKeyOwner(s: nat, prefix: string, field: Field)
    ensures FieldKey(s, prefix, field) == Key(s, FieldKey(s, prefix, field).name)
  {
  }

  lemma AddDatabaseInv(c: Config, place: Place, kind: Kind, host: string, password: string, root: string)
    requires VarInv(c)
    ensures VarInv(AddDatabase(c, place, kind, host, password, root).config)
  {
    hide FieldsOk, ValuesOk, SizesOk, Acyclic, TemplateVariables, SealAll, RowsOk, TemplatesOk;
    var after := AddDatabase(c, place, kind, host, password, root).config;
    if StoreModel.IsData(kind) {
      var values := TemplateVariables(kind, host, password, root);
      TemplateSize(kind, host, password, root);
      SealedRows(c.services, Owner(place, kind), c.vars, c.refs, values);
      SealedSizes(c.services, c.vars, c.refs, values);
      SealedTemplates(c.services, place, kind, c.vars, c.refs, host, password, root);
      forall k | k in c.vars ensures k in after.vars && after.vars[k] == c.vars[k] {
        SealedApart(c.services, c.vars, c.refs, values, k);
      }
      FieldsFrame(c.vars, c.buckets, c.bindings, after.vars);
    }
  }

  lemma SealedApart(services: seq<Owner>, vars: map<Key, Variable>, refs: map<Key, Key>, values: map<string, string>, k: Key)
    requires RowsOk(services, vars, refs) && k in vars
    ensures k !in SealAll(|services|, values)
  {
  }

  /******* Variables *******/

  lemma PutVariable(services: seq<Owner>, vars: map<Key, Variable>, refs: map<Key, Key>, k: Key, v: Variable)
    requires RowsOk(services, vars, refs) && ValuesOk(vars, refs)
    requires k.service < |services| && v.sealed.purpose == ForVariable(k) && !v.kind.Reference?
    ensures RowsOk(services, vars[k := v], refs - {k}) && ValuesOk(vars[k := v], refs - {k})
  {
  }

  lemma PutReference(services: seq<Owner>, vars: map<Key, Variable>, refs: map<Key, Key>, k: Key, v: Variable, to: Key)
    requires RowsOk(services, vars, refs) && ValuesOk(vars, refs)
    requires IsApp(services, k.service) && v == Variable(Sealed("", ForVariable(k)), Reference) && to in vars
    requires to.service < |services| && services[k.service].place == services[to.service].place
    ensures RowsOk(services, vars[k := v], refs[k := to]) && ValuesOk(vars[k := v], refs[k := to])
  {
  }

  lemma DropVariable(services: seq<Owner>, vars: map<Key, Variable>, refs: map<Key, Key>, k: Key)
    requires RowsOk(services, vars, refs) && ValuesOk(vars, refs) && !IsTarget(refs, k)
    ensures RowsOk(services, vars - {k}, refs - {k}) && ValuesOk(vars - {k}, refs - {k})
  {
  }

  lemma SetVariableInv(c: Config, s: nat, name: string, value: string, kind: VariableKind)
    requires VarInv(c)
    ensures VarInv(SetVariable(c, s, name, value, kind).config)
  {
    hide FieldsOk, SizesOk, Acyclic, Managed, BindingsOk, ValidName, RowsOk, ValuesOk, TemplatesOk;
    var after := SetVariable(c, s, name, value, kind);
    if after.reply.Ok? {
      var k := Key(s, name);
      PutVariable(c.services, c.vars, c.refs, k, after.config.vars[k]);
      OneName(c.vars, k, after.config.vars[k]);
      FewerReferences(c.refs, after.config.refs);
      TemplatesFrame(c.services, c.vars, after.config.vars);
      FieldsFrame(c.vars, c.buckets, c.bindings, after.config.vars);
    }
  }

  lemma SetReferenceInv(c: Config, source: nat, name: string, target: nat, targetName: string)
    requires VarInv(c)
    ensures VarInv(SetReference(c, source, name, target, targetName).config)
  {
    hide FieldsOk, SizesOk, Acyclic, Managed, BindingsOk, ValidName, Reaches, RowsOk, ValuesOk, TemplatesOk;
    var after := SetReference(c, source, name, target, targetName);
    if after.reply.Ok? {
      var k := Key(source, name);
      PutReference(c.services, c.vars, c.refs, k, after.config.vars[k], Key(target, targetName));
      OneName(c.vars, k, after.config.vars[k]);
      AddReference(c.refs, k, Key(target, targetName));
      TemplatesFrame(c.services, c.vars, after.config.vars);
      FieldsFrame(c.vars, c.buckets, c.bindings, after.config.vars);
    }
  }

  lemma DeleteVariableInv(c: Config, s: nat, name: string)
    requires VarInv(c)
    ensures VarInv(DeleteVariable(c, s, name).config)
  {
    hide FieldsOk, SizesOk, Acyclic, Managed, BindingsOk, RowsOk, ValuesOk, IsTarget, TemplatesOk;
    var after := DeleteVariable(c, s, name);
    if after.reply.Ok? {
      DropVariable(c.services, c.vars, c.refs, Key(s, name));
      FewerNames(c.vars, after.config.vars);
      FewerReferences(c.refs, after.config.refs);
      TemplatesFrame(c.services, c.vars, after.config.vars);
      FieldsFrame(c.vars, c.buckets, c.bindings, after.config.vars);
    }
  }

  function MoveVariable(vars: map<Key, Variable>, before: Key, after: Key): map<Key, Variable>
    requires before in vars
  {
    (vars - {before})[after := Variable(Sealed(vars[before].sealed.value, ForVariable(after)), vars[before].kind)]
  }

  lemma MovedSources(services: seq<Owner>, vars: map<Key, Variable>, refs: map<Key, Key>, before: Key, after: Key)
    requires RowsOk(services, vars, refs) && before in vars && after !in vars && before.service == after.service
    ensures var refs' := MoveSource(refs, before, after);
            (forall k :: k in refs' ==>
                           && IsApp(services, k.service) && refs'[k].service < |services|
                           && services[k.service].place == services[refs'[k].service].place
                           && (IsApp(services, refs'[k].service) ==>
                                 && k in MoveVariable(vars, before, after)
                                 && refs'[k] in vars && MoveVariable(vars, before, after)[k].kind.Reference?
                                 && MoveVariable(vars, before, after)[k].sealed.value == ""))
  {
  }

  lemma MovedRows(services: seq<Owner>, vars: map<Key, Variable>, refs: map<Key, Key>, before: Key, after: Key)
    requires RowsOk(services, vars, refs) && before in vars && after !in vars && before.service == after.service
    ensures RowsOk(services, MoveVariable(vars, before, after), MoveTargets(MoveSource(refs, before, after), before, after))
  {
    hide MoveSource;
    MovedSources(services, vars, refs, before, after);
  }

  lemma MovedValues(vars: map<Key, Variable>, refs: map<Key, Key>, before: Key, after: Key)
    requires ValuesOk(vars, refs) && before in vars && after !in vars && !(before in refs && after in refs)
    ensures ValuesOk(MoveVariable(vars, before, after), MoveTargets(MoveSource(refs, before, after), before, after))
  {
    var vars', refs' := MoveVariable(vars, before, after), MoveTargets(MoveSource(refs, before, after), before, after);
    forall k | k in vars' ensures HasValue(vars', refs', k) {
      assert HasValue(vars, refs, if k == after then before else k);
    }
  }

  lemma MovedName(vars: map<Key, Variable>, before: Key, after: Key, v: Variable, s: nat)
    requires before in vars && after !in vars && before.service == after.service
    ensures Names((vars - {before})[after := v], s)
            == if s == before.service then (Names(vars, s) - {before.name}) + {after.name} else Names(vars, s)
  {
    NamesOf(vars, s);
    NamesOf((vars - {before})[after := v], s);
    hide Names;
  }

  lemma SwapSize<T>(names: set<T>, x: T, y: T)
    requires x in names
    ensures |(names - {x}) + {y}| <= |names|
  {
  }

  lemma MovedNames(vars: map<Key, Variable>, before: Key, after: Key, v: Variable)
    requires SizesOk(vars) && before in vars && after !in vars && before.service == after.service
    ensures SizesOk((vars - {before})[after := v])
  {
    var moved := (vars - {before})[after := v];
    forall s: nat ensures |Names(moved, s)| <= MAX_VARIABLES {
      MovedName(vars, before, after, v, s);
      NamesOf(vars, s);
      hide Names;
      if s == before.service {
        SwapSize(Names(vars, s), before.name, after.name);
      }
    }
  }

  lemma MovedGraph(refs: map<Key, Key>, before: Key, after: Key)
    requires Acyclic(refs) && before.service == after.service
    ensures Acyclic(MoveTargets(MoveSource(refs, before, after), before, after))
  {
    var moved := MoveTargets(MoveSource(refs, before, after), before, after);
    forall k | k in moved ensures exists j :: j in refs && j.service == k.service && refs[j].service == moved[k].service {
      var j := if k == after && before in refs then before else k;
      assert j in refs;
    }
    FewerReferences(refs, moved);
  }

  lemma RenameVariableInv(c: Config, s: nat, oldName: string, newName: string)
    requires VarInv(c)
    ensures VarInv(RenameVariable(c, s, oldName, newName).config)
  {
    hide FieldsOk, SizesOk, Acyclic, Managed, BindingsOk, ValuesOk, MoveSource, MoveTargets, ValidName, TemplatesOk;
    var after := RenameVariable(c, s, oldName, newName);
    if after.reply.Ok? {
      var k, k' := Key(s, oldName), Key(s, newName);
      MovedRows(c.services, c.vars, c.refs, k, k');
      MovedValues(c.vars, c.refs, k, k');
      MovedNames(c.vars, k, k', after.config.vars[k']);
      MovedGraph(c.refs, k, k');
      TemplatesFrame(c.services, c.vars, after.config.vars);
      FieldsFrame(c.vars, c.buckets, c.bindings, after.config.vars);
    }
  }

  /******* Binding a database *******/

  function ConnectionKey(c: Config, database: nat): Key
    requires database < |c.services|
  {
    Key(database, ConnectionName(c.services[database].kind))
  }

  /** The variable is a reference without a value of its own, and the database has no connection
      string to offer. */
  predicate Starved(c: Config, database: nat, k: Key)
    requires database < |c.services|
  {
    k in c.vars && c.vars[k].kind.Reference? && c.vars[k].sealed.value == "" && ConnectionKey(c, database) !in c.vars
  }

  lemma LinkedRows(c: Config, database: nat, target: nat, name: string)
    requires RowsOk(c.services, c.vars, c.refs) && ValuesOk(c.vars, c.refs)
    requires Bindable(c, database, target) && !Starved(c, database, Key(target, name))
    ensures RowsOk(c.services, c.vars, LinkDatabase(c, database, target, name).refs)
    ensures ValuesOk(c.vars, LinkDatabase(c, database, target, name).refs)
  {
    hide ConnectionName;
    var refs := LinkDatabase(c, database, target, name).refs;
    forall j | j in c.vars ensures HasValue(c.vars, refs, j) {
      assert HasValue(c.vars, c.refs, j);
    }
  }

  lemma LinkedGraph(c: Config, database: nat, target: nat, name: string)
    requires VarInv(c) && Bindable(c, database, target)
    ensures Acyclic(LinkDatabase(c, database, target, name).refs)
  {
    hide ValuesOk, SizesOk, Acyclic, FieldsOk, BucketsOk, TemplatesOk, BindingsOk, Reaches, ConnectionName;
    NoReferences(c.refs, database, target);
    AddReference(c.refs, Key(target, name), ConnectionKey(c, database));
  }

  lemma LinkDatabaseInv(c: Config, database: nat, target: nat, name: string)
    requires VarInv(c) && Bindable(c, database, target) && !Starved(c, database, Key(target, name))
    ensures VarInv(LinkDatabase(c, database, target, name))
  {
    hide FieldsOk, SizesOk, Acyclic, BindingsOk, TemplatesOk, RowsOk, ValuesOk, Starved, Bindable;
    LinkedRows(c, database, target, name);
    LinkedGraph(c, database, target, name);
  }

  predicate Markable(c: Config, target: nat, name: string) {
    var k := Key(target, name);
    k in c.vars ==>
      && !Managed(c.bindings, target, name)
      && (c.vars[k].sealed.value != "" || (k in c.refs && c.refs[k] in c.vars))
  }

  lemma MarkedRows(c: Config, target: nat, name: string)
    requires RowsOk(c.services, c.vars, c.refs) && ValuesOk(c.vars, c.refs) && Markable(c, target, name)
    ensures var after := MarkReference(c, target, name);
            RowsOk(c.services, after.vars, c.refs) && ValuesOk(after.vars, c.refs)
  {
    hide Managed;
  }

  lemma MarkReferenceInv(c: Config, target: nat, name: string)
    requires VarInv(c) && Markable(c, target, name)
    ensures VarInv(MarkReference(c, target, name))
  {
    hide FieldsOk, SizesOk, Acyclic, Managed, BindingsOk, RowsOk, ValuesOk, TemplatesOk;
    var after := MarkReference(c, target, name);
    MarkedRows(c, target, name);
    TemplatesFrame(c.services, c.vars, after.vars);
    FewerNames(c.vars, after.vars);
    FieldsFrame(c.vars, c.buckets, c.bindings, after.vars);
  }

  lemma BindDatabaseInv(c: Config, database: nat, target: nat, name: string, connection: string)
    requires VarInv(c)
    ensures VarInv(BindDatabase(c, database, target, name, connection).config)
  {
    hide VarInv, SetVariable, LinkDatabase, MarkReference, ConnectionName, ValidName;
    var after := BindDatabase(c, database, target, name, connection);
    if after.reply.Ok? {
      var stored := SetVariable(c, target, name, connection, Secret).config;
      SetVariableInv(c, target, name, connection, Secret);
      StoredIsLinkable(c, database, target, name, connection);
      LinkDatabaseInv(stored, database, target, name);
      MarkReferenceInv(LinkDatabase(stored, database, target, name), target, name);
    } else {
      RejectedBinding(c, database, target, name, connection);
    }
  }

  lemma RejectedBinding(c: Config, database: nat, target: nat, name: string, connection: string)
    requires BindDatabase(c, database, target, name, connection).reply.Err?
    ensures BindDatabase(c, database, target, name, connection).config == c
  {
  }

  lemma StoredIsLinkable(c: Config, database: nat, target: nat, name: string, connection: string)
    requires connection != "" && Bindable(c, database, target)
    requires SetVariable(c, target, name, connection, Secret).reply.Ok?
    ensures var stored := SetVariable(c, target, name, connection, Secret).config;
            && Bindable(stored, database, target) && !Starved(stored, database, Key(target, name))
            && Markable(LinkDatabase(stored, database, target, name), target, name)
  {
    hide ConnectionName, ValidName, Managed;
  }
}
