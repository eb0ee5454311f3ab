/** When each edit is accepted, and what names, connections and buckets look like from outside. */
module VariableExactly {
  import opened Common
  import opened VariableModel
  import opened VariableInvariant
  import opened BucketBindings
  import opened VariableResolution
  import StoreModel

  /** An identifier of at most 128 letters, digits and underscores that begins with no digit. */
  predicate Identifier(name: string) {
    && 0 < |name| < 129 && !('0' <= name[0] <= '9')
    && forall c :: c in name ==> 'a' <= c <= 'z' || 'A' <= c <= 'Z' || '0' <= c <= '9' || c == '_'
  }

  lemma IdentifierIsValid(name: string)
    ensures ValidName(name) <==> Identifier(name)
  {
    if Identifier(name) {
      assert forall i :: 0 <= i < |name| ==> name[i] in name;
    }
  }

  /** The names that a binding with this prefix occupies. */
  function BoundNames(prefix: string): set<string> {
    {prefix + "_BUCKET", prefix + "_ENDPOINT", prefix + "_REGION", prefix + "_ACCESS_KEY_ID", prefix + "_SECRET_ACCESS_KEY",
     prefix + "_FORCE_PATH_STYLE"}
  }

  predicate Bound(c: Config, s: nat, name: string) {
    exists x :: x in c.bindings && x.service == s && name in BoundNames(c.bindings[x])
  }

  lemma NamesOfFields(s: nat, prefix: string, name: string)
    ensures name in BoundNames(prefix) <==> exists field :: Key(s, name) == FieldKey(s, prefix, field)
  {
    var k := Key(s, name);
    if name in BoundNames(prefix) {
      var field :=
        if name == prefix + "_BUCKET" then BucketField
        else if name == prefix + "_ENDPOINT" then EndpointField
        else if name == prefix + "_REGION" then RegionField
        else if name == prefix + "_ACCESS_KEY_ID" then AccessKeyField
        else if name == prefix + "_SECRET_ACCESS_KEY" then SecretKeyField
        else PathStyleField;
      assert k == FieldKey(s, prefix, field);
    }
  }

  lemma BoundIsManaged(c: Config, s: nat, name: string)
    ensures Managed(c.bindings, s, name) <==> Bound(c, s, name)
  {
    hide BoundNames, FieldKey;
    forall x | x in c.bindings
      ensures name in BoundNames(c.bindings[x]) <==> exists field :: Key(s, name) == FieldKey(s, c.bindings[x], field)
    {
      NamesOfFields(s, c.bindings[x], name);
    }
  }

  /** The other variables of a service. */
  function Others(c: Config, s: nat, name: string): set<Key> {
    set k | k in c.vars && k.service == s && k.name != name
  }

  lemma {:induction false} NamesCount(keys: set<Key>, s: nat)
    requires forall k :: k in keys ==> k.service == s
    ensures |set k | k in keys :: k.name| == |keys|
  {
    if keys != {} {
      var k :| k in keys;
      NamesCount(keys - {k}, s);
      assert (set j | j in keys :: j.name) == (set j | j in keys - {k} :: j.name) + {k.name};
      assert forall j :: j in keys - {k} ==> j.name != k.name;
    } else {
      assert (set j | j in keys :: j.name) == {};
    }
  }

  lemma OthersCount(c: Config, s: nat, name: string)
    ensures |Names(c.vars, s) - {name}| == |Others(c, s, name)|
  {
    NamesCount(Others(c, s, name), s);
    assert Names(c.vars, s) - {name} == set k | k in Others(c, s, name) :: k.name;
  }

  /******* Edits *******/

  /** A variable can be set exactly on an application, under an identifier that no bucket occupies, with
      a value of at most 8192 characters that is no reference, beside fewer than 64 others. */
  lemma SetVariableExactly(c: Config, s: nat, name: string, value: string, kind: VariableKind)
    ensures var after := SetVariable(c, s, name, value, kind);
            && (after.reply.Ok? <==>
                  && s < |c.services| && c.services[s].kind.Http? && Identifier(name) && |value| <= 8192
                  && !kind.Reference? && !Bound(c, s, name) && |Others(c, s, name)| < 64)
            && (after.reply.Err? ==> after.config == c)
  {
    hide Managed, Names, Identifier, ValidName, Bound, Others;
    IdentifierIsValid(name);
    BoundIsManaged(c, s, name);
    OthersCount(c, s, name);
  }

  /** A reference can be made exactly from an application to a variable that is there, of another
      service of the same project and environment that does not lead back, under such a name. */
  lemma SetReferenceExactly(c: Config, source: nat, name: string, target: nat, targetName: string)
    requires RowsOk(c.services, c.vars, c.refs)
    ensures var after := SetReference(c, source, name, target, targetName);
            && (after.reply.Ok? <==>
                  && Identifier(name) && Identifier(targetName) && source != target
                  && source < |c.services| && c.services[source].kind.Http? && Key(target, targetName) in c.vars
                  && c.services[source].place == c.services[target].place
                  && !Reaches(c.refs, target, source) && !Bound(c, source, name) && |Others(c, source, name)| < 64)
            && (after.reply.Err? ==> after.config == c)
  {
    hide Managed, Names, Identifier, ValidName, Bound, Others, Reaches;
    IdentifierIsValid(name);
    IdentifierIsValid(targetName);
    BoundIsManaged(c, source, name);
    OthersCount(c, source, name);
  }

  /** A variable of an application can be renamed exactly to a free name, if no bucket occupies either
      and no leftover reference is in the way of its own. */
  lemma RenameVariableExactly(c: Config, s: nat, oldName: string, newName: string)
    requires RowsOk(c.services, c.vars, c.refs)
    ensures var after := RenameVariable(c, s, oldName, newName);
            && (after.reply.Ok? <==>
                  && Identifier(oldName) && Identifier(newName) && oldName != newName
                  && s < |c.services| && c.services[s].kind.Http?
                  && Key(s, oldName) in c.vars && Key(s, newName) !in c.vars
                  && !Bound(c, s, oldName) && !Bound(c, s, newName)
                  && !(Key(s, oldName) in c.refs && Key(s, newName) in c.refs))
            && (after.reply.Err? ==> after.config == c)
            && (after.reply == Err(Invalid) <==> !Identifier(oldName) || !Identifier(newName) || oldName == newName)
            && (s >= |c.services| && oldName != newName && Identifier(oldName) && Identifier(newName) ==> after.reply == Err(NotFound))
  {
    hide Managed, Identifier, ValidName, Bound, MoveTargets, MoveSource;
    IdentifierIsValid(oldName);
    IdentifierIsValid(newName);
    BoundIsManaged(c, s, oldName);
    BoundIsManaged(c, s, newName);
  }

  /** A variable can be deleted exactly if no bucket occupies it and nothing refers to it. */
  lemma DeleteVariableExactly(c: Config, s: nat, name: string)
    ensures var after := DeleteVariable(c, s, name);
            && (after.reply.Ok? <==> !Bound(c, s, name) && forall j :: j in c.refs ==> c.refs[j] != Key(s, name))
            && (after.reply.Err? ==> after.config == c)
  {
    hide Managed, Bound;
    BoundIsManaged(c, s, name);
  }

  /** What was sealed for one variable cannot be read as another's, nor renamed or handed on from there. */
  lemma SealsAreNotInterchangeable(c: Config, j: Key, k: Key, newName: string)
    requires j in c.vars && c.vars[j].sealed.purpose == ForVariable(j) && k != j
    ensures var swapped := c.(vars := c.vars[k := c.vars[j]]);
            && Resolve(swapped, k, {}) == Err(Unreadable)
            && RenameVariable(swapped, k.service, k.name, newName).reply.Err?
            && forall from ::
              && from != k && from in swapped.refs && from in swapped.vars
              && swapped.refs[from] == k && swapped.vars[from].kind.Reference? ==>
                Resolve(swapped, from, {}) == Err(Unreadable)
  {
    hide Managed, ValidName;
  }

  /******* Buckets *******/

  /** The same for the credentials of a bucket: no application can be connected to one that carries
      another's. */
  lemma BucketSealsAreNotInterchangeable(c: Config, a: nat, b: nat, s: nat, prefix: string)
    requires a < |c.buckets| && b < |c.buckets| && a != b && c.buckets[a].sealed.purpose == ForBucket(a)
    ensures BindBucket(c.(buckets := c.buckets[b := c.buckets[b].(sealed := c.buckets[a].sealed)]), b, s, prefix).reply.Err?
  {
    hide WriteFields, Names, FieldKeys, ValidPrefix, PrefixUsed;
  }

  /** Every name that a binding occupies is an identifier. */
  lemma BoundNamesAreIdentifiers(prefix: string, name: string)
    requires ValidPrefix(prefix) && name in BoundNames(prefix)
    ensures Identifier(name)
  {
    assert forall c :: c in prefix ==> 'A' <= c <= 'Z' || '0' <= c <= '9' || c == '_';
    assert name[0] == prefix[0];
  }

  /** An application can be connected to a bucket exactly within one project and environment, under a
      prefix that is its own from the first connection on and nobody else's there; the first time the
      six names must be free and there must be room for them. */
  lemma BindBucketExactly(c: Config, b: nat, s: nat, prefix: string)
    requires BucketsOk(c.buckets)
    ensures var after := BindBucket(c, b, s, prefix);
            && (after.reply.Ok? <==>
                  && ValidPrefix(prefix) && b < |c.buckets| && s < |c.services| && c.services[s].kind.Http?
                  && c.services[s].place == c.buckets[b].place
                  && (forall x :: x in c.bindings && x.service == s && x.bucket != b ==> c.bindings[x] != prefix)
                  && (if Binding(b, s) in c.bindings then c.bindings[Binding(b, s)] == prefix
                      else (forall name :: name in BoundNames(prefix) ==> Key(s, name) !in c.vars) && |Names(c.vars, s)| <= 58))
            && (after.reply.Err? ==> after.config == c)
            && (after.reply.Ok? ==>
                  && after.config == c.(vars := after.config.vars, bindings := c.bindings[Binding(b, s) := prefix])
                  && forall k: Key :: k.service != s || k.name !in BoundNames(prefix) ==> SameRow(c.vars, after.config.vars, k))
  {
    hide WriteFields, Names, BoundNames, FieldKey, ValidPrefix, FieldKeys;
    FieldKeysAreNames(c, s, prefix);
    OccupiedKeys(s, prefix);
    if BindBucket(c, b, s, prefix).reply.Ok? {
      WritesAll(c.vars, s, prefix, c.buckets[b], c.buckets[b].sealed.value);
    }
    assert |FIELDS| == 6;
    assert PrefixUsed(c.bindings, b, s, prefix) <==>
      !(forall x :: x in c.bindings && x.service == s && x.bucket != b ==> c.bindings[x] != prefix);
  }

  lemma FieldKeysAreNames(c: Config, s: nat, prefix: string)
    ensures FieldKeys(s, prefix) * c.vars.Keys == {} <==> forall name :: name in BoundNames(prefix) ==> Key(s, name) !in c.vars
  {
    hide BoundNames, FieldKeys;
    OccupiedKeys(s, prefix);
    if k :| k in FieldKeys(s, prefix) * c.vars.Keys {
      assert k == Key(s, k.name);
    }
    if name :| name in BoundNames(prefix) && Key(s, name) in c.vars {
      assert Key(s, name) in FieldKeys(s, prefix) * c.vars.Keys;
    }
  }

  /** A prefix is a capital letter and up to 31 more capitals, digits and underscores. */
  lemma PrefixExactly(prefix: string)
    ensures ValidPrefix(prefix) <==>
              && 0 < |prefix| < 33 && 'A' <= prefix[0] <= 'Z'
              && forall c :: c in prefix ==> Capital(c)
  {
    if ValidPrefix(prefix) {
      forall c | c in prefix ensures Capital(c) {
        var i :| 0 <= i < |prefix| && prefix[i] == c;
        assert i == 0 || 1 <= i;
      }
    }
    if 0 < |prefix| < 33 && 'A' <= prefix[0] <= 'Z' && forall c :: c in prefix ==> Capital(c) {
      forall i | 1 <= i < |prefix| ensures Capital(prefix[i]) {
        assert prefix[i] in prefix;
      }
    }
  }

  predicate Capital(c: char) {
    'A' <= c <= 'Z' || '0' <= c <= '9' || c == '_'
  }

  predicate SameRow(before: map<Key, Variable>, after: map<Key, Variable>, k: Key) {
    (k in before <==> k in after) && (k in before ==> after[k] == before[k])
  }

  lemma OccupiedKeys(s: nat, prefix: string)
    ensures forall k: Key :: k in FieldKeys(s, prefix) <==> k.service == s && k.name in BoundNames(prefix)
  {
    hide BoundNames, FieldKey, FieldKeys;
    AllFields(s, prefix);
    forall k ensures k in FieldKeys(s, prefix) <==> k.service == s && k.name in BoundNames(prefix) {
      NamesOfFields(s, prefix, k.name);
      if k in FieldKeys(s, prefix) {
        KeyService(s, prefix, k);
      }
    }
  }

  /** New credentials are taken exactly for a bucket that is there.  They replace its own, under the next
      version; of the variables only those change that a binding of the bucket occupies. */
  lemma RotateExactly(c: Config, b: nat, credentials: Credentials, valid: bool)
    ensures var after := RotateBucketCredentials(c, b, credentials, valid);
            && (after.reply.Ok? <==> valid && b < |c.buckets|)
            && (after.reply.Err? ==> after.config == c)
            && (after.reply.Ok? ==>
                  var old' := c.buckets[b];
                  && after.config == c.(vars := after.config.vars, buckets := c.buckets[b := Bucket(
                       old'.place, old'.name, old'.endpoint, old'.region, old'.pathStyle, old'.version + 1,
                       Sealed(credentials, ForBucket(b)))])
                  && forall k :: !Occupies(c.bindings, b, k) ==> SameRow(c.vars, after.config.vars, k))
  {
    hide Rewrite, Occupies;
    if b < |c.buckets| {
      var bucket := RotateBucketCredentials(c, b, credentials, true).config.buckets[b];
      RewriteKeepsOthers(c.vars, c.bindings, b, bucket, credentials, |c.services|);
    }
  }

  /** A binding of the bucket occupies the variable. */
  predicate Occupies(bindings: map<Binding, string>, b: nat, k: Key) {
    Binding(b, k.service) in bindings && k.name in BoundNames(bindings[Binding(b, k.service)])
  }

  lemma {:induction false} RewriteKeepsOthers(
    vars: map<Key, Variable>, bindings: map<Binding, string>, b: nat, bucket: Bucket, credentials: Credentials, n: nat)
    ensures forall k :: !Occupies(bindings, b, k) ==> SameRow(vars, Rewrite(vars, bindings, b, bucket, credentials, n), k)
  {
    hide BoundNames, WriteFields, FieldKeys;
    if n > 0 {
      RewriteKeepsOthers(vars, bindings, b, bucket, credentials, n - 1);
      var x := Binding(b, n - 1);
      if x in bindings {
        var earlier := Rewrite(vars, bindings, b, bucket, credentials, n - 1);
        WritesAll(earlier, n - 1, bindings[x], bucket, credentials);
        OccupiedKeys(n - 1, bindings[x]);
      }
    }
  }

  /** A bucket can be disconnected exactly if it is connected; the six variables go, and nothing else. */
  lemma UnbindExactly(c: Config, b: nat, s: nat)
    ensures var after, x := UnbindBucket(c, b, s), Binding(b, s);
            && (after.reply.Ok? <==> x in c.bindings)
            && (after.reply.Err? ==> after.config == c)
            && (after.reply.Ok? ==>
                  && after.config == c.(vars := after.config.vars, bindings := c.bindings - {x})
                  && forall k: Key :: if k.service == s && k.name in BoundNames(c.bindings[x]) then k !in after.config.vars
                     else SameRow(c.vars, after.config.vars, k))
  {
    hide BoundNames, FieldKeys;
    var x := Binding(b, s);
    if x in c.bindings {
      OccupiedKeys(s, c.bindings[x]);
    }
  }

  /** A new bucket holds what it was created with, sealed for it alone. */
  lemma CreateBucketExactly(c: Config, bucket: Bucket, credentials: Credentials, valid: bool)
    ensures var after := CreateBucket(c, bucket, credentials, valid);
            && (after.reply.Ok? <==> valid)
            && (after.reply.Err? ==> after.config == c)
            && (after.reply.Ok? ==>
                  after.config == c.(buckets := c.buckets + [Bucket(
                    bucket.place, bucket.name, bucket.endpoint, bucket.region, bucket.pathStyle, 1,
                    Sealed(credentials, ForBucket(|c.buckets|)))]))
  {
  }

  lemma PrefixFields(s: nat, p: string)
    ensures FieldKey(s, p, BucketField) == Key(s, p + "_BUCKET") && FieldKey(s, p, EndpointField) == Key(s, p + "_ENDPOINT")
    ensures FieldKey(s, p, RegionField) == Key(s, p + "_REGION") && FieldKey(s, p, AccessKeyField) == Key(s, p + "_ACCESS_KEY_ID")
    ensures FieldKey(s, p, SecretKeyField) == Key(s, p + "_SECRET_ACCESS_KEY")
    ensures FieldKey(s, p, PathStyleField) == Key(s, p + "_FORCE_PATH_STYLE")
  {
  }

  /** What a connected application sees of the bucket, name by name. */
  lemma BindingShows(c: Config, x: Binding)
    requires VarInv(c) && x in c.bindings
    ensures x.bucket < |c.buckets|
    ensures var s, p, bucket := x.service, c.bindings[x], c.buckets[x.bucket];
            && Resolve(c, Key(s, p + "_BUCKET"), {}) == Ok(bucket.name)
            && Resolve(c, Key(s, p + "_ENDPOINT"), {}) == Ok(bucket.endpoint)
            && Resolve(c, Key(s, p + "_REGION"), {}) == Ok(bucket.region)
            && Resolve(c, Key(s, p + "_ACCESS_KEY_ID"), {}) == Ok(bucket.sealed.value.accessKey)
            && Resolve(c, Key(s, p + "_SECRET_ACCESS_KEY"), {}) == Ok(bucket.sealed.value.secretKey)
            && Resolve(c, Key(s, p + "_FORCE_PATH_STYLE"), {}) == Ok(if bucket.pathStyle then "true" else "false")
  {
    hide VarInv, Resolve, FieldKey;
    PrefixFields(x.service, c.bindings[x]);
    BindingIsCurrent(c, x, BucketField);
    BindingIsCurrent(c, x, EndpointField);
    BindingIsCurrent(c, x, RegionField);
    BindingIsCurrent(c, x, AccessKeyField);
    BindingIsCurrent(c, x, SecretKeyField);
    BindingIsCurrent(c, x, PathStyleField);
  }

  /******* Databases *******/

  /** The connection to a database whose password was generated as `password`. */
  function ConnectionTo(kind: Kind, host: string, password: string): string
    requires !kind.Http?
  {
    match kind
    case Postgres => "postgres://app:" + password + "@" + host + ":5432/app?sslmode=disable"
    case Redis => "redis://default:" + password + "@" + host + ":6379/0"
    case MySql => "mysql://app:" + password + "@" + host + ":3306/app"
    case Mongo => "mongodb://root:" + password + "@" + host + ":27017/app?authSource=admin"
  }

  /** There is no connection exactly if the variable it is made of is missing or empty. */
  lemma NoConnectionExactly(kind: Kind, host: string, env: map<string, string>)
    requires !kind.Http?
    ensures var name := if kind.Postgres? then "POSTGRES_PASSWORD" else ConnectionName(kind);
            Connection(kind, host, env) == "" <==> name !in env || env[name] == ""
  {
  }

  /** What a new database's environment gives for its connection. */
  lemma NewDatabaseConnects(
    c: Config, place: Place, kind: Kind, host: string, password: string, root: string, env: map<string, string>)
    requires VarInv(c) && !kind.Http? && password != ""
    requires Environment(AddDatabase(c, place, kind, host, password, root).config, |c.services|, env)
    ensures Connection(kind, host, env) == ConnectionTo(kind, host, password)
  {
    hide VarInv, Resolve, TemplateVariables;
    var after := AddDatabase(c, place, kind, host, password, root).config;
    AddDatabaseInv(c, place, kind, host, password, root);
    var name := if kind.Postgres? then "POSTGRES_PASSWORD" else ConnectionName(kind);
    TemplateHas(kind, host, password, root, name);
    var k := Key(|c.services|, name);
    NamesOf(after.vars, |c.services|);
    DatabaseValue(after, k, {});
  }

  lemma TemplateHas(kind: Kind, host: string, password: string, root: string, name: string)
    requires !kind.Http? && name == if kind.Postgres? then "POSTGRES_PASSWORD" else ConnectionName(kind)
    ensures var values := TemplateVariables(kind, host, password, root);
            name in values && values[name] == if kind.Postgres? then password else ConnectionTo(kind, host, password)
  {
  }

  /** A new service comes alone, or with the variables of its template. */
  lemma AddedExactly(c: Config, place: Place, kind: Kind, host: string, password: string, root: string)
    ensures AddApp(c, place) == Outcome(c.(services := c.services + [Owner(place, StoreModel.Http)]), Ok(Unit))
    ensures var after := AddDatabase(c, place, kind, host, password, root);
            && (after.reply.Ok? <==> !kind.Http?)
            && (after.reply.Err? ==> after.config == c)
            && (after.reply.Ok? ==>
                  && after.config == c.(vars := after.config.vars, services := c.services + [Owner(place, kind)])
                  && forall k: Key :: k.service != |c.services| ==> SameRow(c.vars, after.config.vars, k))
  {
    hide TemplateVariables;
  }

  /** The variable of a database that another service binds. */
  function Offered(kind: Kind): string
    requires !kind.Http?
  {
    match kind
    case Postgres => "DATABASE_URL"
    case Redis => "REDIS_URL"
    case MySql => "MYSQL_URL"
    case Mongo => "MONGO_URL"
  }

  /** A database can be bound exactly to an application of its project and environment, under a name that
      could be set there, while its environment gives a connection.  The name is then a reference to what
      the database offers, with the connection as its value for want of that. */
  lemma BindDatabaseExactly(c: Config, database: nat, target: nat, name: string, connection: string)
    ensures var after := BindDatabase(c, database, target, name, connection);
            && (after.reply.Ok? <==>
                  && database < |c.services| && !c.services[database].kind.Http?
                  && target < |c.services| && c.services[target].kind.Http?
                  && c.services[database].place == c.services[target].place
                  && Identifier(name) && 0 < |connection| <= 8192 && !Bound(c, target, name) && |Others(c, target, name)| < 64)
            && (after.reply.Err? ==> after.config == c)
            && (after.reply.Ok? ==>
                  var k := Key(target, name);
                  after.config == c.(
                    vars := c.vars[k := Variable(Sealed(connection, ForVariable(k)), Reference)],
                    refs := c.refs[k := Key(database, Offered(c.services[database].kind))]))
  {
    hide Managed, Names, Identifier, ValidName, Bound, Others;
    IdentifierIsValid(name);
    SetVariableExactly(c, target, name, connection, Secret);
  }

  /** The credentials in a new database's environment, by the names of its engine. */
  datatype Login = Login(user: string, password: string, at: string, port: string, database: string)

  function LoginOf(kind: Kind, host: string, env: map<string, string>): Login {
    match kind
    case Http => Login("", "", "", "", "")
    case Postgres => Login(
      Lookup(env, "POSTGRES_USER"), Lookup(env, "POSTGRES_PASSWORD"), host, "5432", Lookup(env, "POSTGRES_DB"))
    case Redis => Login(Lookup(env, "REDISUSER"), Lookup(env, "REDIS_PASSWORD"), Lookup(env, "REDISHOST"), Lookup(env, "REDISPORT"), "0")
    case MySql => Login(
      Lookup(env, "MYSQL_USER"), Lookup(env, "MYSQL_PASSWORD"), host, "3306", Lookup(env, "MYSQL_DATABASE"))
    case Mongo => Login(
      Lookup(env, "MONGO_INITDB_ROOT_USERNAME"), Lookup(env, "MONGO_INITDB_ROOT_PASSWORD"), host, "27017",
      Lookup(env, "MONGO_INITDB_DATABASE"))
  }

  function Url(kind: Kind, login: Login): string
    requires !kind.Http?
  {
    var scheme := match kind case Postgres => "postgres" case Redis => "redis" case MySql => "mysql" case Mongo => "mongodb";
    var query := match kind case Postgres => "?sslmode=disable" case Mongo => "?authSource=admin" case _ => "";
    (scheme + "://" + login.user + ":") + login.password + "@" + login.at + (":" + login.port + "/" + login.database + query)
  }

  /** The connection that a new database offers is the one with the credentials of its environment. */
  lemma ConnectionUsesCredentials(
    c: Config, place: Place, kind: Kind, host: string, password: string, root: string, env: map<string, string>)
    requires VarInv(c) && !kind.Http? && password != ""
    requires Environment(AddDatabase(c, place, kind, host, password, root).config, |c.services|, env)
    ensures LoginOf(kind, host, env).password == password && LoginOf(kind, host, env).at == host
    ensures Connection(kind, host, env) == Url(kind, LoginOf(kind, host, env))
  {
    hide VarInv, Resolve, TemplateVariables, LoginOf, Url, Connection;
    NewDatabaseConnects(c, place, kind, host, password, root, env);
    var values := TemplateVariables(kind, host, password, root);
    TemplateEnvironment(c, place, kind, host, password, root, env);
    TemplateLogin(kind, host, password, root);
  }

  lemma TemplateEnvironment(
    c: Config, place: Place, kind: Kind, host: string, password: string, root: string, env: map<string, string>)
    requires VarInv(c) && !kind.Http?
    requires Environment(AddDatabase(c, place, kind, host, password, root).config, |c.services|, env)
    ensures env == TemplateVariables(kind, host, password, root)
  {
    hide VarInv, Resolve, TemplateVariables;
    var after, s := AddDatabase(c, place, kind, host, password, root).config, |c.services|;
    var values := TemplateVariables(kind, host, password, root);
    AddDatabaseInv(c, place, kind, host, password, root);
    NamesOf(after.vars, s);
    NoneYet(c);
    forall name ensures name in env <==> name in values {
      assert Key(s, name).service == s;
    }
    forall name | name in env ensures env[name] == values[name] {
      DatabaseValue(after, Key(s, name), {});
    }
  }

  lemma NoneYet(c: Config)
    requires VarInv(c)
    ensures forall k :: k in c.vars ==> k.service < |c.services|
  {
  }

  lemma TemplateLogin(kind: Kind, host: string, password: string, root: string)
    requires !kind.Http?
    ensures var login := LoginOf(kind, host, TemplateVariables(kind, host, password, root));
            login.password == password && login.at == host && Url(kind, login) == ConnectionTo(kind, host, password)
  {
    hide LoginOf, TemplateVariables;
    LoginIs(kind, host, password, root);
    ConnectionHeads();
    ConnectionTails();
  }

  lemma ConnectionHeads()
    ensures "postgres" + "://" + "app" + ":" == "postgres://app:" && "redis" + "://" + "default" + ":" == "redis://default:"
    ensures "mysql" + "://" + "app" + ":" == "mysql://app:" && "mongodb" + "://" + "root" + ":" == "mongodb://root:"
  {
  }

  lemma ConnectionTails()
    ensures ":" + "5432" + "/" + "app" + "?sslmode=disable" == ":5432/app?sslmode=disable"
    ensures ":" + "6379" + "/" + "0" + "" == ":6379/0" && ":" + "3306" + "/" + "app" + "" == ":3306/app"
    ensures ":" + "27017" + "/" + "app" + "?authSource=admin" == ":27017/app?authSource=admin"
  {
  }

  lemma LoginIs(kind: Kind, host: string, password: string, root: string)
    requires !kind.Http?
    ensures LoginOf(kind, host, TemplateVariables(kind, host, password, root)) ==
            match kind
            case Postgres => Login("app", password, host, "5432", "app")
            case Redis => Login("default", password, host, "6379", "0")
            case MySql => Login("app", password, host, "3306", "app")
            case Mongo => Login("root", password, host, "27017", "app")
  {
  }
}
