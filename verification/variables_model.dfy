/** The variables of the services, the references between them and the buckets' bindings, with
    one function for each transaction on them.  Rows are keyed as in the tables; an error leaves
    everything as it was. */
module VariableModel {
  import opened Common
  import StoreModel

  type Place = StoreModel.Scope
  type Kind = StoreModel.Kind

  datatype Key = Key(service: nat, name: string)

  /** A sealed value opens only for the purpose it was sealed for. */
  datatype Purpose = ForVariable(key: Key) | ForBucket(bucket: nat)
  datatype Sealed<T> = Sealed(value: T, purpose: Purpose)

  function Open<T>(sealed: Sealed<T>, purpose: Purpose): Option<T> {
    if sealed.purpose == purpose then Some(sealed.value) else None
  }

  datatype VariableKind = Secret | Plain | Reference
  datatype Variable = Variable(sealed: Sealed<string>, kind: VariableKind)

  datatype Owner = Owner(place: Place, kind: Kind)

  datatype Credentials = Credentials(accessKey: string, secretKey: string)
  datatype Bucket = Bucket(
    place: Place, name: string, endpoint: string, region: string, pathStyle: bool, version: nat,
    sealed: Sealed<Credentials>)
  datatype Binding = Binding(bucket: nat, service: nat)

  datatype Config = Config(
    services: seq<Owner>, vars: map<Key, Variable>, refs: map<Key, Key>,
    buckets: seq<Bucket>, bindings: map<Binding, string>)

  datatype Failure =
    | NotFound | TemplateManaged | Invalid | BucketManaged | Full | WrongPlace | Cyclic | Collision
    | Undecipherable | Unresolved | Referenced | NoCredentials | PrefixTaken | PrefixFixed

  datatype Outcome = Outcome(config: Config, reply: Result<Unit, Failure>)

  const MAX_VARIABLES: nat := 64

  function Nothing(): Config {
    Config([], map[], map[], [], map[])
  }

  predicate IsApp(services: seq<Owner>, s: nat) {
    s < |services| && !StoreModel.IsData(services[s].kind)
  }

  predicate IsDatabase(services: seq<Owner>, s: nat) {
    s < |services| && StoreModel.IsData(services[s].kind)
  }

  /** The names of a service's variables. */
  function Names(vars: map<Key, Variable>, s: nat): set<string> {
    set k | k in vars && k.service == s :: k.name
  }

  predicate Letter(c: char) {
    'A' <= c <= 'Z' || 'a' <= c <= 'z' || c == '_'
  }

  predicate ValidName(name: string) {
    && 1 <= |name| <= 128 && Letter(name[0])
    && forall i :: 1 <= i < |name| ==> Letter(name[i]) || '0' <= name[i] <= '9'
  }

  predicate ValidPrefix(prefix: string) {
    && 1 <= |prefix| <= 32 && 'A' <= prefix[0] <= 'Z'
    && forall i :: 1 <= i < |prefix| ==> 'A' <= prefix[i] <= 'Z' || '0' <= prefix[i] <= '9' || prefix[i] == '_'
  }

  /******* The six variables of a binding *******/

  datatype Field = BucketField | EndpointField | RegionField | AccessKeyField | SecretKeyField | PathStyleField

  const FIELDS: seq<Field> := [BucketField, EndpointField, RegionField, AccessKeyField, SecretKeyField, PathStyleField]

  function Suffix(field: Field): string {
    match field
    case BucketField => "_BUCKET"
    case EndpointField => "_ENDPOINT"
    case RegionField => "_REGION"
    case AccessKeyField => "_ACCESS_KEY_ID"
    case SecretKeyField => "_SECRET_ACCESS_KEY"
    case PathStyleField => "_FORCE_PATH_STYLE"
  }

  function FieldKey(s: nat, prefix: string, field: Field): Key {
    Key(s, prefix + Suffix(field))
  }

  function FieldValue(bucket: Bucket, credentials: Credentials, field: Field): string {
    match field
    case BucketField => bucket.name
    case EndpointField => bucket.endpoint
    case RegionField => bucket.region
    case AccessKeyField => credentials.accessKey
    case SecretKeyField => credentials.secretKey
    case PathStyleField => if bucket.pathStyle then "true" else "false"
  }

  predicate Managed(bindings: map<Binding, string>, s: nat, name: string) {
    exists b, field :: b in bindings && b.service == s && Key(s, name) == FieldKey(s, bindings[b], field)
  }

  /******* Services *******/

  function AddApp(c: Config, place: Place): Outcome {
    Outcome(c.(services := c.services + [Owner(place, StoreModel.Http)]), Ok(Unit))
  }

  /** The credentials that a template generates for a new database. */
  function TemplateVariables(kind: Kind, host: string, password: string, root: string): map<string, string> {
    match kind
    case Http => map[]
    case Postgres => map["POSTGRES_USER" := "app", "POSTGRES_DB" := "app", "POSTGRES_PASSWORD" := password]
    case Redis =>
      map["REDISHOST" := host, "REDISUSER" := "default", "REDISPORT" := "6379", "REDIS_PASSWORD" := password,
          "REDIS_URL" := "redis://default:" + password + "@" + host + ":6379/0"]
    case MySql =>
      map["MYSQL_ROOT_PASSWORD" := root, "MYSQL_DATABASE" := "app", "MYSQL_USER" := "app", "MYSQL_PASSWORD" := password,
          "MYSQL_URL" := "mysql://app:" + password + "@" + host + ":3306/app"]
    case Mongo =>
      map["MONGO_INITDB_ROOT_USERNAME" := "root", "MONGO_INITDB_ROOT_PASSWORD" := password, "MONGO_INITDB_DATABASE" := "app",
          "MONGO_URL" := "mongodb://root:" + password + "@" + host + ":27017/app?authSource=admin"]
  }

  function SealAll(s: nat, values: map<string, string>): map<Key, Variable> {
    map k | k in (set name | name in values :: Key(s, name)) :: Variable(Sealed(values[k.name], ForVariable(k)), Secret)
  }

  function AddDatabase(c: Config, place: Place, kind: Kind, host: string, password: string, root: string): Outcome {
    if !StoreModel.IsData(kind) then Outcome(c, Err(Invalid))
    else
      Outcome(
        c.(services := c.services + [Owner(place, kind)],
           vars := c.vars + SealAll(|c.services|, TemplateVariables(kind, host, password, root))),
        Ok(Unit))
  }

  /******* Variables *******/

  function SetVariable(c: Config, s: nat, name: string, value: string, kind: VariableKind): Outcome {
    if s >= |c.services| then Outcome(c, Err(NotFound))
    else if IsDatabase(c.services, s) then Outcome(c, Err(TemplateManaged))
    else if !ValidName(name) || |value| > 8192 || kind.Reference? then Outcome(c, Err(Invalid))
    else if Managed(c.bindings, s, name) then Outcome(c, Err(BucketManaged))
    else if |Names(c.vars, s) - {name}| >= MAX_VARIABLES then Outcome(c, Err(Full))
    else
      var k := Key(s, name);
      Outcome(c.(vars := c.vars[k := Variable(Sealed(value, ForVariable(k)), kind)], refs := c.refs - {k}), Ok(Unit))
  }

  /******* References *******/

  predicate Edge(refs: map<Key, Key>, a: nat, b: nat) {
    exists k :: k in refs && k.service == a && refs[k].service == b
  }

  ghost predicate Path(refs: map<Key, Key>, p: seq<nat>) {
    |p| >= 2 && forall i :: 0 <= i < |p| - 1 ==> Edge(refs, p[i], p[i + 1])
  }

  ghost predicate Between(refs: map<Key, Key>, p: seq<nat>, a: nat, b: nat) {
    Path(refs, p) && p[0] == a && p[|p| - 1] == b
  }

  /** Service `b` is reached from service `a` by one or more references. */
  ghost predicate Reaches(refs: map<Key, Key>, a: nat, b: nat) {
    exists p :: Between(refs, p, a, b)
  }

  ghost function SetReference(c: Config, source: nat, name: string, target: nat, targetName: string): Outcome {
    if !ValidName(name) || !ValidName(targetName) || source == target then Outcome(c, Err(Invalid))
    else if Managed(c.bindings, source, name) then Outcome(c, Err(BucketManaged))
    else if !IsApp(c.services, source) || target >= |c.services| || c.services[source].place != c.services[target].place then
      Outcome(c, Err(WrongPlace))
    else if Key(target, targetName) !in c.vars then Outcome(c, Err(NotFound))
    else if Reaches(c.refs, target, source) then Outcome(c, Err(Cyclic))
    else if |Names(c.vars, source) - {name}| >= MAX_VARIABLES then Outcome(c, Err(Full))
    else
      var k := Key(source, name);
      Outcome(
        c.(vars := c.vars[k := Variable(Sealed("", ForVariable(k)), Reference)], refs := c.refs[k := Key(target, targetName)]),
        Ok(Unit))
  }

  function Moved(k: Key, before: Key, after: Key): Key {
    if k == before then after else k
  }

  function MoveSource(refs: map<Key, Key>, before: Key, after: Key): map<Key, Key> {
    if before in refs then (refs - {before})[after := refs[before]] else refs
  }

  function MoveTargets(refs: map<Key, Key>, before: Key, after: Key): map<Key, Key> {
    map k | k in refs :: Moved(refs[k], before, after)
  }

  function RenameVariable(c: Config, s: nat, oldName: string, newName: string): Outcome {
    var before, after := Key(s, oldName), Key(s, newName);
    if !ValidName(oldName) || !ValidName(newName) || oldName == newName then Outcome(c, Err(Invalid))
    else if s >= |c.services| then Outcome(c, Err(NotFound))
    else if IsDatabase(c.services, s) then Outcome(c, Err(TemplateManaged))
    else if Managed(c.bindings, s, oldName) || Managed(c.bindings, s, newName) then Outcome(c, Err(BucketManaged))
    else if before !in c.vars then Outcome(c, Err(NotFound))
    else if after in c.vars then Outcome(c, Err(Collision))
    else
      var plain := Open(c.vars[before].sealed, ForVariable(before));
      if plain.None? then Outcome(c, Err(Undecipherable))
      else if before in c.refs && after in c.refs then
        // A reference row can outlive its variable; the update then breaks the primary key.
        Outcome(c, Err(Collision))
      else
        Outcome(
          c.(vars := (c.vars - {before})[after := Variable(Sealed(plain.value, ForVariable(after)), c.vars[before].kind)],
             refs := MoveTargets(MoveSource(c.refs, before, after), before, after)),
          Ok(Unit))
  }

  predicate IsTarget(refs: map<Key, Key>, k: Key) {
    exists j :: j in refs && refs[j] == k
  }

  function DeleteVariable(c: Config, s: nat, name: string): Outcome {
    var k := Key(s, name);
    if Managed(c.bindings, s, name) then Outcome(c, Err(BucketManaged))
    else if IsTarget(c.refs, k) then Outcome(c, Err(Referenced))
    else Outcome(c.(vars := c.vars - {k}, refs := c.refs - {k}), Ok(Unit))
  }

  /******* Resolution *******/

  datatype ResolveError = NoRow | Cycle | Unreadable

  /** `resolveVariable`: follow references, remembering the keys on the way. */
  function Resolve(c: Config, k: Key, visiting: set<Key>): Result<string, ResolveError>
    decreases c.vars.Keys - visiting
  {
    if k in visiting then Err(Cycle)
    else if k !in c.vars then Err(NoRow)
    else
      var fallback := Open(c.vars[k].sealed, ForVariable(k));
      if fallback.None? then Err(Unreadable)
      else if !c.vars[k].kind.Reference? then Ok(fallback.value)
      else if k !in c.refs then (if fallback.value != "" then Ok(fallback.value) else Err(NoRow))
      else
        var resolved := Resolve(c, c.refs[k], visiting + {k});
        if resolved == Err(NoRow) && fallback.value != "" then Ok(fallback.value) else resolved
  }

  /** The environment of a service: every variable, resolved. */
  ghost predicate Environment(c: Config, s: nat, env: map<string, string>) {
    && env.Keys == Names(c.vars, s)
    && forall name :: name in env ==> Resolve(c, Key(s, name), {}) == Ok(env[name])
  }

  /******* Binding a database: three transactions *******/

  function Lookup(env: map<string, string>, name: string): string {
    if name in env then env[name] else ""
  }

  function Connection(kind: Kind, host: string, env: map<string, string>): string {
    match kind
    case Http => ""
    case Postgres =>
      var password := Lookup(env, "POSTGRES_PASSWORD");
      if password == "" then "" else "postgres://app:" + password + "@" + host + ":5432/app?sslmode=disable"
    case Redis => Lookup(env, "REDIS_URL")
    case MySql => Lookup(env, "MYSQL_URL")
    case Mongo => Lookup(env, "MONGO_URL")
  }

  function ConnectionName(kind: Kind): string {
    match kind
    case Http => ""
    case Postgres => "DATABASE_URL"
    case Redis => "REDIS_URL"
    case MySql => "MYSQL_URL"
    case Mongo => "MONGO_URL"
  }

  predicate Bindable(c: Config, database: nat, target: nat) {
    && IsDatabase(c.services, database) && IsApp(c.services, target)
    && c.services[database].place == c.services[target].place
  }

  /** The second transaction: the reference row. */
  function LinkDatabase(c: Config, database: nat, target: nat, name: string): Config
    requires database < |c.services|
  {
    c.(refs := c.refs[Key(target, name) := Key(database, ConnectionName(c.services[database].kind))])
  }

  /** The third transaction: the variable becomes a reference. */
  function MarkReference(c: Config, target: nat, name: string): Config {
    var k := Key(target, name);
    if k in c.vars then c.(vars := c.vars[k := c.vars[k].(kind := Reference)]) else c
  }

  /** All three, when nobody else comes in between. */
  function BindDatabase(c: Config, database: nat, target: nat, name: string, connection: string): Outcome {
    if !ValidName(name) then Outcome(c, Err(Invalid))
    else if !Bindable(c, database, target) then Outcome(c, Err(WrongPlace))
    else if connection == "" then Outcome(c, Err(NoCredentials))
    else
      var stored := SetVariable(c, target, name, connection, Secret);
      if stored.reply.Err? then stored
      else Outcome(MarkReference(LinkDatabase(stored.config, database, target, name), target, name), Ok(Unit))
  }

  /******* Buckets *******/

  function CreateBucket(c: Config, bucket: Bucket, credentials: Credentials, valid: bool): Outcome {
    if !valid then Outcome(c, Err(Invalid))
    else
      var row := bucket.(version := 1, sealed := Sealed(credentials, ForBucket(|c.buckets|)));
      Outcome(c.(buckets := c.buckets + [row]), Ok(Unit))
  }

  /** The variable keeps its kind when it exists. */
  function WriteField(vars: map<Key, Variable>, s: nat, prefix: string, bucket: Bucket, credentials: Credentials, field: Field)
    : map<Key, Variable>
  {
    var k := FieldKey(s, prefix, field);
    vars[k := Variable(Sealed(FieldValue(bucket, credentials, field), ForVariable(k)), if k in vars then vars[k].kind else Secret)]
  }

  function WriteFields(
    vars: map<Key, Variable>, s: nat, prefix: string, bucket: Bucket, credentials: Credentials, fields: seq<Field>)
    : map<Key, Variable>
  {
    if |fields| == 0 then vars
    else
      var last := |fields| - 1;
      WriteField(WriteFields(vars, s, prefix, bucket, credentials, fields[..last]), s, prefix, bucket, credentials, fields[last])
  }

  function FieldKeys(s: nat, prefix: string): set<Key> {
    set field | field in FIELDS :: FieldKey(s, prefix, field)
  }

  predicate PrefixUsed(bindings: map<Binding, string>, b: nat, s: nat, prefix: string) {
    exists other :: other in bindings && other.service == s && other.bucket != b && bindings[other] == prefix
  }

  /** `prefix` is already trimmed and in upper case. */
  function BindBucket(c: Config, b: nat, s: nat, prefix: string): Outcome {
    var binding := Binding(b, s);
    if !ValidPrefix(prefix) then Outcome(c, Err(Invalid))
    else if b >= |c.buckets| then Outcome(c, Err(NotFound))
    else if !IsApp(c.services, s) || c.services[s].place != c.buckets[b].place then Outcome(c, Err(WrongPlace))
    else if binding in c.bindings && c.bindings[binding] != prefix then Outcome(c, Err(PrefixFixed))
    else if PrefixUsed(c.bindings, b, s, prefix) then Outcome(c, Err(PrefixTaken))
    else if binding !in c.bindings && FieldKeys(s, prefix) * c.vars.Keys != {} then Outcome(c, Err(Collision))
    else if binding !in c.bindings && |Names(c.vars, s)| + |FIELDS| > MAX_VARIABLES then Outcome(c, Err(Full))
    else
      var credentials := Open(c.buckets[b].sealed, ForBucket(b));
      if credentials.None? then Outcome(c, Err(Undecipherable))
      else
        Outcome(
          c.(vars := WriteFields(c.vars, s, prefix, c.buckets[b], credentials.value, FIELDS),
             bindings := c.bindings[binding := prefix]),
          Ok(Unit))
  }

  /** The variables of all bindings of a bucket among the first `n` services, rewritten. */
  function Rewrite(
    vars: map<Key, Variable>, bindings: map<Binding, string>, b: nat, bucket: Bucket, credentials: Credentials, n: nat)
    : map<Key, Variable>
  {
    if n == 0 then vars
    else
      var earlier := Rewrite(vars, bindings, b, bucket, credentials, n - 1);
      var binding := Binding(b, n - 1);
      if binding in bindings then WriteFields(earlier, n - 1, bindings[binding], bucket, credentials, FIELDS) else earlier
  }

  function RotateBucketCredentials(c: Config, b: nat, credentials: Credentials, valid: bool): Outcome {
    if !valid then Outcome(c, Err(Invalid))
    else if b >= |c.buckets| then Outcome(c, Err(NotFound))
    else
      var bucket := c.buckets[b].(version := c.buckets[b].version + 1, sealed := Sealed(credentials, ForBucket(b)));
      Outcome(
        c.(buckets := c.buckets[b := bucket],
           vars := Rewrite(c.vars, c.bindings, b, bucket, credentials, |c.services|)),
        Ok(Unit))
  }

  function UnbindBucket(c: Config, b: nat, s: nat): Outcome {
    var binding := Binding(b, s);
    if binding !in c.bindings then Outcome(c, Err(NotFound))
    else
      Outcome(
        c.(vars := c.vars - FieldKeys(s, c.bindings[binding]), bindings := c.bindings - {binding}),
        Ok(Unit))
  }
}
