/** Concrete runs of edits that show what the conditions on them are for. */
module VariableExamples {
  import opened Common
  import opened VariableModel
  import opened ReferenceGraph
  import opened BucketBindings
  import opened VariableRuns
  import StoreModel

  function Here(): Place {
    StoreModel.Scope(0, "production")
  }

  function App(): Owner {
    Owner(Here(), StoreModel.Http)
  }

  lemma {:induction false} AfterOne(c: Config, edit: Edit, rest: seq<Edit>)
    ensures AfterEdits(c, [edit] + rest) == AfterEdits(Edited(c, edit), rest)
  {
    hide Edited;
    assert ([edit] + rest)[1..] == rest;
  }

  lemma NamesOfNobody(vars: map<Key, Variable>, s: nat, name: string)
    requires forall k :: k in vars && k.service == s ==> k.name == name
    ensures |Names(vars, s) - {name}| == 0
  {
    assert Names(vars, s) - {name} == {};
  }

  lemma NoManaged(s: nat, name: string)
    ensures !Managed(map[], s, name)
  {
  }

  /******* A bucket is disconnected whose variable another application refers to *******/

  function Sample(): Bucket {
    Bucket(Here(), "data", "https://s3.test", "", true, 1, Sealed(Credentials("key", "secret-key"), ForBucket(0)))
  }

  function Connected(): Config {
    Config([App(), App()], WriteFields(map[], 0, "S", Sample(), Credentials("key", "secret-key"), FIELDS), map[], [Sample()],
           map[Binding(0, 0) := "S"])
  }

  lemma ConnectFirst()
    ensures BindBucket(Config([App(), App()], map[], map[], [Sample()], map[]), 0, 0, "S") == Outcome(Connected(), Ok(Unit))
  {
    hide WriteFields, FieldKeys;
    var c := Config([App(), App()], map[], map[], [Sample()], map[]);
    assert Names(c.vars, 0) == {};
    assert FieldKeys(0, "S") * c.vars.Keys == {};
  }

  function BucketKey(): Key {
    FieldKey(0, "S", BucketField)
  }

  function Referring(): Config {
    var k := Key(1, "X");
    Connected().(vars := Connected().vars[k := Variable(Sealed("", ForVariable(k)), Reference)], refs := map[k := BucketKey()])
  }

  lemma ReferToBucket()
    ensures SetReference(Connected(), 1, "X", 0, BucketKey().name) == Outcome(Referring(), Ok(Unit))
  {
    hide WriteFields, FieldKeys, Reaches;
    var c := Connected();
    WritesAll(map[], 0, "S", Sample(), Credentials("key", "secret-key"));
    FieldKeyService(0, "S", BucketField);
    assert BucketKey() in c.vars;
    assert !Managed(c.bindings, 1, "X");
    NoReferences(map[], 0, 1);
    forall k | k in c.vars ensures k.service == 0 {
      KeyService(0, "S", k);
    }
    NamesOfNobody(c.vars, 1, "X");
    assert BucketKey().name == "S_BUCKET" && ValidName("S_BUCKET") && ValidName("X");
  }

  /** An application is connected to a bucket, and another one refers to a variable of the connection. */
  function Referral(): seq<Edit> {
    [NewApp(Here())] + ([NewApp(Here())] + ([NewBucket(Sample(), Credentials("key", "secret-key"), true)]
      + ([Connect(0, 0, "S")] + ([Refer(1, "X", 0, BucketKey().name)] + []))))
  }

  lemma Created(rest: seq<Edit>)
    ensures AfterEdits(Nothing(), [NewApp(Here())] + ([NewApp(Here())]
                         + ([NewBucket(Sample(), Credentials("key", "secret-key"), true)] + rest)))
         == AfterEdits(Config([App(), App()], map[], map[], [Sample()], map[]), rest)
  {
    hide AfterEdits;
    var bucket := NewBucket(Sample(), Credentials("key", "secret-key"), true);
    AfterOne(Nothing(), NewApp(Here()), [NewApp(Here())] + ([bucket] + rest));
    AfterOne(Nothing().(services := [App()]), NewApp(Here()), [bucket] + rest);
    AfterOne(Nothing().(services := [App(), App()]), bucket, rest);
    assert Edited(Nothing(), NewApp(Here())) == Nothing().(services := [App()]);
    assert Edited(Nothing().(services := [App()]), NewApp(Here())) == Nothing().(services := [App(), App()]);
    assert Edited(Nothing().(services := [App(), App()]), bucket) == Config([App(), App()], map[], map[], [Sample()], map[]);
  }

  lemma Referred()
    ensures AfterEdits(Nothing(), Referral()) == Referring()
  {
    hide AfterEdits, Connected, Referring, WriteFields, FieldKeys, BindBucket, SetReference;
    var refer := Refer(1, "X", 0, BucketKey().name);
    var c := Config([App(), App()], map[], map[], [Sample()], map[]);
    Created([Connect(0, 0, "S")] + ([refer] + []));
    AfterOne(c, Connect(0, 0, "S"), [refer] + []);
    ConnectFirst();
    AfterOne(Connected(), refer, []);
    ReferToBucket();
    NoEdit(Referring());
  }

  /** The reference dangles, and its service can no longer be deployed. */
  lemma ReferredBucketDisconnected()
    ensures var k, c := Key(1, "X"), AfterEdits(Nothing(), Referral());
            var disconnected := Edited(c, Disconnect(0, 0));
            && k in c.vars && Resolve(c, k, {}) == Ok("data")
            && k in disconnected.vars && Resolve(disconnected, k, {}) == Err(NoRow)
  {
    hide AfterEdits, Referring, Resolve, UnbindBucket;
    Referred();
    ShowsBucket();
    Disconnected();
  }

  lemma ShowsBucket()
    ensures Key(1, "X") in Referring().vars && Resolve(Referring(), Key(1, "X"), {}) == Ok("data")
  {
    hide WriteFields, FieldKeys;
    WritesAll(map[], 0, "S", Sample(), Credentials("key", "secret-key"));
    FieldKeyService(0, "S", BucketField);
    var c := Connected();
    assert FieldWritten(map[], c.vars, 0, "S", Sample(), Credentials("key", "secret-key"), BucketField);
    assert Referring().vars[BucketKey()] == c.vars[BucketKey()];
    assert Resolve(Referring(), BucketKey(), {Key(1, "X")}) == Ok("data");
  }

  lemma NoEdit(c: Config)
    ensures AfterEdits(c, []) == c
  {
  }

  lemma Disconnected()
    ensures var k, c := Key(1, "X"), UnbindBucket(Referring(), 0, 0).config;
            k in c.vars && Resolve(c, k, {}) == Err(NoRow)
  {
    hide WriteFields, FieldKeys;
    var c := UnbindBucket(Referring(), 0, 0).config;
    FieldKeyService(0, "S", BucketField);
    if Key(1, "X") in FieldKeys(0, "S") {
      KeyService(0, "S", Key(1, "X"));
    }
    assert BucketKey() !in c.vars && Key(1, "X") in c.vars;
    assert Resolve(c, BucketKey(), {Key(1, "X")}) == Err(NoRow);
  }

  /******* Edits between the transactions of a binding *******/

  /** Two applications and a PostgreSQL database. */
  function Three(): Config {
    Config([App(), App(), Owner(Here(), StoreModel.Postgres)],
           SealAll(2, TemplateVariables(StoreModel.Postgres, "db", "pw", "")), map[], [], map[])
  }

  function Creations(): seq<Edit> {
    [NewApp(Here()), NewApp(Here()), NewDatabase(Here(), StoreModel.Postgres, "db", "pw", "")]
  }

  lemma ThreeServices()
    ensures AfterEdits(Nothing(), Creations()) == Three()
  {
    hide SealAll, TemplateVariables;
    var e := NewDatabase(Here(), StoreModel.Postgres, "db", "pw", "");
    AfterOne(Nothing(), NewApp(Here()), [NewApp(Here()), e]);
    AfterOne(Nothing().(services := [App()]), NewApp(Here()), [e]);
    var two := Nothing().(services := [App(), App()]);
    AfterOne(two, e, []);
    NoEdit(Edited(two, e));
    assert [NewApp(Here())] + [NewApp(Here()), e] == [NewApp(Here()), NewApp(Here()), e];
    assert [NewApp(Here())] + [e] == [NewApp(Here()), e] && [e] + [] == [e];
    assert two.vars + SealAll(2, TemplateVariables(StoreModel.Postgres, "db", "pw", "")) == Three().vars;
  }

  lemma ThreeOwners(k: Key)
    requires k in Three().vars
    ensures k.service == 2 && k != Key(2, "DATABASE_URL")
  {
    hide TemplateVariables;
    VariableInvariantFacts();
  }

  lemma VariableInvariantFacts()
    ensures "DATABASE_URL" !in TemplateVariables(StoreModel.Postgres, "db", "pw", "")
  {
    assert |"DATABASE_URL"| == 12 && |"POSTGRES_USER"| == 13 && |"POSTGRES_DB"| == 11 && |"POSTGRES_PASSWORD"| == 17;
  }

  function Row(k: Key, value: string, kind: VariableKind): Variable {
    Variable(Sealed(value, ForVariable(k)), kind)
  }

  /** The first transaction has stored the connection, and the other application has a variable. */
  function Stored(connection: string): Config {
    var other, bound := Key(1, "A"), Key(0, "DB");
    Three().(vars := Three().vars[other := Row(other, "v", Secret)][bound := Row(bound, connection, Secret)])
  }

  /** The first transaction of a binding, in the run so far. */
  function Storing(connection: string): seq<Edit> {
    Creations() + [Set(1, "A", "v", Secret), Set(0, "DB", connection, Secret)]
  }

  lemma StoreConnection(connection: string)
    requires |connection| <= 8192
    ensures AfterEdits(Nothing(), Storing(connection)) == Stored(connection)
  {
    hide Three, Creations, AfterEdits;
    StoreEach(connection);
    var c := SetVariable(Three(), 1, "A", "v", Secret).config;
    ThreeServices();
    EditsOneAfterTheOther(Nothing(), Creations(), [Set(1, "A", "v", Secret), Set(0, "DB", connection, Secret)]);
    AfterOne(Three(), Set(1, "A", "v", Secret), [Set(0, "DB", connection, Secret)]);
    AfterOne(c, Set(0, "DB", connection, Secret), []);
    NoEdit(Stored(connection));
    assert [Set(1, "A", "v", Secret)] + [Set(0, "DB", connection, Secret)]
        == [Set(1, "A", "v", Secret), Set(0, "DB", connection, Secret)];
    assert [Set(0, "DB", connection, Secret)] + [] == [Set(0, "DB", connection, Secret)];
  }

  lemma StoreEach(connection: string)
    requires |connection| <= 8192
    ensures SetVariable(SetVariable(Three(), 1, "A", "v", Secret).config, 0, "DB", connection, Secret)
         == Outcome(Stored(connection), Ok(Unit))
  {
    hide SealAll, TemplateVariables, Managed;
    forall k | k in Three().vars ensures k.service == 2 {
      ThreeOwners(k);
    }
    NoManaged(1, "A");
    NoManaged(0, "DB");
    NamesOfNobody(Three().vars, 1, "A");
    assert ValidName("A") && ValidName("DB");
    var c := Three().(vars := Three().vars[Key(1, "A") := Row(Key(1, "A"), "v", Secret)]);
    assert Three().refs - {Key(1, "A")} == Three().refs;
    assert SetVariable(Three(), 1, "A", "v", Secret).config == c;
    NamesOfNobody(c.vars, 0, "DB");
    assert c.refs - {Key(0, "DB")} == c.refs;
  }

  function Diverted(connection: string): Config {
    var k := Key(0, "DB");
    Stored(connection).(vars := Stored(connection).vars[k := Row(k, "", Reference)], refs := map[k := Key(1, "A")])
  }

  /** Somebody makes the variable a reference before the second transaction: it shows what it refers
      to, and that transaction takes its value away. */
  lemma ReferenceInBetween(connection: string)
    requires |connection| <= 8192
    ensures var k, stored := Key(0, "DB"), AfterEdits(Nothing(), Storing(connection));
            var diverted := Edited(stored, Refer(0, "DB", 1, "A"));
            var linked := Edited(diverted, Link(2, 0, "DB"));
            && k in stored.vars && Resolve(stored, k, {}) == Ok(connection)
            && k in diverted.vars && Resolve(diverted, k, {}) == Ok("v")
            && k in linked.vars && Resolve(linked, k, {}) == Err(NoRow)
  {
    hide Three, AfterEdits, Storing;
    StoreConnection(connection);
    ThreeLong();
    NoRowThere();
    ReferInBetween(connection);
    assert Resolve(Diverted(connection), Key(1, "A"), {Key(0, "DB")}) == Ok("v");
    LinkAway(Diverted(connection));
  }

  lemma ReferInBetween(connection: string)
    ensures SetReference(Stored(connection), 0, "DB", 1, "A")
         == Outcome(Diverted(connection), Ok(Unit))
  {
    hide SealAll, TemplateVariables, Managed, Reaches;
    forall k | k in Three().vars ensures k.service == 2 {
      ThreeOwners(k);
    }
    NoManaged(0, "DB");
    NamesOfNobody(Stored(connection).vars, 0, "DB");
    NoReferences(map[], 1, 0);
    assert ValidName("A") && ValidName("DB");
  }

  lemma LinkAway(c: Config)
    requires c.services == Three().services && (forall k :: k in c.vars && k.service == 2 ==> k in Three().vars)
    requires Key(0, "DB") in c.vars && c.vars[Key(0, "DB")] == Row(Key(0, "DB"), "", Reference)
    ensures Resolve(LinkDatabase(c, 2, 0, "DB"), Key(0, "DB"), {}) == Err(NoRow)
  {
    hide SealAll, TemplateVariables;
    var k, to, linked := Key(0, "DB"), Key(2, "DATABASE_URL"), LinkDatabase(c, 2, 0, "DB");
    if to in c.vars {
      ThreeOwners(to);
    }
    assert Resolve(linked, to, {k}) == Err(NoRow);
  }

  function Emptied(connection: string): Config {
    var k := Key(0, "DB");
    Stored(connection).(vars := Stored(connection).vars[k := Row(k, "", Secret)])
  }

  /** Somebody empties the variable before the third transaction, which takes its value away. */
  lemma EmptiedInBetween(connection: string)
    requires |connection| <= 8192
    ensures var k, linked := Key(0, "DB"), Edited(AfterEdits(Nothing(), Storing(connection)), Link(2, 0, "DB"));
            var emptied := Edited(linked, Set(0, "DB", "", Secret));
            var marked := Edited(emptied, Mark(0, "DB"));
            && k in linked.vars && Resolve(linked, k, {}) == Ok(connection)
            && k in emptied.vars && Resolve(emptied, k, {}) == Ok("")
            && k in marked.vars && Resolve(marked, k, {}) == Err(NoRow)
  {
    hide Three, AfterEdits, Storing;
    StoreConnection(connection);
    ThreeLong();
    NoRowThere();
    EmptyInBetween(connection);
  }

  lemma NoRowThere()
    ensures Key(0, "DB") !in Three().refs
  {
  }

  lemma ThreeLong()
    ensures |Three().services| == 3
  {
  }

  lemma EmptyInBetween(connection: string)
    ensures SetVariable(LinkDatabase(Stored(connection), 2, 0, "DB"), 0, "DB", "", Secret)
         == Outcome(Emptied(connection), Ok(Unit))
  {
    hide SealAll, TemplateVariables, Managed;
    forall k | k in Three().vars ensures k.service == 2 {
      ThreeOwners(k);
    }
    NoManaged(0, "DB");
    NamesOfNobody(Stored(connection).vars, 0, "DB");
    assert ValidName("DB");
    var linked := LinkDatabase(Stored(connection), 2, 0, "DB");
    assert linked.refs - {Key(0, "DB")} == Stored(connection).refs;
  }

  /******* A rename that adopts a row *******/

  /** An application and a Redis database. */
  function Two(): Config {
    Config([App(), Owner(Here(), StoreModel.Redis)], SealAll(1, TemplateVariables(StoreModel.Redis, "db", "pw", "")), map[], [], map[])
  }

  lemma TwoServices()
    ensures AfterEdits(Nothing(), [NewApp(Here()), NewDatabase(Here(), StoreModel.Redis, "db", "pw", "")]) == Two()
  {
    hide SealAll, TemplateVariables;
    var e := NewDatabase(Here(), StoreModel.Redis, "db", "pw", "");
    var one := Nothing().(services := [App()]);
    AfterOne(Nothing(), NewApp(Here()), [e]);
    AfterOne(one, e, []);
    NoEdit(Edited(one, e));
    assert [NewApp(Here())] + [e] == [NewApp(Here()), e] && [e] + [] == [e];
    assert one.vars + SealAll(1, TemplateVariables(StoreModel.Redis, "db", "pw", "")) == Two().vars;
  }

  lemma RedisUrl()
    ensures Key(1, "REDIS_URL") in Two().vars && Two().vars[Key(1, "REDIS_URL")].sealed.value != "x"
    ensures forall k :: k in Two().vars ==> k.service == 1
  {
    var values := TemplateVariables(StoreModel.Redis, "db", "pw", "");
    assert "REDIS_URL" in values && |values["REDIS_URL"]| > 1;
    assert Key(1, "REDIS_URL") in SealAll(1, values);
  }

  /** A binding of NEW lost its variable before its second transaction, and a binding of OLD had its
      variable set anew before its third. */
  function Leftovers(): Config {
    var former, later := Key(0, "OLD"), Key(0, "NEW");
    Two().(vars := Two().vars[former := Row(former, "x", Reference)], refs := map[later := Key(1, "REDIS_URL")])
  }

  function LeftoverEdits(): seq<Edit> {
    [Set(0, "NEW", "y", Secret)] + ([Delete(0, "NEW")] + ([Link(1, 0, "NEW")] + ([Set(0, "OLD", "x", Secret)] + ([Mark(0, "OLD")] + []))))
  }

  lemma FirstVariable(c: Config, name: string, value: string)
    requires c.services == Two().services && c.bindings == map[] && (forall k :: k in c.vars ==> k.service != 0)
    requires ValidName(name) && |value| <= 8192
    ensures SetVariable(c, 0, name, value, Secret)
         == Outcome(c.(vars := c.vars[Key(0, name) := Row(Key(0, name), value, Secret)], refs := c.refs - {Key(0, name)}), Ok(Unit))
  {
    hide Managed, SealAll, TemplateVariables;
    NoManaged(0, name);
    NamesOfNobody(c.vars, 0, name);
  }

  lemma Left()
    ensures AfterEdits(Two(), LeftoverEdits()) == Leftovers()
  {
    hide Two, SetVariable, AfterEdits, DeleteVariable;
    var former, later := Key(0, "OLD"), Key(0, "NEW");
    TwoFacts();
    RedisUrl();
    assert ValidName("NEW") && ValidName("OLD");
    FirstVariable(Two(), "NEW", "y");
    var set1 := SetVariable(Two(), 0, "NEW", "y", Secret).config;
    DeleteAgain(set1, "NEW");
    assert set1.vars - {later} == Two().vars && set1.refs - {later} == Two().refs;
    var linked := Two().(refs := map[later := Key(1, "REDIS_URL")]);
    FirstVariable(linked, "OLD", "x");
    assert linked.refs - {former} == linked.refs;
    var set2 := SetVariable(linked, 0, "OLD", "x", Secret).config;
    var mark := [Mark(0, "OLD")] + [];
    AfterOne(Two(), Set(0, "NEW", "y", Secret), [Delete(0, "NEW")] + ([Link(1, 0, "NEW")] + ([Set(0, "OLD", "x", Secret)] + mark)));
    AfterOne(set1, Delete(0, "NEW"), [Link(1, 0, "NEW")] + ([Set(0, "OLD", "x", Secret)] + mark));
    AfterOne(Two(), Link(1, 0, "NEW"), [Set(0, "OLD", "x", Secret)] + mark);
    AfterOne(linked, Set(0, "OLD", "x", Secret), mark);
    AfterOne(set2, Mark(0, "OLD"), []);
    assert Edited(Two(), Link(1, 0, "NEW")) == linked;
    assert Edited(set2, Mark(0, "OLD")).vars == Leftovers().vars;
    NoEdit(Leftovers());
  }

  lemma TwoFacts()
    ensures Two().services == [App(), Owner(Here(), StoreModel.Redis)] && Two().refs == map[] && Two().bindings == map[]
  {
  }

  lemma DeleteAgain(c: Config, name: string)
    requires c.bindings == map[] && c.refs == map[]
    ensures DeleteVariable(c, 0, name).config == c.(vars := c.vars - {Key(0, name)}, refs := c.refs - {Key(0, name)})
  {
  }

  /** Renaming OLD to NEW makes it show the database's connection in place of its own value. */
  lemma RenameAdopts()
    ensures var start := AfterEdits(Nothing(), [NewApp(Here()), NewDatabase(Here(), StoreModel.Redis, "db", "pw", "")]);
            var c := AfterEdits(start, LeftoverEdits());
            var renamed := RenameVariable(c, 0, "OLD", "NEW");
            && Resolve(c, Key(0, "OLD"), {}) == Ok("x")
            && renamed.reply.Ok? && Resolve(renamed.config, Key(0, "NEW"), {}).Ok?
            && Resolve(renamed.config, Key(0, "NEW"), {}) != Ok("x")
  {
    hide AfterEdits, Two, Managed;
    TwoServices();
    Left();
    TwoFacts();
    RedisUrl();
    NoManaged(0, "OLD");
    NoManaged(0, "NEW");
    assert ValidName("NEW") && ValidName("OLD");
    RedisRow();
    var renamed := RenameVariable(Leftovers(), 0, "OLD", "NEW").config;
    assert Resolve(renamed, Key(1, "REDIS_URL"), {Key(0, "NEW")}) == Ok(Two().vars[Key(1, "REDIS_URL")].sealed.value);
  }

  lemma RedisRow()
    ensures Key(1, "REDIS_URL") in Two().vars
    ensures var row := Two().vars[Key(1, "REDIS_URL")];
            row.sealed.purpose == ForVariable(Key(1, "REDIS_URL")) && !row.kind.Reference?
  {
    hide TemplateVariables;
    RedisUrl();
  }
}
