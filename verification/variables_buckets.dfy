/** Bindings of buckets: the derived variables always agree with their source. */
module BucketBindings {
  import opened Common
  import opened VariableModel
  import opened ReferenceGraph
  import opened VariableInvariant

  /******* Writing the fields of one binding *******/

  predicate FieldWritten(
    vars: map<Key, Variable>, written: map<Key, Variable>, s: nat, prefix: string, bucket: Bucket, credentials: Credentials,
    field: Field)
  {
    var k := FieldKey(s, prefix, field);
    && k in written
    && written[k] == Variable(Sealed(FieldValue(bucket, credentials, field), ForVariable(k)), if k in vars then vars[k].kind else Secret)
  }

  lemma {:induction false} WritesFields(
    vars: map<Key, Variable>, s: nat, prefix: string, bucket: Bucket, credentials: Credentials, fields: seq<Field>)
    ensures var written := WriteFields(vars, s, prefix, bucket, credentials, fields);
            && (forall field :: field in fields ==> FieldWritten(vars, written, s, prefix, bucket, credentials, field))
            && (forall k :: k in written <==> k in vars || exists field :: field in fields && k == FieldKey(s, prefix, field))
            && (forall k :: k in vars && (forall field :: field in fields ==> k != FieldKey(s, prefix, field)) ==> written[k] == vars[k])
            && |Names(written, s)| <= |Names(vars, s)| + |fields|
  {
    hide FieldKey, FieldValue, FieldWritten;
    if |fields| > 0 {
      var last := |fields| - 1;
      var earlier := WriteFields(vars, s, prefix, bucket, credentials, fields[..last]);
      WritesFields(vars, s, prefix, bucket, credentials, fields[..last]);
      WritesOne(vars, earlier, s, prefix, bucket, credentials, fields[..last], fields[last]);
    }
  }

  lemma WritesOne(
    vars: map<Key, Variable>, earlier: map<Key, Variable>, s: nat, prefix: string, bucket: Bucket, credentials: Credentials,
    fields: seq<Field>, last: Field)
    requires forall field :: field in fields ==> FieldWritten(vars, earlier, s, prefix, bucket, credentials, field)
    requires forall k :: k in earlier <==> k in vars || exists field :: field in fields && k == FieldKey(s, prefix, field)
    requires forall k :: k in vars && (forall field :: field in fields ==> k != FieldKey(s, prefix, field)) ==> earlier[k] == vars[k]
    ensures var written := WriteField(earlier, s, prefix, bucket, credentials, last);
            && (forall field :: field in fields || field == last ==> FieldWritten(vars, written, s, prefix, bucket, credentials, field))
            && |Names(written, s)| <= |Names(earlier, s)| + 1
  {
    hide FieldKey, FieldValue;
    var written := WriteField(earlier, s, prefix, bucket, credentials, last);
    forall field | field in fields && field != last ensures FieldKey(s, prefix, field) != FieldKey(s, prefix, last) {
      FieldKeysDiffer(s, prefix, field, prefix, last);
    }
    var k := FieldKey(s, prefix, last);
    if k in vars && last !in fields {
      assert earlier[k] == vars[k];
    }
    assert Names(written, s) <= Names(earlier, s) + {k.name};
    SubsetSize(Names(written, s), Names(earlier, s) + {k.name});
  }

  lemma AllFields(s: nat, prefix: string)
    ensures forall field: Field :: field in FIELDS
    ensures forall k :: k in FieldKeys(s, prefix) <==> exists field :: k == FieldKey(s, prefix, field)
  {
    hide FieldKey;
    forall field: Field ensures field in FIELDS {
      match field
      case BucketField => assert FIELDS[0] == field;
      case EndpointField => assert FIELDS[1] == field;
      case RegionField => assert FIELDS[2] == field;
      case AccessKeyField => assert FIELDS[3] == field;
      case SecretKeyField => assert FIELDS[4] == field;
      case PathStyleField => assert FIELDS[5] == field;
    }
  }

  /** What one binding's variables become, and what stays. */
  lemma WritesAll(vars: map<Key, Variable>, s: nat, prefix: string, bucket: Bucket, credentials: Credentials)
    ensures var written := WriteFields(vars, s, prefix, bucket, credentials, FIELDS);
            && written.Keys == vars.Keys + FieldKeys(s, prefix)
            && (forall field :: FieldWritten(vars, written, s, prefix, bucket, credentials, field))
            && (forall k :: k in vars && k !in FieldKeys(s, prefix) ==> written[k] == vars[k])
            && |Names(written, s)| <= |Names(vars, s)| + |FIELDS|
  {
    hide FieldKey, FieldValue, FieldWritten, WriteFields;
    AllFields(s, prefix);
    WritesFields(vars, s, prefix, bucket, credentials, FIELDS);
  }

  lemma FieldKeyService(s: nat, prefix: string, field: Field)
    ensures FieldKey(s, prefix, field).service == s && FieldKey(s, prefix, field) in FieldKeys(s, prefix)
  {
    hide Suffix;
    AllFields(s, prefix);
  }

  /** The fields of other bindings keep apart. */
  lemma OtherBinding(c: Config, x: Binding, y: Binding, field: Field)
    requires BindingsOk(c.services, c.buckets, c.bindings) && x in c.bindings && y in c.bindings && x != y
    ensures FieldKey(x.service, c.bindings[x], field) !in FieldKeys(y.service, c.bindings[y])
  {
    hide FieldKey;
    AllFields(y.service, c.bindings[y]);
    forall other ensures FieldKey(x.service, c.bindings[x], field) != FieldKey(y.service, c.bindings[y], other) {
      FieldKeyService(x.service, c.bindings[x], field);
      FieldKeyService(y.service, c.bindings[y], other);
      if x.service == y.service {
        FieldKeysDiffer(x.service, c.bindings[x], field, c.bindings[y], other);
      }
    }
  }

  /******* Binding *******/

  lemma CreateBucketInv(c: Config, bucket: Bucket, credentials: Credentials, valid: bool)
    requires VarInv(c)
    ensures VarInv(CreateBucket(c, bucket, credentials, valid).config)
  {
    hide RowsOk, ValuesOk, SizesOk, Acyclic, FieldHolds;
  }

  lemma WrittenRows(c: Config, s: nat, prefix: string, bucket: Bucket, credentials: Credentials)
    requires RowsOk(c.services, c.vars, c.refs) && ValuesOk(c.vars, c.refs) && s < |c.services|
    requires forall k :: k in FieldKeys(s, prefix) && k in c.vars ==> c.vars[k].kind.Secret?
    ensures var written := WriteFields(c.vars, s, prefix, bucket, credentials, FIELDS);
            && RowsOk(c.services, written, c.refs) && ValuesOk(written, c.refs)
  {
    hide FieldKey, FieldValue, WriteFields, FieldKeys;
    WritesAll(c.vars, s, prefix, bucket, credentials);
    AllFields(s, prefix);
    var written := WriteFields(c.vars, s, prefix, bucket, credentials, FIELDS);
    forall k | k in written
      ensures k.service < |c.services| && written[k].sealed.purpose == ForVariable(k) && HasValue(written, c.refs, k)
    {
      if k in FieldKeys(s, prefix) {
        var field :| k == FieldKey(s, prefix, field);
        assert FieldWritten(c.vars, written, s, prefix, bucket, credentials, field);
        FieldKeyService(s, prefix, field);
      } else {
        assert HasValue(c.vars, c.refs, k);
      }
    }
  }

  /** The six variables are new, or were already this binding's. */
  predicate Own(c: Config, b: nat, s: nat, prefix: string) {
    && b < |c.buckets| && s < |c.services| && !PrefixUsed(c.bindings, b, s, prefix)
    && (if Binding(b, s) in c.bindings then c.bindings[Binding(b, s)] == prefix else FieldKeys(s, prefix) * c.vars.Keys == {})
  }

  lemma OwnIsSecret(c: Config, b: nat, s: nat, prefix: string, k: Key)
    requires VarInv(c) && Own(c, b, s, prefix) && k in FieldKeys(s, prefix)
    ensures k in c.vars ==> c.vars[k].kind.Secret?
    ensures Binding(b, s) in c.bindings ==> k in c.vars
  {
    hide ValuesOk, SizesOk, Acyclic, FieldKey, FieldValue, PrefixUsed, BindingsOk;
    AllFields(s, prefix);
    var field :| k == FieldKey(s, prefix, field);
    if Binding(b, s) in c.bindings {
      assert FieldHolds(c.vars, s, prefix, c.buckets[b], field);
    } else {
      assert k in FieldKeys(s, prefix) * c.vars.Keys <==> k in c.vars;
    }
  }

  lemma BoundFields(c: Config, b: nat, s: nat, prefix: string, credentials: Credentials)
    requires VarInv(c) && Own(c, b, s, prefix) && c.buckets[b].sealed == Sealed(credentials, ForBucket(b))
    requires BindingsOk(c.services, c.buckets, c.bindings[Binding(b, s) := prefix])
    ensures FieldsOk(WriteFields(c.vars, s, prefix, c.buckets[b], credentials, FIELDS), c.buckets,
                     c.bindings[Binding(b, s) := prefix])
  {
    hide FieldKey, FieldValue, WriteFields, FieldKeys, RowsOk, ValuesOk, SizesOk, Acyclic, PrefixUsed, Own;
    var binding, bindings := Binding(b, s), c.bindings[Binding(b, s) := prefix];
    var written := WriteFields(c.vars, s, prefix, c.buckets[b], credentials, FIELDS);
    WritesAll(c.vars, s, prefix, c.buckets[b], credentials);
    forall x, field | x in bindings && x.bucket < |c.buckets|
      ensures FieldHolds(written, x.service, bindings[x], c.buckets[x.bucket], field)
    {
      if x == binding {
        assert FieldWritten(c.vars, written, s, prefix, c.buckets[b], credentials, field);
        FieldKeyService(s, prefix, field);
        OwnIsSecret(c, b, s, prefix, FieldKey(s, prefix, field));
      } else {
        assert FieldHolds(c.vars, x.service, c.bindings[x], c.buckets[x.bucket], field);
        OtherBinding(c.(bindings := bindings), x, binding, field);
      }
    }
  }

  lemma NewBinding(c: Config, b: nat, s: nat, prefix: string)
    requires BindingsOk(c.services, c.buckets, c.bindings) && ValidPrefix(prefix) && b < |c.buckets|
    requires IsApp(c.services, s) && c.services[s].place == c.buckets[b].place && !PrefixUsed(c.bindings, b, s, prefix)
    ensures BindingsOk(c.services, c.buckets, c.bindings[Binding(b, s) := prefix])
  {
    forall x | x in c.bindings && x.service == s && x.bucket != b ensures c.bindings[x] != prefix {
    }
  }

  lemma WrittenSizes(c: Config, b: nat, s: nat, prefix: string, credentials: Credentials)
    requires VarInv(c) && Own(c, b, s, prefix)
    requires Binding(b, s) !in c.bindings ==> |Names(c.vars, s)| + |FIELDS| <= MAX_VARIABLES
    ensures SizesOk(WriteFields(c.vars, s, prefix, c.buckets[b], credentials, FIELDS))
  {
    hide FieldKey, FieldValue, WriteFields, RowsOk, ValuesOk, Acyclic, PrefixUsed, FieldsOk, BindingsOk, FieldKeys;
    var written := WriteFields(c.vars, s, prefix, c.buckets[b], credentials, FIELDS);
    WritesAll(c.vars, s, prefix, c.buckets[b], credentials);
    if Binding(b, s) in c.bindings {
      forall k | k in FieldKeys(s, prefix) ensures k in c.vars {
        OwnIsSecret(c, b, s, prefix, k);
      }
      FewerNames(c.vars, written);
    } else {
      OtherServices(c.vars, written, s, prefix);
    }
  }

  lemma OtherServices(vars: map<Key, Variable>, written: map<Key, Variable>, s: nat, prefix: string)
    requires SizesOk(vars) && written.Keys == vars.Keys + FieldKeys(s, prefix)
    requires |Names(written, s)| <= MAX_VARIABLES
    ensures SizesOk(written)
  {
    hide FieldKey;
    AllFields(s, prefix);
    forall other: nat ensures |Names(written, other)| <= MAX_VARIABLES {
      if other != s {
        forall k | k in written && k.service == other ensures k in vars {
          if k in FieldKeys(s, prefix) {
            var field :| k == FieldKey(s, prefix, field);
            FieldKeyService(s, prefix, field);
          }
        }
        assert Names(written, other) <= Names(vars, other);
        SubsetSize(Names(written, other), Names(vars, other));
      }
    }
  }

  lemma WrittenTemplates(c: Config, s: nat, prefix: string, bucket: Bucket, credentials: Credentials)
    requires TemplatesOk(c.services, c.vars) && IsApp(c.services, s)
    ensures TemplatesOk(c.services, WriteFields(c.vars, s, prefix, bucket, credentials, FIELDS))
  {
    hide FieldKey, FieldValue, WriteFields, FieldKeys, TemplatesOk;
    var written := WriteFields(c.vars, s, prefix, bucket, credentials, FIELDS);
    WritesAll(c.vars, s, prefix, bucket, credentials);
    forall k | k in written ensures k in c.vars || k.service == s {
      if k in FieldKeys(s, prefix) {
        KeyService(s, prefix, k);
      }
    }
    TemplatesFrame(c.services, c.vars, written);
  }

  lemma BindBucketInv(c: Config, b: nat, s: nat, prefix: string)
    requires VarInv(c)
    ensures VarInv(BindBucket(c, b, s, prefix).config)
  {
    hide FieldKeys, WriteFields, RowsOk, ValuesOk, SizesOk, Acyclic, FieldsOk, BindingsOk, PrefixUsed, ValidPrefix, TemplatesOk;
    var after := BindBucket(c, b, s, prefix);
    if after.reply.Ok? {
      var credentials := c.buckets[b].sealed.value;
      assert Own(c, b, s, prefix);
      NewBinding(c, b, s, prefix);
      forall k | k in FieldKeys(s, prefix) && k in c.vars ensures c.vars[k].kind.Secret? {
        OwnIsSecret(c, b, s, prefix, k);
      }
      WrittenRows(c, s, prefix, c.buckets[b], credentials);
      WrittenTemplates(c, s, prefix, c.buckets[b], credentials);
      WrittenSizes(c, b, s, prefix, credentials);
      BoundFields(c, b, s, prefix, credentials);
    }
  }

  /******* Rotation *******/

  predicate Untouched(bindings: map<Binding, string>, b: nat, n: nat, k: Key) {
    || k.service >= n || Binding(b, k.service) !in bindings
    || k !in FieldKeys(k.service, bindings[Binding(b, k.service)])
  }

  lemma {:induction false} Rewrites(c: Config, b: nat, bucket: Bucket, credentials: Credentials, n: nat)
    requires VarInv(c) && b < |c.buckets| && n <= |c.services|
    ensures var after := Rewrite(c.vars, c.bindings, b, bucket, credentials, n);
            && after.Keys == c.vars.Keys
            && (forall k :: k in c.vars && Untouched(c.bindings, b, n, k) ==> after[k] == c.vars[k])
            && (forall s, field :: 0 <= s < n && Binding(b, s) in c.bindings ==>
                  FieldWritten(c.vars, after, s, c.bindings[Binding(b, s)], bucket, credentials, field))
  {
    hide FieldKey, FieldValue, WriteFields, FieldKeys, VarInv;
    if n > 0 {
      var earlier := Rewrite(c.vars, c.bindings, b, bucket, credentials, n - 1);
      Rewrites(c, b, bucket, credentials, n - 1);
      if Binding(b, n - 1) in c.bindings {
        var prefix := c.bindings[Binding(b, n - 1)];
        WritesAll(earlier, n - 1, prefix, bucket, credentials);
        BoundKeys(c, Binding(b, n - 1));
        var after := Rewrite(c.vars, c.bindings, b, bucket, credentials, n);
        forall s: nat, field | s < n && Binding(b, s) in c.bindings
          ensures FieldWritten(c.vars, after, s, c.bindings[Binding(b, s)], bucket, credentials, field)
        {
          if s == n - 1 {
            FieldKeyService(s, prefix, field);
            assert FieldWritten(earlier, after, s, prefix, bucket, credentials, field);
          } else {
            assert FieldWritten(c.vars, earlier, s, c.bindings[Binding(b, s)], bucket, credentials, field);
            OtherService(s, c.bindings[Binding(b, s)], field, n - 1, prefix);
          }
        }
        forall k | k in c.vars && Untouched(c.bindings, b, n, k) ensures k !in FieldKeys(n - 1, prefix) {
          if k in FieldKeys(n - 1, prefix) {
            KeyService(n - 1, prefix, k);
          }
        }
      }
    }
  }

  lemma KeyService(s: nat, prefix: string, k: Key)
    requires k in FieldKeys(s, prefix)
    ensures k.service == s && exists field :: k == FieldKey(s, prefix, field)
  {
    hide FieldKey;
    AllFields(s, prefix);
    var field :| k == FieldKey(s, prefix, field);
    FieldKeyService(s, prefix, field);
  }

  lemma OtherService(s: nat, p: string, field: Field, t: nat, q: string)
    requires s != t
    ensures FieldKey(s, p, field) !in FieldKeys(t, q)
  {
    hide FieldKey, FieldKeys;
    FieldKeyService(s, p, field);
    if FieldKey(s, p, field) in FieldKeys(t, q) {
      KeyService(t, q, FieldKey(s, p, field));
    }
  }

  lemma BoundKeys(c: Config, x: Binding)
    requires VarInv(c) && x in c.bindings
    ensures x.bucket < |c.buckets| && x.service < |c.services|
    ensures FieldKeys(x.service, c.bindings[x]) <= c.vars.Keys
    ensures forall k :: k in FieldKeys(x.service, c.bindings[x]) ==> c.vars[k].kind.Secret?
  {
    hide ValuesOk, SizesOk, Acyclic, FieldKey, FieldValue, RowsOk;
    AllFields(x.service, c.bindings[x]);
    forall k | k in FieldKeys(x.service, c.bindings[x]) ensures k in c.vars && c.vars[k].kind.Secret? {
      var field :| k == FieldKey(x.service, c.bindings[x], field);
      assert FieldHolds(c.vars, x.service, c.bindings[x], c.buckets[x.bucket], field);
    }
  }

  lemma RotatedRows(c: Config, b: nat, bucket: Bucket, credentials: Credentials)
    requires VarInv(c) && b < |c.buckets|
    ensures var after := Rewrite(c.vars, c.bindings, b, bucket, credentials, |c.services|);
            && RowsOk(c.services, after, c.refs) && ValuesOk(after, c.refs) && SizesOk(after) && TemplatesOk(c.services, after)
  {
    hide FieldKey, FieldValue, Rewrite, FieldKeys, Acyclic, FieldsOk, SizesOk, BindingsOk, TemplatesOk;
    var after := Rewrite(c.vars, c.bindings, b, bucket, credentials, |c.services|);
    Rewrites(c, b, bucket, credentials, |c.services|);
    FewerNames(c.vars, after);
    TemplatesFrame(c.services, c.vars, after);
    forall k | k in after ensures after[k].sealed.purpose == ForVariable(k) && HasValue(after, c.refs, k) {
      if !Untouched(c.bindings, b, |c.services|, k) {
        var prefix := c.bindings[Binding(b, k.service)];
        BoundKeys(c, Binding(b, k.service));
        KeyService(k.service, prefix, k);
        var field :| k == FieldKey(k.service, prefix, field);
        assert FieldWritten(c.vars, after, k.service, prefix, bucket, credentials, field);
      } else {
        assert HasValue(c.vars, c.refs, k);
      }
    }
    forall k | k in c.refs && k in c.vars && c.vars[k].kind.Reference? ensures after[k] == c.vars[k] {
      if !Untouched(c.bindings, b, |c.services|, k) {
        BoundKeys(c, Binding(b, k.service));
      }
    }
  }

  lemma RotatedFields(c: Config, b: nat, bucket: Bucket, credentials: Credentials)
    requires VarInv(c) && b < |c.buckets| && bucket.sealed == Sealed(credentials, ForBucket(b))
    ensures FieldsOk(Rewrite(c.vars, c.bindings, b, bucket, credentials, |c.services|), c.buckets[b := bucket], c.bindings)
  {
    hide FieldKey, FieldValue, Rewrite, FieldKeys, Acyclic, RowsOk, ValuesOk, SizesOk;
    var after := Rewrite(c.vars, c.bindings, b, bucket, credentials, |c.services|);
    var buckets := c.buckets[b := bucket];
    Rewrites(c, b, bucket, credentials, |c.services|);
    forall x, field | x in c.bindings && x.bucket < |buckets|
      ensures FieldHolds(after, x.service, c.bindings[x], buckets[x.bucket], field)
    {
      assert FieldHolds(c.vars, x.service, c.bindings[x], c.buckets[x.bucket], field);
      if x.bucket == b {
        assert FieldWritten(c.vars, after, x.service, c.bindings[Binding(b, x.service)], bucket, credentials, field);
      } else {
        var k := FieldKey(x.service, c.bindings[x], field);
        FieldKeyService(x.service, c.bindings[x], field);
        if Binding(b, x.service) in c.bindings {
          OtherBinding(c, x, Binding(b, x.service), field);
        }
        assert Untouched(c.bindings, b, |c.services|, k);
      }
    }
  }

  lemma RotateBucketCredentialsInv(c: Config, b: nat, credentials: Credentials, valid: bool)
    requires VarInv(c)
    ensures VarInv(RotateBucketCredentials(c, b, credentials, valid).config)
  {
    hide FieldsOk, RowsOk, ValuesOk, SizesOk, Acyclic, Rewrite, TemplatesOk;
    var after := RotateBucketCredentials(c, b, credentials, valid);
    if after.reply.Ok? {
      RotatedRows(c, b, after.config.buckets[b], credentials);
      RotatedFields(c, b, after.config.buckets[b], credentials);
    }
  }

  /******* Unbinding *******/

  /** Disconnecting a bucket from an application takes back exactly what connecting it added. */
  lemma UnbindUndoesBind(c: Config, b: nat, s: nat, prefix: string)
    requires Binding(b, s) !in c.bindings && BindBucket(c, b, s, prefix).reply.Ok?
    ensures UnbindBucket(BindBucket(c, b, s, prefix).config, b, s) == Outcome(c, Ok(Unit))
  {
    hide FieldKeys, WriteFields, PrefixUsed, ValidPrefix, Names;
    var bound := BindBucket(c, b, s, prefix).config;
    WritesAll(c.vars, s, prefix, c.buckets[b], c.buckets[b].sealed.value);
    assert bound.vars - FieldKeys(s, prefix) == c.vars by {
      forall k | k in c.vars ensures k !in FieldKeys(s, prefix) {
        assert k in FieldKeys(s, prefix) ==> k in FieldKeys(s, prefix) * c.vars.Keys;
      }
    }
    assert bound.bindings - {Binding(b, s)} == c.bindings;
  }

  /** No reference leads to one of the binding's six variables. */
  predicate Unreferenced(c: Config, s: nat, prefix: string) {
    forall k :: k in c.refs ==> c.refs[k] !in FieldKeys(s, prefix)
  }

  lemma UnboundRows(c: Config, x: Binding)
    requires VarInv(c) && x in c.bindings
    ensures RowsOk(c.services, c.vars - FieldKeys(x.service, c.bindings[x]), c.refs) <==> Unreferenced(c, x.service, c.bindings[x])
    ensures Unreferenced(c, x.service, c.bindings[x]) ==> ValuesOk(c.vars - FieldKeys(x.service, c.bindings[x]), c.refs)
  {
    hide FieldKeys, SizesOk, Acyclic, FieldsOk;
    var keys := FieldKeys(x.service, c.bindings[x]);
    var vars := c.vars - keys;
    BoundKeys(c, x);
    if Unreferenced(c, x.service, c.bindings[x]) {
      forall k | k in vars ensures HasValue(vars, c.refs, k) {
        assert HasValue(c.vars, c.refs, k);
      }
    } else {
      var k :| k in c.refs && c.refs[k] in keys;
      KeyService(x.service, c.bindings[x], c.refs[k]);
      assert c.refs[k] !in vars;
    }
  }

  /** Disconnecting a bucket keeps the invariant exactly when nothing refers to its variables. */
  lemma UnreferencedExactly(c: Config, b: nat, s: nat)
    requires VarInv(c) && Binding(b, s) in c.bindings
    ensures VarInv(UnbindBucket(c, b, s).config) <==> Unreferenced(c, s, c.bindings[Binding(b, s)])
  {
    hide FieldKeys, RowsOk, ValuesOk, SizesOk, Acyclic, FieldKey, FieldValue, Unreferenced, TemplatesOk;
    var after := UnbindBucket(c, b, s).config;
    var binding := Binding(b, s);
    UnboundRows(c, binding);
    FewerNames(c.vars, after.vars);
    TemplatesFrame(c.services, c.vars, after.vars);
    forall x, field | x in after.bindings && x.bucket < |c.buckets|
      ensures FieldHolds(after.vars, x.service, after.bindings[x], c.buckets[x.bucket], field)
    {
      assert FieldHolds(c.vars, x.service, c.bindings[x], c.buckets[x.bucket], field);
      OtherBinding(c, x, binding, field);
    }
  }
}
