/** The graph that the references draw between services has no cycle. */
module ReferenceGraph {
  import opened VariableModel

  /** Every reference leads to a service of smaller rank. */
  ghost predicate Ranked(refs: map<Key, Key>, rank: nat -> nat) {
    forall k :: k in refs ==> rank(refs[k].service) < rank(k.service)
  }

  ghost predicate Acyclic(refs: map<Key, Key>) {
    exists rank: nat -> nat :: Ranked(refs, rank)
  }

  lemma {:induction false} PathDescends(refs: map<Key, Key>, rank: nat -> nat, p: seq<nat>, i: nat)
    requires Ranked(refs, rank) && Path(refs, p) && 1 <= i < |p|
    ensures rank(p[i]) < rank(p[0])
  {
    assert Edge(refs, p[i - 1], p[i - 1 + 1]);
    if i > 1 {
      PathDescends(refs, rank, p, i - 1);
    }
  }

  /** No service is reached from itself. */
  lemma AcyclicHasNoCycle(refs: map<Key, Key>, s: nat)
    requires Acyclic(refs)
    ensures !Reaches(refs, s, s)
  {
    var rank: nat -> nat :| Ranked(refs, rank);
    if p :| Between(refs, p, s, s) {
      PathDescends(refs, rank, p, |p| - 1);
    }
  }

  lemma EdgeReaches(refs: map<Key, Key>, a: nat, b: nat)
    requires Edge(refs, a, b)
    ensures Reaches(refs, a, b)
  {
    assert Between(refs, [a, b], a, b);
  }

  lemma EdgeThenReaches(refs: map<Key, Key>, a: nat, b: nat, c: nat)
    requires Edge(refs, a, b) && Reaches(refs, b, c)
    ensures Reaches(refs, a, c)
  {
    var p :| Between(refs, p, b, c);
    var q := [a] + p;
    forall i | 0 <= i < |q| - 1 ensures Edge(refs, q[i], q[i + 1]) {
      assert i > 0 ==> Edge(refs, p[i - 1], p[i - 1 + 1]);
    }
    assert Between(refs, q, a, c);
  }

  lemma ReachesThenEdge(refs: map<Key, Key>, a: nat, b: nat, c: nat)
    requires Reaches(refs, a, b) && Edge(refs, b, c)
    ensures Reaches(refs, a, c)
  {
    var p :| Between(refs, p, a, b);
    var q := p + [c];
    forall i | 0 <= i < |q| - 1 ensures Edge(refs, q[i], q[i + 1]) {
      assert i < |p| - 1 ==> Edge(refs, p[i], p[i + 1]);
    }
    assert Between(refs, q, a, c);
  }

  /** Services that reach `source`, and `source` itself, are lifted above `target`. */
  ghost function Lifted(refs: map<Key, Key>, rank: nat -> nat, source: nat, target: nat): nat -> nat {
    (s: nat) => if s == source || Reaches(refs, s, source) then rank(s) + rank(target) + 1 else rank(s)
  }

  /** A new reference that closes no cycle keeps the graph acyclic. */
  lemma AddReference(refs: map<Key, Key>, k: Key, to: Key)
    requires Acyclic(refs) && k.service != to.service && !Reaches(refs, to.service, k.service)
    ensures Acyclic(refs[k := to])
  {
    hide Reaches;
    var rank: nat -> nat :| Ranked(refs, rank);
    var lifted := Lifted(refs, rank, k.service, to.service);
    forall j | j in refs ensures lifted(refs[j].service) < lifted(j.service) {
      assert Edge(refs, j.service, refs[j].service);
      if refs[j].service == k.service {
        EdgeReaches(refs, j.service, k.service);
      } else if Reaches(refs, refs[j].service, k.service) {
        EdgeThenReaches(refs, j.service, refs[j].service, k.service);
      }
    }
    assert Ranked(refs[k := to], lifted);
  }

  /** A reference that closes a cycle would break it: the check is exact. */
  lemma CycleBreaks(refs: map<Key, Key>, k: Key, to: Key)
    requires k !in refs && (k.service == to.service || Reaches(refs, to.service, k.service))
    ensures !Acyclic(refs[k := to])
  {
    var more := refs[k := to];
    assert Edge(more, k.service, to.service) by {
      assert k in more && more[k] == to;
    }
    if k.service == to.service {
      EdgeReaches(more, k.service, to.service);
    } else {
      var p :| Between(refs, p, to.service, k.service);
      forall i | 0 <= i < |p| - 1 ensures Edge(more, p[i], p[i + 1]) {
        assert Edge(refs, p[i], p[i + 1]);
        var j :| j in refs && j.service == p[i] && refs[j].service == p[i + 1];
        assert j in more && more[j] == refs[j];
      }
      assert Between(more, p, to.service, k.service);
      EdgeThenReaches(more, k.service, to.service, k.service);
    }
    if Acyclic(more) {
      AcyclicHasNoCycle(more, k.service);
    }
  }

  lemma FewerReferences(refs: map<Key, Key>, fewer: map<Key, Key>)
    requires Acyclic(refs)
    requires forall k :: k in fewer ==> exists j :: j in refs && j.service == k.service && refs[j].service == fewer[k].service
    ensures Acyclic(fewer)
  {
    var rank: nat -> nat :| Ranked(refs, rank);
    assert Ranked(fewer, rank);
  }

  /** A service without references of its own reaches nothing. */
  lemma NoReferences(refs: map<Key, Key>, s: nat, b: nat)
    requires forall k :: k in refs ==> k.service != s
    ensures !Reaches(refs, s, b)
  {
    forall p | Path(refs, p) ensures p[0] != s {
      assert Edge(refs, p[0], p[0 + 1]);
    }
  }
}
