/**
 How a collection read is answered: `find(filter)` over one collection,
 optionally `.sort(field, -1)`, then `.to_list(limit)`. A collection is a
 map from each document's identifying field to the document; the answer is
 the sequence of identifiers of the documents returned.
 */
module Query {

  /** The route-level cap on `limit`. */
  const MaxLimit: nat := 1000

  function Min(a: nat, b: nat): nat { if a <= b then a else b }

  /** The identifiers of the documents that pass the filter. */
  function Matching<T>(coll: map<string, T>, keep: T -> bool): set<string>
  {
    set k | k in coll.Keys && keep(coll[k])
  }

  predicate Distinct(ks: seq<string>)
  {
    forall i, j :: 0 <= i < j < |ks| ==> ks[i] != ks[j]
  }

  /** Newest first: timestamps never increase along the answer. */
  predicate NewestFirstOrder<T>(coll: map<string, T>, time: T -> int, ks: seq<string>)
    requires forall i :: 0 <= i < |ks| ==> ks[i] in coll
  {
    forall i, j :: 0 <= i < j < |ks| ==> time(coll[ks[j]]) <= time(coll[ks[i]])
  }

  /** A filter never selects more documents than the collection holds. */
  lemma {:induction false} MatchingWithin<T>(coll: map<string, T>, keep: T -> bool)
    ensures |Matching(coll, keep)| <= |coll|
  {
    SubsetCardinality(Matching(coll, keep), coll.Keys);
  }

  lemma {:induction false} SubsetCardinality(a: set<string>, b: set<string>)
    requires a <= b
    ensures |a| <= |b|
    decreases |b|
  {
    if a != {} {
      var x :| x in a;
      SubsetCardinality(a - {x}, b - {x});
    }
  }

  /** The documents named by `ks`, in that order. */
  function Values<T>(coll: map<string, T>, ks: seq<string>): (r: seq<T>)
    requires forall i :: 0 <= i < |ks| ==> ks[i] in coll
    ensures |r| == |ks| && forall i :: 0 <= i < |ks| ==> r[i] == coll[ks[i]]
  {
    seq(|ks|, i requires 0 <= i < |ks| => coll[ks[i]])
  }

  /** `find(filter).to_list(limit)` without a sort: as many matching documents
      as the limit allows, each once, in an order the store chooses. */
  method Find<T>(coll: map<string, T>, keep: T -> bool, limit: nat) returns (ks: seq<string>)
    ensures Distinct(ks)
    ensures forall i :: 0 <= i < |ks| ==> ks[i] in coll && keep(coll[ks[i]])
    ensures |ks| == Min(limit, |Matching(coll, keep)|)
    ensures |ks| < limit ==> forall k :: k in Matching(coll, keep) ==> k in ks
  {
    var pool := Matching(coll, keep);
    ghost var all := pool;
    ks := [];
    while pool != {} && |ks| < limit
      invariant pool <= all == Matching(coll, keep)
      invariant forall i :: 0 <= i < |ks| ==> ks[i] in all && ks[i] !in pool
      invariant |ks| + |pool| == |all| && |ks| <= limit
      invariant Distinct(ks)
      invariant forall i :: 0 <= i < |ks| ==> ks[i] in coll && keep(coll[ks[i]])
      invariant forall k :: k in all && k !in pool ==> k in ks
      decreases pool
    {
      var k :| k in pool;
      ks, pool := ks + [k], pool - {k};
    }
  }

  /** A document of `pool` whose timestamp no other one in `pool` exceeds. */
  method PickNewest<T>(coll: map<string, T>, time: T -> int, pool: set<string>) returns (k: string)
    requires pool != {} && pool <= coll.Keys
    ensures k in pool
    ensures forall j :: j in pool ==> time(coll[j]) <= time(coll[k])
  {
    k :| k in pool;
    var rest := pool - {k};
    while rest != {}
      invariant rest <= pool && k in pool
      invariant forall j :: j in pool && j !in rest ==> time(coll[j]) <= time(coll[k])
      decreases rest
    {
      var j :| j in rest;
      if time(coll[k]) < time(coll[j]) {
        k := j;
      }
      rest := rest - {j};
    }
  }

  /** `find(filter).sort(time, -1).to_list(limit)`: the newest matching
      documents, newest first, as many as the limit allows. Documents with
      equal timestamps come in an order the store chooses. */
  method NewestFirst<T>(coll: map<string, T>, keep: T -> bool, time: T -> int, limit: nat)
    returns (ks: seq<string>)
    ensures Distinct(ks)
    ensures forall i :: 0 <= i < |ks| ==> ks[i] in coll && keep(coll[ks[i]])
    ensures |ks| == Min(limit, |Matching(coll, keep)|)
    ensures |ks| < limit ==> forall k :: k in Matching(coll, keep) ==> k in ks
    ensures NewestFirstOrder(coll, time, ks)
    ensures forall k, i :: k in Matching(coll, keep) && 0 <= i < |ks| && k !in ks ==>
              time(coll[k]) <= time(coll[ks[i]])
  {
    var pool := Matching(coll, keep);
    ghost var all := pool;
    ks := [];
    while pool != {} && |ks| < limit
      invariant pool <= all == Matching(coll, keep)
      invariant forall i :: 0 <= i < |ks| ==> ks[i] in all && ks[i] !in pool
      invariant |ks| + |pool| == |all| && |ks| <= limit
      invariant Distinct(ks)
      invariant forall i :: 0 <= i < |ks| ==> ks[i] in coll && keep(coll[ks[i]])
      invariant NewestFirstOrder(coll, time, ks)
      invariant forall k :: k in all && k !in pool ==> k in ks
      invariant forall k, i :: k in pool && 0 <= i < |ks| ==> time(coll[k]) <= time(coll[ks[i]])
      decreases pool
    {
      var k := PickNewest(coll, time, pool);
      ks, pool := ks + [k], pool - {k};
    }
  }
}
