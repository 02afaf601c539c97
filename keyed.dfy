/** Facts about a store that keeps every record under the record's own id,
    as a JPA repository keyed by the entity's `@Id` does. */
module Keyed {

  /** Every record is stored under its own id. */
  ghost predicate KeyedById<R>(m: map<int, R>, id: R -> int)
  {
    forall k :: k in m ==> id(m[k]) == k
  }

  /** Some key of a non-empty store. (The case split puts the witness that
      the non-empty key set provides within the solver's reach.) */
  lemma SomeKey<R>(m: map<int, R>) returns (k: int)
    requires m.Keys != {}
    ensures k in m
  {
    if forall j :: j !in m.Keys {
      assert false;
    }
    k :| k in m.Keys;
  }

  /** A record is listed exactly when it is what its own id maps to. */
  lemma ValuesByKey<R>(m: map<int, R>, id: R -> int)
    requires KeyedById(m, id)
    ensures forall v :: v in m.Values <==> id(v) in m && m[id(v)] == v
  {
    forall v | v in m.Values
      ensures id(v) in m && m[id(v)] == v
    {
      if forall k :: k in m ==> m[k] != v {
        assert false;
      }
      var k :| k in m && m[k] == v;
    }
  }

  /** Listing such a store yields one distinct record per stored id. */
  lemma {:induction false} ValuesCount<R>(m: map<int, R>, id: R -> int)
    requires KeyedById(m, id)
    ensures |m.Values| == |m|
    decreases |m|
  {
    if m.Keys != {} {
      var k := SomeKey(m);
      var rest := m - {k};
      ValuesByKey(m, id);
      ValuesByKey(rest, id);
      ValuesCount(rest, id);
      assert m.Values == rest.Values + {m[k]} by {
        forall v | v in m.Values
          ensures v in rest.Values + {m[k]}
        {
          if id(v) != k {
            assert id(v) in rest;
          }
        }
      }
      assert m[k] !in rest.Values;
    } else {
      assert m == map[];
    }
  }
}
