/** Request metadata as values: a multimap of strings, its flattening into key/value pairs
    and its rebuilding (metadata.go). */
module MetadataSpec {
  type Lists = map<string, seq<string>>

  datatype KeyValue = KeyValue(key: string, value: string)

  /** An order in which a map's keys are visited. */
  ghost predicate Enumerates(order: seq<string>, keys: set<string>) {
    && (forall i, j :: 0 <= i < j < |order| ==> order[i] != order[j])
    && (forall k :: k in keys <==> k in order)
  }

  function Pairs(key: string, values: seq<string>): seq<KeyValue> {
    seq(|values|, i requires 0 <= i < |values| => KeyValue(key, values[i]))
  }

  /** setRequest: the pairs of each key in turn. */
  ghost function Flatten(m: Lists, order: seq<string>): seq<KeyValue>
    requires forall k :: k in order ==> k in m
  {
    if order == [] then []
    else
      var k := order[|order| - 1];
      Flatten(m, order[..|order| - 1]) + Pairs(k, m[k])
  }

  lemma {:induction false} FlattenNext(m: Lists, order: seq<string>, i: nat)
    requires i < |order| && forall k :: k in order ==> k in m
    ensures Flatten(m, order[..i + 1]) == Flatten(m, order[..i]) + Pairs(order[i], m[order[i]])
    ensures i + 1 == |order| ==> Flatten(m, order[..i + 1]) == Flatten(m, order)
  {
    assert order[..i + 1][..i] == order[..i];
    assert order[..|order|] == order;
  }

  /** The pairs are those of a key of the map with a value of its list. */
  lemma {:induction false} FlattenMeans(m: Lists, order: seq<string>, kv: KeyValue)
    requires forall k :: k in order ==> k in m
    ensures kv in Flatten(m, order) <==> kv.key in order && kv.value in m[kv.key]
  {
    if order != [] {
      var front, k := order[..|order| - 1], order[|order| - 1];
      FlattenMeans(m, front, kv);
      assert order == front + [k];
      PairsMeans(k, m[k], kv);
    }
  }

  lemma {:induction false} PairsMeans(key: string, values: seq<string>, kv: KeyValue)
    ensures kv in Pairs(key, values) <==> kv.key == key && kv.value in values
  {
    if kv.key == key && kv.value in values {
      var i :| 0 <= i < |values| && values[i] == kv.value;
      assert Pairs(key, values)[i] == kv;
    }
  }

  /** fromRequest: each pair is appended to its key's list. */
  function Gather(m: Lists, pairs: seq<KeyValue>): Lists {
    if pairs == [] then m
    else
      var front := Gather(m, pairs[..|pairs| - 1]);
      var kv := pairs[|pairs| - 1];
      front[kv.key := (if kv.key in front then front[kv.key] else []) + [kv.value]]
  }

  lemma GatherSnoc(m: Lists, pairs: seq<KeyValue>, kv: KeyValue)
    ensures var front := Gather(m, pairs);
            Gather(m, pairs + [kv]) == front[kv.key := (if kv.key in front then front[kv.key] else []) + [kv.value]]
  {
    assert (pairs + [kv])[..|pairs|] == pairs;
  }

  lemma {:induction false} GatherConcat(m: Lists, a: seq<KeyValue>, b: seq<KeyValue>)
    ensures Gather(m, a + b) == Gather(Gather(m, a), b)
  {
    if b == [] {
      assert a + b == a;
    } else {
      var b' := b[..|b| - 1];
      var kv := b[|b| - 1];
      GatherConcat(m, a, b');
      assert a + b == (a + b') + [kv] && b == b' + [kv];
      GatherSnoc(m, a + b', kv);
      GatherSnoc(Gather(m, a), b', kv);
    }
  }

  function Longer(m: Lists, key: string, values: seq<string>): Lists {
    m[key := (if key in m then m[key] else []) + values]
  }

  lemma {:induction false} LongerTwice(m: Lists, key: string, vs: seq<string>, v: string)
    ensures Longer(Longer(m, key, vs), key, [v]) == Longer(m, key, vs + [v])
  {
    AppendAssoc(if key in m then m[key] else [], vs, v);
  }

  lemma {:induction false} AppendAssoc(base: seq<string>, vs: seq<string>, v: string)
    ensures (base + vs) + [v] == base + (vs + [v])
    ensures vs == [] ==> base + vs == base
  {
  }

  /** Gathering the pairs of one key appends its list. */
  lemma {:induction false} GatherPairs(m: Lists, key: string, values: seq<string>)
    ensures Gather(m, Pairs(key, values)) ==
            if values == [] then m else m[key := (if key in m then m[key] else []) + values]
  {
    if values != [] {
      var vs := values[..|values| - 1];
      var v := values[|values| - 1];
      GatherPairs(m, key, vs);
      assert Pairs(key, values) == Pairs(key, vs) + [KeyValue(key, v)];
      GatherSnoc(m, Pairs(key, vs), KeyValue(key, v));
      assert values == vs + [v];
      LongerTwice(m, key, vs, v);
    }
  }

  /** The keys with values. */
  function NonEmpty(m: Lists): Lists {
    map k | k in m && m[k] != [] :: m[k]
  }

  ghost function Visited(m: Lists, order: seq<string>): Lists {
    map k | k in m && k in order && m[k] != [] :: m[k]
  }

  lemma {:induction false} VisitedSnoc(m: Lists, front: seq<string>, k: string)
    requires k in m && k !in front
    ensures Visited(m, front + [k]) == if m[k] == [] then Visited(m, front) else Visited(m, front)[k := m[k]]
  {
  }

  lemma {:induction false} GatherVisited(m: Lists, order: seq<string>)
    requires forall k :: k in order ==> k in m
    requires forall i, j :: 0 <= i < j < |order| ==> order[i] != order[j]
    ensures Gather(map[], Flatten(m, order)) == Visited(m, order)
  {
    if order == [] {
      assert Visited(m, order) == map[];
    } else {
      var front := order[..|order| - 1];
      var k := order[|order| - 1];
      GatherVisited(m, front);
      GatherConcat(map[], Flatten(m, front), Pairs(k, m[k]));
      GatherPairs(Visited(m, front), k, m[k]);
      assert order == front + [k];
      assert k !in Visited(m, front);
      assert [] + m[k] == m[k];
      VisitedSnoc(m, front, k);
    }
  }

  /** The round trip: whatever order the map's keys are visited in, the receiver rebuilds
      the sender's map without its empty lists. */
  lemma {:induction false} RoundTrip(m: Lists, order: seq<string>)
    requires Enumerates(order, m.Keys)
    ensures Gather(map[], Flatten(m, order)) == NonEmpty(m)
  {
    GatherVisited(m, order);
    assert Visited(m, order) == NonEmpty(m);
  }
}
