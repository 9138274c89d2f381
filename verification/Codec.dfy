/** Maps that remember the order of their keys, and how they are encoded into two arrays and back. */
module Codecs {
  import opened Messages

  /** A JavaScript `Map`: iteration follows the order in which the keys were first set. */
  datatype OrderedMap<!K, V> = OrderedMap(order: seq<K>, values: map<K, V>)
  {
    ghost predicate Valid() {
      && (forall i, j :: 0 <= i < j < |order| ==> order[i] != order[j])
      && (forall i :: 0 <= i < |order| ==> order[i] in values)
      && (forall k :: k in values ==> Lists(order, k))
    }
  }

  ghost predicate Lists<K>(order: seq<K>, k: K) {
    exists i :: 0 <= i < |order| && order[i] == k
  }

  function EmptyMap<K, V>(): OrderedMap<K, V> { OrderedMap([], map[]) }

  function Put<K(==), V>(m: OrderedMap<K, V>, k: K, v: V): OrderedMap<K, V> {
    OrderedMap(if k in m.values then m.order else m.order + [k], m.values[k := v])
  }

  lemma PutValid<K, V>(m: OrderedMap<K, V>, k: K, v: V)
    requires m.Valid()
    ensures Put(m, k, v).Valid()
  {
    ListsMore(m.order, k);
  }

  /** Sets every entry of `m` in `items`; `updated` holds the old values of the entries overwritten. */
  method PutAll<K(==), V>(items: map<K, V>, m: OrderedMap<K, V>) returns (r: map<K, V>, updated: map<K, V>)
    requires m.Valid()
    ensures r == items + m.values
    ensures updated == map k | k in items && k in m.values :: items[k]
  {
    r, updated := items, map[];
    for i := 0 to |m.order|
      invariant forall j :: 0 <= j < i ==> m.order[j] in r && r[m.order[j]] == m.values[m.order[j]]
      invariant forall j :: i <= j < |m.order| ==> (m.order[j] in r <==> m.order[j] in items)
      invariant forall j :: i <= j < |m.order| && m.order[j] in r ==> r[m.order[j]] == items[m.order[j]]
      invariant forall k :: k in items ==> k in r
      invariant forall k :: k in r ==> (k in items && r[k] == items[k]) || (k in m.values && r[k] == m.values[k])
      invariant forall j :: 0 <= j < i && m.order[j] in items ==> m.order[j] in updated
      invariant forall k :: k in updated ==> k in items && k in m.values && updated[k] == items[k]
    {
      var key := m.order[i];
      if key in r {
        updated := updated[key := r[key]];
      }
      r := r[key := m.values[key]];
    }
    forall k | k in m.values
      ensures k in r && r[k] == m.values[k] && (k in items ==> k in updated)
    {
      var j :| 0 <= j < |m.order| && m.order[j] == k;
    }
    assert forall k :: k in r ==> r[k] == (items + m.values)[k];
  }

  datatype Codec<!T(!new)> = Codec(encode: T -> Bytes, decode: Bytes -> T)
  {
    ghost predicate Lossless() {
      forall x: T :: decode(encode(x)) == x
    }
  }

  datatype Encoded = Encoded(keys: seq<Bytes>, values: seq<Bytes>)

  function EncodedMap<K(!new), V(!new)>(m: OrderedMap<K, V>, keys: Codec<K>, values: Codec<V>): (r: Encoded)
    requires forall i :: 0 <= i < |m.order| ==> m.order[i] in m.values
  {
    Encoded(seq(|m.order|, i requires 0 <= i < |m.order| => keys.encode(m.order[i])),
            seq(|m.order|, i requires 0 <= i < |m.order| => values.encode(m.values[m.order[i]])))
  }

  /** The map after the first `n` pairs of the two arrays were set. */
  function DecodedPrefix<K(==, !new), V(!new)>(e: Encoded, n: nat, keys: Codec<K>, values: Codec<V>): OrderedMap<K, V>
    requires n <= |e.keys| && n <= |e.values|
  {
    if n == 0 then EmptyMap()
    else Put(DecodedPrefix(e, n - 1, keys, values), keys.decode(e.keys[n - 1]), values.decode(e.values[n - 1]))
  }

  /** Values or keys without a partner are ignored. */
  function DecodedMap<K(==, !new), V(!new)>(e: Encoded, keys: Codec<K>, values: Codec<V>): OrderedMap<K, V> {
    DecodedPrefix(e, if |e.keys| <= |e.values| then |e.keys| else |e.values|, keys, values)
  }

  method EncodeMap<K(==, !new), V(!new)>(m: OrderedMap<K, V>, keys: Codec<K>, values: Codec<V>) returns (e: Encoded)
    requires m.Valid()
    ensures e == EncodedMap(m, keys, values)
  {
    if |m.order| < 1 {
      return Encoded([], []);
    }
    var encodedKeys, encodedValues := [], [];
    for i := 0 to |m.order|
      invariant |encodedKeys| == |encodedValues| == i
      invariant forall j :: 0 <= j < i ==> encodedKeys[j] == keys.encode(m.order[j])
      invariant forall j :: 0 <= j < i ==> encodedValues[j] == values.encode(m.values[m.order[j]])
    {
      encodedKeys := encodedKeys + [keys.encode(m.order[i])];
      encodedValues := encodedValues + [values.encode(m.values[m.order[i]])];
    }
    e := Encoded(encodedKeys, encodedValues);
    assert e.keys == EncodedMap(m, keys, values).keys && e.values == EncodedMap(m, keys, values).values;
  }

  method DecodeMap<K(==, !new), V(!new)>(e: Encoded, keys: Codec<K>, values: Codec<V>) returns (m: OrderedMap<K, V>)
    ensures m == DecodedMap(e, keys, values)
  {
    if |e.keys| < 1 || |e.values| < 1 {
      return EmptyMap();
    }
    m := EmptyMap();
    var length := if |e.keys| <= |e.values| then |e.keys| else |e.values|;
    for i := 0 to length
      invariant m == DecodedPrefix(e, i, keys, values)
    {
      m := Put(m, keys.decode(e.keys[i]), values.decode(e.values[i]));
    }
  }

  /** `d` holds the first `n` keys of `m`, in their order, with their values. */
  ghost predicate RestoredUpTo<K(!new), V>(m: OrderedMap<K, V>, d: OrderedMap<K, V>, n: nat)
    requires n <= |m.order|
  {
    && d.order == m.order[..n]
    && (forall i :: 0 <= i < n ==> m.order[i] in d.values)
    && (forall k :: k in d.values ==> k in m.values && d.values[k] == m.values[k] && Lists(m.order[..n], k))
  }

  lemma PutRestores<K(!new), V>(m: OrderedMap<K, V>, d: OrderedMap<K, V>, n: nat)
    requires m.Valid() && n < |m.order| && RestoredUpTo(m, d, n)
    ensures RestoredUpTo(m, Put(d, m.order[n], m.values[m.order[n]]), n + 1)
  {
    var k := m.order[n];
    assert !Lists(m.order[..n], k);
    assert k !in d.values;
    hide Lists;
    assert m.order[..n + 1] == m.order[..n] + [k];
    ListsMore(m.order[..n], k);
  }

  lemma {:induction false} PrefixRestored<K(!new), V(!new)>(
      m: OrderedMap<K, V>, n: nat, keys: Codec<K>, values: Codec<V>)
    requires m.Valid() && keys.Lossless() && values.Lossless() && n <= |m.order|
    ensures RestoredUpTo(m, DecodedPrefix(EncodedMap(m, keys, values), n, keys, values), n)
  {
    hide EncodedMap, Lists, Put;
    if n != 0 {
      PrefixRestored(m, n - 1, keys, values);
      var e := EncodedMap(m, keys, values);
      EncodedAt(m, n - 1, keys, values);
      PutRestores(m, DecodedPrefix(e, n - 1, keys, values), n - 1);
    }
  }

  lemma EncodedAt<K(!new), V(!new)>(m: OrderedMap<K, V>, i: nat, keys: Codec<K>, values: Codec<V>)
    requires m.Valid() && keys.Lossless() && values.Lossless() && i < |m.order|
    ensures var e := EncodedMap(m, keys, values);
      && |e.keys| == |e.values| == |m.order|
      && keys.decode(e.keys[i]) == m.order[i] && values.decode(e.values[i]) == m.values[m.order[i]]
  {
  }

  lemma ListsMore<K>(order: seq<K>, k: K)
    ensures Lists(order + [k], k)
    ensures forall x :: Lists(order, x) ==> Lists(order + [k], x)
  {
    assert (order + [k])[|order|] == k;
    forall x | Lists(order, x)
      ensures Lists(order + [k], x)
    {
      var i :| 0 <= i < |order| && order[i] == x;
      assert (order + [k])[i] == x;
    }
  }

  /** With lossless codecs a map comes back as it was, the order of its keys included. */
  lemma MapRoundTrip<K(!new), V(!new)>(m: OrderedMap<K, V>, keys: Codec<K>, values: Codec<V>)
    requires m.Valid() && keys.Lossless() && values.Lossless()
    ensures DecodedMap(EncodedMap(m, keys, values), keys, values) == m
  {
    PrefixRestored(m, |m.order|, keys, values);
    assert m.order[..|m.order|] == m.order;
    var d := DecodedMap(EncodedMap(m, keys, values), keys, values);
    forall k | k in m.values
      ensures k in d.values
    {
      var i :| 0 <= i < |m.order| && m.order[i] == k;
    }
    assert d.values == m.values;
  }

  /** Decoding any two arrays sets, for every pair up to the shorter one's end, the value of the last pair with that
      key, and nothing else. */
  lemma {:induction false} DecodedExactly<K(!new), V(!new)>(e: Encoded, n: nat, keys: Codec<K>, values: Codec<V>)
    requires n <= |e.keys| && n <= |e.values|
    ensures var d := DecodedPrefix(e, n, keys, values);
      && (forall i :: 0 <= i < n ==> keys.decode(e.keys[i]) in d.values)
      && (forall k :: k in d.values ==> SetByPair(d.values, k, e, n, keys, values))
      && (n == |e.keys| || n == |e.values| ==> DecodedMap(e, keys, values) == d)
  {
    if n != 0 {
      DecodedExactly(e, n - 1, keys, values);
      var before, d := DecodedPrefix(e, n - 1, keys, values), DecodedPrefix(e, n, keys, values);
      var last, v := keys.decode(e.keys[n - 1]), values.decode(e.values[n - 1]);
      assert d.values == before.values[last := v];
      hide DecodedPrefix, SetByPair;
      forall k | k in d.values
        ensures SetByPair(d.values, k, e, n, keys, values)
      {
        OnePairMore(before.values, k, e, n, keys, values);
      }
    }
  }

  lemma OnePairMore<K(!new), V(!new)>(
      before: map<K, V>, k: K, e: Encoded, n: nat, keys: Codec<K>, values: Codec<V>)
    requires 0 < n <= |e.keys| && n <= |e.values|
    requires k in before ==> SetByPair(before, k, e, n - 1, keys, values)
    ensures var d := before[keys.decode(e.keys[n - 1]) := values.decode(e.values[n - 1])];
      k in d ==> SetByPair(d, k, e, n, keys, values)
  {
    if k == keys.decode(e.keys[n - 1]) {
      assert IsLastPair(e, n - 1, n, keys);
    } else if k in before {
      var i :| IsLastPair(e, i, n - 1, keys) && keys.decode(e.keys[i]) == k && before[k] == values.decode(e.values[i]);
      assert IsLastPair(e, i, n, keys);
    }
  }

  /** A key keeps the place of its first pair: the order only ever grows at its end. */
  lemma {:induction false} OrderOnlyGrows<K(!new), V(!new)>(
      e: Encoded, i: nat, n: nat, keys: Codec<K>, values: Codec<V>)
    requires i <= n <= |e.keys| && n <= |e.values|
    ensures DecodedPrefix(e, i, keys, values).order <= DecodedPrefix(e, n, keys, values).order
    decreases n
  {
    if i < n {
      OrderOnlyGrows(e, i, n - 1, keys, values);
    }
  }

  /** Key `k` holds the value of the last of the first `n` pairs with that key. */
  ghost predicate SetByPair<K(!new), V(!new)>(
      d: map<K, V>, k: K, e: Encoded, n: nat, keys: Codec<K>, values: Codec<V>)
    requires k in d
  {
    exists i :: IsLastPair(e, i, n, keys) && keys.decode(e.keys[i]) == k && d[k] == values.decode(e.values[i])
  }

  /** No later pair up to `n` has the key of pair `i`. */
  ghost predicate IsLastPair<K(!new)>(e: Encoded, i: int, n: nat, keys: Codec<K>) {
    && 0 <= i < n <= |e.keys| && n <= |e.values|
    && forall j :: i < j < n ==> keys.decode(e.keys[j]) != keys.decode(e.keys[i])
  }

  lemma DecodedMapValid<K(!new), V(!new)>(e: Encoded, keys: Codec<K>, values: Codec<V>)
    ensures DecodedMap(e, keys, values).Valid()
  {
    DecodedValid(e, if |e.keys| <= |e.values| then |e.keys| else |e.values|, keys, values);
    hide DecodedPrefix, OrderedMap.Valid;
  }

  lemma {:induction false} DecodedValid<K(!new), V(!new)>(e: Encoded, n: nat, keys: Codec<K>, values: Codec<V>)
    requires n <= |e.keys| && n <= |e.values|
    ensures DecodedPrefix(e, n, keys, values).Valid()
  {
    if n != 0 {
      DecodedValid(e, n - 1, keys, values);
      PutValid(DecodedPrefix(e, n - 1, keys, values), keys.decode(e.keys[n - 1]), values.decode(e.values[n - 1]));
    }
  }
}
