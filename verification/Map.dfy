/**
 The replicated map: the batch operations of its base map, the handlers of its committed commands,
 and what importing a snapshot leaves behind.
 */
module Maps {
  import opened Messages
  import opened Codecs

  // ---------- the batch operations on values ----------

  /** The operations test a found value by its truth: 0, the empty string, false, null and NaN count as absent. */
  predicate Found<K, V>(items: map<K, V>, k: K, truthy: V -> bool) {
    k in items && truthy(items[k])
  }

  /** The map after the first `n` entries were offered: a value that is found stays. */
  function InsertedUpTo<K(==), V>(items: map<K, V>, m: OrderedMap<K, V>, n: nat, truthy: V -> bool): map<K, V>
    requires n <= |m.order| && forall i :: 0 <= i < |m.order| ==> m.order[i] in m.values
  {
    if n == 0 then items
    else
      var before, k := InsertedUpTo(items, m, n - 1, truthy), m.order[n - 1];
      if Found(before, k, truthy) then before else before[k := m.values[k]]
  }

  function RemovedUpTo<K(==), V>(items: map<K, V>, keys: seq<K>, n: nat, truthy: V -> bool): map<K, V>
    requires n <= |keys|
  {
    if n == 0 then items
    else
      var before := RemovedUpTo(items, keys, n - 1, truthy);
      if Found(before, keys[n - 1], truthy) then before - {keys[n - 1]} else before
  }

  /** The entries of `items` found under keys accepted by `among`. */
  function FoundAmong<K(==), V>(items: map<K, V>, among: set<K>, truthy: V -> bool): map<K, V> {
    map k | k in items && k in among && truthy(items[k]) :: items[k]
  }

  function KeySet<K(==)>(keys: seq<K>): (r: set<K>)
    ensures forall i :: 0 <= i < |keys| ==> keys[i] in r
    ensures forall k :: k in r ==> Lists(keys, k)
  {
    set k | k in keys
  }

  function AllInserted<K(==), V>(items: map<K, V>, m: OrderedMap<K, V>, truthy: V -> bool): map<K, V>
    requires forall i :: 0 <= i < |m.order| ==> m.order[i] in m.values
  {
    InsertedUpTo(items, m, |m.order|, truthy)
  }

  function AllRemoved<K(==), V>(items: map<K, V>, keys: seq<K>, truthy: V -> bool): map<K, V> {
    RemovedUpTo(items, keys, |keys|, truthy)
  }

  // ---------- what the batch operations amount to ----------

  /** Key by key: what is found stays, everything else takes the offered value. */
  ghost predicate OfferedTo<K(!new), V>(
      items: map<K, V>, m: OrderedMap<K, V>, offered: seq<K>, r: map<K, V>, truthy: V -> bool)
  {
    && (forall k :: k in r <==> k in items || Lists(offered, k))
    && (forall k :: k in r ==>
          if Lists(offered, k) && !Found(items, k, truthy) then k in m.values && r[k] == m.values[k]
          else k in items && r[k] == items[k])
  }

  lemma OfferOne<K(!new), V>(
      items: map<K, V>, m: OrderedMap<K, V>, offered: seq<K>, r: map<K, V>, k: K, truthy: V -> bool)
    requires OfferedTo(items, m, offered, r, truthy) && k in m.values && !Lists(offered, k)
    ensures OfferedTo(items, m, offered + [k], if Found(r, k, truthy) then r else r[k := m.values[k]], truthy)
  {
    ListsExactly(offered, k);
    hide Lists;
  }

  lemma NothingOffered<K(!new), V>(items: map<K, V>, m: OrderedMap<K, V>, truthy: V -> bool)
    ensures OfferedTo(items, m, [], items, truthy)
  {
  }

  lemma NotListedBefore<K, V>(m: OrderedMap<K, V>, i: nat)
    requires m.Valid() && i < |m.order|
    ensures !Lists(m.order[..i], m.order[i])
  {
  }

  lemma {:induction false} InsertedPointwise<K(!new), V>(
      items: map<K, V>, m: OrderedMap<K, V>, n: nat, truthy: V -> bool)
    requires m.Valid() && n <= |m.order|
    ensures OfferedTo(items, m, m.order[..n], InsertedUpTo(items, m, n, truthy), truthy)
  {
    hide OfferedTo;
    if n == 0 {
      NothingOffered(items, m, truthy);
      assert m.order[..0] == [];
    } else {
      InsertedPointwise(items, m, n - 1, truthy);
      NotListedBefore(m, n - 1);
      hide Lists;
      assert m.order[..n] == m.order[..n - 1] + [m.order[n - 1]];
      OfferOne(items, m, m.order[..n - 1], InsertedUpTo(items, m, n - 1, truthy), m.order[n - 1], truthy);
    }
  }

  /** One more entry: its key is still as it was at the start. */
  lemma InsertedNext<K(!new), V>(items: map<K, V>, m: OrderedMap<K, V>, i: nat, truthy: V -> bool)
    requires m.Valid() && i < |m.order|
    ensures var k, before := m.order[i], InsertedUpTo(items, m, i, truthy);
      && (k in before <==> k in items) && (k in items ==> before[k] == items[k])
      && InsertedUpTo(items, m, i + 1, truthy) == if Found(items, k, truthy) then before else before[k := m.values[k]]
  {
    InsertedPointwise(items, m, i, truthy);
    assert !Lists(m.order[..i], m.order[i]);
  }

  lemma ListsExactly<K>(order: seq<K>, k: K)
    ensures forall x :: Lists(order + [k], x) <==> Lists(order, x) || x == k
  {
    ListsMore(order, k);
    forall x | Lists(order + [k], x)
      ensures Lists(order, x) || x == k
    {
      var i :| 0 <= i < |order + [k]| && (order + [k])[i] == x;
      if i < |order| {
        assert order[i] == x;
      }
    }
  }

  lemma {:induction false} RemovedPointwise<K, V>(items: map<K, V>, keys: seq<K>, n: nat, truthy: V -> bool)
    requires n <= |keys|
    ensures var r := RemovedUpTo(items, keys, n, truthy);
      && (forall k :: k in r <==> k in items && !(Lists(keys[..n], k) && truthy(items[k])))
      && (forall k :: k in r ==> r[k] == items[k])
  {
    if n == 0 {
      assert forall k :: !Lists(keys[..0], k);
    } else {
      RemovedPointwise(items, keys, n - 1, truthy);
      assert keys[..n] == keys[..n - 1] + [keys[n - 1]];
      ListsExactly(keys[..n - 1], keys[n - 1]);
    }
  }

  /** Inserting leaves existing entries alone exactly if each existing entry that is offered another value
      has a truthy one: an existing 0, "" or false is overwritten. */
  lemma InsertKeepsExistingExactly<K(!new), V>(items: map<K, V>, m: OrderedMap<K, V>, truthy: V -> bool)
    requires m.Valid()
    ensures AllInserted(items, m, truthy) == m.values + items
            <==> forall k :: k in items && k in m.values ==> truthy(items[k]) || items[k] == m.values[k]
  {
    InsertedPointwise(items, m, |m.order|, truthy);
    assert m.order[..|m.order|] == m.order;
    var r, wanted := AllInserted(items, m, truthy), m.values + items;
    assert forall k :: k in m.values <==> Lists(m.order, k);
    if forall k :: k in items && k in m.values ==> truthy(items[k]) || items[k] == m.values[k] {
      assert r == wanted;
    } else {
      var k :| k in items && k in m.values && !truthy(items[k]) && items[k] != m.values[k];
      assert r[k] == m.values[k] && wanted[k] == items[k];
    }
  }

  /** Removing takes the named keys out exactly if every entry among them has a truthy value. */
  lemma RemoveRemovesExactly<K(!new), V(!new)>(items: map<K, V>, keys: seq<K>, truthy: V -> bool)
    ensures AllRemoved(items, keys, truthy) == (map k | k in items && k !in KeySet(keys) :: items[k])
            <==> forall k :: k in items && k in KeySet(keys) ==> truthy(items[k])
  {
    RemovedPointwise(items, keys, |keys|, truthy);
    assert keys[..|keys|] == keys;
    forall k | Lists(keys, k)
      ensures k in KeySet(keys)
    {
      var i :| 0 <= i < |keys| && keys[i] == k;
    }
    var r, wanted := AllRemoved(items, keys, truthy), map k | k in items && k !in KeySet(keys) :: items[k];
    hide Lists, KeySet, RemovedUpTo;
    if forall k :: k in items && k in KeySet(keys) ==> truthy(items[k]) {
      forall k | k in items
        ensures k in r <==> k in wanted
      {
        assert k in KeySet(keys) <==> Lists(keys, k);
      }
      assert forall k :: k in r ==> k in wanted;
      assert r == wanted;
    } else {
      var k :| k in items && k in KeySet(keys) && !truthy(items[k]);
      assert k in r;
      assert k !in wanted;
    }
  }

  // ---------- the base map, in place ----------

  class MemoryBaseMap<K(==, !new), V> {
    const truthy: V -> bool
    var entries: map<K, V>

    constructor (truthy: V -> bool)
      ensures entries == map[] && this.truthy == truthy
    {
      this.truthy, entries := truthy, map[];
    }

    method Clear()
      modifies this
      ensures entries == map[]
    {
      entries := map[];
    }

    method GetAll(keys: seq<K>) returns (result: map<K, V>)
      ensures result == FoundAmong(entries, KeySet(keys), truthy)
    {
      result := map[];
      for i := 0 to |keys|
        invariant forall k :: k in result ==>
          k in entries && result[k] == entries[k] && truthy(result[k]) && k in KeySet(keys)
        invariant forall j :: 0 <= j < i && Found(entries, keys[j], truthy) ==> keys[j] in result
      {
        if keys[i] in entries && truthy(entries[keys[i]]) {
          result := result[keys[i] := entries[keys[i]]];
        }
      }
      forall k | k in FoundAmong(entries, KeySet(keys), truthy)
        ensures k in result
      {
        assert Lists(keys, k);
        var j :| 0 <= j < |keys| && keys[j] == k;
      }
    }

    /** The old values of the entries overwritten. */
    method SetAll(m: OrderedMap<K, V>) returns (updated: map<K, V>)
      requires m.Valid()
      modifies this
      ensures entries == old(entries) + m.values
      ensures updated == map k | k in old(entries) && k in m.values :: old(entries)[k]
    {
      entries, updated := PutAll(entries, m);
    }

    /** The entries already there, which stay as they are. */
    method InsertAll(m: OrderedMap<K, V>) returns (existing: map<K, V>)
      requires m.Valid()
      modifies this
      ensures entries == AllInserted(old(entries), m, truthy)
      ensures existing == FoundAmong(old(entries), m.values.Keys, truthy)
    {
      assert InsertedUpTo(entries, m, 0, truthy) == entries;
      hide InsertedUpTo, Lists;
      existing := map[];
      for i := 0 to |m.order|
        invariant entries == InsertedUpTo(old(entries), m, i, truthy)
        invariant forall k :: k in existing ==>
          Found(old(entries), k, truthy) && k in m.values && existing[k] == old(entries)[k]
        invariant forall j :: 0 <= j < i && Found(old(entries), m.order[j], truthy) ==> m.order[j] in existing
      {
        var key := m.order[i];
        InsertedNext(old(entries), m, i, truthy);
        if key in entries && truthy(entries[key]) {
          existing := existing[key := entries[key]];
        } else {
          entries := entries[key := m.values[key]];
        }
      }
      forall k | k in FoundAmong(old(entries), m.values.Keys, truthy)
        ensures k in existing
      {
        var j :| 0 <= j < |m.order| && m.order[j] == k;
      }
    }

    method RemoveAll(keys: seq<K>) returns (removed: map<K, V>)
      modifies this
      ensures entries == AllRemoved(old(entries), keys, truthy)
      ensures removed == FoundAmong(old(entries), KeySet(keys), truthy)
    {
      removed := map[];
      for i := 0 to |keys|
        invariant entries == RemovedUpTo(old(entries), keys, i, truthy)
        invariant forall k :: k in removed ==>
          k in old(entries) && removed[k] == old(entries)[k] && truthy(removed[k]) && k in KeySet(keys)
        invariant forall j :: 0 <= j < i && Found(old(entries), keys[j], truthy) ==> keys[j] in removed
      {
        RemovedPointwise(old(entries), keys, i, truthy);
        if keys[i] in entries && truthy(entries[keys[i]]) {
          removed := removed[keys[i] := entries[keys[i]]];
          entries := entries - {keys[i]};
        } else if Found(old(entries), keys[i], truthy) {
          var j :| 0 <= j < i && keys[..i][j] == keys[i];
          assert keys[j] == keys[i];
        }
      }
      forall k | k in FoundAmong(old(entries), KeySet(keys), truthy)
        ensures k in removed
      {
        assert Lists(keys, k);
        var j :| 0 <= j < |keys| && keys[j] == k;
      }
    }
  }

  // ---------- the committed commands ----------

  datatype Request<!K, V> =
    | ClearEntries
    | DeleteEntries(keys: seq<K>)
    | InsertEntries(entries: OrderedMap<K, V>)
    | RemoveEntries(keys: seq<K>, prevValue: Option<V>)
    | UpdateEntries(entries: OrderedMap<K, V>, prevValue: Option<V>)
  {
    ghost predicate Valid() {
      (InsertEntries? ==> entries.Valid()) && (UpdateEntries? ==> entries.Valid())
    }
  }

  /** The map afterwards and the entries of the answer; no answer lets the request time out. */
  datatype Outcome<!K, V> = Outcome(items: map<K, V>, answer: Option<map<K, V>>)

  datatype Tests<!V> = Tests(truthy: V -> bool, equalValues: (V, V) -> bool)

  /** Whether a conditional request finds the value it expects. */
  predicate Matches<K, V>(items: map<K, V>, k: K, prevValue: V, tests: Tests<V>) {
    Found(items, k, tests.truthy) && tests.equalValues(items[k], prevValue)
  }

  ghost function Handle<K, V>(items: map<K, V>, r: Request<K, V>, tests: Tests<V>): Outcome<K, V>
    requires r.Valid()
  {
    match r
    case ClearEntries => Outcome(map[], Some(map[]))
    case DeleteEntries(keys) =>
      Outcome(AllRemoved(items, keys, tests.truthy), Some(FoundAmong(items, KeySet(keys), tests.truthy)))
    case InsertEntries(m) =>
      Outcome(AllInserted(items, m, tests.truthy), Some(FoundAmong(items, m.values.Keys, tests.truthy)))
    case RemoveEntries(keys, prev) =>
      if prev.Some? && (|keys| != 1 || !Matches(items, keys[0], prev.value, tests)) then Outcome(items, None)
      else Outcome(AllRemoved(items, keys, tests.truthy), Some(FoundAmong(items, KeySet(keys), tests.truthy)))
    case UpdateEntries(m, prev) =>
      if prev.None? then
        Outcome(items + m.values, Some(map k | k in items && k in m.values :: items[k]))
      else if |m.order| != 1 then Outcome(items, None)
      else
        var k := m.order[0];
        if Matches(items, k, prev.value, tests)
        then Outcome(items[k := m.values[k]], Some(map[k := items[k]]))
        else Outcome(items, Some(map[]))
  }

  class HamokMap<K(==, !new), V> {
    const baseMap: MemoryBaseMap<K, V>
    const tests: Tests<V>

    constructor (baseMap: MemoryBaseMap<K, V>, tests: Tests<V>)
      requires baseMap.truthy == tests.truthy
      ensures this.baseMap == baseMap && this.tests == tests
    {
      this.baseMap, this.tests := baseMap, tests;
    }

    /** What the requester is answered; `None` if it is left to time out. */
    method OnRequest(r: Request<K, V>) returns (answer: Option<map<K, V>>)
      requires baseMap.truthy == tests.truthy && r.Valid()
      modifies baseMap
      ensures Handle(old(baseMap.entries), r, tests) == Outcome(baseMap.entries, answer)
    {
      match r {
        case ClearEntries =>
          baseMap.Clear();
          answer := Some(map[]);
        case DeleteEntries(keys) =>
          var removed := baseMap.RemoveAll(keys);
          answer := Some(removed);
        case InsertEntries(entries) =>
          var existing := baseMap.InsertAll(entries);
          answer := Some(existing);
        case RemoveEntries(keys, prevValue) =>
          answer := OnRemove(keys, prevValue);
        case UpdateEntries(entries, prevValue) =>
          answer := OnUpdate(entries, prevValue);
      }
    }

    method OnRemove(keys: seq<K>, prevValue: Option<V>) returns (answer: Option<map<K, V>>)
      requires baseMap.truthy == tests.truthy
      modifies baseMap
      ensures Handle(old(baseMap.entries), RemoveEntries(keys, prevValue), tests) == Outcome(baseMap.entries, answer)
    {
      if prevValue.Some? {
        if |keys| != 1 {
          return None;
        }
        var key := keys[0];
        if key !in baseMap.entries || !tests.truthy(baseMap.entries[key]) {
          return None;
        }
        if !tests.equalValues(baseMap.entries[key], prevValue.value) {
          return None;
        }
      }
      var removed := baseMap.RemoveAll(keys);
      answer := Some(removed);
    }

    method OnUpdate(m: OrderedMap<K, V>, prevValue: Option<V>) returns (answer: Option<map<K, V>>)
      requires baseMap.truthy == tests.truthy && m.Valid()
      modifies baseMap
      ensures Handle(old(baseMap.entries), UpdateEntries(m, prevValue), tests) == Outcome(baseMap.entries, answer)
    {
      if prevValue.None? {
        var updated := baseMap.SetAll(m);
        return Some(updated);
      }
      if |m.order| != 1 {
        return None;
      }
      var key, updated := m.order[0], map[];
      if key in baseMap.entries && tests.truthy(baseMap.entries[key]) {
        if tests.equalValues(baseMap.entries[key], prevValue.value) {
          updated := updated[key := baseMap.entries[key]];
          baseMap.entries := baseMap.entries[key := m.values[key]];
        }
      }
      return Some(updated);
    }

    /** Importing a snapshot sets its entries; it does not remove others. */
    method Import(m: OrderedMap<K, V>)
      requires m.Valid()
      modifies baseMap
      ensures baseMap.entries == old(baseMap.entries) + m.values
    {
      var updated := baseMap.SetAll(m);
    }
  }

  // ---------- what each command does, key by key ----------

  /** The answer holds the old values of exactly the keys chosen. */
  ghost predicate AnswersOld<K(!new), V>(answer: Option<map<K, V>>, items: map<K, V>, chosen: iset<K>) {
    && answer.Some?
    && (forall k :: k in answer.value <==> k in items && k in chosen)
    && (forall k :: k in answer.value ==> answer.value[k] == items[k])
  }

  /** An insert keeps every found value and answers with it; every other offered key takes the offered value. */
  lemma InsertExactly<K(!new), V>(items: map<K, V>, m: OrderedMap<K, V>, tests: Tests<V>)
    requires m.Valid()
    ensures var o := Handle(items, InsertEntries(m), tests);
      && (forall k :: k in o.items <==> k in items || k in m.values)
      && (forall k :: k in m.values && (k !in items || !tests.truthy(items[k])) ==> o.items[k] == m.values[k])
      && (forall k :: k in items && (k !in m.values || tests.truthy(items[k])) ==> o.items[k] == items[k])
      && AnswersOld(o.answer, items, iset k | k in m.values && k in items && tests.truthy(items[k]))
  {
    InsertedPointwise(items, m, |m.order|, tests.truthy);
    assert m.order[..|m.order|] == m.order;
    assert forall k :: k in m.values <==> Lists(m.order, k);
  }

  /** An unconditional update sets every offered key, leaves the others alone, and answers with the old values of
      exactly the keys that were there, truthy or not. */
  lemma UpdateExactly<K(!new), V>(items: map<K, V>, m: OrderedMap<K, V>, tests: Tests<V>)
    requires m.Valid()
    ensures var o := Handle(items, UpdateEntries(m, None), tests);
      && (forall k :: k in o.items <==> k in items || k in m.values)
      && (forall k :: k in m.values ==> o.items[k] == m.values[k])
      && (forall k :: k in items && k !in m.values ==> o.items[k] == items[k])
      && AnswersOld(o.answer, items, iset k | k in m.values)
  {
  }

  /** A conditional update changes one key, exactly if it offers one and finds the expected value there; with more
      or fewer keys it is left to time out. */
  lemma ConditionalUpdateExactly<K(!new), V>(items: map<K, V>, m: OrderedMap<K, V>, expected: V, tests: Tests<V>)
    requires m.Valid()
    ensures var o := Handle(items, UpdateEntries(m, Some(expected)), tests);
      if |m.order| != 1 then o == Outcome(items, None)
      else
        var k := m.order[0];
        if k in items && tests.truthy(items[k]) && tests.equalValues(items[k], expected) then
          && o.items == items[k := m.values[k]] && AnswersOld(o.answer, items, iset{k})
        else o == Outcome(items, Some(map[]))
  {
  }

  lemma NamedExactly<K>(keys: seq<K>, k: K)
    ensures k in KeySet(keys) <==> exists i :: 0 <= i < |keys| && keys[i] == k
    ensures Lists(keys, k) <==> k in KeySet(keys)
  {
    if Lists(keys, k) {
      var i :| 0 <= i < |keys| && keys[i] == k;
    }
  }

  /** A removal, or a deletion, takes out exactly the found values under its keys and answers with them. */
  lemma RemoveExactly<K(!new), V>(items: map<K, V>, keys: seq<K>, tests: Tests<V>)
    ensures var o := Handle(items, RemoveEntries(keys, None), tests);
      var gone := iset k | k in keys && k in items && tests.truthy(items[k]);
      && (forall k :: k in o.items <==> k in items && k !in gone)
      && (forall k :: k in o.items ==> o.items[k] == items[k])
      && AnswersOld(o.answer, items, gone)
      && Handle(items, DeleteEntries(keys), tests) == o
  {
    RemovedPointwise(items, keys, |keys|, tests.truthy);
    assert keys[..|keys|] == keys;
    forall k
      ensures k in KeySet(keys) <==> k in keys
      ensures Lists(keys, k) <==> k in keys
    {
      NamedExactly(keys, k);
    }
    hide Lists, KeySet, RemovedUpTo;
  }

  /** A conditional removal takes effect exactly if it names one key and finds the expected value there; otherwise
      it is left to time out. */
  lemma ConditionalRemoveExactly<K(!new), V>(items: map<K, V>, keys: seq<K>, expected: V, tests: Tests<V>)
    ensures Handle(items, RemoveEntries(keys, Some(expected)), tests) ==
            if |keys| == 1 && keys[0] in items && tests.truthy(items[keys[0]])
               && tests.equalValues(items[keys[0]], expected)
            then Outcome(items - {keys[0]}, Some(map[keys[0] := items[keys[0]]]))
            else Outcome(items, None)
  {
    if |keys| == 1 {
      assert RemovedUpTo(items, keys, 0, tests.truthy) == items;
      assert KeySet(keys) == {keys[0]};
      if Matches(items, keys[0], expected, tests) {
        assert AllRemoved(items, keys, tests.truthy) == items - {keys[0]};
        assert FoundAmong(items, {keys[0]}, tests.truthy) == map[keys[0] := items[keys[0]]];
      }
    }
  }

  /** A clear leaves nothing and is answered. */
  lemma ClearExactly<K(!new), V>(items: map<K, V>, tests: Tests<V>)
    ensures var o := Handle(items, ClearEntries, tests); (forall k :: k !in o.items) && o.answer == Some(map[])
  {
  }

  // ---------- conditional updates ----------

  /** The request of `updateIf`. */
  function Swap<K, V>(k: K, v: V, expected: V): Request<K, V> {
    UpdateEntries(OrderedMap([k], map[k := v]), Some(expected))
  }

  /** Values taken for equal are equal. */
  ghost predicate Discerning<V(!new)>(equalValues: (V, V) -> bool) {
    forall a, b :: equalValues(a, b) ==> a == b
  }

  ghost function SwapOne<K, V>(items: map<K, V>, k: K, swap: (V, V), tests: Tests<V>): map<K, V> {
    if Matches(items, k, swap.0, tests) then items[k := swap.1] else items
  }

  /** A conditional update takes effect and answers with the old value exactly if the value is found and as
      expected; otherwise nothing changes and the answer is empty. */
  lemma SwapIsConditional<K, V>(items: map<K, V>, k: K, v: V, expected: V, tests: Tests<V>)
    ensures Swap(k, v, expected).Valid()
    ensures var o := Handle(items, Swap(k, v, expected), tests);
      && o.items == SwapOne(items, k, (expected, v), tests)
      && o.answer == Some(if Matches(items, k, expected, tests) then map[k := items[k]] else map[])
  {
    assert [k][0] == k;
  }

  ghost function HandleAll<K, V>(items: map<K, V>, rs: seq<Request<K, V>>, tests: Tests<V>): map<K, V>
    requires forall i :: 0 <= i < |rs| ==> rs[i].Valid()
  {
    if rs == [] then items
    else Handle(HandleAll(items, rs[..|rs| - 1], tests), rs[|rs| - 1], tests).items
  }

  /** The request does not offer the value `v` for key `k`. */
  predicate Spares<K, V(==)>(r: Request<K, V>, k: K, v: V) {
    match r
    case InsertEntries(m) => k in m.values ==> m.values[k] != v
    case UpdateEntries(m, _) => k in m.values ==> m.values[k] != v
    case _ => true
  }

  ghost predicate Without<K, V>(items: map<K, V>, k: K, v: V) {
    k in items ==> items[k] != v
  }

  lemma SparedStaysAway<K(!new), V>(items: map<K, V>, r: Request<K, V>, k: K, v: V, tests: Tests<V>)
    requires r.Valid() && Spares(r, k, v) && Without(items, k, v)
    ensures Without(Handle(items, r, tests).items, k, v)
  {
    match r
    case DeleteEntries(keys) => RemovedPointwise(items, keys, |keys|, tests.truthy);
    case InsertEntries(m) => InsertedPointwise(items, m, |m.order|, tests.truthy);
    case RemoveEntries(keys, _) => RemovedPointwise(items, keys, |keys|, tests.truthy);
    case _ =>
  }

  lemma {:induction false} SparedRunStaysAway<K(!new), V>(
      items: map<K, V>, rs: seq<Request<K, V>>, k: K, v: V, tests: Tests<V>)
    requires forall i :: 0 <= i < |rs| ==> rs[i].Valid() && Spares(rs[i], k, v)
    requires Without(items, k, v)
    ensures Without(HandleAll(items, rs, tests), k, v)
  {
    if rs != [] {
      var n := |rs| - 1;
      SparedRunStaysAway(items, rs[..n], k, v, tests);
      SparedStaysAway(HandleAll(items, rs[..n], tests), rs[n], k, v, tests);
    }
  }

  /** Of competing conditional updates that expect the same value only the first takes effect: once one has
      set another value, no later one does, whatever is committed in between, inserts, updates, removals and
      other conditional updates included, unless one of those offers the expected value again. */
  lemma OnlyFirstSwapWins<K(!new), V(!new)>(
      items: map<K, V>, k: K, v: V, expected: V, between: seq<Request<K, V>>, later: V, tests: Tests<V>)
    requires Discerning(tests.equalValues) && v != expected && Matches(items, k, expected, tests)
    requires forall i :: 0 <= i < |between| ==> between[i].Valid() && Spares(between[i], k, expected)
    ensures Swap(k, v, expected).Valid() && Swap(k, later, expected).Valid()
    ensures var first := Handle(items, Swap(k, v, expected), tests);
      && first == Outcome(items[k := v], Some(map[k := items[k]]))
      && var after := HandleAll(first.items, between, tests);
         Handle(after, Swap(k, later, expected), tests) == Outcome(after, Some(map[]))
  {
    SwapIsConditional(items, k, v, expected, tests);
    var first := items[k := v];
    SparedRunStaysAway(first, between, k, expected, tests);
    SwapIsConditional(HandleAll(first, between, tests), k, later, expected, tests);
  }

  // ---------- importing a snapshot ----------

  /** What a peer holding `items` has after importing the snapshot of a peer holding `remote`. */
  lemma ImportKeepsStaleKeysExactly<K(!new), V(!new)>(
      items: map<K, V>, remote: map<K, V>, m: OrderedMap<K, V>, keys: Codec<K>, values: Codec<V>)
    requires m.Valid() && m.values == remote && keys.Lossless() && values.Lossless()
    ensures var r := items + DecodedMap(EncodedMap(m, keys, values), keys, values).values;
      && r == items + remote
      && (r == remote <==> items.Keys <= remote.Keys)
  {
    MapRoundTrip(m, keys, values);
    var r := items + remote;
    if items.Keys <= remote.Keys {
      assert r == remote;
    } else {
      var k :| k in items.Keys && k !in remote.Keys;
      assert k in r;
    }
  }
}
