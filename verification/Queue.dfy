/**
 The replicated queue: what the committed push, pop and clear commands do to its map of items, and
 what exporting it and importing the snapshot elsewhere does.
 */
module Queues {
  import opened Messages
  import opened Codecs

  datatype Queue<T> = Queue(head: int, tail: int, items: map<int, T>)
  {
    /** The items sit at exactly the keys from head on, below tail. */
    ghost predicate Valid() {
      head <= tail && forall k :: k in items <==> head <= k < tail
    }

    ghost function Contents(): (s: seq<T>)
      requires Valid()
      ensures |s| == tail - head
      ensures forall i {:trigger s[i]} :: 0 <= i < |s| ==> head + i in items && s[i] == items[head + i]
    {
      seq(tail - head, i requires 0 <= i < tail - head => items[head + i])
    }
  }

  datatype Item<+T> = Item(key: int, value: T)

  function NewQueue<T>(): Queue<T> { Queue(0, 0, map[]) }

  // ---------- the command handlers on values ----------

  function InsertedOne<T>(q: Queue<T>, v: T): Queue<T> {
    Queue(q.head, q.tail + 1, q.items[q.tail := v])
  }

  function Inserted<T>(q: Queue<T>, values: seq<T>): Queue<T> {
    if values == [] then q else InsertedOne(Inserted(q, values[..|values| - 1]), values[|values| - 1])
  }

  lemma InsertedNothing<T>(q: Queue<T>)
    ensures Inserted(q, []) == q
  {
  }

  lemma InsertedNext<T>(q: Queue<T>, values: seq<T>, i: nat)
    requires i < |values|
    ensures Inserted(q, values[..i + 1]) == InsertedOne(Inserted(q, values[..i]), values[i])
  {
    assert values[..i + 1][..i] == values[..i];
  }

  function Cleared<T>(q: Queue<T>): Queue<T> {
    Queue(q.tail, q.tail, map[])
  }

  /** Whether `_pop` finds an item to give out. */
  predicate Pops<T>(q: Queue<T>) {
    q.head != q.tail && q.head in q.items
  }

  function Popped<T>(q: Queue<T>): Queue<T>
    requires Pops(q)
  {
    Queue(q.head + 1, q.tail, q.items - {q.head})
  }

  /** A pop names the head it saw; it is ignored unless that is still the head. */
  function RemovedOne<T>(q: Queue<T>, key: int): Queue<T> {
    if key == q.head && Pops(q) then Popped(q) else q
  }

  function ObtainedOne<T>(q: Queue<T>, key: int): seq<Item<T>> {
    if key == q.head && Pops(q) then [Item(key, q.items[key])] else []
  }

  function Removed<T>(q: Queue<T>, keys: seq<int>): Queue<T> {
    if keys == [] then q else RemovedOne(Removed(q, keys[..|keys| - 1]), keys[|keys| - 1])
  }

  /** The items a pop request gets, in the order it names them. */
  function Obtained<T>(q: Queue<T>, keys: seq<int>): seq<Item<T>> {
    if keys == [] then []
    else Obtained(q, keys[..|keys| - 1]) + ObtainedOne(Removed(q, keys[..|keys| - 1]), keys[|keys| - 1])
  }

  /** The values of a map in the order of its keys: what a push request carries. */
  function ValuesOf<K, V>(m: OrderedMap<K, V>): (s: seq<V>)
    requires forall i :: 0 <= i < |m.order| ==> m.order[i] in m.values
    ensures |s| == |m.order| && forall i :: 0 <= i < |s| ==> s[i] == m.values[m.order[i]]
  {
    seq(|m.order|, i requires 0 <= i < |m.order| => m.values[m.order[i]])
  }

  // ---------- export and import ----------

  /** What a snapshot import makes of the decoded entries. */
  function Imported<T>(entries: OrderedMap<int, T>): Queue<T> {
    var head, tail := MinKey(entries.order), MaxKey(entries.order);
    Queue(head, if head != tail then tail + 1 else tail, entries.values)
  }

  function MinKey(keys: seq<int>): int {
    if |keys| <= 1 then (if keys == [] then 0 else keys[0])
    else
      var m, k := MinKey(keys[..|keys| - 1]), keys[|keys| - 1];
      if k < m then k else m
  }

  function MaxKey(keys: seq<int>): int {
    if |keys| <= 1 then (if keys == [] then 0 else keys[0])
    else
      var m, k := MaxKey(keys[..|keys| - 1]), keys[|keys| - 1];
      if m < k then k else m
  }

  ghost predicate Ascending(keys: seq<int>) {
    forall i, j :: 0 <= i < j < |keys| ==> keys[i] < keys[j]
  }

  /** The entries of the map sorted by key. */
  ghost predicate IsSorted<T>(items: map<int, T>, m: OrderedMap<int, T>) {
    Ascending(m.order) && m.Valid() && m.values == items
  }

  // ---------- the queue, in place ----------

  class HamokQueue<T(==, !new)> {
    var head: int
    var tail: int
    var baseMap: map<int, T>
    const keyCodec: Codec<int>
    const valueCodec: Codec<T>

    ghost function Value(): Queue<T>
      reads this
    {
      Queue(head, tail, baseMap)
    }

    constructor (baseMap: map<int, T>, keyCodec: Codec<int>, valueCodec: Codec<T>)
      ensures Value() == Queue(0, 0, baseMap) && this.keyCodec == keyCodec && this.valueCodec == valueCodec
    {
      head, tail, this.baseMap, this.keyCodec, this.valueCodec := 0, 0, baseMap, keyCodec, valueCodec;
    }

    method OnClearEntries()
      modifies this`head, this`baseMap
      ensures Value() == Cleared(old(Value()))
    {
      baseMap := map[];
      head := tail;
    }

    method OnInsertEntries(entries: OrderedMap<int, T>)
      requires entries.Valid()
      modifies this`tail, this`baseMap
      ensures Value() == Inserted(old(Value()), ValuesOf(entries))
    {
      hide Inserted, Lists;
      ghost var values := ValuesOf(entries);
      InsertedNothing(Value());
      assert values[..0] == [];
      for i := 0 to |entries.order|
        invariant Value() == Inserted(old(Value()), values[..i])
      {
        InsertedNext(old(Value()), values, i);
        baseMap := baseMap[tail := entries.values[entries.order[i]]];
        tail := tail + 1;
      }
      assert values[..|values|] == values;
    }

    /** The items removed are what the requester is answered with. */
    method OnRemoveEntries(keys: seq<int>) returns (removedEntries: seq<Item<T>>)
      modifies this`head, this`baseMap
      ensures Value() == Removed(old(Value()), keys) && removedEntries == Obtained(old(Value()), keys)
    {
      removedEntries := [];
      for i := 0 to |keys|
        invariant Value() == Removed(old(Value()), keys[..i])
        invariant removedEntries == Obtained(old(Value()), keys[..i])
      {
        assert keys[..i + 1][..i] == keys[..i];
        if keys[i] == head {
          var value := Pop();
          if value.Some? {
            removedEntries := removedEntries + [Item(keys[i], value.value)];
          }
        }
      }
      assert keys[..|keys|] == keys;
    }

    method Pop() returns (value: Option<T>)
      modifies this`head, this`baseMap
      ensures Value() == RemovedOne(old(Value()), old(head))
      ensures value == if Pops(old(Value())) then Some(old(baseMap)[old(head)]) else None
    {
      if head == tail {
        return None;
      }
      if head !in baseMap {
        return None;
      }
      value := Some(baseMap[head]);
      baseMap := baseMap - {head};
      head := head + 1;
    }

    /** The iterator; `None` stands for its exceptions. */
    method Items() returns (r: Option<seq<T>>)
      ensures Value().Valid() ==> r == Some(Value().Contents())
      ensures r.Some? <==> head <= tail && forall k :: head <= k < tail ==> k in baseMap
    {
      if tail < head {
        return None;
      }
      if head == tail {
        return Some([]);
      }
      var s := [];
      for i := head to tail
        invariant |s| == i - head
        invariant forall k :: head <= k < i ==> k in baseMap
        invariant forall j :: 0 <= j < |s| ==> s[j] == baseMap[head + j]
      {
        if i !in baseMap {
          return None;
        }
        s := s + [baseMap[i]];
      }
      if Value().Valid() {
        assert s == Value().Contents();
      }
      return Some(s);
    }

    method Export() returns (e: Encoded)
      ensures exists sorted :: IsSorted(baseMap, sorted) && e == EncodedMap(sorted, keyCodec, valueCodec)
    {
      var entries := SortEntries(baseMap);
      e := EncodeMap(entries, keyCodec, valueCodec);
    }

    method Import(e: Encoded)
      modifies this
      ensures Value() == Imported(DecodedMap(e, keyCodec, valueCodec))
    {
      hide MinKey, MaxKey, DecodedMap, Lists, OrderedMap.Valid;
      baseMap := map[];
      var entries := DecodeMap(e, keyCodec, valueCodec);
      DecodedMapValid(e, keyCodec, valueCodec);
      EndsOfNothing();
      ghost var updated;
      baseMap, updated := PutAll(baseMap, entries);
      var newHead, newTail := ScanKeys(entries.order);
      head := if newHead.Some? then newHead.value else 0;
      tail := if newTail.Some? then newTail.value else 0;
      if head != tail {
        tail := tail + 1;
      }
    }
  }

  lemma EndsOfNothing()
    ensures MinKey([]) == 0 && MaxKey([]) == 0
  {
  }

  /** The least and the greatest of the keys. */
  method ScanKeys(keys: seq<int>) returns (newHead: Option<int>, newTail: Option<int>)
    ensures newHead == if keys == [] then None else Some(MinKey(keys))
    ensures newTail == if keys == [] then None else Some(MaxKey(keys))
  {
    newHead, newTail := None, None;
    for i := 0 to |keys|
      invariant newHead == if i == 0 then None else Some(MinKey(keys[..i]))
      invariant newTail == if i == 0 then None else Some(MaxKey(keys[..i]))
    {
      var key := keys[i];
      assert keys[..i + 1][..i] == keys[..i];
      if newHead.None? || key < newHead.value {
        newHead := Some(key);
      }
      if newTail.None? || newTail.value < key {
        newTail := Some(key);
      }
    }
    assert keys[..|keys|] == keys;
  }

  lemma Inhabited<T>(s: set<T>, x: T)
    requires x in s
    ensures s != {}
  {
  }

  lemma {:induction false} Least(keys: set<int>) returns (m: int)
    requires keys != {}
    ensures m in keys && forall k :: k in keys ==> m <= k
    decreases |keys|
  {
    var x := Pick(keys);
    var below := set k | k in keys && k < x;
    if below == {} {
      m := x;
    } else {
      Smaller(below, keys, x);
      m := Least(below);
    }
    forall k | k in keys
      ensures m <= k
    {
      if k < x {
        Inhabited(below, k);
      }
    }
  }

  lemma Smaller<T>(a: set<T>, b: set<T>, x: T)
    requires a <= b && x in b && x !in a
    ensures |a| < |b|
  {
    assert a <= b - {x};
    SubsetSize(a, b - {x});
  }

  /** Sorting the entries by key, the least remaining one first. */
  method SortEntries<T>(items: map<int, T>) returns (m: OrderedMap<int, T>)
    ensures IsSorted(items, m)
  {
    hide Sorting, IsSorted;
    var order: seq<int> := [];
    var todo := items.Keys;
    SortingBegins(items);
    while todo != {}
      invariant Sorting(items, order, todo)
      decreases |todo|
    {
      ghost var least := Least(todo);
      var k :| k in todo && forall j :: j in todo ==> k <= j;
      SortingGoesOn(items, order, todo, k);
      order := order + [k];
      todo := todo - {k};
    }
    SortingEnds(items, order);
    m := OrderedMap(order, items);
  }

  /** The keys so far ascend and lie below those still to come. */
  ghost predicate Sorting<T>(items: map<int, T>, order: seq<int>, todo: set<int>) {
    && Ascending(order)
    && (forall i :: 0 <= i < |order| ==> order[i] in items)
    && (forall k :: k in items ==> k in todo || Lists(order, k))
    && (forall i, k :: 0 <= i < |order| && k in todo ==> order[i] < k)
    && (forall k :: k in todo ==> k in items)
  }

  lemma SortingBegins<T>(items: map<int, T>)
    ensures Sorting(items, [], items.Keys)
  {
  }

  lemma SortingGoesOn<T>(items: map<int, T>, order: seq<int>, todo: set<int>, k: int)
    requires Sorting(items, order, todo) && k in todo && forall j :: j in todo ==> k <= j
    ensures Sorting(items, order + [k], todo - {k})
  {
    ListsMore(order, k);
    hide Lists;
  }

  lemma SortingEnds<T>(items: map<int, T>, order: seq<int>)
    requires Sorting(items, order, {})
    ensures IsSorted(items, OrderedMap(order, items))
  {
    forall k | k in items
      ensures Lists(order, k)
    {
    }
    hide Lists;
  }

  // ---------- runs of committed commands ----------

  datatype Request<+T> = Push(values: seq<T>) | Pop(keys: seq<int>) | Clear

  function Do<T>(q: Queue<T>, r: Request<T>): Queue<T> {
    match r
    case Push(values) => Inserted(q, values)
    case Pop(keys) => Removed(q, keys)
    case Clear => Cleared(q)
  }

  function Answer<T>(q: Queue<T>, r: Request<T>): seq<Item<T>> {
    if r.Pop? then Obtained(q, r.keys) else []
  }

  function RunFrom<T>(q: Queue<T>, rs: seq<Request<T>>): Queue<T> {
    if rs == [] then q else Do(RunFrom(q, rs[..|rs| - 1]), rs[|rs| - 1])
  }

  /** All values pushed in a run, in log order. */
  function AllPushed<T>(rs: seq<Request<T>>): seq<T> {
    if rs == [] then []
    else AllPushed(rs[..|rs| - 1]) + if rs[|rs| - 1].Push? then rs[|rs| - 1].values else []
  }

  /** All items pops obtained in a run, in log order. */
  function AllPopped<T>(rs: seq<Request<T>>): seq<Item<T>> {
    if rs == [] then []
    else AllPopped(rs[..|rs| - 1]) + Answer(RunFrom(NewQueue(), rs[..|rs| - 1]), rs[|rs| - 1])
  }

  /** The queue against the history of its pushes: item `k` is the `k`-th value pushed, and the items
      given out are such items from below the head, each at most once, in push order. */
  ghost predicate Tracks<T>(q: Queue<T>, pushed: seq<T>, popped: seq<Item<T>>) {
    && q.Valid() && 0 <= q.head && q.tail == |pushed|
    && (forall k :: k in q.items ==> q.items[k] == pushed[k])
    && (forall i :: 0 <= i < |popped| ==> 0 <= popped[i].key < q.head && popped[i].value == pushed[popped[i].key])
    && (forall i, j :: 0 <= i < j < |popped| ==> popped[i].key < popped[j].key)
  }

  /** Nothing was skipped: the items given out are exactly those below the head. */
  ghost predicate AllBelowHead<T>(q: Queue<T>, popped: seq<Item<T>>) {
    |popped| == q.head && forall i :: 0 <= i < |popped| ==> popped[i].key == i
  }

  lemma {:induction false} InsertTracks<T>(q: Queue<T>, values: seq<T>, pushed: seq<T>, popped: seq<Item<T>>)
    requires Tracks(q, pushed, popped)
    ensures Tracks(Inserted(q, values), pushed + values, popped)
    ensures Inserted(q, values).head == q.head
  {
    if values == [] {
      assert pushed + values == pushed;
    } else {
      var before := values[..|values| - 1];
      InsertTracks(q, before, pushed, popped);
      assert pushed + values == pushed + before + [values[|values| - 1]];
    }
  }

  lemma {:induction false} RemoveTracks<T>(q: Queue<T>, keys: seq<int>, pushed: seq<T>, popped: seq<Item<T>>)
    requires Tracks(q, pushed, popped)
    ensures Tracks(Removed(q, keys), pushed, popped + Obtained(q, keys)) && q.head <= Removed(q, keys).head
    ensures AllBelowHead(q, popped) ==> AllBelowHead(Removed(q, keys), popped + Obtained(q, keys))
  {
    if keys == [] {
      assert popped + Obtained(q, keys) == popped;
    } else {
      var before, key := keys[..|keys| - 1], keys[|keys| - 1];
      RemoveTracks(q, before, pushed, popped);
      var m, got := Removed(q, before), popped + Obtained(q, before);
      RemoveOneTracks(m, key, pushed, got);
      assert popped + Obtained(q, keys) == got + ObtainedOne(m, key);
    }
  }

  lemma RemoveOneTracks<T>(q: Queue<T>, key: int, pushed: seq<T>, popped: seq<Item<T>>)
    requires Tracks(q, pushed, popped)
    ensures Tracks(RemovedOne(q, key), pushed, popped + ObtainedOne(q, key))
    ensures q.head <= RemovedOne(q, key).head
    ensures AllBelowHead(q, popped) ==> AllBelowHead(RemovedOne(q, key), popped + ObtainedOne(q, key))
  {
    if !(key == q.head && Pops(q)) {
      assert popped + ObtainedOne(q, key) == popped;
    }
  }

  /** First in, first out, over any run of committed requests from an empty queue: the keys stored are
      exactly head..tail-1, and items come out in push order, each at most once. */
  lemma {:induction false} FirstInFirstOut<T>(rs: seq<Request<T>>)
    ensures Tracks(RunFrom(NewQueue(), rs), AllPushed(rs), AllPopped(rs))
  {
    if rs != [] {
      var before, r := rs[..|rs| - 1], rs[|rs| - 1];
      FirstInFirstOut(before);
      var q := RunFrom(NewQueue(), before);
      match r
      case Push(values) =>
        InsertTracks(q, values, AllPushed(before), AllPopped(before));
        assert AllPopped(rs) == AllPopped(before);
      case Pop(keys) =>
        RemoveTracks(q, keys, AllPushed(before), AllPopped(before));
        assert AllPushed(rs) == AllPushed(before);
      case Clear =>
        assert AllPushed(rs) == AllPushed(before) && AllPopped(rs) == AllPopped(before);
    }
  }

  /** Without a clear nothing is lost: what was popped, followed by what is still queued, is what was pushed. */
  lemma {:induction false} NothingIsLost<T>(rs: seq<Request<T>>)
    requires forall i :: 0 <= i < |rs| ==> !rs[i].Clear?
    ensures var q := RunFrom(NewQueue(), rs);
      && q.Valid() && AllBelowHead(q, AllPopped(rs)) && q.head <= |AllPushed(rs)|
      && q.Contents() == AllPushed(rs)[q.head..]
      && (forall i :: 0 <= i < |AllPopped(rs)| ==> AllPopped(rs)[i] == Item(i, AllPushed(rs)[i]))
  {
    FirstInFirstOut(rs);
    NothingSkipped(rs);
    var q := RunFrom(NewQueue(), rs);
    assert q.Contents() == AllPushed(rs)[q.head..];
  }

  lemma {:induction false} NothingSkipped<T>(rs: seq<Request<T>>)
    requires forall i :: 0 <= i < |rs| ==> !rs[i].Clear?
    ensures AllBelowHead(RunFrom(NewQueue(), rs), AllPopped(rs))
  {
    if rs != [] {
      var before, r := rs[..|rs| - 1], rs[|rs| - 1];
      NothingSkipped(before);
      FirstInFirstOut(before);
      var q := RunFrom(NewQueue(), before);
      assert !rs[|rs| - 1].Clear?;
      if r.Pop? {
        RemoveTracks(q, r.keys, AllPushed(before), AllPopped(before));
      } else {
        InsertTracks(q, r.values, AllPushed(before), AllPopped(before));
        assert AllPopped(rs) == AllPopped(before);
      }
    }
  }

  // ---------- competing pops ----------

  lemma {:induction false} HeadNeverFalls<T>(q: Queue<T>, rs: seq<Request<T>>)
    requires q.Valid()
    ensures RunFrom(q, rs).Valid() && q.head <= RunFrom(q, rs).head
  {
    if rs != [] {
      HeadNeverFalls(q, rs[..|rs| - 1]);
      var m := RunFrom(q, rs[..|rs| - 1]);
      match rs[|rs| - 1]
      case Push(values) => InsertKeepsValid(m, values);
      case Pop(keys) => RemoveKeepsValid(m, keys);
      case Clear =>
    }
  }

  lemma {:induction false} InsertKeepsValid<T>(q: Queue<T>, values: seq<T>)
    requires q.Valid()
    ensures Inserted(q, values).Valid() && Inserted(q, values).head == q.head
    ensures Inserted(q, values).Contents() == q.Contents() + values
  {
    if values == [] {
      assert q.Contents() + values == q.Contents();
    } else {
      var before, v := values[..|values| - 1], values[|values| - 1];
      InsertKeepsValid(q, before);
      var m := Inserted(q, before);
      assert InsertedOne(m, v).Contents() == m.Contents() + [v];
      assert q.Contents() + values == q.Contents() + before + [v];
    }
  }

  lemma {:induction false} RemoveKeepsValid<T>(q: Queue<T>, keys: seq<int>)
    requires q.Valid()
    ensures Removed(q, keys).Valid() && q.head <= Removed(q, keys).head
  {
    if keys != [] {
      RemoveKeepsValid(q, keys[..|keys| - 1]);
    }
  }

  /** Of two pops naming the same head, whatever is committed between them, the first obtains the item
      and the second obtains nothing. */
  lemma OnlyFirstPopObtains<T>(q: Queue<T>, between: seq<Request<T>>)
    requires q.Valid() && q.head < q.tail
    ensures Obtained(q, [q.head]) == [Item(q.head, q.items[q.head])]
    ensures Obtained(RunFrom(Removed(q, [q.head]), between), [q.head]) == []
  {
    var after := Removed(q, [q.head]);
    assert [q.head][..0] == [];
    assert q.head in q.items;
    assert Removed(q, []) == q && Obtained(q, []) == [];
    assert after == RemovedOne(q, q.head) == Popped(q);
    var end := RunFrom(after, between);
    assert Removed(end, []) == end && Obtained(end, []) == [];
    HeadNeverFalls(after, between);
  }

  // ---------- a plain sequence ----------

  /** The abstract queue: the waiting values, and the number of the next one. */
  datatype Line<T> = Line(next: int, waiting: seq<T>)

  function Served<T>(l: Line<T>, keys: seq<int>): Line<T> {
    if keys == [] then l
    else
      var m, key := Served(l, keys[..|keys| - 1]), keys[|keys| - 1];
      if key == m.next && m.waiting != [] then Line(m.next + 1, m.waiting[1..]) else m
  }

  function LineDo<T>(l: Line<T>, r: Request<T>): Line<T> {
    match r
    case Push(values) => Line(l.next, l.waiting + values)
    case Pop(keys) => Served(l, keys)
    case Clear => Line(l.next + |l.waiting|, [])
  }

  ghost function Abstract<T>(q: Queue<T>): Line<T>
    requires q.Valid()
  {
    Line(q.head, q.Contents())
  }

  lemma {:induction false} RemoveRefines<T>(q: Queue<T>, keys: seq<int>)
    requires q.Valid()
    ensures Removed(q, keys).Valid() && Abstract(Removed(q, keys)) == Served(Abstract(q), keys)
  {
    if keys != [] {
      var before, key := keys[..|keys| - 1], keys[|keys| - 1];
      RemoveRefines(q, before);
      var m := Removed(q, before);
      if key == m.head && Pops(m) {
        assert Popped(m).Contents() == m.Contents()[1..];
      }
    }
  }

  /** What the pops get from the plain sequence. */
  function ServedItems<T>(l: Line<T>, keys: seq<int>): seq<Item<T>> {
    if keys == [] then []
    else
      var before, m, key := ServedItems(l, keys[..|keys| - 1]), Served(l, keys[..|keys| - 1]), keys[|keys| - 1];
      if key == m.next && m.waiting != [] then before + [Item(m.next, m.waiting[0])] else before
  }

  /** The answer to a pop request: the first waiting value for each key that names it, and nothing else. */
  lemma {:induction false} AnswerRefines<T>(q: Queue<T>, keys: seq<int>)
    requires q.Valid()
    ensures Obtained(q, keys) == ServedItems(Abstract(q), keys)
  {
    if keys != [] {
      var before := keys[..|keys| - 1];
      AnswerRefines(q, before);
      RemoveRefines(q, before);
    }
  }

  function LineRun<T>(l: Line<T>, rs: seq<Request<T>>): Line<T> {
    if rs == [] then l else LineDo(LineRun(l, rs[..|rs| - 1]), rs[|rs| - 1])
  }

  /** Every run on the keyed map is the same run on a plain sequence. */
  lemma {:induction false} RunRefinesSequence<T>(q: Queue<T>, rs: seq<Request<T>>)
    requires q.Valid()
    ensures RunFrom(q, rs).Valid() && Abstract(RunFrom(q, rs)) == LineRun(Abstract(q), rs)
  {
    if rs != [] {
      var before, r := rs[..|rs| - 1], rs[|rs| - 1];
      RunRefinesSequence(q, before);
      var m := RunFrom(q, before);
      match r
      case Push(values) => InsertKeepsValid(m, values);
      case Pop(keys) => RemoveRefines(m, keys);
      case Clear =>
    }
  }

  // ---------- the snapshot round trip ----------

  lemma {:induction false} EndsExactly(keys: seq<int>)
    requires keys != []
    ensures MinKey(keys) in keys && MaxKey(keys) in keys
    ensures forall k :: k in keys ==> MinKey(keys) <= k <= MaxKey(keys)
  {
    if 1 < |keys| {
      var before, last := keys[..|keys| - 1], keys[|keys| - 1];
      EndsExactly(before);
      assert keys == before + [last];
    } else {
      assert keys == [keys[0]];
    }
  }

  /** Whatever the order of the imported keys, the head is the least and the tail lies behind the greatest, or on it
      if there is but one; without keys both are 0. */
  lemma ImportEndsExactly<T>(entries: OrderedMap<int, T>)
    ensures var r, keys := Imported(entries), entries.order;
      && r.items == entries.values
      && (keys == [] ==> r.head == r.tail == 0)
      && (keys != [] ==>
            && r.head in keys && (forall k :: k in keys ==> r.head <= k)
            && (if r.head == r.tail then forall k :: k in keys ==> k == r.head
                else r.tail - 1 in keys && forall k :: k in keys ==> k < r.tail))
  {
    if entries.order != [] {
      EndsExactly(entries.order);
    }
  }

  lemma RangeInhabited(keys: seq<int>, lo: int, hi: int)
    requires keys != [] && forall i :: 0 <= i < |keys| ==> lo <= keys[i] < hi
    ensures lo < hi
  {
    assert lo <= keys[0] < hi;
  }

  lemma {:induction false} AscendingRun(keys: seq<int>, lo: int, hi: int)
    requires Ascending(keys) && lo <= hi
    requires forall i :: 0 <= i < |keys| ==> lo <= keys[i] < hi
    requires forall k :: lo <= k < hi ==> Lists(keys, k)
    ensures |keys| == hi - lo && forall i :: 0 <= i < |keys| ==> keys[i] == lo + i
  {
    if lo < hi {
      var n := |keys| - 1;
      assert Lists(keys, hi - 1);
      assert keys[n] == hi - 1;
      forall k | lo <= k < hi - 1
        ensures Lists(keys[..n], k)
      {
        assert Lists(keys, k);
        var i :| 0 <= i < |keys| && keys[i] == k;
        assert keys[..n][i] == k;
      }
      AscendingRun(keys[..n], lo, hi - 1);
    } else if keys != [] {
      RangeInhabited(keys, lo, hi);
      assert false;
    }
  }

  lemma {:induction false} EndsOfAscending(keys: seq<int>)
    requires Ascending(keys) && keys != []
    ensures MinKey(keys) == keys[0] && MaxKey(keys) == keys[|keys| - 1]
  {
    if 1 < |keys| {
      EndsOfAscending(keys[..|keys| - 1]);
    }
  }

  /** What a peer makes of the exported snapshot of `q`. */
  function Transferred<T(!new)>(m: OrderedMap<int, T>, keys: Codec<int>, values: Codec<T>): Queue<T>
    requires forall i :: 0 <= i < |m.order| ==> m.order[i] in m.values
  {
    Imported(DecodedMap(EncodedMap(m, keys, values), keys, values))
  }

  /** The snapshot of a queue, imported elsewhere, restores head, tail and items exactly if the queue has
      at least two items, or none and starts at key 0.  A lone item arrives outside head..tail; an
      empty queue arrives with its keys starting over. */
  lemma SnapshotRoundTrip<T(!new)>(q: Queue<T>, m: OrderedMap<int, T>, keys: Codec<int>, values: Codec<T>)
    requires q.Valid() && IsSorted(q.items, m) && keys.Lossless() && values.Lossless()
    ensures var r, size := Transferred(m, keys, values), q.tail - q.head;
      && r.items == q.items
      && (r == q <==> 2 <= size || (size == 0 && q.head == 0))
      && (size == 1 ==> r.head == r.tail == q.head && !r.Valid())
      && (size == 0 ==> r == NewQueue())
  {
    MapRoundTrip(m, keys, values);
    SortedKeys(q, m);
    var r := Transferred(m, keys, values);
    hide EncodedMap, DecodedMap, Lists, IsSorted;
    assert r == Imported(m);
    if m.order == [] {
      EndsOfNothing();
      assert r.items == q.items == map[];
    } else {
      EndsOfAscending(m.order);
      assert q.head in r.items;
    }
  }

  /** The sorted entries of a valid queue have the keys head, head + 1, ..., tail - 1. */
  lemma SortedKeys<T(!new)>(q: Queue<T>, m: OrderedMap<int, T>)
    requires q.Valid() && IsSorted(q.items, m)
    ensures |m.order| == q.tail - q.head && Ascending(m.order) && m.values == q.items
    ensures forall i :: 0 <= i < |m.order| ==> m.order[i] == q.head + i
  {
    forall k | q.head <= k < q.tail
      ensures Lists(m.order, k)
    {
      assert k in m.values;
    }
    AscendingRun(m.order, q.head, q.tail);
  }

  /** A lone item is lost to the importing peer: no pop obtains it, and the next push overwrites it. */
  lemma LoneItemIsOverwritten<T(!new)>(
      q: Queue<T>, m: OrderedMap<int, T>, keys: Codec<int>, values: Codec<T>, key: int, v: T)
    requires q.Valid() && q.tail == q.head + 1
    requires IsSorted(q.items, m) && keys.Lossless() && values.Lossless()
    ensures var r := Transferred(m, keys, values);
      && Obtained(r, [key]) == []
      && Inserted(r, [v]).Valid() && Inserted(r, [v]).Contents() == [v]
      && Inserted(q, [v]).Valid() && Inserted(q, [v]).Contents() == q.Contents() + [v]
  {
    SnapshotRoundTrip(q, m, keys, values);
    InsertKeepsValid(q, [v]);
    LoneItemGone(Transferred(m, keys, values), q, key, v);
    hide *;
  }

  lemma LoneItemGone<T>(r: Queue<T>, q: Queue<T>, key: int, v: T)
    requires q.Valid() && q.tail == q.head + 1 && r == Queue(q.head, q.head, q.items)
    ensures Obtained(r, [key]) == []
    ensures Inserted(r, [v]).Valid() && Inserted(r, [v]).Contents() == [v]
  {
    assert [v][..0] == [] && [key][..0] == [];
    assert Inserted(r, [v]) == InsertedOne(r, v);
    assert forall k :: k in q.items ==> k == r.tail;
    assert Inserted(r, [v]).items == map[r.tail := v];
  }

  /** Peers that imported an emptied queue number the items differently: the pop that obtains the next
      item at the exporting peer obtains nothing there. */
  lemma EmptiedQueueRenumbers<T(!new)>(
      q: Queue<T>, m: OrderedMap<int, T>, keys: Codec<int>, values: Codec<T>, v: T)
    requires q.Valid() && q.tail == q.head && q.head != 0
    requires IsSorted(q.items, m) && keys.Lossless() && values.Lossless()
    ensures Obtained(Inserted(q, [v]), [q.head]) == [Item(q.head, v)]
    ensures Obtained(Inserted(Transferred(m, keys, values), [v]), [q.head]) == []
  {
    SnapshotRoundTrip(q, m, keys, values);
    assert [v][..0] == [] && [q.head][..0] == [];
    assert Inserted(q, [v]) == InsertedOne(q, v);
    assert Inserted(NewQueue(), [v]) == InsertedOne(NewQueue(), v);
  }

  /** The values of a push arrive in the order given: numbered, encoded, decoded and read back. */
  lemma PushKeepsOrder<T(!new)>(m: OrderedMap<int, T>, pushed: seq<T>, keys: Codec<int>, values: Codec<T>)
    requires keys.Lossless() && values.Lossless()
    requires |m.order| == |pushed| && m.Valid()
    requires forall i :: 0 <= i < |pushed| ==> m.order[i] == i && m.values[i] == pushed[i]
    ensures var d := DecodedMap(EncodedMap(m, keys, values), keys, values);
      d.Valid() && ValuesOf(d) == pushed
  {
    MapRoundTrip(m, keys, values);
  }
}
