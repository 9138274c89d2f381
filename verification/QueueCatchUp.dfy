/** A queue joining the grid: snapshot, buffered commits and log replay together. */
module QueueCatchUp {
  import opened Messages
  import opened RaftLogs
  import opened Codecs
  import opened Connections
  import opened Queues

  /** The queue as a state machine over the committed messages. */
  function Applying<T>(decode: Message -> Request<T>): (Queue<T>, Message) -> Queue<T> {
    (q: Queue<T>, m: Message) => Do(q, decode(m))
  }

  lemma DoKeepsValid<T>(q: Queue<T>, r: Request<T>)
    requires q.Valid()
    ensures Do(q, r).Valid()
  {
    match r
    case Push(values) => InsertKeepsValid(q, values);
    case Pop(keys) => RemoveKeepsValid(q, keys);
    case Clear =>
  }

  lemma {:induction false} FoldKeepsValid<T>(decode: Message -> Request<T>, q: Queue<T>, ds: seq<Delivery>)
    requires q.Valid()
    ensures Fold(Applying(decode), q, ds).Valid()
  {
    if ds != [] {
      FoldKeepsValid(decode, q, ds[..|ds| - 1]);
      DoKeepsValid(Fold(Applying(decode), q, ds[..|ds| - 1]), decode(ds[|ds| - 1].message));
    }
  }

  /** What the queue of a peer that replayed the whole history below index `n` is. */
  function QueueAt<T>(decode: Message -> Request<T>, history: seq<Message>, storageId: StorageId, n: nat): Queue<T>
    requires n <= |history|
  {
    Replayed(Applying(decode), NewQueue(), history, storageId, n)
  }

  /** A snapshot survives its transfer. */
  predicate Transferable<T>(q: Queue<T>) {
    2 <= q.tail - q.head || (q.head == 0 && q.tail == 0)
  }

  /** A queue that joins from the snapshot another peer exported at commit index `s` stands where a peer
      stands that replayed the whole history, if no commit is lost to the buffer and the exported queue held
      at least two items, or none and had never held any. */
  lemma QueueCatchesUp<T(!new)>(
      c: Connection<Queue<T>>, log: LogState, history: seq<Message>, kind: Message -> Kind, storageId: StorageId,
      localPeerId: PeerId, s: int, b: int, decode: Message -> Request<T>,
      exported: OrderedMap<int, T>, keys: Codec<int>, values: Codec<T>)
    requires Joining(c, log, history, kind, storageId, s, b)
    requires !LosesEntry(history, storageId, s, b, log.commitIndex)
    requires keys.Lossless() && values.Lossless()
    requires var q := QueueAt(decode, history, storageId, s + 1); IsSorted(q.items, exported) && Transferable(q)
    ensures var snapshot := Snapshot(s, Transferred(exported, keys, values));
      var r := Joined(c, Some(snapshot), log, kind, storageId, localPeerId);
      var joined := StateOf(Applying(decode), NewQueue(), r.emitted);
      joined == QueueAt(decode, history, storageId, Max(s, log.commitIndex) + 1) && joined.Valid()
  {
    var q := QueueAt(decode, history, storageId, s + 1);
    FoldKeepsValid(decode, NewQueue(), Entries(history, storageId, 0, s + 1));
    SnapshotRoundTrip(q, exported, keys, values);
    JoinedStateIsReplay(c, Snapshot(s, Transferred(exported, keys, values)), log, history, kind, storageId,
                        localPeerId, b, Applying(decode), NewQueue());
    FoldKeepsValid(decode, NewQueue(), Entries(history, storageId, 0, Max(s, log.commitIndex) + 1));
  }
}
