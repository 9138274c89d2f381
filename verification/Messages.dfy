// The records that travel between peers and through the replicated log.
module Messages {
  datatype Option<+T> = None | Some(value: T)

  ghost function Pick<T>(s: set<T>): (x: T)
    requires s != {}
    ensures x in s
  {
    var x :| x in s;
    x
  }

  lemma {:induction false} SubsetSize<T>(a: set<T>, b: set<T>)
    requires a <= b
    ensures |a| <= |b|
    ensures |a| == |b| ==> a == b
  {
    if a != {} {
      var x := Pick(a);
      SubsetSize(a - {x}, b - {x});
    }
  }

  newtype Byte = x: int | 0 <= x < 256
  type Bytes = seq<Byte>

  /** A peer id.  The order of the ranks plays the part of `localeCompare`. */
  datatype PeerId = PeerId(rank: int)

  /** A request id; a fresh uuid is modelled as a number not used before. */
  type RequestId = int

  datatype StorageId = StorageId(name: string)

  /** The fields of a HamokMessage the modelled code reads; `rest` stands for all the others. */
  datatype Message = Message(
    storageId: StorageId,
    keys: seq<Bytes>,
    values: seq<Bytes>,
    sequence: Option<int>,
    lastMessage: Option<bool>,
    rest: Bytes)
  {
    /** What one entry adds to the memory estimate: the lengths of the two arrays. */
    function Weight(): nat {
      |values| + |keys|
    }
  }

  datatype AppendChunk = AppendChunk(
    requestId: RequestId,
    peerId: PeerId,
    leaderId: PeerId,
    leaderCommit: int,
    leaderNextIndex: int,
    prevLogIndex: int,
    prevLogTerm: int,
    term: int,
    sequence: int,
    lastMessage: bool,
    entry: Option<Message>)
  {
    /** The response echoes the term of the request, not the term of the responder. */
    function Response(success: bool, peerNextIndex: int, processed: bool): AppendResponse {
      AppendResponse(requestId, peerId, leaderId, term, success, peerNextIndex, processed)
    }
  }

  datatype AppendResponse = AppendResponse(
    requestId: RequestId,
    sourcePeerId: PeerId,
    destinationPeerId: PeerId,
    term: int,
    success: bool,
    peerNextIndex: int,
    processed: bool)

  datatype VoteRequest = VoteRequest(
    term: int,
    lastLogIndex: int,
    lastLogTerm: int,
    peerId: PeerId,
    candidateId: PeerId)
  {
    function Response(granted: bool): VoteResponse {
      VoteResponse(term, granted, candidateId, peerId)
    }
  }

  datatype VoteResponse = VoteResponse(
    term: int,
    voteGranted: bool,
    destinationPeerId: PeerId,
    sourcePeerId: PeerId)

  datatype Packet =
    | Append(chunk: AppendChunk)
    | AppendReply(response: AppendResponse)
    | Vote(request: VoteRequest)
    | VoteReply(vote: VoteResponse)
  {
    function Destination(): PeerId {
      match this
      case Append(c) => c.peerId
      case AppendReply(r) => r.destinationPeerId
      case Vote(r) => r.peerId
      case VoteReply(r) => r.destinationPeerId
    }
  }
}
