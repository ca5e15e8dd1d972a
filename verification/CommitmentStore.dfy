/** packages/channels/src/store.ts: the in-memory store of channels and their
    commitment streams. */
module CommitmentStore {
  import opened JsText
  import opened Commitments

  datatype Status = Open | Closing | Closed | Recovering | Recovered

  /** A timestamp string, as far as Date.parse makes sense of it. */
  datatype Stamp = Instant(ms: int) | Unparsable

  datatype Channel = Channel(
    id: Text,
    counterparty: Text,
    asset: Text,
    deposit: Text,
    committed: Text,
    sequence: int,
    status: Status,
    network: Text,
    openTxHash: Text,
    openedAt: Stamp,
    lastCommitAt: Option<Stamp>,
    settlementTxHash: Option<Text>,
    returnedRemainder: Option<Text>
  )

  /** The partial channels the manager passes to updateChannel. */
  datatype Patch =
    | ToStatus(status: Status)
    | Advance(committed: Text, sequence: int, lastCommitAt: Stamp)
    | Settle(settlementTxHash: Text, returnedRemainder: Text)

  /** { ...current, ...patch } */
  function Patched(c: Channel, patch: Patch): Channel {
    match patch
    case ToStatus(status) => c.(status := status)
    case Advance(committed, sequence, at) => c.(committed := committed, sequence := sequence, lastCommitAt := Some(at))
    case Settle(hash, remainder) =>
      c.(status := Closed, settlementTxHash := Some(hash), returnedRemainder := Some(remainder))
  }

  /** What the store holds. */
  datatype Contents = Contents(channels: map<Text, Channel>, streams: map<Text, Stream>) {
    function StreamOf(id: Text): Stream {
      if id in streams then streams[id] else []
    }

    function Put(c: Channel): Contents {
      Contents(channels[c.id := c], if c.id in streams then streams else streams[c.id := []])
    }

    function Update(id: Text, patch: Patch): Contents {
      if id in channels then this.(channels := channels[id := Patched(channels[id], patch)]) else this
    }

    function Append(c: Commitment): Contents {
      this.(streams := streams[c.channelId := StreamOf(c.channelId) + [c]])
    }
  }

  class MemoryCommitmentStore {
    var channels: map<Text, Channel>
    var commitments: map<Text, Stream>

    function Now(): Contents
      reads this
    {
      Contents(channels, commitments)
    }

    constructor ()
      ensures Now() == Contents(map[], map[])
    {
      channels, commitments := map[], map[];
    }

    method PutChannel(channel: Channel)
      modifies this
      ensures Now() == old(Now()).Put(channel)
    {
      channels := channels[channel.id := channel];
      if channel.id !in commitments {
        commitments := commitments[channel.id := []];
      }
    }

    method GetChannel(id: Text) returns (channel: Option<Channel>)
      ensures channel == if id in Now().channels then Some(Now().channels[id]) else None
    {
      return if id in channels then Some(channels[id]) else None;
    }

    method UpdateChannel(id: Text, patch: Patch) returns (next: Option<Channel>)
      modifies this
      ensures Now() == old(Now()).Update(id, patch)
      ensures next == if id in Now().channels then Some(Now().channels[id]) else None
    {
      if id !in channels {
        return None;
      }
      channels := channels[id := Patched(channels[id], patch)];
      return Some(channels[id]);
    }

    method AppendCommitment(c: Commitment)
      modifies this
      ensures Now() == old(Now()).Append(c)
    {
      var stream := if c.channelId in commitments then commitments[c.channelId] else [];
      stream := stream + [c];
      commitments := commitments[c.channelId := stream];
    }

    /** A sorted copy: ordered by sequence, the same commitments, and those that
        share a sequence in the order they were appended. */
    method ListCommitments(id: Text) returns (listed: Stream)
      ensures listed == Sort(Now().StreamOf(id))
      ensures Sorted(listed) && multiset(listed) == multiset(Now().StreamOf(id))
      ensures forall n :: Numbered(listed, n) == Numbered(Now().StreamOf(id), n)
    {
      var stream := if id in commitments then commitments[id] else [];
      SortSorts(stream);
      forall n ensures Numbered(Sort(stream), n) == Numbered(stream, n) {
        SortIsStable(stream, n);
      }
      return Sort(stream);
    }
  }
}
