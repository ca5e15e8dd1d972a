/** packages/channels/src/manager.ts: open, commit and close over the store, with
    the adapter's answers as parameters. */
module Channels {
  import opened JsText
  import opened Commitments
  import opened CommitmentStore
  import opened ClosePolicy
  import Decimal

  const NOTHING: Text := [48]   // "0"

  datatype OpenInput = OpenInput(counterparty: Text, asset: Text, deposit: Text, network: Text)

  datatype Opened = Opened(channelId: Text, openTxHash: Text)

  /** What close asks the adapter to settle. */
  datatype CloseRequest = CloseRequest(channelId: Text, network: Text, cumulativeAmount: Text, commitment: Text, deposit: Text)

  datatype Settlement = Settlement(settlementTxHash: Text, settledAmount: Text, returnedRemainder: Text)

  datatype CloseResult = CloseResult(channelId: Text, settlementTxHash: Text, returnedRemainder: Text)

  datatype Error =
    | InvalidAmount(value: Text)
    | ChannelNotFound
    | ChannelNotOpen(status: Status)
    | ExceedsDeposit(attempted: Text, deposit: Text)
    | AlreadyClosed(status: Status)
    | SettlementMismatch(expected: Text, actual: Text)
    | AdapterThrew
    | InvalidThreshold
    | InvalidTimeout

  datatype Result<+T> = Done(value: T) | Failed(error: Error)

  // ----- What each call does -----

  predicate IsZero(amount: Text) {
    Decimal.IsAmount(amount) && Decimal.Value(amount) == 0
  }

  function NewChannel(input: OpenInput, reply: Opened, now: Stamp): Channel {
    Channel(reply.channelId, input.counterparty, input.asset, input.deposit, NOTHING, -1, Open, input.network,
            reply.openTxHash, now, None, None, None)
  }

  /** open: None for the adapter's answer means that it threw. */
  function OpenSpec(s: Contents, input: OpenInput, answer: Option<Opened>, now: Stamp): (Result<Channel>, Contents) {
    if !Decimal.IsAmount(input.deposit) || IsZero(input.deposit) then (Failed(InvalidAmount(input.deposit)), s)
    else if answer.None? then (Failed(AdapterThrew), s)
    else
      var channel := NewChannel(input, answer.value, now);
      (Done(channel), s.Put(channel))
  }

  /** Why a commit is refused before the adapter is asked to sign. */
  function CommitRefused(s: Contents, id: Text, amount: Text): Option<Error> {
    if !Decimal.IsAmount(amount) || IsZero(amount) then Some(InvalidAmount(amount))
    else if id !in s.channels then Some(ChannelNotFound)
    else
      var c := s.channels[id];
      if c.status != Open then Some(ChannelNotOpen(c.status))
      else if !Decimal.IsAmount(c.committed) then Some(InvalidAmount(c.committed))
      else if !Decimal.IsAmount(c.deposit) then Some(InvalidAmount(c.deposit))
      else
        var next := Decimal.Value(c.committed) + Decimal.Value(amount);
        if next > Decimal.Value(c.deposit) then Some(ExceedsDeposit(Decimal.Print(next), c.deposit)) else None
  }

  /** The next cumulative commitment of a channel. */
  function NextCommitment(c: Channel, id: Text, amount: Text, blob: Text): Commitment
    requires Decimal.IsAmount(c.committed) && Decimal.IsAmount(amount)
  {
    Commitment(id, c.sequence + 1, Decimal.Print(Decimal.Value(c.committed) + Decimal.Value(amount)), blob)
  }

  function CommitSpec(s: Contents, id: Text, amount: Text, signed: Option<Text>, now: Stamp): (Result<Commitment>, Contents) {
    var refused := CommitRefused(s, id, amount);
    if refused.Some? then (Failed(refused.value), s)
    else if signed.None? then (Failed(AdapterThrew), s)
    else
      var next := NextCommitment(s.channels[id], id, amount, signed.value);
      (Done(next), s.Append(next).Update(id, Advance(next.cumulativeAmount, next.sequence, now)))
  }

  /** The settlement of the latest commitment of a channel, or of nothing. */
  function RequestFrom(s: Contents, id: Text): CloseRequest
    requires id in s.channels
  {
    var c, listed := s.channels[id], Sort(s.StreamOf(id));
    if listed == [] then CloseRequest(id, c.network, NOTHING, [], c.deposit)
    else CloseRequest(id, c.network, listed[|listed| - 1].cumulativeAmount, listed[|listed| - 1].blob, c.deposit)
  }

  /** What close asks the adapter, of an open channel only. */
  function Request(s: Contents, id: Text): Option<CloseRequest> {
    if id !in s.channels || s.channels[id].status != Open then None else Some(RequestFrom(s, id))
  }

  function CloseSpec(s: Contents, id: Text, answer: Option<Settlement>): (Result<CloseResult>, Contents) {
    if id !in s.channels then (Failed(ChannelNotFound), s)
    else if s.channels[id].status != Open then (Failed(AlreadyClosed(s.channels[id].status)), s)
    else if answer.None? then (Failed(AdapterThrew), s)
    else
      var a, cumulative := answer.value, Request(s, id).value.cumulativeAmount;
      if a.settledAmount != cumulative then (Failed(SettlementMismatch(cumulative, a.settledAmount)), s)
      else (Done(CloseResult(id, a.settlementTxHash, a.returnedRemainder)),
            s.Update(id, Settle(a.settlementTxHash, a.returnedRemainder)))
  }

  /** Marking a channel as closing and rolling it back changes nothing. */
  lemma RollbackRestores(s: Contents, id: Text)
    requires id in s.channels && s.channels[id].status == Open
    ensures s.Update(id, ToStatus(Closing)).Update(id, ToStatus(Open)) == s
    ensures forall hash, remainder :: s.Update(id, ToStatus(Closing)).Update(id, Settle(hash, remainder)) == s.Update(id, Settle(hash, remainder))
  {
    var c := s.channels[id];
    assert Patched(Patched(c, ToStatus(Closing)), ToStatus(Open)) == c;
    assert s.channels[id := Patched(c, ToStatus(Closing))][id := c] == s.channels;
    forall hash, remainder
      ensures s.Update(id, ToStatus(Closing)).Update(id, Settle(hash, remainder)) == s.Update(id, Settle(hash, remainder))
    {
      var patch := Settle(hash, remainder);
      assert Patched(Patched(c, ToStatus(Closing)), patch) == Patched(c, patch);
      assert s.channels[id := Patched(c, ToStatus(Closing))][id := Patched(c, patch)] == s.channels[id := Patched(c, patch)];
    }
  }

  // ----- Whether to close -----

  /** The ratio of committed to deposit has reached the threshold, to the nearest
      millionth. */
  predicate Depleted(c: Channel, t: real)
    requires Decimal.IsAmount(c.committed) && Decimal.IsAmount(c.deposit)
  {
    var deposit := Decimal.Value(c.deposit);
    deposit > 0 && Ratio(Decimal.Value(c.committed), deposit) >= Rounded(t)
  }

  /** No commit for the timeout, counted in whole seconds from the last commit
      or, without one, from the opening. */
  predicate Idle(c: Channel, timeout: real, now: Stamp) {
    var baseline := if c.lastCommitAt.Some? then c.lastCommitAt.value else c.openedAt;
    baseline.Instant? && now.Instant? && now.ms - baseline.ms >= 1000 * Ceil(timeout)
  }

  /** The drawdown heuristic; None lets the idle timeout speak. */
  function DrawdownVerdict(c: Channel, threshold: Option<Number>): Option<Result<bool>> {
    if threshold.None? then None
    else if !IsFraction(threshold.value) then Some(Failed(InvalidThreshold))
    else if !Decimal.IsAmount(c.committed) then Some(Failed(InvalidAmount(c.committed)))
    else if !Decimal.IsAmount(c.deposit) then Some(Failed(InvalidAmount(c.deposit)))
    else if Depleted(c, threshold.value.value) then Some(Done(true))
    else None
  }

  function IdleVerdict(c: Channel, timeout: Option<Number>, now: Stamp): Result<bool> {
    if timeout.None? then Done(false)
    else if !IsDuration(timeout.value) then Failed(InvalidTimeout)
    else Done(Idle(c, timeout.value.value, now))
  }

  function ShouldCloseSpec(s: Contents, policy: Option<Heuristics>, id: Text, now: Stamp): Result<bool> {
    if id !in s.channels then Failed(ChannelNotFound)
    else if s.channels[id].status != Open || policy.None? then Done(false)
    else
      var c := s.channels[id];
      var drawdown := DrawdownVerdict(c, policy.value.drawdownThreshold);
      if drawdown.Some? then drawdown.value else IdleVerdict(c, policy.value.idleTimeoutSeconds, now)
  }

  // ----- The manager -----

  class ChannelManager {
    const store: MemoryCommitmentStore
    const closePolicy: Option<Heuristics>

    constructor (store: MemoryCommitmentStore, closePolicy: Option<Heuristics>)
      ensures this.store == store && this.closePolicy == closePolicy
    {
      this.store := store;
      this.closePolicy := closePolicy;
    }

    method OpenChannel(input: OpenInput, answer: Option<Opened>, now: Stamp) returns (r: Result<Channel>)
      modifies store
      ensures (r, store.Now()) == OpenSpec(old(store.Now()), input, answer, now)
    {
      if !Decimal.IsAmount(input.deposit) || Decimal.Value(input.deposit) == 0 {
        return Failed(InvalidAmount(input.deposit));
      }
      if answer.None? {
        return Failed(AdapterThrew);
      }
      var channel := NewChannel(input, answer.value, now);
      store.PutChannel(channel);
      return Done(channel);
    }

    /** Read the channel, check the deposit, sign, append to the stream, advance
        the channel. */
    method Commit(id: Text, amount: Text, signed: Option<Text>, now: Stamp) returns (r: Result<Commitment>)
      modifies store
      ensures (r, store.Now()) == CommitSpec(old(store.Now()), id, amount, signed, now)
    {
      if !Decimal.IsAmount(amount) || Decimal.Value(amount) == 0 {
        return Failed(InvalidAmount(amount));
      }
      var delta := Decimal.Value(amount);
      var current := store.GetChannel(id);
      if current.None? {
        return Failed(ChannelNotFound);
      }
      var c := current.value;
      if c.status != Open {
        return Failed(ChannelNotOpen(c.status));
      }
      if !Decimal.IsAmount(c.committed) {
        return Failed(InvalidAmount(c.committed));
      }
      if !Decimal.IsAmount(c.deposit) {
        return Failed(InvalidAmount(c.deposit));
      }
      var nextCumulative := Decimal.Value(c.committed) + delta;
      if nextCumulative > Decimal.Value(c.deposit) {
        return Failed(ExceedsDeposit(Decimal.Print(nextCumulative), c.deposit));
      }
      if signed.None? {
        return Failed(AdapterThrew);
      }
      var nextSequence := c.sequence + 1;
      var cumulativeAmount := Decimal.Print(nextCumulative);
      var commitment := Commitment(id, nextSequence, cumulativeAmount, signed.value);
      store.AppendCommitment(commitment);
      var _ := store.UpdateChannel(id, Advance(cumulativeAmount, nextSequence, now));
      return Done(commitment);
    }

    method List(id: Text) returns (r: Result<Stream>)
      ensures r == if id in store.Now().channels then Done(Sort(store.Now().StreamOf(id))) else Failed(ChannelNotFound)
    {
      var channel := store.GetChannel(id);
      if channel.None? {
        return Failed(ChannelNotFound);
      }
      var listed := store.ListCommitments(id);
      return Done(listed);
    }

    method ShouldClose(id: Text, now: Stamp) returns (r: Result<bool>)
      ensures r == ShouldCloseSpec(store.Now(), closePolicy, id, now)
    {
      var channel := store.GetChannel(id);
      if channel.None? {
        return Failed(ChannelNotFound);
      }
      var c := channel.value;
      if c.status != Open || closePolicy.None? {
        return Done(false);
      }
      var threshold := closePolicy.value.drawdownThreshold;
      if threshold.Some? {
        if !IsFraction(threshold.value) {
          return Failed(InvalidThreshold);
        }
        if !Decimal.IsAmount(c.committed) {
          return Failed(InvalidAmount(c.committed));
        }
        if !Decimal.IsAmount(c.deposit) {
          return Failed(InvalidAmount(c.deposit));
        }
        var committed, deposit := Decimal.Value(c.committed), Decimal.Value(c.deposit);
        if deposit > 0 {
          DrawnDownIsRatio(committed, deposit, threshold.value.value);
          if DrawnDown(committed, deposit, threshold.value.value) {
            return Done(true);
          }
        }
      }
      var timeout := closePolicy.value.idleTimeoutSeconds;
      if timeout.Some? {
        if !IsDuration(timeout.value) {
          return Failed(InvalidTimeout);
        }
        var baseline := if c.lastCommitAt.Some? then c.lastCommitAt.value else c.openedAt;
        if baseline.Instant? && now.Instant? {
          var idleSeconds := (now.ms - baseline.ms) / 1000;
          IdleIsWholeSeconds(now.ms - baseline.ms, timeout.value.value);
          if idleSeconds as real >= timeout.value.value {
            return Done(true);
          }
        }
      }
      return Done(false);
    }

    /** Mark the channel as closing, settle, then close it or roll it back. */
    method Close(id: Text, answer: Option<Settlement>) returns (r: Result<CloseResult>, asked: Option<CloseRequest>)
      modifies store
      ensures asked == Request(old(store.Now()), id)
      ensures (r, store.Now()) == CloseSpec(old(store.Now()), id, answer)
    {
      var current := store.GetChannel(id);
      if current.None? {
        return Failed(ChannelNotFound), None;
      }
      if current.value.status != Open {
        return Failed(AlreadyClosed(current.value.status)), None;
      }
      var stream := store.ListCommitments(id);
      var cumulative, blob := NOTHING, [];
      if stream != [] {
        cumulative, blob := stream[|stream| - 1].cumulativeAmount, stream[|stream| - 1].blob;
      }
      RollbackRestores(store.Now(), id);
      var _ := store.UpdateChannel(id, ToStatus(Closing));
      asked := Some(CloseRequest(id, current.value.network, cumulative, blob, current.value.deposit));
      if answer.None? {
        var _ := store.UpdateChannel(id, ToStatus(Open));
        return Failed(AdapterThrew), asked;
      }
      var a := answer.value;
      if a.settledAmount != cumulative {
        var _ := store.UpdateChannel(id, ToStatus(Open));
        return Failed(SettlementMismatch(cumulative, a.settledAmount)), asked;
      }
      var _ := store.UpdateChannel(id, Settle(a.settlementTxHash, a.returnedRemainder));
      return Done(CloseResult(id, a.settlementTxHash, a.returnedRemainder)), asked;
    }
  }
}
