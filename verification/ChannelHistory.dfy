/** Every field of a channel, told from the calls that succeeded, and which answer
    each call gives. */
module ChannelHistory {
  import opened JsText
  import opened Commitments
  import opened CommitmentStore
  import opened Channels
  import opened ClosePolicy
  import opened ChannelRuns
  import Decimal

  // ----- The channel and its history -----

  /** What happened to one channel: how it was opened, how many commits went through,
      for how much together and when last, and how it was settled. */
  datatype Story =
    | Untold
    | Told(input: OpenInput, opening: Opened, openedAt: Stamp, commits: nat, sum: nat, lastAt: Option<Stamp>, settled: Option<Settlement>)

  /** The story goes on with a call that succeeded on the channel. */
  function GoesOn(story: Story, call: Call, id: Text): Story {
    match call
    case OpenCall(input, opening, at) =>
      if opening.Some? && opening.value.channelId == id then Told(input, opening.value, at, 0, 0, None, None) else story
    case CommitCall(of, amount, _, now) =>
      if of == id && story.Told? && Decimal.IsAmount(amount) then
        story.(commits := story.commits + 1, sum := story.sum + Decimal.Value(amount), lastAt := Some(now))
      else story
    case CloseCall(of, settlement) =>
      if of == id && story.Told? then story.(settled := settlement) else story
  }

  function StoryOf(s: Contents, calls: seq<Call>, id: Text, story: Story): Story
    decreases |calls|
  {
    if calls == [] then story
    else StoryOf(Next(s, calls[0]), calls[1..], id, if Succeeds(s, calls[0]) then GoesOn(story, calls[0], id) else story)
  }

  /** The channel is what the story says. */
  ghost predicate Shows(c: Channel, id: Text, story: Story) {
    && story.Told? && c.id == id
    && c.counterparty == story.input.counterparty && c.asset == story.input.asset
    && c.deposit == story.input.deposit && c.network == story.input.network
    && c.openTxHash == story.opening.openTxHash && c.openedAt == story.openedAt
    && c.committed == Decimal.Print(story.sum) && c.sequence == story.commits - 1 && c.lastCommitAt == story.lastAt
    && match story.settled
       case None => c.status == Open && c.settlementTxHash.None? && c.returnedRemainder.None?
       case Some(settlement) =>
         && c.status == Closed && c.settlementTxHash == Some(settlement.settlementTxHash)
         && c.returnedRemainder == Some(settlement.returnedRemainder)
  }

  ghost predicate InStory(s: Contents, id: Text, story: Story) {
    (id in s.channels <==> story.Told?) && (id in s.channels ==> Shows(s.channels[id], id, story))
  }

  lemma OpenTells(s: Contents, call: Call, id: Text, story: Story)
    requires call.OpenCall? && InStory(s, id, story) && Succeeds(s, call)
    ensures InStory(Next(s, call), id, GoesOn(story, call, id))
  {
    assert Decimal.Print(0) == [48];
  }

  lemma CommitTells(s: Contents, call: Call, id: Text, story: Story)
    requires call.CommitCall? && InStory(s, id, story) && Succeeds(s, call)
    ensures InStory(Next(s, call), id, GoesOn(story, call, id))
  {
    if call.id == id {
      Decimal.PrintThenParse(story.sum);
    }
  }

  lemma CloseTells(s: Contents, call: Call, id: Text, story: Story)
    requires call.CloseCall? && InStory(s, id, story) && Succeeds(s, call)
    ensures InStory(Next(s, call), id, GoesOn(story, call, id))
  {
  }

  lemma FailureTellsNothing(s: Contents, call: Call, id: Text, story: Story)
    requires InStory(s, id, story) && !Succeeds(s, call)
    ensures InStory(Next(s, call), id, story)
  {
  }

  lemma StepTells(s: Contents, call: Call, id: Text, story: Story)
    requires InStory(s, id, story)
    ensures InStory(Next(s, call), id, if Succeeds(s, call) then GoesOn(story, call, id) else story)
  {
    if !Succeeds(s, call) {
      FailureTellsNothing(s, call, id, story);
    } else {
      match call
      case OpenCall(_, _, _) => OpenTells(s, call, id, story);
      case CommitCall(_, _, _, _) => CommitTells(s, call, id, story);
      case CloseCall(_, _) => CloseTells(s, call, id, story);
    }
  }

  lemma {:induction false} StoryGoesOn(s: Contents, calls: seq<Call>, id: Text, story: Story)
    requires InStory(s, id, story)
    ensures InStory(After(s, calls), id, StoryOf(s, calls, id, story))
    decreases |calls|
  {
    if calls != [] {
      StepTells(s, calls[0], id, story);
      StoryGoesOn(Next(s, calls[0]), calls[1..], id, if Succeeds(s, calls[0]) then GoesOn(story, calls[0], id) else story);
    }
  }

  /** After any run the store tracks exactly the channels that were opened, and every
      field of a channel is its history: the terms, hash and time of its last
      opening, the sum, the number and the last time of the commits since, and the
      settlement it was closed with. */
  lemma ChannelIsItsHistory(calls: seq<Call>, id: Text)
    ensures InStory(After(EMPTY, calls), id, StoryOf(EMPTY, calls, id, Untold))
  {
    StoryGoesOn(EMPTY, calls, id, Untold);
  }

  // ----- The answer of each call -----

  predicate Positive(amount: Text) {
    Decimal.IsAmount(amount) && Decimal.Value(amount) > 0
  }

  /** open refuses exactly a deposit that is not a positive amount, before it asks
      the adapter, and otherwise succeeds exactly when the adapter does; the channel
      it returns is the one it has stored. */
  lemma OpenAnswers(s: Contents, input: OpenInput, answer: Option<Opened>, now: Stamp)
    ensures var (r, s') := OpenSpec(s, input, answer, now);
            && (r == Failed(InvalidAmount(input.deposit)) <==> !Positive(input.deposit))
            && (r == Failed(AdapterThrew) <==> Positive(input.deposit) && answer.None?)
            && (r.Done? <==> Positive(input.deposit) && answer.Some?)
            && (r.Done? ==> answer.value.channelId in s'.channels && s'.channels[answer.value.channelId] == r.value)
            && (r.Failed? ==> s' == s)
  {
  }

  /** The channel is there and open. */
  predicate IsOpen(s: Contents, id: Text) {
    id in s.channels && s.channels[id].status == Open
  }

  /** What stands in the channel is a pair of amounts. */
  predicate Readable(c: Channel) {
    Decimal.IsAmount(c.committed) && Decimal.IsAmount(c.deposit)
  }

  /** The amount that cannot be read. */
  function Unreadable(c: Channel): Text {
    if Decimal.IsAmount(c.committed) then c.deposit else c.committed
  }

  /** A commit goes through exactly when the amount is positive, the channel is open,
      its deposit covers the amount on top of what is committed, and the adapter
      signs; each refusal names the first condition that fails, with the status that
      stands in the way, or the amount it would have come to and the deposit. */
  lemma CommitAnswers(s: Contents, id: Text, amount: Text, signed: Option<Text>, now: Stamp)
    ensures var (r, s') := CommitSpec(s, id, amount, signed, now);
            && (!Positive(amount) <==> r == Failed(InvalidAmount(amount)))
            && (r == Failed(ChannelNotFound) <==> Positive(amount) && id !in s.channels)
            && (id in s.channels && Positive(amount) ==>
                  (s.channels[id].status != Open <==> r == Failed(ChannelNotOpen(s.channels[id].status))))
            && (IsOpen(s, id) && Positive(amount) && !Readable(s.channels[id]) ==> r == Failed(InvalidAmount(Unreadable(s.channels[id]))))
            && (IsOpen(s, id) && Positive(amount) && Readable(s.channels[id]) ==>
                  var c := s.channels[id];
                  var next := Decimal.Value(c.committed) + Decimal.Value(amount);
                  if next > Decimal.Value(c.deposit) then r == Failed(ExceedsDeposit(Decimal.Print(next), c.deposit))
                  else if signed.None? then r == Failed(AdapterThrew)
                  else r.Done? && r.value.channelId == id && r.value.blob == signed.value
                       && r.value.sequence == c.sequence + 1 && r.value.cumulativeAmount == Decimal.Print(next))
            && (r.Failed? ==> s' == s)
  {
  }

  /** What close asks of an open channel, whatever the store holds: the amount and the
      blob of the latest commitment, zero and nothing without one, and the channel's
      own network and deposit. */
  lemma CloseAsksForLatest(s: Contents, id: Text)
    requires IsOpen(s, id)
    ensures Request(s, id).Some?
    ensures var asked, c := Request(s, id).value, s.channels[id];
            && asked.channelId == id && asked.network == c.network && asked.deposit == c.deposit
            && (s.StreamOf(id) == [] ==> asked.cumulativeAmount == Decimal.Print(0) && asked.commitment == [])
            && (forall i :: IsLatest(s.StreamOf(id), i) ==>
                  asked.cumulativeAmount == s.StreamOf(id)[i].cumulativeAmount && asked.commitment == s.StreamOf(id)[i].blob)
            && (s.StreamOf(id) != [] ==> exists i :: IsLatest(s.StreamOf(id), i))
  {
    var stream := s.StreamOf(id);
    assert Decimal.Print(0) == [48];
    if stream != [] {
      var k := HasLatest(stream);
      forall i | IsLatest(stream, i)
        ensures Request(s, id).value.cumulativeAmount == stream[i].cumulativeAmount && Request(s, id).value.commitment == stream[i].blob
      {
        SortEndsWithLatest(stream, i);
      }
    }
  }

  /** close refuses an unknown channel and one that is not open, and leaves both
      alone; it asks the adapter otherwise, and fails when the adapter does or when the
      answer is for another amount than it asked for. The result and the channel carry
      the answer. */
  lemma CloseAnswers(s: Contents, id: Text, answer: Option<Settlement>)
    ensures var (r, s') := CloseSpec(s, id, answer);
            && (id !in s.channels <==> r == Failed(ChannelNotFound))
            && (id in s.channels && !IsOpen(s, id) ==> r == Failed(AlreadyClosed(s.channels[id].status)))
            && (IsOpen(s, id) <==> Request(s, id).Some?)
            && (IsOpen(s, id) ==>
                  if answer.None? then r == Failed(AdapterThrew)
                  else if answer.value.settledAmount != Request(s, id).value.cumulativeAmount then
                    r == Failed(SettlementMismatch(Request(s, id).value.cumulativeAmount, answer.value.settledAmount))
                  else
                    && r.Done? && r.value.channelId == id && id in s'.channels
                    && r.value.settlementTxHash == answer.value.settlementTxHash
                    && r.value.returnedRemainder == answer.value.returnedRemainder
                    && s'.channels[id].settlementTxHash == Some(r.value.settlementTxHash)
                    && s'.channels[id].returnedRemainder == Some(r.value.returnedRemainder))
            && (r.Failed? ==> s' == s)
  {
  }

  /** The last sign of life of a channel: its last commit, or its opening. */
  function LastUse(c: Channel): Stamp {
    match c.lastCommitAt
    case Some(at) => at
    case None => c.openedAt
  }

  /** The share of the deposit that is committed reaches the threshold, to the nearest
      millionth. */
  predicate DrawnDownTo(c: Channel, threshold: real)
    requires Readable(c)
  {
    && Decimal.Value(c.deposit) > 0
    && Decimal.Value(c.committed) as real / Decimal.Value(c.deposit) as real >= Rounded(threshold)
  }

  /** The channel has been idle for at least the timeout, in whole seconds. */
  predicate IdleFor(c: Channel, timeout: real, now: Stamp) {
    && now.Instant? && LastUse(c).Instant?
    && ((now.ms - LastUse(c).ms) / 1000) as real >= timeout
  }

  /** shouldClose says yes to an open channel exactly when it is drawn down to a
      threshold of the policy or idle for its timeout, and complains exactly about the
      first setting or amount it reaches that makes no sense; to other channels, and
      without a policy, it says no. */
  lemma ShouldCloseAnswers(s: Contents, policy: Heuristics, id: Text, now: Stamp)
    ensures id !in s.channels <==> ShouldCloseSpec(s, Some(policy), id, now) == Failed(ChannelNotFound)
    ensures id in s.channels ==> ShouldCloseSpec(s, None, id, now) == Done(false)
    ensures id in s.channels && s.channels[id].status != Open ==> ShouldCloseSpec(s, Some(policy), id, now) == Done(false)
    ensures IsOpen(s, id) ==> Decides(ShouldCloseSpec(s, Some(policy), id, now), s.channels[id], policy, now)
  {
    if IsOpen(s, id) {
      var timeout, last := policy.idleTimeoutSeconds, LastUse(s.channels[id]);
      if timeout.Some? && timeout.value.Finite? && now.Instant? && last.Instant? {
        IdleIsWholeSeconds(now.ms - last.ms, timeout.value.value);
      }
    }
  }

  ghost predicate Decides(r: Result<bool>, c: Channel, policy: Heuristics, now: Stamp) {
    var threshold, timeout := policy.drawdownThreshold, policy.idleTimeoutSeconds;
    var askew := threshold.Some? && !(threshold.value.Finite? && 0.0 <= threshold.value.value <= 1.0);
    var unread := threshold.Some? && !askew && !Readable(c);
    var drawn := threshold.Some? && !askew && Readable(c) && DrawnDownTo(c, threshold.value.value);
    var idle := timeout.Some? && timeout.value.Finite? && 0.0 <= timeout.value.value && IdleFor(c, timeout.value.value, now);
    && (r == Failed(InvalidThreshold) <==> askew)
    && (r == Failed(InvalidAmount(Unreadable(c))) <==> unread)
    && (r == Failed(InvalidTimeout) <==>
          !askew && !unread && !drawn && timeout.Some? && !(timeout.value.Finite? && 0.0 <= timeout.value.value))
    && (r == Done(true) <==> !askew && !unread && (drawn || idle))
    && (r.Failed? ==> r == Failed(InvalidThreshold) || r == Failed(InvalidTimeout) || r == Failed(InvalidAmount(Unreadable(c))))
  }
}
