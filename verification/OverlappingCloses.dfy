/** Exactly when overlapping closes ask the adapter to settle a channel again. */
module OverlappingCloses {
  import opened JsText
  import opened Commitments
  import opened CommitmentStore
  import opened Channels
  import opened ChannelRuns
  import opened ChannelOverlap

  predicate IsClose(w: Work, id: Text) {
    w.Closes? && w.id == id
  }

  /** The close has read the channel as open and not marked it yet. */
  predicate Underway(w: Work, id: Text) {
    IsClose(w, id) && (w.progress.Read? || w.progress.Listed?)
  }

  /** The close has asked the adapter and, at this time, has no answer; with
      `settled` an accepted answer counts as well. */
  predicate BusyAt(w: Work, time: nat, settled: bool) {
    && Marked(w) && w.progress.markedAt < time
    && (w.progress.Settling? || time < w.progress.answeredAt || (settled && w.progress.accepted))
  }

  predicate BusyNow(w: Work, settled: bool) {
    Marked(w) && (w.progress.Settling? || (settled && w.progress.accepted))
  }

  /** Close j asked the adapter while close i was busy. */
  predicate AsksDuring(s: State, id: Text, settled: bool, i: nat, j: nat) {
    && i in s.works && j in s.works && IsClose(s.works[i], id) && IsClose(s.works[j], id)
    && Marked(s.works[j]) && BusyAt(s.works[i], s.works[j].progress.markedAt, settled)
  }

  /** And it had passed its status check before i marked the channel. */
  predicate Slips(s: State, id: Text, settled: bool, i: nat, j: nat) {
    AsksDuring(s, id, settled, i, j) && s.works[j].readAt < s.works[i].progress.markedAt
  }

  /** The adapter was asked to settle a channel while another settlement of it was
      outstanding; with `settled`, or had been accepted. */
  ghost predicate AskedAgain(s: State, id: Text, settled: bool) {
    exists i, j :: AsksDuring(s, id, settled, i, j)
  }

  ghost predicate SlippedPast(s: State, id: Text, settled: bool) {
    exists i, j :: Slips(s, id, settled, i, j)
  }

  /** A busy close keeps the channel from looking open, and every close that is
      under way read it before. */
  ghost predicate Guarded(s: State, id: Text, settled: bool)
    requires id in s.contents.channels
  {
    forall i :: i in s.works && IsClose(s.works[i], id) && BusyNow(s.works[i], settled) ==>
      s.contents.channels[id].status != Open &&
      forall j :: j in s.works && Underway(s.works[j], id) ==> s.works[j].readAt < s.works[i].progress.markedAt
  }

  ghost predicate CloseInv(s: State, id: Text, settled: bool)
    requires id in s.contents.channels
  {
    SlippedPast(s, id, settled) || (!AskedAgain(s, id, settled) && Guarded(s, id, settled))
  }

  // ----- Steps that are not the close's own -----

  /** Marked closes of the channel and its status are the same; no new close is
      under way. */
  ghost predicate SameCloses(s: State, t: State, id: Text) {
    && id in s.contents.channels && id in t.contents.channels
    && t.contents.channels[id].status == s.contents.channels[id].status
    && (forall k :: k in s.works && IsClose(s.works[k], id) && Marked(s.works[k]) ==> k in t.works && t.works[k] == s.works[k])
    && (forall k :: k in t.works && IsClose(t.works[k], id) && Marked(t.works[k]) ==> k in s.works && s.works[k] == t.works[k])
    && (forall k :: k in t.works && Underway(t.works[k], id) ==>
          k in s.works && Underway(s.works[k], id) && s.works[k].readAt == t.works[k].readAt)
  }

  lemma SameSlips(s: State, t: State, id: Text, settled: bool)
    requires SameCloses(s, t, id)
    ensures SlippedPast(s, id, settled) ==> SlippedPast(t, id, settled)
    ensures AskedAgain(t, id, settled) ==> AskedAgain(s, id, settled)
  {
    if SlippedPast(s, id, settled) {
      var i, j :| Slips(s, id, settled, i, j);
      assert Slips(t, id, settled, i, j);
    }
    if AskedAgain(t, id, settled) {
      var i, j :| AsksDuring(t, id, settled, i, j);
      assert AsksDuring(s, id, settled, i, j);
    }
  }

  lemma SameKeepsCloses(s: State, t: State, id: Text, settled: bool)
    requires SameCloses(s, t, id) && CloseInv(s, id, settled)
    ensures CloseInv(t, id, settled)
  {
    SameSlips(s, t, id, settled);
    if !SlippedPast(s, id, settled) {
      forall i | i in t.works && IsClose(t.works[i], id) && BusyNow(t.works[i], settled)
        ensures t.contents.channels[id].status != Open
        ensures forall j :: j in t.works && Underway(t.works[j], id) ==> t.works[j].readAt < t.works[i].progress.markedAt
      {
        assert s.works[i] == t.works[i];
      }
    }
  }

  /** The step is not a read, an ask or an answer of a close of this channel. */
  predicate Bystander(s: State, step: Step, id: Text)
    requires Enabled(s, step)
  {
    && (step.ReadsForClose? ==> step.id != id)
    && (step.Asks? || step.Answers? ==> s.works[step.call].id != id)
    && (step.Opens? ==> step.opening.channelId != id)
  }

  lemma BystanderStatus(s: State, step: Step, id: Text)
    requires Enabled(s, step) && Bystander(s, step, id) && id in s.contents.channels
    ensures id in ContentsAfter(s, step).channels
    ensures ContentsAfter(s, step).channels[id].status == s.contents.channels[id].status
  {
  }

  lemma BystanderWork(s: State, step: Step, id: Text)
    requires Enabled(s, step) && Bystander(s, step, id) && !step.Opens?
    ensures !(IsClose(WorkAfter(s, step), id) && Marked(WorkAfter(s, step)))
    ensures step.call in s.works ==> !(IsClose(s.works[step.call], id) && Marked(s.works[step.call]))
    ensures Underway(WorkAfter(s, step), id) ==>
              step.call in s.works && Underway(s.works[step.call], id) && s.works[step.call].readAt == WorkAfter(s, step).readAt
  {
  }

  lemma BystanderKeeps(s: State, step: Step, id: Text, settled: bool)
    requires Enabled(s, step) && Bystander(s, step, id) && id in s.contents.channels && CloseInv(s, id, settled)
    ensures id in Take(s, step).contents.channels && CloseInv(Take(s, step), id, settled)
  {
    var t := Take(s, step);
    BystanderStatus(s, step, id);
    if !step.Opens? {
      BystanderWork(s, step, id);
    }
    assert SameCloses(s, t, id);
    SameKeepsCloses(s, t, id, settled);
  }

  // ----- A close reads the channel as open -----

  lemma ReadGuarded(s: State, step: Step, id: Text, settled: bool)
    requires Enabled(s, step) && step.ReadsForClose? && step.id == id && CloseInv(s, id, settled)
    ensures CloseInv(Take(s, step), id, settled)
  {
    var t := Take(s, step);
    assert forall k :: k in s.works ==> k != step.call && t.works[k] == s.works[k];
    if SlippedPast(s, id, settled) {
      var i, j :| Slips(s, id, settled, i, j);
      assert Slips(t, id, settled, i, j);
    } else {
      ReadAsksNothing(s, step, id, settled);
      forall i | i in t.works && IsClose(t.works[i], id) ensures !BusyNow(t.works[i], settled) {
        assert i != step.call ==> t.works[i] == s.works[i];
      }
    }
  }

  lemma ReadAsksNothing(s: State, step: Step, id: Text, settled: bool)
    requires Enabled(s, step) && step.ReadsForClose? && step.id == id && !AskedAgain(s, id, settled)
    ensures !AskedAgain(Take(s, step), id, settled)
  {
    forall i, j ensures AsksDuring(Take(s, step), id, settled, i, j) ==> AsksDuring(s, id, settled, i, j) {
    }
  }

  // ----- A close marks the channel and asks -----

  lemma AskedWork(s: State, step: Step)
    requires Enabled(s, step) && step.Asks?
    ensures var t, k := Take(s, step), step.call;
            && (forall q :: q in t.works <==> q in s.works) && (forall q :: q in s.works && q != k ==> t.works[q] == s.works[q])
            && Marked(t.works[k]) && t.works[k].progress.Settling? && t.works[k].progress.markedAt == s.time
            && t.works[k].readAt == s.works[k].readAt && t.works[k].id == s.works[k].id && !Marked(s.works[k])
            && Underway(s.works[k], s.works[k].id)
  {
  }

  lemma AskSlips(s: State, step: Step, id: Text, settled: bool, i: nat)
    requires Orderly(s) && Enabled(s, step) && step.Asks? && s.works[step.call].id == id && id in s.contents.channels
    requires Guarded(s, id, settled) && i in s.works && IsClose(s.works[i], id) && BusyNow(s.works[i], settled)
    ensures Slips(Take(s, step), id, settled, i, step.call)
  {
    AskedWork(s, step);
    assert InTime(s.works[i], s.time);
  }

  lemma AskStaysSlipped(s: State, step: Step, id: Text, settled: bool, i: nat, j: nat)
    requires Enabled(s, step) && step.Asks? && Slips(s, id, settled, i, j)
    ensures Slips(Take(s, step), id, settled, i, j)
  {
    AskedWork(s, step);
  }

  lemma AskKeeps(s: State, step: Step, id: Text, settled: bool)
    requires Orderly(s) && Enabled(s, step) && step.Asks? && s.works[step.call].id == id
    requires id in s.contents.channels && CloseInv(s, id, settled)
    ensures id in Take(s, step).contents.channels && CloseInv(Take(s, step), id, settled)
  {
    if SlippedPast(s, id, settled) {
      var i, j :| Slips(s, id, settled, i, j);
      AskStaysSlipped(s, step, id, settled, i, j);
    } else if i :| i in s.works && IsClose(s.works[i], id) && BusyNow(s.works[i], settled) {
      AskSlips(s, step, id, settled, i);
    } else {
      AskedFirst(s, step, id, settled);
      AskGuards(s, step, id, settled);
    }
  }

  lemma AskedFirst(s: State, step: Step, id: Text, settled: bool)
    requires Orderly(s) && Enabled(s, step) && step.Asks? && s.works[step.call].id == id && !AskedAgain(s, id, settled)
    requires forall i :: i in s.works && IsClose(s.works[i], id) ==> !BusyNow(s.works[i], settled)
    ensures !AskedAgain(Take(s, step), id, settled)
  {
    AskedWork(s, step);
    forall i, j ensures !AsksDuring(Take(s, step), id, settled, i, j) {
      assert i in s.works ==> InTime(s.works[i], s.time);
      assert j in s.works ==> InTime(s.works[j], s.time);
      assert !AsksDuring(s, id, settled, i, j);
    }
  }

  lemma AskGuards(s: State, step: Step, id: Text, settled: bool)
    requires Orderly(s) && Enabled(s, step) && step.Asks? && s.works[step.call].id == id && id in s.contents.channels
    requires forall i :: i in s.works && IsClose(s.works[i], id) ==> !BusyNow(s.works[i], settled)
    ensures id in Take(s, step).contents.channels && Guarded(Take(s, step), id, settled)
  {
    AskedWork(s, step);
    forall j | j in s.works ensures s.works[j].readAt < s.time {
      assert InTime(s.works[j], s.time);
    }
  }

  // ----- The adapter answers -----

  lemma AnsweredWork(s: State, step: Step)
    requires Enabled(s, step) && step.Answers?
    ensures var t, k := Take(s, step), step.call;
            && (forall q :: q in t.works <==> q in s.works) && (forall q :: q in s.works && q != k ==> t.works[q] == s.works[q])
            && t.works[k].Closes? && t.works[k].id == s.works[k].id && t.works[k].readAt == s.works[k].readAt
            && Marked(s.works[k]) && s.works[k].progress.Settling? && Marked(t.works[k])
            && t.works[k].progress.markedAt == s.works[k].progress.markedAt
            && t.works[k].progress.Answered? && t.works[k].progress.answeredAt == s.time
  {
  }

  /** An answer changes nothing about who was busy when the others asked. */
  lemma AnswerIsNeutral(s: State, step: Step, id: Text, settled: bool, i: nat, j: nat)
    requires Orderly(s) && Enabled(s, step) && step.Answers?
    ensures AsksDuring(Take(s, step), id, settled, i, j) <==> AsksDuring(s, id, settled, i, j)
    ensures Slips(Take(s, step), id, settled, i, j) <==> Slips(s, id, settled, i, j)
  {
    AnsweredWork(s, step);
    assert j in s.works ==> InTime(s.works[j], s.time);
  }

  /** Two busy closes of one channel: one of them asked while the other was busy. */
  lemma OneBusy(s: State, id: Text, settled: bool, i: nat, j: nat)
    requires Orderly(s) && i in s.works && j in s.works && IsClose(s.works[i], id) && IsClose(s.works[j], id)
    requires BusyNow(s.works[i], settled) && BusyNow(s.works[j], settled) && !AskedAgain(s, id, settled)
    ensures i == j
  {
    assert !AsksDuring(s, id, settled, i, j) && !AsksDuring(s, id, settled, j, i);
    if i != j {
      BothBusy(s.works[i], s.works[j], settled);
    }
  }

  lemma BothBusy(a: Work, b: Work, settled: bool)
    requires BusyNow(a, settled) && BusyNow(b, settled) && a.progress.markedAt != b.progress.markedAt
    ensures BusyAt(a, b.progress.markedAt, settled) || BusyAt(b, a.progress.markedAt, settled)
  {
  }

  lemma AnswerGuards(s: State, step: Step, id: Text, settled: bool)
    requires Orderly(s) && Enabled(s, step) && step.Answers? && s.works[step.call].id == id && id in s.contents.channels
    requires !AskedAgain(s, id, settled) && Guarded(s, id, settled)
    ensures id in Take(s, step).contents.channels && Guarded(Take(s, step), id, settled)
  {
    var t, k := Take(s, step), step.call;
    AnsweredWork(s, step);
    forall i | i in t.works && IsClose(t.works[i], id) && BusyNow(t.works[i], settled) ensures i == k {
      if i != k {
        OneBusy(s, id, settled, i, k);
      }
    }
    assert BusyNow(s.works[k], settled);
  }

  lemma AnswerKeeps(s: State, step: Step, id: Text, settled: bool)
    requires Orderly(s) && Enabled(s, step) && step.Answers? && s.works[step.call].id == id
    requires id in s.contents.channels && CloseInv(s, id, settled)
    ensures id in Take(s, step).contents.channels && CloseInv(Take(s, step), id, settled)
  {
    forall i, j
      ensures AsksDuring(Take(s, step), id, settled, i, j) <==> AsksDuring(s, id, settled, i, j)
      ensures Slips(Take(s, step), id, settled, i, j) <==> Slips(s, id, settled, i, j)
    {
      AnswerIsNeutral(s, step, id, settled, i, j);
    }
    if !SlippedPast(s, id, settled) {
      AnswerGuards(s, step, id, settled);
    }
  }

  // ----- Runs -----

  ghost predicate AllCloses(s: State, settled: bool) {
    Orderly(s) && forall id :: id in s.contents.channels ==> CloseInv(s, id, settled)
  }

  lemma OpenedCloses(s: State, step: Step, id: Text, settled: bool)
    requires Orderly(s) && Enabled(s, step) && step.Opens? && step.opening.channelId == id
    ensures id in Take(s, step).contents.channels && CloseInv(Take(s, step), id, settled)
  {
    assert forall k :: k in s.works ==> s.works[k].id != id;
  }

  lemma ActiveKeeps(s: State, step: Step, id: Text, settled: bool)
    requires Orderly(s) && Enabled(s, step) && !Bystander(s, step, id) && !step.Opens?
    requires id in s.contents.channels && CloseInv(s, id, settled)
    ensures id in Take(s, step).contents.channels && CloseInv(Take(s, step), id, settled)
  {
    if step.ReadsForClose? {
      ReadGuarded(s, step, id, settled);
    } else if step.Asks? {
      AskKeeps(s, step, id, settled);
    } else {
      AnswerKeeps(s, step, id, settled);
    }
  }

  lemma StepKeepsCloses(s: State, step: Step, id: Text, settled: bool)
    requires AllCloses(s, settled) && Enabled(s, step) && id in Take(s, step).contents.channels
    ensures CloseInv(Take(s, step), id, settled)
  {
    if step.Opens? && step.opening.channelId == id {
      OpenedCloses(s, step, id, settled);
    } else {
      OldChannel(s, step, id);
      if Bystander(s, step, id) {
        BystanderKeeps(s, step, id, settled);
      } else {
        ActiveKeeps(s, step, id, settled);
      }
    }
  }

  lemma OldChannel(s: State, step: Step, id: Text)
    requires Orderly(s) && Enabled(s, step) && id in Take(s, step).contents.channels && !(step.Opens? && step.opening.channelId == id)
    ensures id in s.contents.channels
  {
  }

  lemma {:induction false} RunKeepsCloses(s: State, steps: seq<Step>, settled: bool)
    requires AllCloses(s, settled) && IsRun(s, steps)
    ensures AllCloses(Final(s, steps), settled)
    decreases |steps|
  {
    if steps != [] {
      var t := Take(s, steps[0]);
      TakeIsOrderly(s, steps[0]);
      forall id | id in t.contents.channels ensures CloseInv(t, id, settled) {
        StepKeepsCloses(s, steps[0], id, settled);
      }
      RunKeepsCloses(t, steps[1..], settled);
    }
  }

  // ----- The guard that is missing -----

  /** The channel says that a close is in progress; with `settled`, or over. */
  predicate Shut(status: Status, settled: bool) {
    status == Closing || (settled && status == Closed)
  }

  /** The step marks a channel that is shut already. */
  predicate MarksShut(s: State, step: Step, id: Text, settled: bool)
    requires Enabled(s, step)
  {
    step.Asks? && s.works[step.call].id == id && id in s.contents.channels && Shut(s.contents.channels[id].status, settled)
  }

  predicate SomeMarksShut(s: State, steps: seq<Step>, id: Text, settled: bool)
    requires IsRun(s, steps)
    decreases |steps|
  {
    steps != [] && (MarksShut(s, steps[0], id, settled) || SomeMarksShut(Take(s, steps[0]), steps[1..], id, settled))
  }

  ghost predicate SomeBusy(s: State, id: Text, settled: bool) {
    exists k :: k in s.works && IsClose(s.works[k], id) && BusyNow(s.works[k], settled)
  }

  /** Until something is asked twice, a channel is shut exactly while some close
      is busy. */
  ghost predicate ShutInv(s: State, id: Text, settled: bool) {
    id in s.contents.channels && !AskedAgain(s, id, settled) ==>
      (Shut(s.contents.channels[id].status, settled) <==> SomeBusy(s, id, settled))
  }

  lemma AskedStays(s: State, step: Step, id: Text, settled: bool)
    requires Orderly(s) && Enabled(s, step) && AskedAgain(s, id, settled)
    ensures AskedAgain(Take(s, step), id, settled)
  {
    var i, j :| AsksDuring(s, id, settled, i, j);
    if step.Asks? {
      AskedWork(s, step);
    } else if step.Answers? {
      AnswerIsNeutral(s, step, id, settled, i, j);
    }
    assert AsksDuring(Take(s, step), id, settled, i, j);
  }

  /** A close asks again exactly when another one is busy. */
  lemma AskOnBusy(s: State, step: Step, id: Text, settled: bool)
    requires Orderly(s) && Enabled(s, step) && step.Asks? && s.works[step.call].id == id && !AskedAgain(s, id, settled)
    ensures AskedAgain(Take(s, step), id, settled) <==> SomeBusy(s, id, settled)
  {
    if SomeBusy(s, id, settled) {
      var i :| i in s.works && IsClose(s.works[i], id) && BusyNow(s.works[i], settled);
      AskedWork(s, step);
      assert InTime(s.works[i], s.time);
      assert AsksDuring(Take(s, step), id, settled, i, step.call);
    } else {
      AskedFirst(s, step, id, settled);
    }
  }

  lemma OnlyAsksAsk(s: State, step: Step, id: Text, settled: bool)
    requires Orderly(s) && Enabled(s, step) && !AskedAgain(s, id, settled)
    requires !(step.Asks? && s.works[step.call].id == id)
    ensures !AskedAgain(Take(s, step), id, settled)
  {
    if AskedAgain(Take(s, step), id, settled) {
      var i, j :| AsksDuring(Take(s, step), id, settled, i, j);
      if step.Answers? {
        AnswerIsNeutral(s, step, id, settled, i, j);
      } else {
        NotAsking(s, step, id, settled, i, j);
      }
    }
  }

  lemma NotAsking(s: State, step: Step, id: Text, settled: bool, i: nat, j: nat)
    requires Enabled(s, step) && !step.Answers? && !(step.Asks? && s.works[step.call].id == id)
    ensures AsksDuring(Take(s, step), id, settled, i, j) ==> AsksDuring(s, id, settled, i, j)
  {
  }

  lemma BystanderBusy(s: State, step: Step, id: Text, settled: bool, k: nat)
    requires Enabled(s, step)
    requires !(step.Asks? || step.Answers?) || s.works[step.call].id != id
    ensures (k in Take(s, step).works && IsClose(Take(s, step).works[k], id) && BusyNow(Take(s, step).works[k], settled)) <==>
            (k in s.works && IsClose(s.works[k], id) && BusyNow(s.works[k], settled))
  {
  }

  lemma StatusStays(s: State, step: Step, id: Text)
    requires Enabled(s, step) && id in s.contents.channels
    requires !(step.Asks? || step.Answers?) || s.works[step.call].id != id
    requires !(step.Opens? && step.opening.channelId == id)
    ensures id in ContentsAfter(s, step).channels
    ensures ContentsAfter(s, step).channels[id].status == s.contents.channels[id].status
  {
  }

  lemma BystanderShut(s: State, step: Step, id: Text, settled: bool)
    requires Enabled(s, step) && id in s.contents.channels
    requires !(step.Asks? || step.Answers?) || s.works[step.call].id != id
    requires !(step.Opens? && step.opening.channelId == id)
    ensures id in Take(s, step).contents.channels
    ensures Take(s, step).contents.channels[id].status == s.contents.channels[id].status
    ensures SomeBusy(Take(s, step), id, settled) <==> SomeBusy(s, id, settled)
  {
    StatusStays(s, step, id);
    forall k
      ensures (k in Take(s, step).works && IsClose(Take(s, step).works[k], id) && BusyNow(Take(s, step).works[k], settled)) <==>
              (k in s.works && IsClose(s.works[k], id) && BusyNow(s.works[k], settled))
    {
      BystanderBusy(s, step, id, settled, k);
    }
  }

  lemma AskShuts(s: State, step: Step, id: Text, settled: bool)
    requires Orderly(s) && Enabled(s, step) && step.Asks? && s.works[step.call].id == id && id in s.contents.channels
    ensures ShutInv(Take(s, step), id, settled)
  {
    AskedWork(s, step);
    assert BusyNow(Take(s, step).works[step.call], settled);
  }

  lemma AnswerShuts(s: State, step: Step, id: Text, settled: bool)
    requires Orderly(s) && Enabled(s, step) && step.Answers? && s.works[step.call].id == id && !AskedAgain(s, id, settled)
    requires id in s.contents.channels
    ensures var t := Take(s, step);
            id in t.contents.channels && (Shut(t.contents.channels[id].status, settled) <==> SomeBusy(t, id, settled))
  {
    var t, k := Take(s, step), step.call;
    AnsweredWork(s, step);
    forall i | i in t.works && IsClose(t.works[i], id) && BusyNow(t.works[i], settled) ensures i == k {
      if i != k {
        OneBusy(s, id, settled, i, k);
      }
    }
    AnswerStatus(s, step, settled);
    assert BusyNow(t.works[k], settled) ==> SomeBusy(t, id, settled);
  }

  /** An answered close is busy exactly when its channel is shut. */
  lemma AnswerStatus(s: State, step: Step, settled: bool)
    requires Enabled(s, step) && step.Answers? && s.works[step.call].id in s.contents.channels
    ensures var t, id := Take(s, step), s.works[step.call].id;
            id in t.contents.channels &&
            (BusyNow(t.works[step.call], settled) <==> Shut(t.contents.channels[id].status, settled))
  {
  }

  lemma OpenedShut(s: State, step: Step, id: Text, settled: bool)
    requires Orderly(s) && Enabled(s, step) && step.Opens? && step.opening.channelId == id
    ensures ShutInv(Take(s, step), id, settled)
  {
    assert forall k :: k in s.works ==> s.works[k].id != id;
  }

  lemma ShutKept(s: State, step: Step, id: Text, settled: bool)
    requires Orderly(s) && Enabled(s, step) && ShutInv(s, id, settled)
    ensures ShutInv(Take(s, step), id, settled)
  {
    if step.Opens? && step.opening.channelId == id {
      OpenedShut(s, step, id, settled);
    } else if id in Take(s, step).contents.channels {
      OldChannel(s, step, id);
      if AskedAgain(s, id, settled) {
        AskedStays(s, step, id, settled);
      } else if step.Asks? && s.works[step.call].id == id {
        AskShuts(s, step, id, settled);
      } else if step.Answers? && s.works[step.call].id == id {
        AnswerShuts(s, step, id, settled);
      } else {
        BystanderShut(s, step, id, settled);
      }
    }
  }

  /** What one step adds. */
  lemma AskedByStep(s: State, step: Step, id: Text, settled: bool)
    requires Orderly(s) && Enabled(s, step) && ShutInv(s, id, settled)
    ensures AskedAgain(Take(s, step), id, settled) <==> AskedAgain(s, id, settled) || MarksShut(s, step, id, settled)
  {
    if AskedAgain(s, id, settled) {
      AskedStays(s, step, id, settled);
    } else if step.Asks? && s.works[step.call].id == id {
      assert id in s.contents.channels;
      AskOnBusy(s, step, id, settled);
    } else {
      OnlyAsksAsk(s, step, id, settled);
    }
  }

  lemma {:induction false} AskedInRun(s: State, steps: seq<Step>, id: Text, settled: bool)
    requires Orderly(s) && IsRun(s, steps) && ShutInv(s, id, settled)
    ensures AskedAgain(Final(s, steps), id, settled) <==> AskedAgain(s, id, settled) || SomeMarksShut(s, steps, id, settled)
    decreases |steps|
  {
    if steps != [] {
      TakeIsOrderly(s, steps[0]);
      ShutKept(s, steps[0], id, settled);
      AskedByStep(s, steps[0], id, settled);
      AskedInRun(Take(s, steps[0]), steps[1..], id, settled);
    }
  }

  // ----- Main results -----

  /** In every interleaving, two settlements of one channel are outstanding at
      once (with `settled`: or one is asked for after another was accepted)
      exactly when some close marked a channel that was closing (or closed)
      already: the check of the status when it is marked is the guard that is
      missing. */
  lemma AskedAgainExactly(steps: seq<Step>, id: Text, settled: bool)
    requires IsRun(StartFrom(EMPTY), steps)
    ensures AskedAgain(Final(StartFrom(EMPTY), steps), id, settled) <==> SomeMarksShut(StartFrom(EMPTY), steps, id, settled)
  {
    AskedInRun(StartFrom(EMPTY), steps, id, settled);
  }

  /** And it only happens to closes whose own check came too early: some close that
      asked while another was busy had passed its status check before that one
      marked the channel. */
  lemma AskedAgainSlips(s: State, id: Text, settled: bool)
    requires Reached(s) && AskedAgain(s, id, settled)
    ensures SlippedPast(s, id, settled)
  {
    var steps :| IsRun(StartFrom(EMPTY), steps) && s == Final(StartFrom(EMPTY), steps);
    RunKeepsCloses(StartFrom(EMPTY), steps, settled);
    var i, j :| AsksDuring(s, id, settled, i, j);
    assert s.works[i].id in s.contents.channels;
  }

  /** While no close slips past another, a channel whose settlement was accepted
      never looks open again. */
  lemma AcceptedStaysClosed(s: State, id: Text, k: nat)
    requires Reached(s) && !SlippedPast(s, id, true)
    requires k in s.works && IsClose(s.works[k], id) && s.works[k].progress.Answered? && s.works[k].progress.accepted
    ensures id in s.contents.channels && s.contents.channels[id].status != Open
  {
    var steps :| IsRun(StartFrom(EMPTY), steps) && s == Final(StartFrom(EMPTY), steps);
    RunKeepsCloses(StartFrom(EMPTY), steps, true);
    assert CloseInv(s, id, true);
  }
}
