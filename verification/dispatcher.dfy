/**
 One dispatcher as the code runs it (internal/core/outbox/application/dispatcher.go),
 over the in-memory store. The publisher, the clock and the context are inputs:
 call number n of the publisher goes as the script `publisher` says, in outcome
 and duration, and the context is cancelled from the instant `cancelAt` on. Every
 method is proved to be a legal run of the concurrent machine of module Dispatch,
 continuing any run that led to this store, whatever the other workers hold.
 */
module OutboxDispatcher {
  import opened Wrappers
  import opened OutboxDomain
  import opened OutboxMemory
  import opened Dispatch

  const MAX_ROUNDS: nat := 10

  /** How one call of the publisher goes. */
  datatype Call = Call(verdict: Verdict, took: nat, reason: string)

  /** How call number n goes; calls past the end of the script are delivered at once. */
  function CallAt(publisher: seq<Call>, n: nat): Call {
    if n < |publisher| then publisher[n] else Call(Delivered, 0, "")
  }

  datatype Event = Published | RetryScheduled | Exhausted | ClaimFailed | HandlerPanicked | ResolveFailed

  datatype Outcome = Outcome(id: MessageId, event: Event, attempts: nat, duration: nat)

  /** The stored message after its delivery is recorded. */
  function Fate(retry: RetryPolicy, m: Message, call: Call, at: int): Message {
    if call.verdict == Delivered then m.(status := Done)
    else
      var a := NextAttempt(m, retry, at, call.reason);
      m.(attempts := a.attempts, status := a.status, availableAt := a.availableAt)
  }

  function ReportOf(retry: RetryPolicy, m: Message, call: Call): Outcome {
    match call.verdict
    case Delivered => Outcome(m.id, Published, m.attempts, call.took)
    case Panicked => Outcome(m.id, HandlerPanicked, m.attempts + 1, call.took)
    case Refused =>
      Outcome(m.id, if m.attempts + 1 >= retry.maxAttempts then Exhausted else RetryScheduled,
              m.attempts + 1, call.took)
  }

  /**
   The report tells the fate: published exactly when the message is done, exhausted
   exactly when it failed for good without panicking, a panic as such.
   */
  lemma ExhaustedIffFailedByError(retry: RetryPolicy, m: Message, call: Call, at: int)
    requires m.status == Pending
    ensures var report, after := ReportOf(retry, m, call), Fate(retry, m, call, at);
            && report.id == m.id && report.attempts == after.attempts && report.duration == call.took
            && (report.event == Published <==> after.status == Done)
            && (report.event == Exhausted <==> after.status == Failed && call.verdict != Panicked)
            && (report.event == RetryScheduled <==> after.status == Pending && call.verdict != Panicked)
            && (report.event == HandlerPanicked <==> call.verdict == Panicked)
            && (after.status == Done <==> call.verdict == Delivered)
            && after.attempts == (if call.verdict == Delivered then m.attempts else m.attempts + 1)
            && after.content == m.content && after.id == m.id && after.createdAt == m.createdAt
  {
  }

  /** The clock after n calls of the publisher, the first being number `first`. */
  function ClockAfter(publisher: seq<Call>, first: nat, now: int, n: nat): int {
    if n == 0 then now else ClockAfter(publisher, first, now, n - 1) + CallAt(publisher, first + n - 1).took
  }

  lemma ClockStep(publisher: seq<Call>, first: nat, now: int, n: nat)
    ensures ClockAfter(publisher, first, now, 0) == now
    ensures ClockAfter(publisher, first, now, n + 1)
         == ClockAfter(publisher, first, now, n) + CallAt(publisher, first + n).took
  {
  }

  /** The stored messages after the first n of a batch went through the publisher. */
  ghost predicate BatchDelivered(
    retry: RetryPolicy, publisher: seq<Call>, first: nat, now: int, batch: seq<Message>, n: nat,
    before: map<MessageId, Message>, after: map<MessageId, Message>)
    requires n <= |batch|
  {
    && after.Keys == before.Keys
    && (forall i :: 0 <= i < n ==>
          && batch[i].id in after
          && after[batch[i].id]
             == Fate(retry, batch[i], CallAt(publisher, first + i), ClockAfter(publisher, first, now, i + 1)))
    && (forall id :: id in before && (forall i :: 0 <= i < n ==> batch[i].id != id) ==> after[id] == before[id])
  }

  function Ids(batch: seq<Message>): (ids: set<MessageId>)
    ensures forall id :: id in ids <==> exists i :: 0 <= i < |batch| && batch[i].id == id
  {
    if batch == [] then {} else {batch[0].id} + Ids(batch[1..])
  }

  function ReportsOf(retry: RetryPolicy, publisher: seq<Call>, first: nat, batch: seq<Message>, n: nat): seq<Outcome>
    requires n <= |batch|
  {
    if n == 0 then []
    else
      ReportsOf(retry, publisher, first, batch, n - 1)
      + [ReportOf(retry, batch[n - 1], CallAt(publisher, first + n - 1))]
  }

  lemma NoneDelivered(
    retry: RetryPolicy, publisher: seq<Call>, first: nat, now: int, batch: seq<Message>,
    before: map<MessageId, Message>)
    ensures BatchDelivered(retry, publisher, first, now, batch, 0, before, before)
  {
  }

  lemma StillToDeliver(
    retry: RetryPolicy, publisher: seq<Call>, first: nat, now: int, batch: seq<Message>, n: nat,
    before: map<MessageId, Message>, middle: map<MessageId, Message>)
    requires n < |batch| && BatchDelivered(retry, publisher, first, now, batch, n, before, middle)
    requires forall i, j :: 0 <= i < j < |batch| ==> batch[i].id != batch[j].id
    requires batch[n].id in before
    ensures batch[n].id in middle && middle[batch[n].id] == before[batch[n].id]
  {
    hide Fate;
    hide ClockAfter;
  }

  lemma NoReports(retry: RetryPolicy, publisher: seq<Call>, first: nat, batch: seq<Message>)
    ensures ReportsOf(retry, publisher, first, batch, 0) == []
  {
  }

  lemma ReportsStep(retry: RetryPolicy, publisher: seq<Call>, first: nat, batch: seq<Message>, n: nat)
    requires n < |batch|
    ensures ReportsOf(retry, publisher, first, batch, n + 1)
         == ReportsOf(retry, publisher, first, batch, n) + [ReportOf(retry, batch[n], CallAt(publisher, first + n))]
  {
  }

  /** One more message of the batch is recorded. */
  lemma BatchDeliveredStep(
    retry: RetryPolicy, publisher: seq<Call>, first: nat, now: int, batch: seq<Message>, n: nat,
    before: map<MessageId, Message>, middle: map<MessageId, Message>, after: map<MessageId, Message>)
    requires n < |batch| && BatchDelivered(retry, publisher, first, now, batch, n, before, middle)
    requires forall i, j :: 0 <= i < j < |batch| ==> batch[i].id != batch[j].id
    requires batch[n].id in before
    requires after == middle[batch[n].id :=
      Fate(retry, batch[n], CallAt(publisher, first + n), ClockAfter(publisher, first, now, n + 1))]
    ensures BatchDelivered(retry, publisher, first, now, batch, n + 1, before, after)
  {
    hide Fate;
    hide ClockAfter;
  }

  /** The messages of a hand are stored and distinct. */
  ghost predicate IsHand(hand: seq<Message>, messages: map<MessageId, Message>) {
    && (forall i :: 0 <= i < |hand| ==> hand[i].id in messages && messages[hand[i].id] == hand[i])
    && (forall i, j :: 0 <= i < j < |hand| ==> hand[i].id != hand[j].id)
  }

  lemma HandNext(hand: seq<Message>, messages: map<MessageId, Message>, i: nat, others: set<MessageId>)
    requires IsHand(hand, messages) && i < |hand| && others !! Ids(hand)
    ensures hand[i].id in messages && messages[hand[i].id] == hand[i]
    ensures forall j, k :: 0 <= j < k < |hand| ==> hand[j].id != hand[k].id
    ensures others + Ids(hand[i..]) - {hand[i].id} == others + Ids(hand[i + 1..])
  {
    assert hand[i..][0] == hand[i] && hand[i..][1..] == hand[i + 1..];
    assert hand[i].id in Ids(hand);
    LaterHaveOtherIds(hand, i);
    RemoveOne(others, Ids(hand[i + 1..]), hand[i].id);
  }

  lemma RemoveOne(others: set<MessageId>, rest: set<MessageId>, id: MessageId)
    requires id !in others && id !in rest
    ensures others + ({id} + rest) - {id} == others + rest
  {
  }

  lemma LaterHaveOtherIds(hand: seq<Message>, i: nat)
    requires i < |hand| && forall j, k :: 0 <= j < k < |hand| ==> hand[j].id != hand[k].id
    ensures hand[i].id !in Ids(hand[i + 1..])
  {
  }

  lemma NoIds(batch: seq<Message>)
    requires batch == []
    ensures Ids(batch) == {}
  {
  }

  lemma HandOfBatch(o: Outbox, now: int, limit: nat)
    requires ValidOutbox(o)
    ensures var batch := Batch(o, now, limit);
            && IsHand(batch, o.messages)
            && Claimed(o, now, limit).claimed == o.claimed + Ids(batch)
            && o.claimed !! Ids(batch)
  {
    hide ValidOutbox;
    BatchIsHandout(o, now, limit);
  }

  /** The machine steps of one delivery: call, passage of time, return, decision if it failed, record. */
  function DeliverySteps(me: WorkerId, call: Call): seq<Label> {
    [Start(me), Tick(call.took), Return(me, call.verdict)]
    + (if call.verdict == Delivered then [] else [Decide(me, call.reason)])
    + [Resolve(me)]
  }

  /** The second run goes on from the first without another claim by this worker. */
  ghost predicate GoesOn(me: WorkerId, run: seq<Label>, run': seq<Label>) {
    run <= run' && forall j :: |run| <= j < |run'| ==> run'[j] != Claim(me)
  }

  lemma DeliveryGoesOn(me: WorkerId, run: seq<Label>, middle: seq<Label>, call: Call)
    requires GoesOn(me, run, middle)
    ensures GoesOn(me, run, middle + DeliverySteps(me, call))
  {
  }

  /** The store after one delivery is recorded at instant `at`. */
  function Recorded(retry: RetryPolicy, o: Outbox, m: Message, call: Call, at: int): Outbox {
    if call.verdict == Delivered then MarkedDone(o, m.id)
    else MarkedFailed(o, NextAttempt(m, retry, at, call.reason))
  }

  lemma DeliveryIsRun(p: ValidPolicy, s0: State, run: seq<Label>, me: WorkerId, hand: seq<Message>, call: Call)
    requires Legal(p, s0, run) && hand != [] && WorkerAt(After(p, s0, run), me) == Worker(hand, Between)
    ensures var run' := run + DeliverySteps(me, call);
            var s, s' := After(p, s0, run), After(p, s0, run');
            && Legal(p, s0, run')
            && s'.now == s.now + call.took
            && s'.outbox == Recorded(p.retry, s.outbox, hand[0], call, s'.now)
            && s'.workers == s.workers[me := Worker(hand[1..], Between)]
  {
    hide Legal;
    hide After;
    hide MarkedDone;
    hide MarkedFailed;
    hide NextAttempt;
    hide Noted;
    hide Validate;
    Extend(p, s0, run, Start(me));
    var r1 := run + [Start(me)];
    Extend(p, s0, r1, Tick(call.took));
    var r2 := r1 + [Tick(call.took)];
    Extend(p, s0, r2, Return(me, call.verdict));
    var r3 := r2 + [Return(me, call.verdict)];
    if call.verdict == Delivered {
      Extend(p, s0, r3, Resolve(me));
      assert r3 + [Resolve(me)] == run + DeliverySteps(me, call);
    } else {
      Extend(p, s0, r3, Decide(me, call.reason));
      var r4 := r3 + [Decide(me, call.reason)];
      Extend(p, s0, r4, Resolve(me));
      assert r4 + [Resolve(me)] == run + DeliverySteps(me, call);
    }
  }

  lemma ClaimIsRun(p: ValidPolicy, s0: State, run: seq<Label>, me: WorkerId)
    requires Legal(p, s0, run) && WorkerAt(After(p, s0, run), me) == IDLE
    ensures var run' := run + [Claim(me)];
            var s, s' := After(p, s0, run), After(p, s0, run');
            && Legal(p, s0, run')
            && s'.now == s.now
            && s'.outbox == Claimed(s.outbox, s.now, p.batchSize)
            && WorkerAt(s', me) == Worker(Batch(s.outbox, s.now, p.batchSize), Between)
  {
    Extend(p, s0, run, Claim(me));
  }

  lemma BatchIsBounded(o: Outbox, now: int, limit: nat)
    ensures |Batch(o, now, limit)| <= limit
  {
  }

  /** A batch that is not full took every message eligible at the claim. */
  lemma ShortBatchTakesAll(o: Outbox, now: int, limit: nat)
    requires ValidOutbox(o) && |Batch(o, now, limit)| < limit
    ensures forall id :: Eligible(o, now, id) ==> id in Selection(o, now, limit, o.order)
  {
    OrderHasNoRepeats(o);
    SelectionIsOldestFirst(o, now, limit, o.order);
    forall id | Eligible(o, now, id) ensures id in Selection(o, now, limit, o.order) {
      var k :| 0 <= k < |o.order| && o.order[k] == id;
    }
  }

  /**
   Every message of `o` that was pending, due at the instant and in nobody's hands has
   since been published or charged an attempt.
   */
  ghost predicate EligibleRecorded(o: Outbox, at: int, after: map<MessageId, Message>) {
    forall id :: id in o.messages && id !in o.claimed
                 && o.messages[id].status == Pending && o.messages[id].availableAt <= at ==>
      && id in after
      && (after[id].status == Done || after[id].attempts == o.messages[id].attempts + 1)
  }

  lemma ShortRoundRecordsAll(
    o: Outbox, now: int, limit: nat, retry: RetryPolicy, publisher: seq<Call>, first: nat,
    after: map<MessageId, Message>)
    requires ValidOutbox(o) && |Batch(o, now, limit)| < limit
    requires BatchDelivered(retry, publisher, first, now, Batch(o, now, limit), |Batch(o, now, limit)|,
                            o.messages, after)
    ensures EligibleRecorded(o, now, after)
  {
    ShortBatchTakesAll(o, now, limit);
    hide ValidOutbox;
    hide ClockAfter;
    hide CallAt;
    var picked := Selection(o, now, limit, o.order);
    var batch := Batch(o, now, limit);
    forall id | id in o.messages && id !in o.claimed
                && o.messages[id].status == Pending && o.messages[id].availableAt <= now
      ensures id in after && (after[id].status == Done || after[id].attempts == o.messages[id].attempts + 1)
    {
      assert Eligible(o, now, id);
      var i :| 0 <= i < |picked| && picked[i] == id;
      assert batch[i] == o.messages[id];
      IdOfStored(o, id);
      assert batch[i].id == id;
    }
  }

  lemma IdOfStored(o: Outbox, id: MessageId)
    requires ValidOutbox(o) && id in o.messages
    ensures o.messages[id].id == id
  {
  }

  class Dispatcher {
    const policy: ValidPolicy
    const store: Store
    const me: WorkerId
    const publisher: seq<Call>
    const cancelAt: Option<int>
    var now: int
    var calls: nat
    var reports: seq<Outcome>

    constructor (policy: ValidPolicy, store: Store, me: WorkerId, publisher: seq<Call>, cancelAt: Option<int>, now: int)
      ensures this.policy == policy && this.store == store && this.me == me && this.publisher == publisher
      ensures this.cancelAt == cancelAt && this.now == now && calls == 0 && reports == []
    {
      this.policy, this.store, this.me, this.publisher, this.cancelAt := policy, store, me, publisher, cancelAt;
      this.now, calls, reports := now, 0, [];
    }

    predicate Cancelled()
      reads this
    {
      cancelAt.Some? && cancelAt.value <= now
    }

    /** The run so far explains the store and the clock, and leaves this worker with `worker`. */
    ghost predicate At(s0: State, run: seq<Label>, worker: Worker)
      reads this, store
    {
      && Legal(policy, s0, run)
      && After(policy, s0, run).outbox == store.Value()
      && After(policy, s0, run).now == now
      && WorkerAt(After(policy, s0, run), me) == worker
    }

    /**
     Publishes one message and records its fate: deliver, publish and reschedule. This
     store knows every message it handed out, so recording never fails.
     */
    method Deliver(msg: Message, ghost s0: State, ghost run: seq<Label>, ghost hand: seq<Message>)
      returns (ghost run': seq<Label>)
      requires store.Valid() && msg.id in store.messages && store.messages[msg.id] == msg
      requires hand != [] && hand[0] == msg && At(s0, run, Worker(hand, Between))
      modifies this, store
      ensures store.Valid() && At(s0, run', Worker(hand[1..], Between))
      ensures run' == run + DeliverySteps(me, CallAt(publisher, old(calls)))
      ensures calls == old(calls) + 1 && now == old(now) + CallAt(publisher, old(calls)).took
      ensures store.messages ==
              old(store.messages)[msg.id := Fate(policy.retry, msg, CallAt(publisher, old(calls)), now)]
      ensures store.claimed == old(store.claimed) - {msg.id}
      ensures store.order == old(store.order) && store.nextId == old(store.nextId)
      ensures reports == old(reports) + [ReportOf(policy.retry, msg, CallAt(publisher, old(calls)))]
      ensures old(calls) < |publisher| ==>
                var call := publisher[old(calls)];
                && now == old(now) + call.took
                && store.messages == old(store.messages)[msg.id := Fate(policy.retry, msg, call, now)]
                && reports == old(reports) + [ReportOf(policy.retry, msg, call)]
    {
      hide Legal;
      hide After;
      hide DeliverySteps;
      hide ValidOutbox;
      hide Backoff;
      run' := run + DeliverySteps(me, CallAt(publisher, calls));
      DeliveryIsRun(policy, s0, run, me, hand, CallAt(publisher, calls));
      var started := now;
      var call := CallAt(publisher, calls);
      calls := calls + 1;
      now := now + call.took;
      var elapsed := now - started;
      if call.verdict != Delivered {
        var attempt := NextAttempt(msg, policy.retry, now, call.reason);
        var event :=
          if call.verdict == Panicked then HandlerPanicked
          else if attempt.status == Failed then Exhausted
          else RetryScheduled;
        var marked := store.MarkFailed(attempt);
        if marked.Err? {
          event := ResolveFailed;
        }
        reports := reports + [Outcome(msg.id, event, attempt.attempts, elapsed)];
      } else {
        var marked := store.MarkDone(msg.id);
        var event := if marked.Err? then ResolveFailed else Published;
        reports := reports + [Outcome(msg.id, event, msg.attempts, elapsed)];
      }
    }

    /** The loop over a claimed batch. */
    method DeliverAll(messages: seq<Message>, ghost s0: State, ghost run: seq<Label>, ghost others: set<MessageId>)
      returns (ghost run': seq<Label>)
      requires store.Valid() && At(s0, run, Worker(messages, Between))
      requires IsHand(messages, store.messages)
      requires store.claimed == others + Ids(messages) && others !! Ids(messages)
      modifies this, store
      ensures store.Valid() && At(s0, run', IDLE) && GoesOn(me, run, run')
      ensures store.claimed == others
      ensures store.order == old(store.order) && store.nextId == old(store.nextId)
      ensures calls == old(calls) + |messages|
      ensures now == ClockAfter(publisher, old(calls), old(now), |messages|)
      ensures BatchDelivered(policy.retry, publisher, old(calls), old(now), messages, |messages|,
                             old(store.messages), store.messages)
      ensures reports == old(reports) + ReportsOf(policy.retry, publisher, old(calls), messages, |messages|)
    {
      hide Legal;
      hide After;
      hide Fate;
      hide ClockAfter;
      hide BatchDelivered;
      hide Ids;
      hide ReportsOf;
      hide ReportOf;
      hide CallAt;
      hide ValidOutbox;
      hide Validate;
      hide IsHand;
      assert GoesOn(me, run, run);
      hide GoesOn;
      hide DeliverySteps;
      ghost var before, first, start, told := store.messages, calls, now, reports;
      run' := run;
      NoneDelivered(policy.retry, publisher, first, start, messages, before);
      ClockStep(publisher, first, start, 0);
      NoReports(policy.retry, publisher, first, messages);
      assert messages[0..] == messages;
      var i := 0;
      while i < |messages|
        invariant 0 <= i <= |messages|
        invariant store.Valid() && At(s0, run', Worker(messages[i..], Between))
        invariant GoesOn(me, run, run')
        invariant calls == first + i && now == ClockAfter(publisher, first, start, i)
        invariant store.claimed == others + Ids(messages[i..])
        invariant store.order == old(store.order) && store.nextId == old(store.nextId)
        invariant BatchDelivered(policy.retry, publisher, first, start, messages, i, before, store.messages)
        invariant reports == told + ReportsOf(policy.retry, publisher, first, messages, i)
      {
        ghost var middle := store.messages;
        HandNext(messages, before, i, others);
        StillToDeliver(policy.retry, publisher, first, start, messages, i, before, middle);
        DeliveryGoesOn(me, run, run', CallAt(publisher, calls));
        run' := Deliver(messages[i], s0, run', messages[i..]);
        assert messages[i..][1..] == messages[i + 1..];
        ClockStep(publisher, first, start, i);
        ReportsStep(policy.retry, publisher, first, messages, i);
        BatchDeliveredStep(policy.retry, publisher, first, start, messages, i, before, middle, store.messages);
        i := i + 1;
      }
      NoIds(messages[i..]);
    }

    /** Claims a batch and delivers every message of it. */
    method DrainOnce(ghost s0: State, ghost run: seq<Label>)
      returns (r: Result<nat, OutboxMemory.Error>, ghost run': seq<Label>)
      requires store.Valid() && At(s0, run, IDLE)
      modifies this, store
      ensures store.Valid() && At(s0, run', IDLE)
      ensures store.claimed == old(store.claimed)
      ensures store.order == old(store.order) && store.nextId == old(store.nextId)
      ensures cancelAt.Some? && cancelAt.value <= old(now) ==>
        && r.Err? && run' == run && store.messages == old(store.messages) && calls == old(calls) && now == old(now)
        && reports == old(reports) + [Outcome("", ClaimFailed, 0, 0)]
      ensures (cancelAt.Some? ==> old(now) < cancelAt.value) ==>
        var batch := Batch(old(store.Value()), old(now), policy.batchSize);
        && GoesOn(me, run + [Claim(me)], run')
        && r == Ok(|batch|) && calls == old(calls) + |batch|
        && now == ClockAfter(publisher, old(calls), old(now), |batch|)
        && BatchDelivered(policy.retry, publisher, old(calls), old(now), batch, |batch|,
                          old(store.messages), store.messages)
        && reports == old(reports) + ReportsOf(policy.retry, publisher, old(calls), batch, |batch|)
    {
      hide Legal;
      hide After;
      hide BatchDelivered;
      hide Handout;
      hide Batch;
      hide Ids;
      hide IsHand;
      ghost var before := store.Value();
      HandOfBatch(before, now, policy.batchSize);
      ClaimIsRun(policy, s0, run, me);
      var claim := store.Claim(Cancelled(), now, policy.batchSize);
      if claim.Err? {
        reports := reports + [Outcome("", ClaimFailed, 0, 0)];
        return Err(claim.error), run;
      }
      var messages := claim.value;
      run' := DeliverAll(messages, s0, run + [Claim(me)], before.claimed);
      return Ok(|messages|), run';
    }

    /**
     Chains batches as long as they come back full. It stops after ten full
     batches, on cancellation, or once every message eligible at its last claim,
     the one after the run `before`, has been recorded. It leaves no claim behind.
     */
    method CatchUp(ghost s0: State, ghost run: seq<Label>)
      returns (ghost run': seq<Label>, ghost before: seq<Label>)
      requires store.Valid() && At(s0, run, IDLE)
      modifies this, store
      ensures store.Valid() && At(s0, run', IDLE) && run <= run' && run <= before
      ensures store.claimed == old(store.claimed)
      ensures (cancelAt.Some? ==> old(now) < cancelAt.value) ==> run + [Claim(me)] <= run'
      ensures || calls == old(calls) + 10 * policy.batchSize
              || (cancelAt.Some? && cancelAt.value <= now)
              || (calls < old(calls) + 10 * policy.batchSize
                  && GoesOn(me, before + [Claim(me)], run')
                  && EligibleRecorded(After(policy, s0, before).outbox, After(policy, s0, before).now, store.messages))
    {
      hide Legal;
      hide After;
      hide EligibleRecorded;
      hide Validate;
      run', before := run, run;
      var rounds := 0;
      while rounds < MAX_ROUNDS
        invariant 0 <= rounds <= MAX_ROUNDS
        invariant store.Valid() && At(s0, run', IDLE) && run <= run' && run <= before
        invariant store.claimed == old(store.claimed)
        invariant calls == old(calls) + rounds * policy.batchSize
        invariant if rounds == 0 then run' == run && Cancelled() == old(Cancelled()) else run + [Claim(me)] <= run'
      {
        if Cancelled() {
          return;
        }
        before := run';
        var count: nat, full;
        count, full, run' := Round(s0, run');
        if !full {
          RoundsBound(rounds, policy.batchSize, count);
          return;
        }
        Distribute(policy.batchSize, rounds, 1);
        rounds := rounds + 1;
      }
    }

    /** One batch, and whether it was full. */
    method Round(ghost s0: State, ghost run: seq<Label>) returns (count: nat, full: bool, ghost run': seq<Label>)
      requires store.Valid() && At(s0, run, IDLE) && !Cancelled()
      modifies this, store
      ensures store.Valid() && At(s0, run', IDLE) && run + [Claim(me)] <= run' && GoesOn(me, run + [Claim(me)], run')
      ensures store.claimed == old(store.claimed)
      ensures calls == old(calls) + count && count <= policy.batchSize && full == (count == policy.batchSize)
      ensures !full ==>
                EligibleRecorded(After(policy, s0, run).outbox, After(policy, s0, run).now, store.messages)
    {
      hide Legal;
      hide After;
      hide BatchDelivered;
      hide EligibleRecorded;
      hide ReportsOf;
      hide ClockAfter;
      hide Batch;
      hide CallAt;
      var limit: nat := policy.batchSize;
      hide Validate;
      ghost var last, at, first := store.Value(), now, calls;
      var drained;
      drained, run' := DrainOnce(s0, run);
      count := if drained.Ok? then drained.value else 0;
      full := drained.Ok? && count >= limit;
      BatchIsBounded(last, at, limit);
      if !full {
        ShortRoundRecordsAll(last, at, limit, policy.retry, publisher, first, store.messages);
      }
    }
  }

  lemma RoundsBound(rounds: nat, limit: nat, short: nat)
    requires rounds < MAX_ROUNDS && short < limit
    ensures rounds * limit + short < MAX_ROUNDS * limit
  {
    Distribute(limit, rounds, 1);
    assert limit * (rounds + 1) <= limit * MAX_ROUNDS by {
      ProductNonNegative(limit, MAX_ROUNDS - rounds - 1);
      Distribute(limit, rounds + 1, MAX_ROUNDS - rounds - 1);
    }
  }
}
