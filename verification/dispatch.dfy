/**
 Any number of dispatchers draining one in-memory outbox, as a machine whose steps
 are the mutex-held store methods and the calls of the publisher
 (internal/core/outbox/application/dispatcher.go, internal/core/outbox/drivers/memory/memory.go).
 A step is a label; a run is a sequence of labels, each enabled where it is taken.
 `starts` and `fails` record, per message, the instants at which the publisher was
 called and at which a failure was decided; no step reads them.
 */
module Dispatch {
  import opened Wrappers
  import opened OutboxDomain
  import opened OutboxMemory

  type WorkerId = nat

  datatype Policy = Policy(batchSize: int, interval: int, retry: RetryPolicy)

  datatype PolicyError = BadBatchSize | BadMaxAttempts | BadBackoff | BadInterval

  /** The construction check: the first absurd setting refuses the dispatcher. */
  function Validate(policy: Policy): Result<(), PolicyError> {
    if policy.batchSize <= 0 then Err(BadBatchSize)
    else if policy.retry.maxAttempts <= 0 then Err(BadMaxAttempts)
    else if policy.retry.baseBackoff <= 0 then Err(BadBackoff)
    else if policy.interval <= 0 then Err(BadInterval)
    else Ok(())
  }

  /** A policy is valid exactly when every setting is positive, and an error names one that is not. */
  lemma ValidPolicyIs(policy: Policy)
    ensures Validate(policy).Ok? <==>
            policy.batchSize > 0 && policy.interval > 0 && policy.retry.maxAttempts > 0 && policy.retry.baseBackoff > 0
    ensures Validate(policy).Err? ==>
              match Validate(policy).error
              case BadBatchSize => policy.batchSize <= 0
              case BadMaxAttempts => policy.retry.maxAttempts <= 0 < policy.batchSize
              case BadBackoff => policy.retry.baseBackoff <= 0 < policy.retry.maxAttempts
              case BadInterval => policy.interval <= 0 < policy.retry.baseBackoff
  {
  }

  type ValidPolicy = p: Policy | Validate(p).Ok? witness Policy(1, 1, RetryPolicy(1, 1))

  /** How a call of the publisher ended; a panic is recovered into a failure. */
  datatype Verdict = Delivered | Refused | Panicked

  /** Where a worker stands with the first message of its hand. */
  datatype Phase =
    | Between
    | Handling
    | Handled(verdict: Verdict)
    | Deciding(at: int, reason: string)

  datatype Worker = Worker(hand: seq<Message>, phase: Phase)

  datatype State = State(
    now: int,
    outbox: Outbox,
    workers: map<WorkerId, Worker>,
    starts: map<MessageId, seq<int>>,
    fails: map<MessageId, seq<int>>)

  datatype Label =
    | Tick(elapsed: nat)
    | Enqueue(content: NewMessage)
    | Claim(worker: WorkerId)
    | Start(worker: WorkerId)
    | Return(worker: WorkerId, verdict: Verdict)
    | Decide(worker: WorkerId, reason: string)
    | Resolve(worker: WorkerId)

  const IDLE: Worker := Worker([], Between)

  function Init(now: int): State {
    State(now, EMPTY, map[], map[], map[])
  }

  function WorkerAt(s: State, w: WorkerId): Worker {
    if w in s.workers then s.workers[w] else IDLE
  }

  predicate Enabled(s: State, l: Label) {
    match l
    case Tick(_) => true
    case Enqueue(_) => true
    case Claim(w) => WorkerAt(s, w) == IDLE
    case Start(w) => WorkerAt(s, w).hand != [] && WorkerAt(s, w).phase.Between?
    case Return(w, _) => WorkerAt(s, w).phase.Handling?
    case Decide(w, _) => WorkerAt(s, w).phase.Handled? && WorkerAt(s, w).phase.verdict != Delivered
    case Resolve(w) => WorkerAt(s, w).phase == Handled(Delivered) || WorkerAt(s, w).phase.Deciding?
  }

  /** Appends an instant to the history of one message. */
  function Noted(history: map<MessageId, seq<int>>, id: MessageId, instant: int): map<MessageId, seq<int>> {
    history[id := (if id in history then history[id] else []) + [instant]]
  }

  function SetWorker(s: State, w: WorkerId, worker: Worker): State {
    s.(workers := s.workers[w := worker])
  }

  function Apply(p: ValidPolicy, s: State, l: Label): State {
    match l
    case Tick(elapsed) => s.(now := s.now + elapsed)
    case Enqueue(content) =>
      var id := IdOf(s.outbox.nextId + 1);
      s.(outbox := Enqueued(s.outbox, content, s.now), starts := s.starts[id := []], fails := s.fails[id := []])
    case Claim(w) =>
      SetWorker(s, w, Worker(Batch(s.outbox, s.now, p.batchSize), Between))
      .(outbox := Claimed(s.outbox, s.now, p.batchSize))
    case Start(w) =>
      var worker := WorkerAt(s, w);
      if worker.hand == [] then s
      else SetWorker(s, w, worker.(phase := Handling)).(starts := Noted(s.starts, worker.hand[0].id, s.now))
    case Return(w, verdict) =>
      SetWorker(s, w, WorkerAt(s, w).(phase := Handled(verdict)))
    case Decide(w, reason) =>
      SetWorker(s, w, WorkerAt(s, w).(phase := Deciding(s.now, reason)))
    case Resolve(w) =>
      var worker := WorkerAt(s, w);
      if worker.hand == [] then s
      else
        var msg := worker.hand[0];
        var s' := SetWorker(s, w, Worker(worker.hand[1..], Between));
        if worker.phase.Deciding? then
          s'.(outbox := MarkedFailed(s.outbox, NextAttempt(msg, p.retry, worker.phase.at, worker.phase.reason)),
              fails := Noted(s.fails, msg.id, worker.phase.at))
        else
          s'.(outbox := MarkedDone(s.outbox, msg.id))
  }

  function After(p: ValidPolicy, s: State, run: seq<Label>): State {
    if run == [] then s else Apply(p, After(p, s, run[..|run| - 1]), run[|run| - 1])
  }

  ghost predicate Legal(p: ValidPolicy, s: State, run: seq<Label>) {
    run == [] ||
    (Legal(p, s, run[..|run| - 1]) && Enabled(After(p, s, run[..|run| - 1]), run[|run| - 1]))
  }

  lemma Extend(p: ValidPolicy, s: State, run: seq<Label>, l: Label)
    requires Legal(p, s, run) && Enabled(After(p, s, run), l)
    ensures Legal(p, s, run + [l])
    ensures After(p, s, run + [l]) == Apply(p, After(p, s, run), l)
  {
    assert (run + [l])[..|run|] == run;
  }

  // ---- The invariant ----

  predicate Holds(worker: Worker, id: MessageId) {
    exists i :: 0 <= i < |worker.hand| && worker.hand[i].id == id
  }

  predicate Delivers(worker: Worker, id: MessageId) {
    worker.hand != [] && worker.hand[0].id == id && !worker.phase.Between?
  }

  /** The message is between the call of the publisher and the recording of its fate. */
  ghost predicate InDelivery(s: State, id: MessageId) {
    exists w :: w in s.workers && Delivers(s.workers[w], id)
  }

  /** Every message has its two histories. */
  ghost predicate Tracked(s: State) {
    s.starts.Keys == s.outbox.messages.Keys && s.fails.Keys == s.outbox.messages.Keys
  }

  /** Every message in a hand is claimed, pending, due, and equal to the stored one. */
  ghost predicate Snapshot(s: State, m: Message) {
    && m.id in s.outbox.claimed && m.id in s.outbox.messages && s.outbox.messages[m.id] == m
    && m.IsDue(s.now)
  }

  ghost predicate Snapshots(s: State) {
    && (forall w, i :: w in s.workers && 0 <= i < |s.workers[w].hand| ==> Snapshot(s, s.workers[w].hand[i]))
    && (forall w :: w in s.workers && s.workers[w].hand == [] ==> s.workers[w].phase.Between?)
  }

  /** No message is in two places of two hands. */
  ghost predicate Disjoint(s: State) {
    forall w, i, w', i' ::
      && w in s.workers && 0 <= i < |s.workers[w].hand|
      && w' in s.workers && 0 <= i' < |s.workers[w'].hand|
      && s.workers[w].hand[i].id == s.workers[w'].hand[i'].id
      ==> w == w' && i == i'
  }

  /** Every claim is in some hand. */
  ghost predicate Covered(s: State) {
    forall id :: id in s.outbox.claimed ==> exists w :: w in s.workers && Holds(s.workers[w], id)
  }

  /**
   The claims are the disjoint union of the hands, and a hand holds exact copies
   of pending, due messages.
   */
  ghost predicate Hands(s: State) {
    Snapshots(s) && Disjoint(s) && Covered(s)
  }

  /** Attempts, statuses and calls of the publisher agree. */
  ghost predicate Account(p: ValidPolicy, m: Message, calls: nat, failures: nat, inDelivery: bool) {
    && failures == m.attempts <= p.retry.maxAttempts
    && (m.status == Failed <==> m.attempts == p.retry.maxAttempts)
    && calls == m.attempts + (if m.status == Done || inDelivery then 1 else 0)
    && (inDelivery ==> m.status == Pending)
  }

  ghost predicate Accounts(p: ValidPolicy, s: State)
    requires Tracked(s)
  {
    forall id :: id in s.outbox.messages ==>
      Account(p, s.outbox.messages[id], |s.starts[id]|, |s.fails[id]|, InDelivery(s, id))
  }

  /** Calls and failures alternate, and each call waits for the backoff of the failure before it. */
  ghost predicate Schedule(base: int, m: Message, starts: seq<int>, fails: seq<int>, now: int) {
    && |fails| <= |starts| <= |fails| + 1
    && (forall k :: 0 <= k < |starts| ==> starts[k] <= now)
    && (forall k :: 0 <= k < |fails| ==> starts[k] <= fails[k])
    && (|starts| > 0 ==> m.createdAt <= starts[0])
    && (forall k :: 0 < k < |starts| ==> fails[k - 1] + Backoff(base, k) <= starts[k])
    && m.availableAt == (if fails == [] then m.createdAt
                         else fails[|fails| - 1] + Backoff(base, |fails|))
  }

  ghost predicate Schedules(p: ValidPolicy, s: State)
    requires Tracked(s)
  {
    forall id :: id in s.outbox.messages ==>
      Schedule(p.retry.baseBackoff, s.outbox.messages[id], s.starts[id], s.fails[id], s.now)
  }

  /** A failure being decided was decided after its call started. */
  ghost predicate Decision(worker: Worker, starts: map<MessageId, seq<int>>, now: int) {
    worker.hand != [] && worker.phase.Deciding? ==>
      var id := worker.hand[0].id;
      && id in starts && starts[id] != []
      && starts[id][|starts[id]| - 1] <= worker.phase.at <= now
  }

  ghost predicate Decisions(s: State) {
    forall w :: w in s.workers ==> Decision(s.workers[w], s.starts, s.now)
  }

  ghost predicate Inv(p: ValidPolicy, s: State) {
    && ValidOutbox(s.outbox) && Tracked(s)
    && Hands(s)
    && Accounts(p, s)
    && Schedules(p, s) && Decisions(s)
  }

  // ---- Every step keeps it ----

  lemma InitInv(p: ValidPolicy, now: int)
    ensures Inv(p, Init(now))
  {
  }

  lemma StoreKept(p: ValidPolicy, s: State, l: Label)
    requires ValidOutbox(s.outbox)
    ensures ValidOutbox(Apply(p, s, l).outbox)
  {
    match l
    case Enqueue(content) => EnqueuedIsValid(s.outbox, content, s.now);
    case Claim(_) => ClaimedIsValid(s.outbox, s.now, p.batchSize);
    case Resolve(w) =>
      var worker := WorkerAt(s, w);
      if worker.hand != [] {
        MarkedIsValid(s.outbox, worker.hand[0].id, FailedAttempt(worker.hand[0].id, 0, Pending, 0, ""));
        if worker.phase.Deciding? {
          MarkedIsValid(s.outbox, worker.hand[0].id,
                        NextAttempt(worker.hand[0], p.retry, worker.phase.at, worker.phase.reason));
        }
      }
    case _ =>
  }

  lemma EnqueueKeepsHands(p: ValidPolicy, s: State, content: NewMessage)
    requires Tracked(s) && Hands(s) && IdOf(s.outbox.nextId + 1) !in s.outbox.messages
    ensures Tracked(Apply(p, s, Enqueue(content))) && Hands(Apply(p, s, Enqueue(content)))
  {
    var s' := Apply(p, s, Enqueue(content));
    assert Covered(s');
  }

  lemma ClaimKeepsHands(s: State, w: WorkerId, hand: seq<Message>, claimed: set<MessageId>)
    requires Hands(s) && WorkerAt(s, w) == IDLE
    requires Handout(s.outbox, s.now, hand, claimed)
    ensures Hands(SetWorker(s, w, Worker(hand, Between)).(outbox := s.outbox.(claimed := claimed)))
  {
    var s' := SetWorker(s, w, Worker(hand, Between)).(outbox := s.outbox.(claimed := claimed));
    assert forall w' :: w' in s.workers && w' != w ==> s'.workers[w'] == s.workers[w'];
    forall id | id in claimed ensures exists w' :: w' in s'.workers && Holds(s'.workers[w'], id) {
      if id in s.outbox.claimed {
        var w' :| w' in s.workers && Holds(s.workers[w'], id);
        assert w' != w;
        assert Holds(s'.workers[w'], id);
      } else {
        assert Holds(s'.workers[w], id);
      }
    }
  }

  lemma TickKeepsHands(p: ValidPolicy, s: State, elapsed: nat)
    requires Hands(s)
    ensures Hands(Apply(p, s, Tick(elapsed)))
  {
    var s' := Apply(p, s, Tick(elapsed));
    assert forall m :: Snapshot(s, m) ==> Snapshot(s', m);
  }

  /** Steps that move only the phase of one worker. */
  lemma PhaseKeepsHands(s: State, s': State, w: WorkerId, phase: Phase)
    requires Hands(s) && WorkerAt(s, w).hand != []
    requires s'.workers == s.workers[w := WorkerAt(s, w).(phase := phase)]
    requires s'.outbox == s.outbox && s'.now == s.now
    ensures Hands(s')
  {
    assert forall m :: Snapshot(s, m) ==> Snapshot(s', m);
    assert forall w' :: w' in s'.workers ==> w' in s.workers && s'.workers[w'].hand == s.workers[w'].hand;
    assert Covered(s') by {
      forall id | id in s'.outbox.claimed ensures exists w' :: w' in s'.workers && Holds(s'.workers[w'], id) {
        var w' :| w' in s.workers && Holds(s.workers[w'], id);
        assert Holds(s'.workers[w'], id);
      }
    }
  }

  /** The effect of recording the fate of the first message of worker w's hand on the hands and the store. */
  ghost predicate Resolved(s: State, s': State, w: WorkerId) {
    && w in s.workers && s.workers[w].hand != []
    && s'.workers == s.workers[w := Worker(s.workers[w].hand[1..], Between)]
    && s'.now == s.now
    && var id := s.workers[w].hand[0].id;
       && s'.outbox.claimed == s.outbox.claimed - {id}
       && (forall x :: x in s.outbox.messages && x != id ==>
             x in s'.outbox.messages && s'.outbox.messages[x] == s.outbox.messages[x])
  }

  lemma ResolveKeepsSnapshots(s: State, s': State, w: WorkerId)
    requires Snapshots(s) && Disjoint(s) && Resolved(s, s', w)
    ensures Snapshots(s')
  {
    var id := s.workers[w].hand[0].id;
    forall w', i | w' in s'.workers && 0 <= i < |s'.workers[w'].hand|
      ensures Snapshot(s', s'.workers[w'].hand[i])
    {
      var j := if w' == w then i + 1 else i;
      assert s'.workers[w'].hand[i] == s.workers[w'].hand[j];
      assert Snapshot(s, s.workers[w'].hand[j]);
      assert s.workers[w'].hand[j].id != id;
    }
  }

  lemma ResolveKeepsDisjoint(s: State, s': State, w: WorkerId)
    requires Disjoint(s) && Resolved(s, s', w)
    ensures Disjoint(s')
  {
    forall v, i, v', i' |
      && v in s'.workers && 0 <= i < |s'.workers[v].hand|
      && v' in s'.workers && 0 <= i' < |s'.workers[v'].hand|
      && s'.workers[v].hand[i].id == s'.workers[v'].hand[i'].id
      ensures v == v' && i == i'
    {
      var j := if v == w then i + 1 else i;
      var j' := if v' == w then i' + 1 else i';
      assert s.workers[v].hand[j].id == s.workers[v'].hand[j'].id;
    }
  }

  lemma ResolveKeepsCovered(s: State, s': State, w: WorkerId)
    requires Covered(s) && Resolved(s, s', w)
    ensures Covered(s')
  {
    forall x | x in s'.outbox.claimed ensures exists w' :: w' in s'.workers && Holds(s'.workers[w'], x) {
      var w' :| w' in s.workers && Holds(s.workers[w'], x);
      var i :| 0 <= i < |s.workers[w'].hand| && s.workers[w'].hand[i].id == x;
      if w' == w {
        assert s'.workers[w].hand[i - 1].id == x;
      }
      assert Holds(s'.workers[w'], x);
    }
  }

  lemma ResolveIsResolved(p: ValidPolicy, s: State, w: WorkerId)
    requires Snapshots(s) && WorkerAt(s, w).hand != []
    ensures Resolved(s, Apply(p, s, Resolve(w)), w)
  {
    hide Snapshots;
    hide Backoff;
    HeadIsStored(s, w);
  }

  lemma TrackedKept(p: ValidPolicy, s: State, l: Label)
    requires Tracked(s) && Snapshots(s)
    ensures Tracked(Apply(p, s, l))
  {
    hide Selection;
    hide Backoff;
    match l
    case Start(w) =>
      if WorkerAt(s, w).hand != [] {
        HeadIsStored(s, w);
      }
    case Resolve(w) =>
      if WorkerAt(s, w).hand != [] {
        HeadIsStored(s, w);
      }
    case _ =>
  }

  lemma HandsKept(p: ValidPolicy, s: State, l: Label)
    requires ValidOutbox(s.outbox) && Tracked(s) && Hands(s) && Enabled(s, l)
    ensures Tracked(Apply(p, s, l)) && Hands(Apply(p, s, l))
  {
    hide Selection;
    hide Backoff;
    hide Disjoint;
    hide Covered;
    hide Resolved;
    TrackedKept(p, s, l);
    match l
    case Tick(elapsed) => TickKeepsHands(p, s, elapsed);
    case Enqueue(content) =>
      NextIdIsNew(s.outbox);
      EnqueueKeepsHands(p, s, content);
    case Claim(w) =>
      BatchIsHandout(s.outbox, s.now, p.batchSize);
      ClaimKeepsHands(s, w, Batch(s.outbox, s.now, p.batchSize), Claimed(s.outbox, s.now, p.batchSize).claimed);
    case Start(w) => PhaseKeepsHands(s, Apply(p, s, l), w, Handling);
    case Return(w, verdict) => PhaseKeepsHands(s, Apply(p, s, l), w, Handled(verdict));
    case Decide(w, reason) => PhaseKeepsHands(s, Apply(p, s, l), w, Deciding(s.now, reason));
    case Resolve(w) =>
      ResolveIsResolved(p, s, w);
      ResolveKeepsSnapshots(s, Apply(p, s, l), w);
      ResolveKeepsDisjoint(s, Apply(p, s, l), w);
      ResolveKeepsCovered(s, Apply(p, s, l), w);
  }

  lemma HeadIsStored(s: State, w: WorkerId)
    requires Snapshots(s) && WorkerAt(s, w).hand != []
    ensures Snapshot(s, WorkerAt(s, w).hand[0])
  {
  }

  /** Moving one worker changes which messages are in delivery only as that worker does. */
  lemma DeliveryFrame(s: State, s': State, w: WorkerId, worker: Worker)
    requires s'.workers == s.workers[w := worker]
    ensures forall id :: (Delivers(worker, id) <==> Delivers(WorkerAt(s, w), id)) ==>
              (InDelivery(s', id) <==> InDelivery(s, id))
  {
    forall id | Delivers(worker, id) <==> Delivers(WorkerAt(s, w), id)
      ensures InDelivery(s', id) <==> InDelivery(s, id)
    {
      if InDelivery(s, id) {
        var v :| v in s.workers && Delivers(s.workers[v], id);
        assert v in s'.workers && Delivers(s'.workers[v], id);
      }
      if InDelivery(s', id) {
        var v :| v in s'.workers && Delivers(s'.workers[v], id);
        assert v in s.workers && Delivers(s.workers[v], id);
      }
    }
  }

  /** Only the worker holding a message can be delivering it. */
  lemma OnlyHolderDelivers(s: State, w: WorkerId)
    requires Disjoint(s) && WorkerAt(s, w).hand != []
    ensures var id := WorkerAt(s, w).hand[0].id;
            && (InDelivery(s, id) <==> Delivers(WorkerAt(s, w), id))
            && (forall v :: v in s.workers && v != w ==> !Delivers(s.workers[v], id))
  {
  }

  lemma EnqueueKeepsAccounts(p: ValidPolicy, s: State, content: NewMessage)
    requires Tracked(s) && Snapshots(s) && Accounts(p, s) && IdOf(s.outbox.nextId + 1) !in s.outbox.messages
    requires Tracked(Apply(p, s, Enqueue(content)))
    ensures Accounts(p, Apply(p, s, Enqueue(content)))
  {
    var s' := Apply(p, s, Enqueue(content));
    assert forall id :: InDelivery(s', id) <==> InDelivery(s, id);
    var added := IdOf(s.outbox.nextId + 1);
    assert !InDelivery(s, added);
    hide InDelivery;
    hide Snapshots;
    hide IdOf;
    forall x | x in s'.outbox.messages
      ensures Account(p, s'.outbox.messages[x], |s'.starts[x]|, |s'.fails[x]|, InDelivery(s', x))
    {
      if x != added {
        assert Account(p, s.outbox.messages[x], |s.starts[x]|, |s.fails[x]|, InDelivery(s, x));
      }
    }
  }

  lemma ResolveKeepsAccounts(p: ValidPolicy, s: State, w: WorkerId)
    requires Tracked(s) && Snapshots(s) && Disjoint(s) && Accounts(p, s) && Enabled(s, Resolve(w))
    requires Tracked(Apply(p, s, Resolve(w)))
    ensures Accounts(p, Apply(p, s, Resolve(w)))
  {
    var s' := Apply(p, s, Resolve(w));
    var worker := WorkerAt(s, w);
    var id := worker.hand[0].id;
    HeadIsStored(s, w);
    OnlyHolderDelivers(s, w);
    DeliveryFrame(s, s', w, Worker(worker.hand[1..], Between));
    assert !InDelivery(s', id);
    assert Delivers(worker, id) && !Delivers(Worker(worker.hand[1..], Between), id);
    hide InDelivery;
    hide Delivers;
    hide Disjoint;
    hide Snapshots;
    hide Backoff;
    forall x | x in s'.outbox.messages
      ensures Account(p, s'.outbox.messages[x], |s'.starts[x]|, |s'.fails[x]|, InDelivery(s', x))
    {
      if x != id {
        OthersNotDelivered(worker, x);
      }
      ResolvedAccount(p, s, w, x);
      hide Apply;
      hide Account;
    }
  }

  lemma ResolvedAccount(p: ValidPolicy, s: State, w: WorkerId, x: MessageId)
    requires Tracked(s) && Snapshots(s) && Accounts(p, s) && Enabled(s, Resolve(w))
    requires Tracked(Apply(p, s, Resolve(w))) && x in s.outbox.messages
    requires var id := WorkerAt(s, w).hand[0].id;
             if x == id then InDelivery(s, x) && !InDelivery(Apply(p, s, Resolve(w)), x)
             else InDelivery(Apply(p, s, Resolve(w)), x) == InDelivery(s, x)
    ensures var s' := Apply(p, s, Resolve(w));
            && x in s'.outbox.messages
            && Account(p, s'.outbox.messages[x], |s'.starts[x]|, |s'.fails[x]|, InDelivery(s', x))
  {
    HeadIsStored(s, w);
    assert Account(p, s.outbox.messages[x], |s.starts[x]|, |s.fails[x]|, InDelivery(s, x));
    hide InDelivery;
    hide Snapshots;
    hide Backoff;
  }

  lemma OthersNotDelivered(worker: Worker, x: MessageId)
    requires worker.hand != [] && worker.hand[0].id != x
    ensures !Delivers(worker, x) && !Delivers(Worker(worker.hand[1..], Between), x)
  {
  }

  /** Steps that touch neither messages nor histories nor who is delivering. */
  lemma AccountsFrame(p: ValidPolicy, s: State, s': State)
    requires Tracked(s) && Accounts(p, s) && Tracked(s')
    requires s'.outbox.messages == s.outbox.messages && s'.starts == s.starts && s'.fails == s.fails
    requires forall id :: InDelivery(s', id) <==> InDelivery(s, id)
    ensures Accounts(p, s')
  {
  }

  lemma StartKeepsAccounts(p: ValidPolicy, s: State, w: WorkerId)
    requires Tracked(s) && Snapshots(s) && Disjoint(s) && Accounts(p, s) && Enabled(s, Start(w))
    requires Tracked(Apply(p, s, Start(w)))
    ensures Accounts(p, Apply(p, s, Start(w)))
  {
    var s' := Apply(p, s, Start(w));
    var id := WorkerAt(s, w).hand[0].id;
    HeadIsStored(s, w);
    OnlyHolderDelivers(s, w);
    DeliveryFrame(s, s', w, WorkerAt(s, w).(phase := Handling));
    assert Delivers(s'.workers[w], id);
    forall x | x in s'.outbox.messages
      ensures Account(p, s'.outbox.messages[x], |s'.starts[x]|, |s'.fails[x]|, InDelivery(s', x))
    {
      assert Account(p, s.outbox.messages[x], |s.starts[x]|, |s.fails[x]|, InDelivery(s, x));
    }
  }

  lemma AccountsKept(p: ValidPolicy, s: State, l: Label)
    requires Tracked(s) && Snapshots(s) && Disjoint(s) && Accounts(p, s) && Enabled(s, l)
    requires IdOf(s.outbox.nextId + 1) !in s.outbox.messages
    requires Tracked(Apply(p, s, l))
    ensures Accounts(p, Apply(p, s, l))
  {
    var s' := Apply(p, s, l);
    match l
    case Tick(elapsed) =>
      assert forall id :: InDelivery(s', id) <==> InDelivery(s, id);
      AccountsFrame(p, s, s');
    case Enqueue(content) => EnqueueKeepsAccounts(p, s, content);
    case Claim(w) =>
      DeliveryFrame(s, s', w, Worker(Batch(s.outbox, s.now, p.batchSize), Between));
      AccountsFrame(p, s, s');
    case Start(w) => StartKeepsAccounts(p, s, w);
    case Return(w, verdict) =>
      DeliveryFrame(s, s', w, WorkerAt(s, w).(phase := Handled(verdict)));
      AccountsFrame(p, s, s');
    case Decide(w, reason) =>
      DeliveryFrame(s, s', w, WorkerAt(s, w).(phase := Deciding(s.now, reason)));
      AccountsFrame(p, s, s');
    case Resolve(w) => ResolveKeepsAccounts(p, s, w);
  }

  lemma ScheduleLater(base: int, m: Message, starts: seq<int>, fails: seq<int>, now: int, elapsed: nat)
    requires Schedule(base, m, starts, fails, now)
    ensures Schedule(base, m, starts, fails, now + elapsed)
  {
  }

  /** A due message may be handed to the publisher now: the backoff has passed. */
  lemma ScheduleStart(base: int, m: Message, starts: seq<int>, fails: seq<int>, now: int)
    requires Schedule(base, m, starts, fails, now) && |starts| == |fails| && m.availableAt <= now
    requires fails == [] ==> m.createdAt == m.availableAt
    ensures Schedule(base, m, starts + [now], fails, now)
  {
  }

  lemma ScheduleFrame(base: int, m: Message, m': Message, starts: seq<int>, fails: seq<int>, now: int)
    requires Schedule(base, m, starts, fails, now)
    requires m'.createdAt == m.createdAt && m'.availableAt == m.availableAt
    ensures Schedule(base, m', starts, fails, now)
  {
  }

  lemma ScheduleLast(base: int, m: Message, starts: seq<int>, fails: seq<int>, now: int)
    requires Schedule(base, m, starts, fails, now)
    ensures starts != [] ==> starts[|starts| - 1] <= now
    ensures fails == [] ==> m.availableAt == m.createdAt
  {
  }

  lemma ScheduleFresh(base: int, m: Message, now: int)
    requires m.availableAt == m.createdAt
    ensures Schedule(base, m, [], [], now)
  {
  }

  lemma ScheduleFail(base: int, m: Message, m': Message, starts: seq<int>, fails: seq<int>, now: int, at: int)
    requires Schedule(base, m, starts, fails, now) && |starts| == |fails| + 1
    requires starts[|fails|] <= at <= now
    requires m'.createdAt == m.createdAt && m'.availableAt == at + Backoff(base, |fails| + 1)
    ensures Schedule(base, m', starts, fails + [at], now)
  {
  }

  lemma StartKeepsSchedules(p: ValidPolicy, s: State, w: WorkerId)
    requires Tracked(s) && Snapshots(s) && Disjoint(s) && Accounts(p, s) && Schedules(p, s) && Enabled(s, Start(w))
    requires Tracked(Apply(p, s, Start(w)))
    ensures Schedules(p, Apply(p, s, Start(w)))
  {
    hide Schedule;
    hide Backoff;
    var id := WorkerAt(s, w).hand[0].id;
    var m := s.outbox.messages[id];
    HeadIsStored(s, w);
    assert Schedule(p.retry.baseBackoff, m, s.starts[id], s.fails[id], s.now);
    OnlyHolderDelivers(s, w);
    assert Account(p, m, |s.starts[id]|, |s.fails[id]|, InDelivery(s, id));
    ScheduleLast(p.retry.baseBackoff, m, s.starts[id], s.fails[id], s.now);
    ScheduleStart(p.retry.baseBackoff, m, s.starts[id], s.fails[id], s.now);
  }

  lemma ResolveKeepsSchedules(p: ValidPolicy, s: State, w: WorkerId)
    requires Tracked(s) && Snapshots(s) && Disjoint(s) && Accounts(p, s) && Schedules(p, s) && Decisions(s)
    requires Enabled(s, Resolve(w)) && WorkerAt(s, w).hand != []
    requires Tracked(Apply(p, s, Resolve(w)))
    ensures Schedules(p, Apply(p, s, Resolve(w)))
  {
    var s', id := Apply(p, s, Resolve(w)), WorkerAt(s, w).hand[0].id;
    OthersKeepSchedules(p, s, w);
    RecordedKeepsSchedule(p, s, w);
    hide Apply;
    hide Schedule;
    hide Account;
    hide Accounts;
    hide Snapshots;
    hide Disjoint;
    hide Decisions;
    forall x | x in s'.outbox.messages
      ensures Schedule(p.retry.baseBackoff, s'.outbox.messages[x], s'.starts[x], s'.fails[x], s'.now)
    {
      if x != id {
        assert Schedule(p.retry.baseBackoff, s.outbox.messages[x], s.starts[x], s.fails[x], s.now);
      }
    }
  }

  /** The message being recorded. */
  lemma RecordedKeepsSchedule(p: ValidPolicy, s: State, w: WorkerId)
    requires Tracked(s) && Snapshots(s) && Disjoint(s) && Accounts(p, s) && Schedules(p, s) && Decisions(s)
    requires Enabled(s, Resolve(w)) && WorkerAt(s, w).hand != []
    requires Tracked(Apply(p, s, Resolve(w)))
    ensures var s', id := Apply(p, s, Resolve(w)), WorkerAt(s, w).hand[0].id;
            && id in s'.outbox.messages
            && Schedule(p.retry.baseBackoff, s'.outbox.messages[id], s'.starts[id], s'.fails[id], s'.now)
  {
    hide Schedule;
    hide Backoff;
    var s' := Apply(p, s, Resolve(w));
    var id := WorkerAt(s, w).hand[0].id;
    var m := s.outbox.messages[id];
    HeadIsStored(s, w);
    OnlyHolderDelivers(s, w);
    assert Account(p, m, |s.starts[id]|, |s.fails[id]|, InDelivery(s, id));
    assert Schedule(p.retry.baseBackoff, m, s.starts[id], s.fails[id], s.now);
    assert Decision(s.workers[w], s.starts, s.now);
    hide Decisions;
    hide Accounts;
    hide Schedules;
    hide Snapshots;
    hide Disjoint;
    hide InDelivery;
    if WorkerAt(s, w).phase.Deciding? {
      ScheduleFail(p.retry.baseBackoff, m, s'.outbox.messages[id], s.starts[id], s.fails[id], s.now,
                   WorkerAt(s, w).phase.at);
    } else {
      ScheduleFrame(p.retry.baseBackoff, m, s'.outbox.messages[id], s.starts[id], s.fails[id], s.now);
    }
  }

  /** The messages not being recorded, and their histories, are as they were. */
  lemma OthersKeepSchedules(p: ValidPolicy, s: State, w: WorkerId)
    requires Tracked(s) && Snapshots(s) && Enabled(s, Resolve(w)) && WorkerAt(s, w).hand != []
    requires Tracked(Apply(p, s, Resolve(w)))
    ensures var s', id := Apply(p, s, Resolve(w)), WorkerAt(s, w).hand[0].id;
            && s'.now == s.now && s'.outbox.messages.Keys == s.outbox.messages.Keys
            && forall x :: x in s.outbox.messages && x != id ==>
                 && s'.outbox.messages[x] == s.outbox.messages[x]
                 && s'.starts[x] == s.starts[x] && s'.fails[x] == s.fails[x]
  {
    HeadIsStored(s, w);
    hide Snapshots;
    hide Backoff;
  }

  lemma SchedulesKept(p: ValidPolicy, s: State, l: Label)
    requires Tracked(s) && Snapshots(s) && Disjoint(s) && Accounts(p, s) && Enabled(s, l)
    requires Schedules(p, s) && Decisions(s)
    requires IdOf(s.outbox.nextId + 1) !in s.outbox.messages
    requires Tracked(Apply(p, s, l))
    ensures Schedules(p, Apply(p, s, l))
  {
    hide Schedule;
    hide Account;
    hide Backoff;
    match l
    case Tick(elapsed) =>
      forall id | id in s.outbox.messages
        ensures Schedule(p.retry.baseBackoff, s.outbox.messages[id], s.starts[id], s.fails[id], s.now + elapsed)
      {
        ScheduleLater(p.retry.baseBackoff, s.outbox.messages[id], s.starts[id], s.fails[id], s.now, elapsed);
      }
    case Enqueue(content) =>
      ScheduleFresh(p.retry.baseBackoff, Fresh(IdOf(s.outbox.nextId + 1), content, s.now), s.now);
    case Start(w) => StartKeepsSchedules(p, s, w);
    case Resolve(w) =>
      HeadIsStored(s, w);
      ResolveKeepsSchedules(p, s, w);
    case _ =>
  }

  lemma DecideIsDecision(p: ValidPolicy, s: State, w: WorkerId)
    requires Tracked(s) && Snapshots(s) && Disjoint(s) && Accounts(p, s) && Schedules(p, s)
    requires WorkerAt(s, w).hand != [] && !WorkerAt(s, w).phase.Between?
    ensures var id := WorkerAt(s, w).hand[0].id;
            id in s.starts && s.starts[id] != [] && s.starts[id][|s.starts[id]| - 1] <= s.now
  {
    hide Schedule;
    var id := WorkerAt(s, w).hand[0].id;
    HeadIsStored(s, w);
    OnlyHolderDelivers(s, w);
    assert Account(p, s.outbox.messages[id], |s.starts[id]|, |s.fails[id]|, InDelivery(s, id));
    assert Schedule(p.retry.baseBackoff, s.outbox.messages[id], s.starts[id], s.fails[id], s.now);
    ScheduleLast(p.retry.baseBackoff, s.outbox.messages[id], s.starts[id], s.fails[id], s.now);
  }

  lemma DecisionsFrame(s: State, s': State, w: WorkerId, id: MessageId)
    requires Snapshots(s) && Disjoint(s) && Decisions(s)
    requires w in s.workers && s.workers[w].hand != [] && s.workers[w].hand[0].id == id
    requires forall v :: v in s'.workers && v != w ==> v in s.workers && s'.workers[v] == s.workers[v]
    requires w in s'.workers && !s'.workers[w].phase.Deciding?
    requires forall x :: x in s.starts && x != id ==> x in s'.starts && s'.starts[x] == s.starts[x]
    requires s'.now >= s.now
    ensures Decisions(s')
  {
    forall v | v in s'.workers ensures Decision(s'.workers[v], s'.starts, s'.now) {
      if v != w {
        assert Decision(s.workers[v], s.starts, s.now);
      }
    }
  }

  lemma DecisionsKept(p: ValidPolicy, s: State, l: Label)
    requires Tracked(s) && Snapshots(s) && Disjoint(s) && Accounts(p, s) && Schedules(p, s) && Decisions(s)
    requires Enabled(s, l)
    requires IdOf(s.outbox.nextId + 1) !in s.outbox.messages
    ensures Decisions(Apply(p, s, l))
  {
    hide Schedules;
    hide Accounts;
    hide Backoff;
    hide Selection;
    hide Disjoint;
    hide IdOf;
    var s' := Apply(p, s, l);
    match l
    case Start(w) =>
      DecisionsFrame(s, s', w, WorkerAt(s, w).hand[0].id);
    case Decide(w, _) =>
      DecideIsDecision(p, s, w);
    case Enqueue(_) =>
      forall w | w in s'.workers ensures Decision(s'.workers[w], s'.starts, s'.now) {
        assert Decision(s.workers[w], s.starts, s.now);
      }
    case _ =>
  }

  lemma StepKeepsInv(p: ValidPolicy, s: State, l: Label)
    requires Inv(p, s) && Enabled(s, l)
    ensures Inv(p, Apply(p, s, l))
  {
    NextIdIsNew(s.outbox);
    StoreKept(p, s, l);
    HandsKept(p, s, l);
    AccountsKept(p, s, l);
    SchedulesKept(p, s, l);
    DecisionsKept(p, s, l);
  }

  lemma {:induction false} RunKeepsInv(p: ValidPolicy, s: State, run: seq<Label>)
    requires Inv(p, s) && Legal(p, s, run)
    ensures Inv(p, After(p, s, run))
  {
    if run != [] {
      RunKeepsInv(p, s, run[..|run| - 1]);
      StepKeepsInv(p, After(p, s, run[..|run| - 1]), run[|run| - 1]);
    }
  }

  // ---- Theorems over whole runs ----

  lemma Reached(p: ValidPolicy, now: int, run: seq<Label>)
    requires Legal(p, Init(now), run)
    ensures Inv(p, After(p, Init(now), run))
  {
    InitInv(p, now);
    RunKeepsInv(p, Init(now), run);
  }

  /**
   Claim exclusivity under concurrency: in every reachable state the store's
   claims are the disjoint union of the unresolved messages in the workers'
   hands, each equal to the stored message, pending and due. When every hand is
   empty no claim is left behind, however the publisher calls ended.
   */
  lemma ClaimsAreExactlyTheHands(p: ValidPolicy, now: int, run: seq<Label>)
    requires Legal(p, Init(now), run)
    ensures Hands(After(p, Init(now), run))
    ensures var s := After(p, Init(now), run);
            (forall w :: w in s.workers ==> s.workers[w].hand == []) ==> s.outbox.claimed == {}
  {
    hide Account;
    hide Schedule;
    Reached(p, now, run);
  }

  /**
   Attempt accounting: the publisher was called once per recorded attempt, plus
   once if the message is done or mid-delivery; never more than the allowed
   number of times; and a message is failed exactly when its attempts are used up.
   */
  lemma AttemptAccounting(p: ValidPolicy, now: int, run: seq<Label>, id: MessageId)
    requires Legal(p, Init(now), run)
    requires id in After(p, Init(now), run).outbox.messages
    ensures var s := After(p, Init(now), run);
            var m := s.outbox.messages[id];
            && id in s.starts
            && |s.starts[id]| == m.attempts + (if m.status == Done then 1 else 0) + (if InDelivery(s, id) then 1 else 0)
            && |s.starts[id]| <= p.retry.maxAttempts
            && (m.status == Failed <==> m.attempts == p.retry.maxAttempts)
            && (m.status == Pending ==> m.attempts < p.retry.maxAttempts)
  {
    hide Schedule;
    Reached(p, now, run);
    var s := After(p, Init(now), run);
    assert Account(p, s.outbox.messages[id], |s.starts[id]|, |s.fails[id]|, InDelivery(s, id));
  }

  /** What one step leaves alone: contents always, and everything about a resolved message. */
  lemma StepKeepsResolved(p: ValidPolicy, s: State, l: Label, id: MessageId)
    requires Snapshots(s) && id in s.outbox.messages && IdOf(s.outbox.nextId + 1) !in s.outbox.messages
    ensures var o, o' := s.outbox, Apply(p, s, l).outbox;
            && id in o'.messages
            && o'.messages[id].content == o.messages[id].content
            && o'.messages[id].createdAt == o.messages[id].createdAt
            && (o.messages[id].status != Pending ==> o'.messages[id] == o.messages[id])
  {
    match l
    case Resolve(w) =>
      if WorkerAt(s, w).hand != [] {
        HeadIsStored(s, w);
      }
    case _ =>
  }

  lemma MessagesPersist(p: ValidPolicy, s: State, l: Label)
    requires ValidOutbox(s.outbox) && Snapshots(s)
    ensures var before, after := s.outbox.messages, Apply(p, s, l).outbox.messages;
            forall id :: id in before ==>
              && id in after && after[id].content == before[id].content && after[id].createdAt == before[id].createdAt
  {
    NextIdIsNew(s.outbox);
    hide ValidOutbox;
    forall id | id in s.outbox.messages
      ensures var before, after := s.outbox.messages, Apply(p, s, l).outbox.messages;
              && id in after && after[id].content == before[id].content && after[id].createdAt == before[id].createdAt
    {
      StepKeepsResolved(p, s, l, id);
    }
  }

  /** Nothing is lost, and done and failed are never left. */
  lemma {:induction false} ResolvedIsForever(p: ValidPolicy, s: State, run: seq<Label>, id: MessageId)
    requires Inv(p, s) && Legal(p, s, run) && id in s.outbox.messages
    ensures var o, o' := s.outbox, After(p, s, run).outbox;
            && id in o'.messages
            && o'.messages[id].content == o.messages[id].content
            && o'.messages[id].createdAt == o.messages[id].createdAt
            && (o.messages[id].status != Pending ==> o'.messages[id] == o.messages[id])
  {
    hide Schedules;
    hide Accounts;
    if run != [] {
      ResolvedIsForever(p, s, run[..|run| - 1], id);
      RunKeepsInv(p, s, run[..|run| - 1]);
      NextIdIsNew(After(p, s, run[..|run| - 1]).outbox);
      StepKeepsResolved(p, After(p, s, run[..|run| - 1]), run[|run| - 1], id);
    }
  }

  lemma {:induction false} StartsAreSpaced(base: int, m: Message, starts: seq<int>, fails: seq<int>, now: int, k: nat)
    requires Schedule(base, m, starts, fails, now) && k < |starts|
    ensures m.createdAt + TotalBackoff(base, k) <= starts[k]
  {
    if k > 0 {
      StartsAreSpaced(base, m, starts, fails, now, k - 1);
      assert starts[k - 1] <= fails[k - 1];
    }
  }

  /**
   Backoff over runs: for a base the 64-bit product can carry, the call after
   failure k comes at least base * 2^min(k, 10) after that failure, and call
   number k + 1 at least base * (2^(k+1) - 2) after the message was enqueued.
   */
  lemma CallsWaitForTheBackoff(p: ValidPolicy, now: int, run: seq<Label>, id: MessageId, k: nat)
    requires Legal(p, Init(now), run) && p.retry.baseBackoff <= 0x1F_FFFF_FFFF_FFFF
    requires id in After(p, Init(now), run).outbox.messages
    requires id in After(p, Init(now), run).starts && 0 < k < |After(p, Init(now), run).starts[id]|
    ensures var s := After(p, Init(now), run);
            && id in s.fails && k <= |s.fails[id]|
            && s.starts[id][k - 1] <= s.fails[id][k - 1]
            && s.fails[id][k - 1] + p.retry.baseBackoff * Pow2(Min(k, MAX_SHIFT)) <= s.starts[id][k]
            && (k <= 10 ==>
                  s.outbox.messages[id].createdAt + p.retry.baseBackoff * (Pow2(k + 1) - 2) <= s.starts[id][k])
  {
    ScheduleReached(p, now, run, id);
    var s := After(p, Init(now), run);
    hide After;
    hide Legal;
    hide Schedule;
    CallsWait(p.retry.baseBackoff, s.outbox.messages[id], s.starts[id], s.fails[id], s.now, k);
  }

  lemma ScheduleReached(p: ValidPolicy, now: int, run: seq<Label>, id: MessageId)
    requires Legal(p, Init(now), run) && id in After(p, Init(now), run).outbox.messages
    ensures var s := After(p, Init(now), run);
            && id in s.starts && id in s.fails
            && Schedule(p.retry.baseBackoff, s.outbox.messages[id], s.starts[id], s.fails[id], s.now)
  {
    hide Account;
    hide Schedule;
    hide Hands;
    Reached(p, now, run);
    hide After;
    hide Legal;
  }

  lemma CallsWait(base: int, m: Message, starts: seq<int>, fails: seq<int>, now: int, k: nat)
    requires 0 < base <= 0x1F_FFFF_FFFF_FFFF
    requires Schedule(base, m, starts, fails, now) && 0 < k < |starts|
    ensures k <= |fails| && starts[k - 1] <= fails[k - 1]
    ensures fails[k - 1] + base * Pow2(Min(k, MAX_SHIFT)) <= starts[k]
    ensures k <= 10 ==> m.createdAt + base * (Pow2(k + 1) - 2) <= starts[k]
  {
    hide Backoff;
    ExactBackoff(base, k);
    StartsAreSpaced(base, m, starts, fails, now, k);
    TotalBackoffClosedForm(base, k);
  }

  // ---- Termination and conservation ----

  /** The attempts still allowed for one message. */
  function Remaining(p: ValidPolicy, m: Message): int {
    if m.status == Pending then p.retry.maxAttempts - m.attempts else 0
  }

  /** The attempts still allowed for the messages of `ids`. */
  function Budget(p: ValidPolicy, o: Outbox, ids: seq<MessageId>): int {
    if ids == [] then 0
    else
      var last := ids[|ids| - 1];
      Budget(p, o, ids[..|ids| - 1]) + (if last in o.messages then Remaining(p, o.messages[last]) else 0)
  }

  function CountEnqueues(run: seq<Label>): nat {
    if run == [] then 0 else CountEnqueues(run[..|run| - 1]) + if run[|run| - 1].Enqueue? then 1 else 0
  }

  function CountResolves(run: seq<Label>): nat {
    if run == [] then 0 else CountResolves(run[..|run| - 1]) + if run[|run| - 1].Resolve? then 1 else 0
  }

  lemma {:induction false} BudgetFrame(p: ValidPolicy, o: Outbox, o': Outbox, ids: seq<MessageId>)
    requires forall i :: 0 <= i < |ids| ==> ids[i] in o.messages && ids[i] in o'.messages
    requires forall i :: 0 <= i < |ids| ==> o'.messages[ids[i]] == o.messages[ids[i]]
    ensures Budget(p, o', ids) == Budget(p, o, ids)
  {
    if ids != [] {
      BudgetFrame(p, o, o', ids[..|ids| - 1]);
    }
  }

  lemma {:induction false} BudgetDrops(p: ValidPolicy, o: Outbox, o': Outbox, ids: seq<MessageId>, i: nat)
    requires i < |ids|
    requires forall j :: 0 <= j < |ids| ==> ids[j] in o.messages && ids[j] in o'.messages
    requires forall j, k :: 0 <= j < k < |ids| ==> ids[j] != ids[k]
    requires forall j :: 0 <= j < |ids| && j != i ==> o'.messages[ids[j]] == o.messages[ids[j]]
    requires Remaining(p, o'.messages[ids[i]]) < Remaining(p, o.messages[ids[i]])
    ensures Budget(p, o', ids) < Budget(p, o, ids)
  {
    var last := |ids| - 1;
    if i == last {
      BudgetFrame(p, o, o', ids[..last]);
    } else {
      BudgetDrops(p, o, o', ids[..last], i);
    }
  }

  lemma {:induction false} BudgetIsNonNegative(p: ValidPolicy, o: Outbox, ids: seq<MessageId>)
    requires forall i :: 0 <= i < |ids| ==> ids[i] in o.messages
    requires forall i :: 0 <= i < |ids| ==> o.messages[ids[i]].attempts <= p.retry.maxAttempts
    ensures Budget(p, o, ids) >= 0
  {
    if ids != [] {
      BudgetIsNonNegative(p, o, ids[..|ids| - 1]);
    }
  }

  lemma ResolveLowersRemaining(p: ValidPolicy, s: State, w: WorkerId)
    requires Tracked(s) && Accounts(p, s) && Enabled(s, Resolve(w))
    requires WorkerAt(s, w).hand != [] && Snapshot(s, WorkerAt(s, w).hand[0])
    ensures var m := WorkerAt(s, w).hand[0];
            var after := Apply(p, s, Resolve(w)).outbox.messages;
            m.id in after && Remaining(p, after[m.id]) < Remaining(p, m)
  {
    hide Backoff;
    var m := WorkerAt(s, w).hand[0];
    assert Delivers(s.workers[w], m.id);
    assert Account(p, m, |s.starts[m.id]|, |s.fails[m.id]|, InDelivery(s, m.id));
  }

  /** Recording a fate strictly uses up the budget; only an enqueue adds to it. */
  lemma StepUsesBudget(p: ValidPolicy, s: State, l: Label)
    requires ValidOutbox(s.outbox) && Tracked(s) && Snapshots(s) && Accounts(p, s) && Enabled(s, l)
    requires ValidOutbox(Apply(p, s, l).outbox)
    ensures var o, o' := s.outbox, Apply(p, s, l).outbox;
            && (l.Resolve? ==> o'.order == o.order && Budget(p, o', o'.order) < Budget(p, o, o.order))
            && (l.Enqueue? ==> Budget(p, o', o'.order) == Budget(p, o, o.order) + p.retry.maxAttempts)
            && (!l.Resolve? && !l.Enqueue? ==> Budget(p, o', o'.order) == Budget(p, o, o.order))
            && o'.nextId == o.nextId + (if l.Enqueue? then 1 else 0)
  {
    hide Accounts;
    hide Budget;
    match l
    case Enqueue(content) =>
      hide Snapshots;
      NextIdIsNew(s.outbox);
      hide ValidOutbox;
      EnqueueAddsBudget(p, s.outbox, content, s.now);
    case Resolve(w) =>
      hide ValidOutbox;
      hide Apply;
      HeadIsStored(s, w);
      hide Snapshots;
      ResolveLowersRemaining(p, s, w);
      ResolveTouchesOne(p, s, w);
      ResolveUsesBudget(p, s.outbox, Apply(p, s, l).outbox, WorkerAt(s, w).hand[0]);
    case _ =>
      hide Snapshots;
      hide ValidOutbox;
      BudgetSame(p, s.outbox, Apply(p, s, l).outbox);
  }

  lemma ResolveTouchesOne(p: ValidPolicy, s: State, w: WorkerId)
    requires WorkerAt(s, w).hand != [] && Snapshot(s, WorkerAt(s, w).hand[0])
    ensures var o, o' := s.outbox, Apply(p, s, Resolve(w)).outbox;
            && o'.order == o.order && o'.nextId == o.nextId
            && (forall id :: id in o.messages && id != WorkerAt(s, w).hand[0].id ==>
                  id in o'.messages && o'.messages[id] == o.messages[id])
  {
    hide Backoff;
  }

  lemma BudgetSame(p: ValidPolicy, o: Outbox, o': Outbox)
    requires ValidOutbox(o) && o'.messages == o.messages && o'.order == o.order
    ensures Budget(p, o', o'.order) == Budget(p, o, o.order)
  {
    hide IdOf;
    BudgetFrame(p, o, o', o.order);
  }

  lemma EnqueueAddsBudget(p: ValidPolicy, o: Outbox, content: NewMessage, now: int)
    requires ValidOutbox(o) && ValidOutbox(Enqueued(o, content, now)) && IdOf(o.nextId + 1) !in o.messages
    ensures var o' := Enqueued(o, content, now);
            Budget(p, o', o'.order) == Budget(p, o, o.order) + p.retry.maxAttempts
  {
    hide IdOf;
    hide ValidOutbox;
    var o' := Enqueued(o, content, now);
    assert Budget(p, o', o'.order) == Budget(p, o', o.order) + p.retry.maxAttempts by {
      assert o'.order[..|o'.order| - 1] == o.order;
    }
    OrderIsKnown(o);
    hide Budget;
    BudgetFrame(p, o, o', o.order);
  }

  lemma OrderIsKnown(o: Outbox)
    requires ValidOutbox(o)
    ensures forall i :: 0 <= i < |o.order| ==> o.order[i] in o.messages
  {
  }

  lemma ResolveUsesBudget(p: ValidPolicy, o: Outbox, o': Outbox, m: Message)
    requires ValidOutbox(o) && ValidOutbox(o') && o'.order == o.order
    requires m.id in o.messages && o.messages[m.id] == m
    requires forall id :: id in o.messages && id != m.id ==> id in o'.messages && o'.messages[id] == o.messages[id]
    requires m.id in o'.messages && Remaining(p, o'.messages[m.id]) < Remaining(p, m)
    ensures Budget(p, o', o.order) < Budget(p, o, o.order)
  {
    hide IdOf;
    OrderHasNoRepeats(o);
    var i :| 0 <= i < |o.order| && o.order[i] == m.id;
    BudgetDrops(p, o, o', o.order, i);
  }

  /**
   Termination and conservation: over any run, the messages known are exactly
   those enqueued, the three statuses partition them, and the number of fates
   recorded is at most the allowed attempts times the number enqueued.
   */
  lemma DeliveriesAreBounded(p: ValidPolicy, now: int, run: seq<Label>)
    requires Legal(p, Init(now), run)
    ensures var o := After(p, Init(now), run).outbox;
            && ValidOutbox(o)
            && CountIn(o, Pending, o.order) + CountIn(o, Done, o.order) + CountIn(o, Failed, o.order)
               == |set i | 0 <= i < |run| && run[i].Enqueue?|
            && |set i | 0 <= i < |run| && run[i].Resolve?|
               <= p.retry.maxAttempts * |set i | 0 <= i < |run| && run[i].Enqueue?|
  {
    hide Schedule;
    Reached(p, now, run);
    var s := After(p, Init(now), run);
    StatusesPartition(s.outbox, s.outbox.order);
    RunUsesBudget(p, now, run);
    forall i | 0 <= i < |s.outbox.order| ensures s.outbox.messages[s.outbox.order[i]].attempts <= p.retry.maxAttempts {
      var id := s.outbox.order[i];
      assert Account(p, s.outbox.messages[id], |s.starts[id]|, |s.fails[id]|, InDelivery(s, id));
    }
    BudgetIsNonNegative(p, s.outbox, s.outbox.order);
    CountsAre(run);
  }

  /** The counts are numbers of steps. */
  lemma {:induction false} CountsAre(run: seq<Label>)
    ensures CountEnqueues(run) == |set i | 0 <= i < |run| && run[i].Enqueue?|
    ensures CountResolves(run) == |set i | 0 <= i < |run| && run[i].Resolve?|
  {
    if run != [] {
      var n := |run| - 1;
      CountsAre(run[..n]);
      EnqueuesGrow(run, n);
      ResolvesGrow(run, n);
    }
  }

  lemma EnqueuesGrow(run: seq<Label>, n: nat)
    requires |run| == n + 1
    ensures |set i | 0 <= i < |run| && run[i].Enqueue?| ==
            |set i | 0 <= i < |run[..n]| && run[..n][i].Enqueue?| + if run[n].Enqueue? then 1 else 0
  {
    assert (set i | 0 <= i < |run| && run[i].Enqueue?) ==
      (set i | 0 <= i < |run[..n]| && run[..n][i].Enqueue?) + if run[n].Enqueue? then {n} else {};
  }

  lemma ResolvesGrow(run: seq<Label>, n: nat)
    requires |run| == n + 1
    ensures |set i | 0 <= i < |run| && run[i].Resolve?| ==
            |set i | 0 <= i < |run[..n]| && run[..n][i].Resolve?| + if run[n].Resolve? then 1 else 0
  {
    assert (set i | 0 <= i < |run| && run[i].Resolve?) ==
      (set i | 0 <= i < |run[..n]| && run[..n][i].Resolve?) + if run[n].Resolve? then {n} else {};
  }

  lemma StepBalance(p: ValidPolicy, s: State, l: Label)
    requires Inv(p, s) && Enabled(s, l)
    ensures var o, o' := s.outbox, Apply(p, s, l).outbox;
            && ValidOutbox(o')
            && Budget(p, o', o'.order) + (if l.Resolve? then 1 else 0)
               <= Budget(p, o, o.order) + (if l.Enqueue? then p.retry.maxAttempts else 0)
            && o'.nextId == o.nextId + (if l.Enqueue? then 1 else 0)
  {
    hide Schedules;
    hide Disjoint;
    hide Covered;
    StoreKept(p, s, l);
    StepUsesBudget(p, s, l);
  }

  lemma {:induction false} RunUsesBudget(p: ValidPolicy, now: int, run: seq<Label>)
    requires Legal(p, Init(now), run)
    ensures var o := After(p, Init(now), run).outbox;
            && ValidOutbox(o) && o.nextId == CountEnqueues(run)
            && Budget(p, o, o.order) + CountResolves(run) <= p.retry.maxAttempts * CountEnqueues(run)
  {
    hide Inv;
    if run == [] {
      assert ValidOutbox(EMPTY);
    } else {
      var front := run[..|run| - 1];
      RunUsesBudget(p, now, front);
      Reached(p, now, front);
      StepBalance(p, After(p, Init(now), front), run[|run| - 1]);
      Distribute(p.retry.maxAttempts, CountEnqueues(front), 1);
    }
  }
}
