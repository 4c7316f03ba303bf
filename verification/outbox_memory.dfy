/**
 The in-memory outbox (internal/core/outbox/drivers/memory/memory.go). The value
 `Outbox` and the functions on it say what each mutex-held method does to the
 store; the class `Store` is the code, proved against them.
 */
module OutboxMemory {
  import opened Wrappers
  import opened Decimal
  import opened OutboxDomain

  datatype Error = Cancelled | UnknownMessage(id: MessageId)

  datatype Outbox = Outbox(
    messages: map<MessageId, Message>, claimed: set<MessageId>, order: seq<MessageId>, nextId: nat)

  const EMPTY: Outbox := Outbox(map[], {}, [], 0)

  function IdOf(n: nat): MessageId {
    "mem-" + OfNat(n)
  }

  lemma IdOfInjective(a: nat, b: nat)
    requires IdOf(a) == IdOf(b)
    ensures a == b
  {
    assert OfNat(a) == IdOf(a)[4..];
    assert OfNat(b) == IdOf(b)[4..];
    OfNatInjective(a, b);
  }

  /**
   What every reachable store satisfies: `order` lists the identifiers 1..nextId
   in the order they were given out, it is the domain of `messages`, and every
   claim is on a known message.
   */
  ghost predicate ValidOutbox(o: Outbox) {
    && |o.order| == o.nextId
    && (forall i :: 0 <= i < |o.order| ==> o.order[i] == IdOf(i + 1))
    && (forall i :: 0 <= i < |o.order| ==> o.order[i] in o.messages)
    && (forall id :: id in o.messages ==> id in o.order)
    && (forall id :: id in o.messages ==> o.messages[id].id == id)
    && o.claimed <= o.messages.Keys
  }

  // ---- The methods, as functions on values ----

  function Fresh(id: MessageId, content: NewMessage, now: int): Message {
    Message(id, content, Pending, 0, now, now)
  }

  function Enqueued(o: Outbox, content: NewMessage, now: int): Outbox {
    var id := IdOf(o.nextId + 1);
    o.(messages := o.messages[id := Fresh(id, content, now)], order := o.order + [id], nextId := o.nextId + 1)
  }

  /** A message a claim may hand out: known, due, and in nobody's hands. */
  predicate Eligible(o: Outbox, now: int, id: MessageId) {
    id in o.messages && o.messages[id].IsDue(now) && id !in o.claimed
  }

  /** The first `limit` eligible identifiers of `ids`, in order. */
  function Selection(o: Outbox, now: int, limit: nat, ids: seq<MessageId>): (picked: seq<MessageId>)
    ensures |picked| <= limit
    ensures forall id :: id in picked ==> id in ids && Eligible(o, now, id)
  {
    if limit == 0 || ids == [] then []
    else if Eligible(o, now, ids[0]) then [ids[0]] + Selection(o, now, limit - 1, ids[1..])
    else Selection(o, now, limit, ids[1..])
  }

  function Lookup(o: Outbox, ids: seq<MessageId>): (batch: seq<Message>)
    requires forall id :: id in ids ==> id in o.messages
    ensures |batch| == |ids|
  {
    seq(|ids|, i requires 0 <= i < |ids| => o.messages[ids[i]])
  }

  function SetOf(ids: seq<MessageId>): set<MessageId> {
    set id | id in ids
  }

  function Batch(o: Outbox, now: int, limit: nat): seq<Message> {
    Lookup(o, Selection(o, now, limit, o.order))
  }

  function Claimed(o: Outbox, now: int, limit: nat): Outbox {
    o.(claimed := o.claimed + SetOf(Selection(o, now, limit, o.order)))
  }

  function MarkedDone(o: Outbox, id: MessageId): Outbox {
    if id !in o.messages then o
    else o.(messages := o.messages[id := o.messages[id].(status := Done)], claimed := o.claimed - {id})
  }

  function MarkedFailed(o: Outbox, a: FailedAttempt): Outbox {
    if a.id !in o.messages then o
    else o.(messages := o.messages[a.id :=
                          o.messages[a.id].(attempts := a.attempts, status := a.status, availableAt := a.availableAt)],
            claimed := o.claimed - {a.id})
  }

  /** How many messages of `ids` are in `status`. */
  function CountIn(o: Outbox, status: Status, ids: seq<MessageId>): nat {
    if ids == [] then 0
    else
      (if ids[0] in o.messages && o.messages[ids[0]].status == status then 1 else 0)
      + CountIn(o, status, ids[1..])
  }

  // ---- What the source promises of them ----

  lemma NextIdIsNew(o: Outbox)
    requires ValidOutbox(o)
    ensures IdOf(o.nextId + 1) !in o.messages
  {
    if IdOf(o.nextId + 1) in o.messages {
      var i :| 0 <= i < |o.order| && o.order[i] == IdOf(o.nextId + 1);
      IdOfInjective(i + 1, o.nextId + 1);
    }
  }

  lemma EnqueuedIsValid(o: Outbox, content: NewMessage, now: int)
    requires ValidOutbox(o)
    ensures ValidOutbox(Enqueued(o, content, now))
  {
    var o' := Enqueued(o, content, now);
    forall id | id in o'.messages ensures id in o'.order {
      if id in o.messages {
        var i :| 0 <= i < |o.order| && o.order[i] == id;
        assert o'.order[i] == id;
      } else {
        assert o'.order[o.nextId] == id;
      }
    }
  }

  lemma OrderIsDistinct(o: Outbox, i: nat, j: nat)
    requires ValidOutbox(o) && i < |o.order| && j < |o.order| && o.order[i] == o.order[j]
    ensures i == j
  {
    IdOfInjective(i + 1, j + 1);
  }

  ghost predicate Distinct(ids: seq<MessageId>) {
    forall i, j :: 0 <= i < j < |ids| ==> ids[i] != ids[j]
  }

  predicate IsSubsequence(a: seq<MessageId>, b: seq<MessageId>) {
    a == [] || (b != [] && ((a[0] == b[0] && IsSubsequence(a[1..], b[1..])) || IsSubsequence(a, b[1..])))
  }

  lemma {:induction false} SelectionIsDistinct(o: Outbox, now: int, limit: nat, ids: seq<MessageId>)
    requires Distinct(ids)
    ensures Distinct(Selection(o, now, limit, ids))
  {
    if limit > 0 && ids != [] {
      var limit' := if Eligible(o, now, ids[0]) then limit - 1 else limit;
      SelectionIsDistinct(o, now, limit', ids[1..]);
      assert ids[0] !in Selection(o, now, limit', ids[1..]);
      hide Eligible;
    }
  }

  lemma {:induction false} SelectionIsSubsequence(o: Outbox, now: int, limit: nat, ids: seq<MessageId>)
    ensures IsSubsequence(Selection(o, now, limit, ids), ids)
  {
    if limit > 0 && ids != [] {
      SelectionIsSubsequence(o, now, if Eligible(o, now, ids[0]) then limit - 1 else limit, ids[1..]);
      hide Eligible;
    }
  }

  /** An eligible identifier left behind: the batch is full, without it and all that follow. */
  lemma {:induction false} LeftBehind(o: Outbox, now: int, limit: nat, ids: seq<MessageId>, k: nat)
    requires Distinct(ids) && k < |ids| && Eligible(o, now, ids[k]) && ids[k] !in Selection(o, now, limit, ids)
    ensures |Selection(o, now, limit, ids)| == limit
    ensures forall m :: k <= m < |ids| ==> ids[m] !in Selection(o, now, limit, ids)
  {
    if limit > 0 {
      assert k > 0;
      var rest := ids[1..];
      LeftBehind(o, now, if Eligible(o, now, ids[0]) then limit - 1 else limit, rest, k - 1);
      assert forall m :: k <= m < |ids| ==> ids[m] == rest[m - 1] && ids[m] != ids[0];
      hide Eligible;
    }
  }

  /**
   A claim hands out distinct messages in the order they were enqueued, all of them
   eligible, and it leaves an eligible message behind only when the batch is full and
   every message handed out is older.
   */
  lemma SelectionIsOldestFirst(o: Outbox, now: int, limit: nat, ids: seq<MessageId>)
    requires Distinct(ids)
    ensures var picked := Selection(o, now, limit, ids);
            && Distinct(picked) && IsSubsequence(picked, ids)
            && (forall k :: 0 <= k < |ids| && Eligible(o, now, ids[k]) && ids[k] !in picked ==>
                  |picked| == limit && forall m :: k <= m < |ids| ==> ids[m] !in picked)
  {
    SelectionIsDistinct(o, now, limit, ids);
    SelectionIsSubsequence(o, now, limit, ids);
    var picked := Selection(o, now, limit, ids);
    forall k | 0 <= k < |ids| && Eligible(o, now, ids[k]) && ids[k] !in picked
      ensures |picked| == limit && forall m :: k <= m < |ids| ==> ids[m] !in picked
    {
      LeftBehind(o, now, limit, ids, k);
    }
    hide *;
  }

  /**
   A batch: distinct stored messages, each eligible before the claim and claimed
   after it, and every new claim is in the batch.
   */
  ghost predicate Handout(o: Outbox, now: int, hand: seq<Message>, claimed: set<MessageId>) {
    && (forall i :: 0 <= i < |hand| ==>
          && hand[i].id in o.messages && o.messages[hand[i].id] == hand[i]
          && hand[i].IsDue(now) && hand[i].id !in o.claimed && hand[i].id in claimed)
    && (forall i, j :: 0 <= i < j < |hand| ==> hand[i].id != hand[j].id)
    && o.claimed <= claimed
    && (forall id :: id in claimed && id !in o.claimed ==> exists i :: 0 <= i < |hand| && hand[i].id == id)
  }

  lemma OrderHasNoRepeats(o: Outbox)
    requires ValidOutbox(o)
    ensures Distinct(o.order)
  {
    forall i, j | 0 <= i < j < |o.order| ensures o.order[i] != o.order[j] {
      if o.order[i] == o.order[j] {
        OrderIsDistinct(o, i, j);
      }
    }
  }

  lemma BatchIsHandout(o: Outbox, now: int, limit: nat)
    requires ValidOutbox(o)
    ensures Handout(o, now, Batch(o, now, limit), Claimed(o, now, limit).claimed)
  {
    OrderHasNoRepeats(o);
    SelectionIsDistinct(o, now, limit, o.order);
    LookupIsHandout(o, now, Selection(o, now, limit, o.order));
    hide Handout;
    hide Distinct;
  }

  lemma LookupIsHandout(o: Outbox, now: int, picked: seq<MessageId>)
    requires forall id :: id in o.messages ==> o.messages[id].id == id
    requires forall id :: id in picked ==> id in o.messages && Eligible(o, now, id)
    requires Distinct(picked)
    ensures Handout(o, now, Lookup(o, picked), o.claimed + SetOf(picked))
  {
    var hand := Lookup(o, picked);
    forall i | 0 <= i < |hand| ensures hand[i].id == picked[i] && Eligible(o, now, picked[i]) {
      assert picked[i] in picked;
    }
    forall id | id in SetOf(picked) ensures exists i :: 0 <= i < |hand| && hand[i].id == id {
      var i :| 0 <= i < |picked| && picked[i] == id;
      assert hand[i].id == id;
    }
  }

  /**
   A claim on the stored fields: what it hands out was pending, due and in nobody's
   hands, in the order of enqueueing, and a batch that is not full leaves no such
   message behind.
   */
  ghost predicate HandsOut(o: Outbox, now: int, limit: nat, batch: seq<Message>) {
    && |batch| <= limit
    && (forall i :: 0 <= i < |batch| ==>
          && batch[i].id in o.messages && o.messages[batch[i].id] == batch[i]
          && batch[i].status == Pending && batch[i].availableAt <= now && batch[i].id !in o.claimed)
    && IsSubsequence(IdsOf(batch), o.order) && Distinct(IdsOf(batch))
    && (|batch| < limit ==>
          forall id :: id in o.messages && id !in o.claimed && o.messages[id].status == Pending ==>
            o.messages[id].availableAt <= now ==> id in IdsOf(batch))
  }

  function IdsOf(batch: seq<Message>): (ids: seq<MessageId>)
    ensures |ids| == |batch| && forall i :: 0 <= i < |batch| ==> ids[i] == batch[i].id
  {
    seq(|batch|, i requires 0 <= i < |batch| => batch[i].id)
  }

  lemma ClaimHandsOut(o: Outbox, now: int, limit: nat)
    requires ValidOutbox(o)
    ensures HandsOut(o, now, limit, Batch(o, now, limit))
    ensures Claimed(o, now, limit) == o.(claimed := o.claimed + set m | m in Batch(o, now, limit) :: m.id)
  {
    OrderHasNoRepeats(o);
    SelectionIsOldestFirst(o, now, limit, o.order);
    var picked, batch := Selection(o, now, limit, o.order), Batch(o, now, limit);
    BatchIsLookup(o, now, limit);
    RoomyTakesAll(o, now, limit);
    hide Selection;
    hide Batch;
    hide Distinct;
    hide IsSubsequence;
    hide ValidOutbox;
    SameIds(batch, picked);
  }

  lemma BatchIsLookup(o: Outbox, now: int, limit: nat)
    requires ValidOutbox(o)
    ensures var picked, batch := Selection(o, now, limit, o.order), Batch(o, now, limit);
            && IdsOf(batch) == picked
            && forall i :: 0 <= i < |batch| ==>
                 batch[i].id == picked[i] && Eligible(o, now, batch[i].id) && o.messages[batch[i].id] == batch[i]
  {
    var picked, batch := Selection(o, now, limit, o.order), Batch(o, now, limit);
    forall i | 0 <= i < |batch|
      ensures batch[i].id == picked[i] && Eligible(o, now, batch[i].id) && o.messages[batch[i].id] == batch[i]
    {
      assert picked[i] in picked;
    }
    hide Selection;
  }

  lemma RoomyTakesAll(o: Outbox, now: int, limit: nat)
    requires ValidOutbox(o)
    ensures |Batch(o, now, limit)| < limit ==>
              forall id :: Eligible(o, now, id) ==> id in Selection(o, now, limit, o.order)
  {
    OrderHasNoRepeats(o);
    SelectionIsOldestFirst(o, now, limit, o.order);
    hide Selection;
    forall id | Eligible(o, now, id) && |Batch(o, now, limit)| < limit ensures id in Selection(o, now, limit, o.order) {
      var k :| 0 <= k < |o.order| && o.order[k] == id;
      assert Eligible(o, now, o.order[k]);
    }
  }

  lemma SameIds(batch: seq<Message>, picked: seq<MessageId>)
    requires IdsOf(batch) == picked
    ensures (set m | m in batch :: m.id) == SetOf(picked)
  {
    forall id | id in picked ensures exists m :: m in batch && m.id == id {
      var i :| 0 <= i < |picked| && picked[i] == id;
      assert batch[i] in batch;
    }
  }

  /**
   Retry: a message refused below its maximum attempts is handed out by a claim with
   room exactly from the instant of the refusal plus the backoff on.
   */
  lemma RefusedIsRetriedIff(
    o: Outbox, m: Message, policy: RetryPolicy, at: int, reason: string, now: int, limit: nat)
    requires ValidOutbox(o) && m.id in o.messages && o.messages[m.id] == m && m.attempts + 1 < policy.maxAttempts
    requires |Batch(MarkedFailed(o, NextAttempt(m, policy, at, reason)), now, limit)| < limit
    ensures var batch := Batch(MarkedFailed(o, NextAttempt(m, policy, at, reason)), now, limit);
            (exists i :: 0 <= i < |batch| && batch[i].id == m.id && batch[i].content == m.content
                         && batch[i].attempts == m.attempts + 1)
            <==> at + Backoff(policy.baseBackoff, m.attempts + 1) <= now
  {
    var a := NextAttempt(m, policy, at, reason);
    var o' := MarkedFailed(o, a);
    MarkedIsValid(o, m.id, a);
    ClaimHandsOut(o', now, limit);
    var batch := Batch(o', now, limit);
    hide Batch;
    hide ValidOutbox;
    hide Backoff;
    if at + Backoff(policy.baseBackoff, m.attempts + 1) <= now {
      assert m.id in IdsOf(batch);
      var i :| 0 <= i < |batch| && IdsOf(batch)[i] == m.id;
      assert batch[i].id == m.id && batch[i].content == m.content && batch[i].attempts == m.attempts + 1;
    }
  }

  lemma ClaimedIsValid(o: Outbox, now: int, limit: nat)
    requires ValidOutbox(o)
    ensures ValidOutbox(Claimed(o, now, limit))
  {
  }

  lemma MarkedIsValid(o: Outbox, id: MessageId, a: FailedAttempt)
    requires ValidOutbox(o)
    ensures ValidOutbox(MarkedDone(o, id)) && ValidOutbox(MarkedFailed(o, a))
  {
  }

  /** Two claims in a row never hand out the same message, whatever happens to the clock. */
  lemma ConsecutiveClaimsAreDisjoint(o: Outbox, now: int, limit: nat, now': int, limit': nat)
    ensures SetOf(Selection(o, now, limit, o.order)) !!
            SetOf(Selection(Claimed(o, now, limit), now', limit', o.order))
  {
    var first := SetOf(Selection(o, now, limit, o.order));
    var o' := Claimed(o, now, limit);
    forall id | id in Selection(o', now', limit', o.order) ensures id !in first {
      assert Eligible(o', now', id);
    }
  }

  /** Conservation: the three statuses partition the messages ever enqueued. */
  lemma {:induction false} StatusesPartition(o: Outbox, ids: seq<MessageId>)
    requires forall i :: 0 <= i < |ids| ==> ids[i] in o.messages
    ensures CountIn(o, Pending, ids) + CountIn(o, Done, ids) + CountIn(o, Failed, ids) == |ids|
  {
    if ids != [] {
      StatusesPartition(o, ids[1..]);
    }
  }

  /** The messages of a status, counted along the order, are as many as there are. */
  lemma CountIsCardinality(o: Outbox, status: Status)
    requires ValidOutbox(o)
    ensures CountIn(o, status, o.order) == |set id | id in o.messages && o.messages[id].status == status|
  {
    OrderHasNoRepeats(o);
    CountIsCardinalityOf(o, status, o.order);
    assert (set id | id in o.messages && o.messages[id].status == status) ==
           Having(o, status, o.order);
  }

  ghost function Having(o: Outbox, status: Status, ids: seq<MessageId>): set<MessageId> {
    set id | id in ids && id in o.messages && o.messages[id].status == status
  }

  lemma HavingStep(o: Outbox, status: Status, ids: seq<MessageId>)
    requires ids != []
    ensures Having(o, status, ids) ==
            Having(o, status, ids[1..])
            + if ids[0] in o.messages && o.messages[ids[0]].status == status then {ids[0]} else {}
  {
    assert ids == [ids[0]] + ids[1..];
  }

  lemma {:induction false} CountIsCardinalityOf(o: Outbox, status: Status, ids: seq<MessageId>)
    requires Distinct(ids)
    ensures CountIn(o, status, ids) == |Having(o, status, ids)|
  {
    if ids != [] {
      CountIsCardinalityOf(o, status, ids[1..]);
      HavingStep(o, status, ids);
      assert ids[0] !in Having(o, status, ids[1..]);
      hide Having;
    }
  }

  // ---- The claim loop ----

  /** After the first i identifiers, `picked` is the part of the selection found so far. */
  ghost predicate Picking(o: Outbox, now: int, limit: nat, i: nat, picked: seq<MessageId>) {
    && i <= |o.order| && |picked| <= limit
    && picked + Selection(o, now, limit - |picked|, o.order[i..]) == Selection(o, now, limit, o.order)
    && (forall j :: i <= j < |o.order| ==> o.order[j] !in picked)
  }

  lemma PickingStarts(o: Outbox, now: int, limit: nat)
    ensures Picking(o, now, limit, 0, [])
  {
    assert o.order[0..] == o.order;
  }

  lemma SelectionStep(o: Outbox, now: int, limit: nat, ids: seq<MessageId>, i: nat)
    requires limit > 0 && i < |ids|
    ensures Selection(o, now, limit, ids[i..]) ==
            if Eligible(o, now, ids[i]) then [ids[i]] + Selection(o, now, limit - 1, ids[i + 1..])
            else Selection(o, now, limit, ids[i + 1..])
  {
    assert ids[i..][0] == ids[i] && ids[i..][1..] == ids[i + 1..];
  }

  lemma Regroup(front: seq<MessageId>, id: MessageId, tail: seq<MessageId>)
    ensures front + ([id] + tail) == (front + [id]) + tail
  {
  }

  lemma PickingContinues(o: Outbox, now: int, limit: nat, i: nat, picked: seq<MessageId>)
    requires ValidOutbox(o) && Picking(o, now, limit, i, picked) && i < |o.order| && |picked| < limit
    ensures var id := o.order[i];
            && id !in picked
            && (Eligible(o, now, id) ==> Picking(o, now, limit, i + 1, picked + [id]))
            && (!Eligible(o, now, id) ==> Picking(o, now, limit, i + 1, picked))
  {
    LaterIdsDiffer(o, i);
    hide ValidOutbox;
    hide Selection;
    hide Eligible;
    var id := o.order[i];
    SelectionStep(o, now, limit - |picked|, o.order, i);
    var whole := Selection(o, now, limit, o.order);
    if Eligible(o, now, id) {
      var tail := Selection(o, now, limit - |picked| - 1, o.order[i + 1..]);
      Regroup(picked, id, tail);
      assert (picked + [id]) + tail == whole;
      StillAhead(o.order, i, picked);
    }
  }

  lemma LaterIdsDiffer(o: Outbox, i: nat)
    requires ValidOutbox(o) && i < |o.order|
    ensures o.order[i] !in o.order[i + 1..]
  {
    OrderHasNoRepeats(o);
  }

  lemma StillAhead(order: seq<MessageId>, i: nat, picked: seq<MessageId>)
    requires i < |order| && order[i] !in order[i + 1..]
    requires forall j :: i <= j < |order| ==> order[j] !in picked
    ensures forall j :: i + 1 <= j < |order| ==> order[j] !in picked + [order[i]]
  {
    forall j | i + 1 <= j < |order| ensures order[j] !in picked + [order[i]] {
      assert order[i + 1..][j - i - 1] == order[j];
    }
  }

  lemma PickingEnds(o: Outbox, now: int, limit: nat, i: nat, picked: seq<MessageId>)
    requires Picking(o, now, limit, i, picked) && (i == |o.order| || |picked| == limit)
    ensures picked == Selection(o, now, limit, o.order)
  {
  }

  /** The messages collected and the claims taken are those of the identifiers picked. */
  ghost predicate Collected(o: Outbox, picked: seq<MessageId>, out: seq<Message>, claimed: set<MessageId>) {
    && (forall id :: id in picked ==> id in o.messages)
    && out == Lookup(o, picked)
    && claimed == o.claimed + SetOf(picked)
  }

  lemma CollectionStarts(o: Outbox)
    ensures Collected(o, [], [], o.claimed)
  {
  }

  lemma CollectionContinues(
    o: Outbox, picked: seq<MessageId>, out: seq<Message>, claimed: set<MessageId>, id: MessageId)
    requires Collected(o, picked, out, claimed) && id !in picked
    ensures id in claimed <==> id in o.claimed
    ensures id in o.messages ==> Collected(o, picked + [id], out + [o.messages[id]], claimed + {id})
  {
  }

  /** The loop at identifier i. */
  ghost predicate Claiming(
    o: Outbox, now: int, limit: nat, i: nat, picked: seq<MessageId>, out: seq<Message>, claimed: set<MessageId>)
  {
    Picking(o, now, limit, i, picked) && Collected(o, picked, out, claimed) && |out| == |picked|
  }

  lemma ClaimStep(
    o: Outbox, now: int, limit: nat, i: nat, picked: seq<MessageId>, out: seq<Message>, claimed: set<MessageId>)
    requires ValidOutbox(o) && Claiming(o, now, limit, i, picked, out, claimed) && i < |o.order| && |out| < limit
    ensures var id := o.order[i];
            if id in o.messages && o.messages[id].IsDue(now) && id !in claimed
            then Claiming(o, now, limit, i + 1, picked + [id], out + [o.messages[id]], claimed + {id})
            else Claiming(o, now, limit, i + 1, picked, out, claimed)
  {
    PickingContinues(o, now, limit, i, picked);
    CollectionContinues(o, picked, out, claimed, o.order[i]);
    hide Picking;
    hide Collected;
    hide ValidOutbox;
  }

  lemma CollectionEnds(o: Outbox, now: int, limit: nat, out: seq<Message>, claimed: set<MessageId>)
    requires Collected(o, Selection(o, now, limit, o.order), out, claimed)
    ensures out == Batch(o, now, limit) && o.(claimed := claimed) == Claimed(o, now, limit)
  {
  }

  lemma ClaimingEnds(
    o: Outbox, now: int, limit: nat, i: nat, picked: seq<MessageId>, out: seq<Message>, claimed: set<MessageId>)
    requires Claiming(o, now, limit, i, picked, out, claimed) && (i >= |o.order| || |out| >= limit)
    ensures out == Batch(o, now, limit) && o.(claimed := claimed) == Claimed(o, now, limit)
  {
    PickingEnds(o, now, limit, i, picked);
    CollectionEnds(o, now, limit, out, claimed);
  }

  // ---- The code ----

  class Store {
    var messages: map<MessageId, Message>
    var claimed: set<MessageId>
    var order: seq<MessageId>
    var nextId: nat

    ghost function Value(): Outbox
      reads this
    {
      Outbox(messages, claimed, order, nextId)
    }

    ghost predicate Valid()
      reads this
    {
      ValidOutbox(Value())
    }

    constructor ()
      ensures Valid() && Value() == EMPTY
    {
      messages, claimed, order, nextId := map[], {}, [], 0;
    }

    method Enqueue(cancelled: bool, content: NewMessage, now: int) returns (r: Result<MessageId, Error>)
      requires Valid()
      modifies this
      ensures Valid()
      ensures cancelled ==> r == Err(Cancelled) && Value() == old(Value())
      ensures !cancelled ==> Value() == Enqueued(old(Value()), content, now)
      ensures !cancelled ==>
                && r.Ok? && r.value == "mem-" + OfNat(nextId) && r.value !in old(messages) && r.value in messages
                && messages[r.value].id == r.value && messages[r.value].content == content
                && messages[r.value].status == Pending && messages[r.value].attempts == 0
                && messages[r.value].createdAt == now && messages[r.value].availableAt == now
      ensures !cancelled ==> order == old(order) + [r.value] && r.value !in claimed && claimed == old(claimed)
    {
      if cancelled {
        return Err(Cancelled);
      }
      NextIdIsNew(Value());
      EnqueuedIsValid(Value(), content, now);
      nextId := nextId + 1;
      var id := IdOf(nextId);
      messages := messages[id := Fresh(id, content, now)];
      order := order + [id];
      return Ok(id);
    }

    method Claim(cancelled: bool, now: int, limit: nat) returns (r: Result<seq<Message>, Error>)
      requires Valid()
      modifies this`claimed
      ensures Valid()
      ensures cancelled ==> r == Err(Cancelled) && Value() == old(Value())
      ensures !cancelled ==> r == Ok(Batch(old(Value()), now, limit))
      ensures !cancelled ==> Value() == Claimed(old(Value()), now, limit)
      ensures !cancelled ==> HandsOut(old(Value()), now, limit, r.value)
      ensures !cancelled ==> claimed == old(claimed) + set m | m in r.value :: m.id
    {
      if cancelled {
        return Err(Cancelled);
      }
      ghost var o := Value();
      ClaimedIsValid(o, now, limit);
      PickingStarts(o, now, limit);
      CollectionStarts(o);
      assert Claiming(o, now, limit, 0, [], [], claimed);
      hide ValidOutbox;
      hide Claiming;
      hide Selection;
      hide Batch;
      hide Claimed;
      var out: seq<Message> := [];
      ghost var picked: seq<MessageId> := [];
      var i := 0;
      while i < |order|
        invariant messages == o.messages && order == o.order && 0 <= i <= |order|
        invariant Claiming(o, now, limit, i, picked, out, claimed)
      {
        if |out| >= limit {
          break;
        }
        var id := order[i];
        ClaimStep(o, now, limit, i, picked, out, claimed);
        if id in messages && messages[id].IsDue(now) && id !in claimed {
          claimed := claimed + {id};
          out := out + [messages[id]];
          picked := picked + [id];
        }
        i := i + 1;
      }
      ClaimingEnds(o, now, limit, i, picked, out, claimed);
      ClaimHandsOut(o, now, limit);
      return Ok(out);
    }

    method MarkDone(id: MessageId) returns (r: Result<(), Error>)
      requires Valid()
      modifies this
      ensures Valid() && Value() == MarkedDone(old(Value()), id)
      ensures r == if id in old(messages) then Ok(()) else Err(UnknownMessage(id))
      ensures messages == if r.Ok? then old(messages)[id := old(messages)[id].(status := Done)] else old(messages)
      ensures claimed == if r.Ok? then old(claimed) - {id} else old(claimed)
    {
      if id !in messages {
        return Err(UnknownMessage(id));
      }
      messages := messages[id := messages[id].(status := Done)];
      claimed := claimed - {id};
      return Ok(());
    }

    method MarkFailed(a: FailedAttempt) returns (r: Result<(), Error>)
      requires Valid()
      modifies this
      ensures Valid() && Value() == MarkedFailed(old(Value()), a)
      ensures r == if a.id in old(messages) then Ok(()) else Err(UnknownMessage(a.id))
      ensures r.Ok? ==>
                && messages.Keys == old(messages).Keys
                && messages[a.id].attempts == a.attempts && messages[a.id].status == a.status
                && messages[a.id].availableAt == a.availableAt && messages[a.id].content == old(messages)[a.id].content
                && messages[a.id].createdAt == old(messages)[a.id].createdAt
      ensures forall id :: id in messages && id != a.id ==> id in old(messages) && messages[id] == old(messages)[id]
      ensures claimed == if r.Ok? then old(claimed) - {a.id} else old(claimed)
    {
      if a.id !in messages {
        return Err(UnknownMessage(a.id));
      }
      messages := messages[a.id :=
        messages[a.id].(attempts := a.attempts, status := a.status, availableAt := a.availableAt)];
      claimed := claimed - {a.id};
      return Ok(());
    }

    /** The walk over the Go map visits every message once; `order` lists them once. */
    method PendingCount() returns (count: nat)
      requires Valid()
      ensures count == CountIn(Value(), Pending, order)
      ensures count == |set id | id in messages && messages[id].status == Pending|
      ensures count + CountIn(Value(), Done, order) + CountIn(Value(), Failed, order) == nextId
    {
      count := 0;
      ghost var o := Value();
      assert order[|order|..] == [];
      var i := |order|;
      while i > 0
        invariant 0 <= i <= |order| && o == Value() && ValidOutbox(o)
        invariant count == CountIn(o, Pending, order[i..])
      {
        hide ValidOutbox;
        i := i - 1;
        assert order[i..][0] == order[i] && order[i..][1..] == order[i + 1..];
        if order[i] in messages && messages[order[i]].status == Pending {
          count := count + 1;
        }
      }
      assert order[0..] == order;
      CountIsCardinality(Value(), Pending);
      hide ValidOutbox;
      StatusesPartition(Value(), order);
    }
  }
}
