/**
 The guaranteed delivery chain end to end: outbox, any number of dispatchers, relay
 and in-process bus, effect-once guard, idempotency store of any driver. The machine
 is the product of Dispatch and Guard: a dispatcher's call of the publisher begins
 a guarded delivery and returns when that delivery is over, and the transport may
 redeliver, at any time and any number of times, the envelope of any message that
 was published. One guarded handler is subscribed per event type.
 */
module Chain {
  import opened Wrappers
  import opened OutboxDomain
  import opened OutboxMemory
  import Dispatch
  import Guard
  import Idempotency
  import Once

  datatype Setup = Setup(policy: Dispatch.ValidPolicy, guard: Guard.Config, subscribed: set<string>)

  datatype State = State(
    outbox: Dispatch.State, guard: Guard.State, link: map<Dispatch.WorkerId, Guard.DeliveryId>)

  datatype Label =
    | Time(elapsed: nat)
    | Enqueue(content: NewMessage)
    | Claim(worker: Dispatch.WorkerId)
    | Call(worker: Dispatch.WorkerId, delivery: Guard.DeliveryId)
    | Redeliver(delivery: Guard.DeliveryId, id: MessageId)
    | Consume(step: Guard.Label)
    | Return(worker: Dispatch.WorkerId)
    | Decide(worker: Dispatch.WorkerId, reason: string)
    | Record(worker: Dispatch.WorkerId)

  function Init(now: int): State {
    State(Dispatch.Init(now), Guard.Init(now), map[])
  }

  /** The message a worker is about to deliver or is delivering. */
  function Head(s: State, w: Dispatch.WorkerId): Message
    requires Dispatch.WorkerAt(s.outbox, w).hand != []
  {
    Dispatch.WorkerAt(s.outbox, w).hand[0]
  }

  predicate HasHead(s: State, w: Dispatch.WorkerId) {
    Dispatch.WorkerAt(s.outbox, w).hand != []
  }

  /** The bus hands a message to its guarded handler, or, when none is subscribed, just acknowledges. */
  predicate Heard(k: Setup, m: Message) {
    m.content.kind in k.subscribed
  }

  /** What the dispatcher makes of the end of a delivery. */
  function VerdictOf(end: Guard.End): Dispatch.Verdict {
    match end
    case Completed => Dispatch.Delivered
    case Replayed(_) => Dispatch.Delivered
    case Crashed => Dispatch.Panicked
    case _ => Dispatch.Refused
  }

  /**
   It is what the bus says of the one guarded handler: a panic goes through, an error
   is joined, and only an acknowledgement leaves nothing to report.
   */
  lemma VerdictIsTheAnswer(driver: Idempotency.Driver, end: Guard.End)
    ensures VerdictOf(end) == Dispatch.Panicked <==> Once.AnswerOf(driver, end).Panicking?
    ensures VerdictOf(end) == Dispatch.Refused <==> Once.AnswerOf(driver, end).Errored?
    ensures VerdictOf(end) == Dispatch.Delivered <==> Once.AnswerOf(driver, end) == Once.Acked
  {
  }

  /** One publication to one handler, whatever fails: the machine ends its delivery with the verdict of the bus. */
  lemma OneHandlerVerdict(
    c: Guard.Config, now: int, run: seq<Guard.Label>, id: Guard.DeliveryId, env: Once.Envelope, turn: Once.Turn,
    walk: Once.Walk)
    returns (run': seq<Guard.Label>)
    requires Guard.Legal(c, Guard.Init(now), run) && id !in Guard.After(c, Guard.Init(now), run).deliveries
    requires turn.faults.Possible(c.driver) && turn.at == Guard.After(c, Guard.Init(now), run).now <= turn.later
    requires turn.how.Succeeds? ==> turn.how.response == None
    requires Once.Walks(c.driver, Guard.After(c, Guard.Init(now), run).rows, env, [turn], c.ttl, walk)
    ensures run <= run' && Guard.Legal(c, Guard.Init(now), run') && |walk.answers| == 1
    ensures var s' := Guard.After(c, Guard.Init(now), run');
            && s'.rows == walk.rows[1] && id in s'.deliveries && s'.deliveries[id].phase.Over?
            && s'.deliveries[id].key == env.id
            && VerdictOf(s'.deliveries[id].phase.end) ==
               if walk.answers[0].Panicking? then Dispatch.Panicked
               else if walk.answers[0].Errored? then Dispatch.Refused
               else Dispatch.Delivered
  {
    hide Once.Consumption;
    hide Guard.Legal;
    hide Guard.After;
    var s := Guard.After(c, Guard.Init(now), run);
    run' := Once.ConsumptionIsRun(
      c, Guard.Init(now), run, s, id, env, turn.how, turn.faults, turn.later - turn.at);
    VerdictIsTheAnswer(c.driver, Guard.After(c, Guard.Init(now), run').deliveries[id].phase.end);
    hide Once.AnswerOf;
  }

  function Verdict(s: State, w: Dispatch.WorkerId): Dispatch.Verdict {
    if w in s.link && s.link[w] in s.guard.deliveries && s.guard.deliveries[s.link[w]].phase.Over? then
      VerdictOf(s.guard.deliveries[s.link[w]].phase.end)
    else Dispatch.Delivered
  }

  /** The outbox half of a step. */
  function OutboxPart(s: State, l: Label): Option<Dispatch.Label> {
    match l
    case Time(elapsed) => Some(Dispatch.Tick(elapsed))
    case Enqueue(content) => Some(Dispatch.Enqueue(content))
    case Claim(w) => Some(Dispatch.Claim(w))
    case Call(w, _) => Some(Dispatch.Start(w))
    case Return(w) => Some(Dispatch.Return(w, Verdict(s, w)))
    case Decide(w, reason) => Some(Dispatch.Decide(w, reason))
    case Record(w) => Some(Dispatch.Resolve(w))
    case Redeliver(_, _) => None
    case Consume(_) => None
  }

  /** The relay hands the message's envelope to a new guarded delivery. */
  function Handed(id: Guard.DeliveryId, m: Message): Guard.Label {
    var env := Once.EnvelopeOf(m);
    Guard.Begin(id, env.id, env.kind)
  }

  /** The guard half of a step. */
  function GuardPart(k: Setup, s: State, l: Label): Option<Guard.Label> {
    match l
    case Time(elapsed) => Some(Guard.Tick(elapsed))
    case Call(w, id) =>
      if HasHead(s, w) && Heard(k, Head(s, w)) then Some(Handed(id, Head(s, w))) else None
    case Redeliver(id, mid) =>
      if mid in s.outbox.outbox.messages then Some(Handed(id, s.outbox.outbox.messages[mid])) else None
    case Consume(step) => Some(step)
    case _ => None
  }

  predicate Enabled(k: Setup, s: State, l: Label) {
    && (OutboxPart(s, l).Some? ==> Dispatch.Enabled(s.outbox, OutboxPart(s, l).value))
    && (GuardPart(k, s, l).Some? ==> Guard.Enabled(k.guard, s.guard, GuardPart(k, s, l).value))
    && match l
       case Redeliver(_, mid) =>
         && mid in s.outbox.outbox.messages && s.outbox.outbox.messages[mid].content.kind in k.subscribed
         && mid in s.outbox.starts && s.outbox.starts[mid] != []
       case Consume(step) => !step.Tick? && !step.Begin?
       case Return(w) =>
         w in s.link ==> s.link[w] in s.guard.deliveries && s.guard.deliveries[s.link[w]].phase.Over?
       case _ => true
  }

  function Apply(k: Setup, s: State, l: Label): State {
    State(
      if OutboxPart(s, l).Some? then Dispatch.Apply(k.policy, s.outbox, OutboxPart(s, l).value) else s.outbox,
      if GuardPart(k, s, l).Some? then Guard.Apply(k.guard, s.guard, GuardPart(k, s, l).value) else s.guard,
      match l
      case Call(w, id) => if GuardPart(k, s, l).Some? then s.link[w := id] else s.link - {w}
      case Return(w) => s.link - {w}
      case _ => s.link)
  }

  function After(k: Setup, s: State, run: seq<Label>): State {
    if run == [] then s else Apply(k, After(k, s, run[..|run| - 1]), run[|run| - 1])
  }

  ghost predicate Legal(k: Setup, s: State, run: seq<Label>) {
    run == [] ||
    (Legal(k, s, run[..|run| - 1]) && Enabled(k, After(k, s, run[..|run| - 1]), run[|run| - 1]))
  }

  /** Every command on the key comes before the reservation of its delivery expires. */
  ghost predicate Timely(k: Setup, s: State, run: seq<Label>, key: MessageId) {
    run == [] ||
    (Timely(k, s, run[..|run| - 1], key) &&
     var before := After(k, s, run[..|run| - 1]);
     var part := GuardPart(k, before, run[|run| - 1]);
     part.Some? ==> Guard.InTime(k.guard, before.guard, part.value, key))
  }

  // ---- The guard, knowing which messages exist ----

  /** Some delivery of this key ran its handler to success. */
  ghost predicate Succeeded(g: Guard.State, key: MessageId) {
    exists id :: id in g.deliveries && g.deliveries[id].key == key && g.deliveries[id].HasSucceeded()
  }

  ghost predicate DeliverySafe(g: Guard.State, messages: map<MessageId, Message>, d: Guard.Delivery) {
    && d.key in messages && messages[d.key].content.kind == d.fingerprint && messages[d.key].createdAt <= g.now
    && (d.phase.Completing? ==> d.phase.fingerprint == d.fingerprint)
    && (d.reservedAt.Some? ==> messages[d.key].createdAt <= d.reservedAt.value <= g.now)
    && d.phase != Guard.Over(Guard.NoId)
    && d.phase != Guard.Over(Guard.Refused(Idempotency.Conflict))
    && (d.phase.Over? && (d.phase.end.Completed? || d.phase.end.Replayed?) ==> Succeeded(g, d.key))
  }

  ghost predicate RowSafe(g: Guard.State, messages: map<MessageId, Message>, key: MessageId)
    requires key in g.rows
  {
    && key in messages && g.rows[key].fingerprint == messages[key].content.kind
    && (g.rows[key].status == Idempotency.Done ==> Succeeded(g, key))
  }

  ghost predicate GuardSafe(g: Guard.State, messages: map<MessageId, Message>) {
    && "" !in messages
    && (forall id :: id in g.deliveries ==> DeliverySafe(g, messages, g.deliveries[id]))
    && (forall key :: key in g.rows ==> RowSafe(g, messages, key))
  }

  lemma OneSuccessPersists(c: Guard.Config, g: Guard.State, l: Guard.Label, id: Guard.DeliveryId)
    requires Guard.Enabled(c, g, l) && id in g.deliveries
    ensures var g' := Guard.Apply(c, g, l);
            && id in g'.deliveries && g'.deliveries[id].key == g.deliveries[id].key
            && (g.deliveries[id].HasSucceeded() ==> g'.deliveries[id].HasSucceeded())
  {
    if l.Write? {
      Guard.WriteMoves(c, g, l.id, l.fault);
    }
    hide Guard.ApplyWrite;
    hide Idempotency.Purged;
    hide Idempotency.Reserved;
    hide Idempotency.Completed;
    hide Idempotency.Released;
    hide Idempotency.Inspect;
    hide Idempotency.Decide;
  }

  /** Success is never forgotten. */
  lemma SuccessPersists(c: Guard.Config, g: Guard.State, l: Guard.Label)
    requires Guard.Enabled(c, g, l)
    ensures forall key :: Succeeded(g, key) ==> Succeeded(Guard.Apply(c, g, l), key)
  {
    forall key | Succeeded(g, key) ensures Succeeded(Guard.Apply(c, g, l), key) {
      var id :| id in g.deliveries && g.deliveries[id].key == key && g.deliveries[id].HasSucceeded();
      OneSuccessPersists(c, g, l, id);
      hide Guard.Apply;
    }
  }

  lemma DeliverySafeLater(g: Guard.State, g': Guard.State, messages: map<MessageId, Message>, d: Guard.Delivery)
    requires DeliverySafe(g, messages, d) && g.now <= g'.now
    requires forall key :: Succeeded(g, key) ==> Succeeded(g', key)
    ensures DeliverySafe(g', messages, d)
  {
  }

  /** The delivery that a step moves. */
  lemma MovedDeliveryIsSafe(c: Guard.Config, g: Guard.State, messages: map<MessageId, Message>, l: Guard.Label)
    requires GuardSafe(g, messages) && Guard.Enabled(c, g, l) && !l.Tick? && !l.Purge?
    requires l.Begin? ==>
               l.key in messages && messages[l.key].content.kind == l.fingerprint && messages[l.key].createdAt <= g.now
    ensures var g' := Guard.Apply(c, g, l);
            l.id in g'.deliveries && DeliverySafe(g', messages, g'.deliveries[l.id])
  {
    if !l.Begin? {
      SuccessPersists(c, g, l);
      if l.Ask? {
        AskingDeliveryIsSafe(c, g, messages, l);
      } else if l.Read? {
        ReadingDeliveryIsSafe(c, g, messages, l);
      } else if l.Write? {
        WritingDeliveryIsSafe(c, g, messages, l);
      } else {
        HandledDeliveryIsSafe(c, g, messages, l);
      }
    }
  }

  /** A delivery asking for its reservation. */
  lemma AskingDeliveryIsSafe(c: Guard.Config, g: Guard.State, messages: map<MessageId, Message>, l: Guard.Label)
    requires GuardSafe(g, messages) && Guard.Enabled(c, g, l) && l.Ask?
    requires forall key :: Succeeded(g, key) ==> Succeeded(Guard.Apply(c, g, l), key)
    ensures DeliverySafe(Guard.Apply(c, g, l), messages, Guard.Apply(c, g, l).deliveries[l.id])
  {
    var d := g.deliveries[l.id];
    assert DeliverySafe(g, messages, d);
    if d.key in g.rows {
      assert RowSafe(g, messages, d.key);
    }
    assert d.key != "";
    hide GuardSafe;
    hide Succeeded;
    hide Idempotency.Reserved;
  }

  /** A delivery reading why its reservation was denied. */
  lemma ReadingDeliveryIsSafe(c: Guard.Config, g: Guard.State, messages: map<MessageId, Message>, l: Guard.Label)
    requires GuardSafe(g, messages) && Guard.Enabled(c, g, l) && l.Read?
    requires forall key :: Succeeded(g, key) ==> Succeeded(Guard.Apply(c, g, l), key)
    ensures DeliverySafe(Guard.Apply(c, g, l), messages, Guard.Apply(c, g, l).deliveries[l.id])
  {
    var d := g.deliveries[l.id];
    assert DeliverySafe(g, messages, d);
    if d.key in g.rows {
      assert RowSafe(g, messages, d.key);
    }
    hide GuardSafe;
    hide Succeeded;
  }

  /** A delivery finishing its handler, or fetching its row before recording how it ended. */
  lemma HandledDeliveryIsSafe(c: Guard.Config, g: Guard.State, messages: map<MessageId, Message>, l: Guard.Label)
    requires GuardSafe(g, messages) && Guard.Enabled(c, g, l) && (l.Finish? || l.Fetch?)
    requires forall key :: Succeeded(g, key) ==> Succeeded(Guard.Apply(c, g, l), key)
    ensures DeliverySafe(Guard.Apply(c, g, l), messages, Guard.Apply(c, g, l).deliveries[l.id])
  {
    var d := g.deliveries[l.id];
    assert DeliverySafe(g, messages, d);
    if d.key in g.rows {
      assert RowSafe(g, messages, d.key);
    }
    hide GuardSafe;
    hide Succeeded;
  }

  /** A delivery recording how its handler ended. */
  lemma WritingDeliveryIsSafe(c: Guard.Config, g: Guard.State, messages: map<MessageId, Message>, l: Guard.Label)
    requires GuardSafe(g, messages) && Guard.Enabled(c, g, l) && l.Write?
    requires forall key :: Succeeded(g, key) ==> Succeeded(Guard.Apply(c, g, l), key)
    ensures DeliverySafe(Guard.Apply(c, g, l), messages, Guard.Apply(c, g, l).deliveries[l.id])
  {
    var g' := Guard.Apply(c, g, l);
    var d := g.deliveries[l.id];
    assert DeliverySafe(g, messages, d);
    assert d.IsCompleting() ==> Succeeded(g, d.key);
    assert g' == Guard.ApplyWrite(c, g, l.id, l.fault);
    Guard.WriteMoves(c, g, l.id, l.fault);
    hide GuardSafe;
    hide Succeeded;
    hide Guard.Apply;
    hide Guard.ApplyWrite;
  }

  /** A step leaves a row as it was, or reserves it, or completes it. */
  lemma RowChange(c: Guard.Config, g: Guard.State, l: Guard.Label, key: MessageId)
    requires Guard.Enabled(c, g, l) && key in Guard.Apply(c, g, l).rows
    ensures var row := Guard.Apply(c, g, l).rows[key];
            || (key in g.rows && row == g.rows[key])
            || (l.Ask? && g.deliveries[l.id].key == key
                && row.status == Idempotency.InFlight && row.fingerprint == g.deliveries[l.id].fingerprint)
            || (l.Write? && g.deliveries[l.id].key == key && g.deliveries[l.id].IsCompleting() && key in g.rows
                && (|| row.fingerprint == g.deliveries[l.id].fingerprint
                    || row.fingerprint == g.rows[key].fingerprint
                    || (g.deliveries[l.id].phase.Completing?
                        && row.fingerprint == g.deliveries[l.id].phase.fingerprint)))
  {
    hide Idempotency.Inspect;
  }

  lemma RowsStaySafe(c: Guard.Config, g: Guard.State, messages: map<MessageId, Message>, l: Guard.Label)
    requires GuardSafe(g, messages) && Guard.Enabled(c, g, l)
    ensures var g' := Guard.Apply(c, g, l);
            forall key :: key in g'.rows ==> RowSafe(g', messages, key)
  {
    SuccessPersists(c, g, l);
    var g' := Guard.Apply(c, g, l);
    hide Guard.Apply;
    if l.Ask? || l.Write? {
      assert DeliverySafe(g, messages, g.deliveries[l.id]);
      assert g.deliveries[l.id].HasSucceeded() ==> Succeeded(g, g.deliveries[l.id].key);
    }
    forall key | key in g'.rows ensures RowSafe(g', messages, key) {
      RowChange(c, g, l, key);
      assert key in g.rows ==> RowSafe(g, messages, key);
      hide Succeeded;
    }
  }

  lemma GuardStaysSafe(c: Guard.Config, g: Guard.State, messages: map<MessageId, Message>, l: Guard.Label)
    requires GuardSafe(g, messages) && Guard.Enabled(c, g, l)
    requires l.Begin? ==>
               l.key in messages && messages[l.key].content.kind == l.fingerprint && messages[l.key].createdAt <= g.now
    ensures GuardSafe(Guard.Apply(c, g, l), messages)
  {
    var g' := Guard.Apply(c, g, l);
    RowsStaySafe(c, g, messages, l);
    SuccessPersists(c, g, l);
    if !l.Tick? && !l.Purge? {
      MovedDeliveryIsSafe(c, g, messages, l);
    }
    OtherDeliveriesUnmoved(c, g, l);
    hide DeliverySafe;
    hide RowSafe;
    hide Succeeded;
    hide Guard.Apply;
    forall id | id in g'.deliveries ensures DeliverySafe(g', messages, g'.deliveries[id]) {
      if id in g.deliveries && g'.deliveries[id] == g.deliveries[id] {
        DeliverySafeLater(g, g', messages, g.deliveries[id]);
      }
    }
  }

  lemma OtherDeliveriesUnmoved(c: Guard.Config, g: Guard.State, l: Guard.Label)
    requires Guard.Enabled(c, g, l)
    ensures var g' := Guard.Apply(c, g, l);
            && g.now <= g'.now
            && forall id :: id in g'.deliveries ==>
                 (id in g.deliveries && g'.deliveries[id] == g.deliveries[id])
                 || (!l.Tick? && !l.Purge? && id == l.id)
  {
    hide Idempotency.Purged;
    hide Idempotency.Reserved;
    hide Idempotency.Inspect;
    hide Idempotency.Decide;
    hide Idempotency.Vacant;
    hide Idempotency.Visible;
    if l.Write? {
      Guard.WriteMoves(c, g, l.id, l.fault);
    }
    hide Guard.ApplyWrite;
  }

  // ---- The chain ----

  /** A linked worker is handling the message its delivery carries; a heard message being handled is linked. */
  ghost predicate LinkSound(k: Setup, s: State, w: Dispatch.WorkerId) {
    && (w in s.link ==>
          && HasHead(s, w) && Dispatch.WorkerAt(s.outbox, w).phase.Handling? && Heard(k, Head(s, w))
          && s.link[w] in s.guard.deliveries && s.guard.deliveries[s.link[w]].key == Head(s, w).id)
    && (HasHead(s, w) && Dispatch.WorkerAt(s.outbox, w).phase.Handling? && Heard(k, Head(s, w)) ==> w in s.link)
    && (HasHead(s, w) && Dispatch.WorkerAt(s.outbox, w).phase == Dispatch.Handled(Dispatch.Delivered) ==>
          Heard(k, Head(s, w)) ==> Succeeded(s.guard, Head(s, w).id))
  }

  ghost predicate LinksSound(k: Setup, s: State) {
    forall w: Dispatch.WorkerId :: LinkSound(k, s, w)
  }

  /** A heard message is only done once its handler ran to success. */
  ghost predicate DonesSucceeded(k: Setup, s: State) {
    forall id :: id in s.outbox.outbox.messages ==>
      var m := s.outbox.outbox.messages[id];
      m.status == Done && Heard(k, m) ==> Succeeded(s.guard, id)
  }

  ghost predicate Inv(k: Setup, s: State) {
    && Dispatch.Inv(k.policy, s.outbox)
    && s.guard.now == s.outbox.now
    && GuardSafe(s.guard, s.outbox.outbox.messages)
    && LinksSound(k, s)
    && DonesSucceeded(k, s)
  }

  lemma InitInv(k: Setup, now: int)
    ensures Inv(k, Init(now))
  {
    Dispatch.InitInv(k.policy, now);
  }

  lemma NoEmptyId(o: Outbox)
    requires ValidOutbox(o)
    ensures "" !in o.messages
  {
    forall id | id in o.messages ensures |id| >= 4 {
      var i :| 0 <= i < |o.order| && o.order[i] == id;
      assert id == IdOf(i + 1);
    }
  }

  /** Messages keep their content and creation date, so the guard's knowledge of them stays true. */
  lemma GuardSafeFrame(g: Guard.State, before: map<MessageId, Message>, after: map<MessageId, Message>)
    requires GuardSafe(g, before) && "" !in after
    requires forall id :: id in before ==>
               id in after && after[id].content == before[id].content && after[id].createdAt == before[id].createdAt
    ensures GuardSafe(g, after)
  {
    forall id | id in g.deliveries ensures DeliverySafe(g, after, g.deliveries[id]) {
      assert DeliverySafe(g, before, g.deliveries[id]);
    }
    forall key | key in g.rows ensures RowSafe(g, after, key) {
      assert RowSafe(g, before, key);
    }
  }

  lemma OutboxHalf(k: Setup, s: State, l: Label)
    requires Dispatch.Inv(k.policy, s.outbox) && Enabled(k, s, l)
    ensures Dispatch.Inv(k.policy, Apply(k, s, l).outbox)
    ensures var before, after := s.outbox.outbox.messages, Apply(k, s, l).outbox.outbox.messages;
            && "" !in after
            && forall id :: id in before ==>
                 && id in after
                 && after[id].content == before[id].content && after[id].createdAt == before[id].createdAt
  {
    hide Dispatch.Disjoint;
    hide Dispatch.Covered;
    hide Dispatch.Snapshots;
    hide Dispatch.Accounts;
    hide Dispatch.Schedules;
    hide Dispatch.Decisions;
    hide ValidOutbox;
    hide Dispatch.Apply;
    hide Dispatch.Enabled;
    var part := OutboxPart(s, l);
    if part.Some? {
      Dispatch.StepKeepsInv(k.policy, s.outbox, part.value);
      Dispatch.MessagesPersist(k.policy, s.outbox, part.value);
    }
    NoEmptyId(Apply(k, s, l).outbox.outbox);
  }

  /** A message whose publication started was created in the past. */
  lemma StartedIsPast(p: Dispatch.ValidPolicy, s: Dispatch.State, id: MessageId)
    requires Dispatch.Inv(p, s) && id in s.outbox.messages && id in s.starts && s.starts[id] != []
    ensures s.outbox.messages[id].createdAt <= s.now
  {
    hide Dispatch.Hands;
    hide Dispatch.Accounts;
    assert Dispatch.Schedule(p.retry.baseBackoff, s.outbox.messages[id], s.starts[id], s.fails[id], s.now);
  }

  lemma GuardHalf(k: Setup, s: State, l: Label)
    requires Inv(k, s) && Enabled(k, s, l)
    requires Dispatch.Inv(k.policy, Apply(k, s, l).outbox)
    requires GuardSafe(s.guard, Apply(k, s, l).outbox.outbox.messages)
    ensures GuardSafe(Apply(k, s, l).guard, Apply(k, s, l).outbox.outbox.messages)
  {
    var messages := Apply(k, s, l).outbox.outbox.messages;
    var part := GuardPart(k, s, l);
    if part.Some? {
      if part.value.Begin? {
        BeginIsTyped(k, s, l);
      }
      hide Inv;
      hide Dispatch.Inv;
      hide GuardSafe;
      GuardStaysSafe(k.guard, s.guard, messages, part.value);
    }
  }

  /** A delivery is begun for a message that exists, with its type, after its creation. */
  lemma BeginIsTyped(k: Setup, s: State, l: Label)
    requires Inv(k, s) && Enabled(k, s, l) && GuardPart(k, s, l).Some? && GuardPart(k, s, l).value.Begin?
    requires Dispatch.Inv(k.policy, Apply(k, s, l).outbox)
    ensures var begin := GuardPart(k, s, l).value;
            var messages := Apply(k, s, l).outbox.outbox.messages;
            && begin.key in messages && messages[begin.key].content.kind == begin.fingerprint
            && messages[begin.key].createdAt <= s.guard.now
  {
    hide Dispatch.Disjoint;
    hide Dispatch.Covered;
    hide Dispatch.Accounts;
    hide Dispatch.Schedules;
    hide GuardSafe;
    hide LinksSound;
    hide DonesSucceeded;
    var s' := Apply(k, s, l);
    match l
    case Call(w, id) =>
      Dispatch.HeadIsStored(s.outbox, w);
      StartedIsPast(k.policy, s'.outbox, Head(s, w).id);
    case Redeliver(id, mid) => StartedIsPast(k.policy, s.outbox, mid);
    case Consume(_) =>
  }

  lemma GuardRemembers(k: Setup, s: State, l: Label)
    requires Enabled(k, s, l)
    ensures forall key :: Succeeded(s.guard, key) ==> Succeeded(Apply(k, s, l).guard, key)
    ensures forall id :: id in s.guard.deliveries ==>
              && id in Apply(k, s, l).guard.deliveries
              && Apply(k, s, l).guard.deliveries[id].key == s.guard.deliveries[id].key
  {
    var part := GuardPart(k, s, l);
    if part.Some? {
      SuccessPersists(k.guard, s.guard, part.value);
      Guard.MemoryGrows(k.guard, s.guard, part.value);
      hide Guard.Apply;
    }
  }

  predicate Acts(l: Label, w: Dispatch.WorkerId) {
    match l
    case Claim(v) => v == w
    case Call(v, _) => v == w
    case Return(v) => v == w
    case Decide(v, _) => v == w
    case Record(v) => v == w
    case _ => false
  }

  lemma OthersStay(k: Setup, s: State, l: Label, w: Dispatch.WorkerId)
    requires !Acts(l, w)
    ensures var s' := Apply(k, s, l);
            && Dispatch.WorkerAt(s'.outbox, w) == Dispatch.WorkerAt(s.outbox, w)
            && (w in s'.link <==> w in s.link) && (w in s.link ==> s'.link[w] == s.link[w])
  {
    hide Guard.Apply;
    hide Batch;
    hide Claimed;
    hide Backoff;
    hide IdOf;
  }

  lemma ActorStaysLinked(k: Setup, s: State, l: Label, w: Dispatch.WorkerId)
    requires LinkSound(k, s, w) && GuardSafe(s.guard, s.outbox.outbox.messages) && Enabled(k, s, l) && Acts(l, w)
    requires forall key :: Succeeded(s.guard, key) ==> Succeeded(Apply(k, s, l).guard, key)
    ensures LinkSound(k, Apply(k, s, l), w)
  {
    if l.Return? && w in s.link {
      assert DeliverySafe(s.guard, s.outbox.outbox.messages, s.guard.deliveries[s.link[w]]);
    }
    hide Succeeded;
    hide GuardSafe;
    hide RowSafe;
    hide Claimed;
    hide Backoff;
    hide IdOf;
  }

  lemma LinksKept(k: Setup, s: State, l: Label)
    requires LinksSound(k, s) && GuardSafe(s.guard, s.outbox.outbox.messages) && Enabled(k, s, l)
    ensures LinksSound(k, Apply(k, s, l))
  {
    GuardRemembers(k, s, l);
    forall w: Dispatch.WorkerId ensures LinkSound(k, Apply(k, s, l), w) {
      assert LinkSound(k, s, w);
      if Acts(l, w) {
        ActorStaysLinked(k, s, l, w);
      } else {
        OthersStay(k, s, l, w);
        hide Apply;
        hide Succeeded;
        hide GuardSafe;
      }
    }
  }

  lemma DonesKept(k: Setup, s: State, l: Label)
    requires LinksSound(k, s) && DonesSucceeded(k, s) && Dispatch.Snapshots(s.outbox) && Enabled(k, s, l)
    ensures DonesSucceeded(k, Apply(k, s, l))
  {
    GuardRemembers(k, s, l);
    if l.Record? {
      var w := l.worker;
      assert LinkSound(k, s, w);
      if HasHead(s, w) {
        Dispatch.HeadIsStored(s.outbox, w);
      }
    }
    hide Succeeded;
  }

  lemma StepKeepsInv(k: Setup, s: State, l: Label)
    requires Inv(k, s) && Enabled(k, s, l)
    ensures Inv(k, Apply(k, s, l))
  {
    hide Dispatch.Disjoint;
    hide Dispatch.Covered;
    hide Dispatch.Snapshots;
    hide Dispatch.Accounts;
    hide Dispatch.Schedules;
    hide Dispatch.Decisions;
    hide ValidOutbox;
    hide GuardSafe;
    hide LinksSound;
    hide DonesSucceeded;
    OutboxHalf(k, s, l);
    GuardSafeFrame(s.guard, s.outbox.outbox.messages, Apply(k, s, l).outbox.outbox.messages);
    GuardHalf(k, s, l);
    LinksKept(k, s, l);
    DonesKept(k, s, l);
  }

  lemma {:induction false} RunKeepsInv(k: Setup, now: int, run: seq<Label>)
    requires Legal(k, Init(now), run)
    ensures Inv(k, After(k, Init(now), run))
  {
    hide Inv;
    if run == [] {
      InitInv(k, now);
    } else {
      RunKeepsInv(k, now, run[..|run| - 1]);
      StepKeepsInv(k, After(k, Init(now), run[..|run| - 1]), run[|run| - 1]);
    }
  }

  // ---- The chain refines its two halves ----

  /** The outbox steps of a run of the chain. */
  function OutboxRun(k: Setup, s: State, run: seq<Label>): seq<Dispatch.Label> {
    if run == [] then []
    else
      var part := OutboxPart(After(k, s, run[..|run| - 1]), run[|run| - 1]);
      OutboxRun(k, s, run[..|run| - 1]) + if part.Some? then [part.value] else []
  }

  /** The guard steps of a run of the chain. */
  function GuardRun(k: Setup, s: State, run: seq<Label>): seq<Guard.Label> {
    if run == [] then []
    else
      var part := GuardPart(k, After(k, s, run[..|run| - 1]), run[|run| - 1]);
      GuardRun(k, s, run[..|run| - 1]) + if part.Some? then [part.value] else []
  }

  /**
   Every run of the chain is a run of the dispatchers with some outcomes of the
   publisher, so all theorems of module Dispatch hold of the chain's outbox.
   */
  lemma {:induction false} ChainRefinesDispatch(k: Setup, s: State, run: seq<Label>)
    requires Legal(k, s, run)
    ensures Dispatch.Legal(k.policy, s.outbox, OutboxRun(k, s, run))
    ensures Dispatch.After(k.policy, s.outbox, OutboxRun(k, s, run)) == After(k, s, run).outbox
  {
    if run != [] {
      var front := run[..|run| - 1];
      ChainRefinesDispatch(k, s, front);
      var part := OutboxPart(After(k, s, front), run[|run| - 1]);
      if part.Some? {
        Dispatch.Extend(k.policy, s.outbox, OutboxRun(k, s, front), part.value);
      } else {
        assert OutboxRun(k, s, run) == OutboxRun(k, s, front);
      }
    }
  }

  /**
   Every run of the chain is a run of the guard, timely if the chain's is, so all
   theorems of module Guard hold of the chain's deliveries.
   */
  lemma {:induction false} ChainRefinesGuard(k: Setup, s: State, run: seq<Label>)
    requires Legal(k, s, run)
    ensures Guard.Legal(k.guard, s.guard, GuardRun(k, s, run))
    ensures Guard.After(k.guard, s.guard, GuardRun(k, s, run)) == After(k, s, run).guard
    ensures forall key :: Timely(k, s, run, key) ==> Guard.Timely(k.guard, s.guard, GuardRun(k, s, run), key)
  {
    if run != [] {
      var front := run[..|run| - 1];
      ChainRefinesGuard(k, s, front);
      var part := GuardPart(k, After(k, s, front), run[|run| - 1]);
      if part.Some? {
        Guard.Extend(k.guard, s.guard, GuardRun(k, s, front), part.value);
      } else {
        assert GuardRun(k, s, run) == GuardRun(k, s, front);
      }
    }
  }

  // ---- Theorems ----

  lemma TakeStep(k: Setup, s0: State, run: seq<Label>, s: State, l: Label) returns (run': seq<Label>, s': State)
    requires Legal(k, s0, run) && s == After(k, s0, run) && Enabled(k, s, l)
    ensures run' == run + [l] && s' == Apply(k, s, l) && Legal(k, s0, run') && s' == After(k, s0, run')
  {
    run', s' := run + [l], Apply(k, s, l);
    assert run'[..|run|] == run;
  }

  /** The dispatcher `w` delivers the message `m` by the delivery `id`, whose phase it is. */
  ghost predicate Delivering(s: State, w: Dispatch.WorkerId, m: Message, id: Guard.DeliveryId, phase: Guard.Phase) {
    && HasHead(s, w) && Head(s, w) == m && Dispatch.WorkerAt(s.outbox, w).phase.Handling?
    && w in s.link && s.link[w] == id && id in s.guard.deliveries
    && s.guard.deliveries[id].key == m.id && s.guard.deliveries[id].fingerprint == m.content.kind
    && s.guard.deliveries[id].phase == phase
    && m.id in s.outbox.outbox.messages
  }

  /** The row of the message is a live reservation in flight. */
  ghost predicate Reserved(s: State, m: Message) {
    && m.id in s.guard.rows && s.guard.rows[m.id].fingerprint == m.content.kind
    && s.guard.rows[m.id].status == Idempotency.InFlight && s.guard.now < s.guard.rows[m.id].expiresAt
  }

  /**
   Nothing in the machine stands in the way: from every reachable state a dispatcher
   about to deliver a subscribed message, whose key nobody holds, can see its handler
   succeed and the message done, on every driver.
   */
  lemma DeliveryCanFinish(k: Setup, now: int, run: seq<Label>, w: Dispatch.WorkerId, id: Guard.DeliveryId)
    returns (run': seq<Label>)
    requires Legal(k, Init(now), run)
    requires var s := After(k, Init(now), run);
             && HasHead(s, w) && Dispatch.WorkerAt(s.outbox, w).phase.Between? && id !in s.guard.deliveries
             && Head(s, w).content.kind in k.subscribed && Head(s, w).content.kind != ""
             && Idempotency.Vacant(k.guard.driver, s.guard.rows, Head(s, w).id, s.guard.now)
    ensures run <= run' && Legal(k, Init(now), run')
    ensures var m, s' := Head(After(k, Init(now), run), w), After(k, Init(now), run');
            && m.id in s'.outbox.outbox.messages && s'.outbox.outbox.messages[m.id].status == Done
            && id in s'.guard.deliveries && s'.guard.deliveries[id].key == m.id
            && s'.guard.deliveries[id].phase == Guard.Over(Guard.Completed)
  {
    var s := After(k, Init(now), run);
    var m := Head(s, w);
    HeadIsKnown(k, now, run, w);
    hide Legal;
    hide After;
    assert Heard(k, m);
    hide Apply;
    hide Enabled;
    hide Delivering;
    hide Reserved;
    CallDelivers(k, s, w, id);
    var run1, s1 := TakeStep(k, Init(now), run, s, Call(w, id));
    var run2, s2 := HandlerSucceeds(k, now, run1, s1, w, m, id);
    var run3, s3 := CompletionIsRecorded(k, now, run2, s2, w, m, id);
    run' := run3;
  }

  lemma HandlerSucceeds(
    k: Setup, now: int, run: seq<Label>, s: State, w: Dispatch.WorkerId, m: Message, id: Guard.DeliveryId)
    returns (run': seq<Label>, s': State)
    requires Legal(k, Init(now), run) && s == After(k, Init(now), run)
    requires Delivering(s, w, m, id, Guard.Asking) && m.id != "" && m.content.kind != ""
    requires Idempotency.Vacant(k.guard.driver, s.guard.rows, m.id, s.guard.now)
    ensures run <= run' && Legal(k, Init(now), run') && s' == After(k, Init(now), run')
    ensures Delivering(s', w, m, id, Guard.Phase.Succeeded(None)) && Reserved(s', m)
  {
    hide Legal;
    hide After;
    hide Apply;
    hide Enabled;
    hide Delivering;
    hide Reserved;
    AskGrants(k, s, w, m, id);
    run', s' := TakeStep(k, Init(now), run, s, Consume(Guard.Ask(id, Idempotency.Fine)));
    FinishSucceeds(k, s', w, m, id);
    run', s' := TakeStep(k, Init(now), run', s', Consume(Guard.Finish(id, Guard.Succeeds(None))));
  }

  lemma CompletionIsRecorded(
    k: Setup, now: int, run: seq<Label>, s: State, w: Dispatch.WorkerId, m: Message, id: Guard.DeliveryId)
    returns (run': seq<Label>, s': State)
    requires Legal(k, Init(now), run) && s == After(k, Init(now), run)
    requires Delivering(s, w, m, id, Guard.Phase.Succeeded(None)) && Reserved(s, m)
    ensures run <= run' && Legal(k, Init(now), run') && s' == After(k, Init(now), run')
    ensures m.id in s'.outbox.outbox.messages && s'.outbox.outbox.messages[m.id].status == Done
    ensures id in s'.guard.deliveries && s'.guard.deliveries[id].key == m.id
    ensures s'.guard.deliveries[id].phase == Guard.Over(Guard.Completed)
  {
    hide Legal;
    hide After;
    hide Apply;
    hide Enabled;
    hide Reserved;
    run', s' := run, s;
    if k.guard.driver.Redis? {
      FetchFinds(k, s', w, m, id);
      run', s' := TakeStep(k, Init(now), run', s', Consume(Guard.Fetch(id, Idempotency.Fine)));
    }
    WriteCompletes(k, s', w, m, id);
    run', s' := TakeStep(k, Init(now), run', s', Consume(Guard.Write(id, Idempotency.Fine)));
    ReturnRecords(k, s', w, m, id);
    run', s' := TakeStep(k, Init(now), run', s', Return(w));
    run', s' := TakeStep(k, Init(now), run', s', Record(w));
  }

  lemma HeadIsKnown(k: Setup, now: int, run: seq<Label>, w: Dispatch.WorkerId)
    requires Legal(k, Init(now), run) && HasHead(After(k, Init(now), run), w)
    ensures var s := After(k, Init(now), run);
            Head(s, w).id in s.outbox.outbox.messages && Head(s, w).id != ""
  {
    RunKeepsInv(k, now, run);
    var s := After(k, Init(now), run);
    NoEmptyId(s.outbox.outbox);
    assert Dispatch.Snapshot(s.outbox, Dispatch.WorkerAt(s.outbox, w).hand[0]);
  }

  lemma CallDelivers(k: Setup, s: State, w: Dispatch.WorkerId, id: Guard.DeliveryId)
    requires HasHead(s, w) && Dispatch.WorkerAt(s.outbox, w).phase.Between? && id !in s.guard.deliveries
    requires Heard(k, Head(s, w)) && Head(s, w).id in s.outbox.outbox.messages
    ensures Enabled(k, s, Call(w, id))
    ensures var s' := Apply(k, s, Call(w, id));
            && Delivering(s', w, Head(s, w), id, Guard.Asking)
            && s'.guard.rows == s.guard.rows && s'.guard.now == s.guard.now
  {
  }

  lemma AskGrants(k: Setup, s: State, w: Dispatch.WorkerId, m: Message, id: Guard.DeliveryId)
    requires Delivering(s, w, m, id, Guard.Asking) && m.id != "" && m.content.kind != ""
    requires Idempotency.Vacant(k.guard.driver, s.guard.rows, m.id, s.guard.now)
    ensures var l := Consume(Guard.Ask(id, Idempotency.Fine));
            Enabled(k, s, l) && Delivering(Apply(k, s, l), w, m, id, Guard.Running) && Reserved(Apply(k, s, l), m)
  {
    hide Idempotency.Vacant;
  }

  lemma FinishSucceeds(k: Setup, s: State, w: Dispatch.WorkerId, m: Message, id: Guard.DeliveryId)
    requires Delivering(s, w, m, id, Guard.Running) && Reserved(s, m)
    ensures var l := Consume(Guard.Finish(id, Guard.Succeeds(None)));
            && Enabled(k, s, l) && Delivering(Apply(k, s, l), w, m, id, Guard.Phase.Succeeded(None))
            && Reserved(Apply(k, s, l), m)
  {
  }

  lemma FetchFinds(k: Setup, s: State, w: Dispatch.WorkerId, m: Message, id: Guard.DeliveryId)
    requires k.guard.driver.Redis? && Delivering(s, w, m, id, Guard.Phase.Succeeded(None)) && Reserved(s, m)
    ensures var l := Consume(Guard.Fetch(id, Idempotency.Fine));
            && Enabled(k, s, l) && Delivering(Apply(k, s, l), w, m, id, Guard.Completing(m.content.kind, None))
            && Reserved(Apply(k, s, l), m)
  {
  }

  lemma WriteCompletes(k: Setup, s: State, w: Dispatch.WorkerId, m: Message, id: Guard.DeliveryId)
    requires Delivering(s, w, m, id, if k.guard.driver.Redis? then Guard.Completing(m.content.kind, None)
                                     else Guard.Phase.Succeeded(None))
    requires Reserved(s, m)
    ensures var l := Consume(Guard.Write(id, Idempotency.Fine));
            Enabled(k, s, l) && Delivering(Apply(k, s, l), w, m, id, Guard.Over(Guard.Completed))
  {
  }

  lemma ReturnRecords(k: Setup, s: State, w: Dispatch.WorkerId, m: Message, id: Guard.DeliveryId)
    requires Delivering(s, w, m, id, Guard.Over(Guard.Completed))
    ensures Enabled(k, s, Return(w)) && Enabled(k, Apply(k, s, Return(w)), Record(w))
    ensures var s' := Apply(k, Apply(k, s, Return(w)), Record(w));
            && m.id in s'.outbox.outbox.messages && s'.outbox.outbox.messages[m.id].status == Done
            && s'.guard == s.guard
  {
    hide Backoff;
  }

  /** A redelivered envelope of a message whose reservation is completed and lives is replayed, without its handler. */
  lemma CopyIsReplayed(k: Setup, s: State, mid: MessageId, id: Guard.DeliveryId)
    requires mid in s.outbox.outbox.messages && s.outbox.outbox.messages[mid].id == mid != ""
    requires var kind := s.outbox.outbox.messages[mid].content.kind;
             && kind in k.subscribed && kind != "" && id !in s.guard.deliveries
             && mid in s.outbox.starts && s.outbox.starts[mid] != []
             && mid in s.guard.rows && s.guard.rows[mid].fingerprint == kind
             && s.guard.rows[mid].status == Idempotency.Done && s.guard.now < s.guard.rows[mid].expiresAt
    ensures var s1 := Apply(k, s, Redeliver(id, mid));
            var s2 := Apply(k, s1, Consume(Guard.Ask(id, Idempotency.Fine)));
            var s3 := if k.guard.driver.Memory? then s2 else Apply(k, s2, Consume(Guard.Read(id, Idempotency.Fine)));
            && Enabled(k, s, Redeliver(id, mid)) && Enabled(k, s1, Consume(Guard.Ask(id, Idempotency.Fine)))
            && (!k.guard.driver.Memory? ==> Enabled(k, s2, Consume(Guard.Read(id, Idempotency.Fine))))
            && id in s3.guard.deliveries && s3.guard.deliveries[id].key == mid
            && s3.guard.deliveries[id].phase == Guard.Over(Guard.Replayed(s.guard.rows[mid].response))
            && s3.guard.rows == s.guard.rows
  {
  }

  /**
   The verdict a dispatcher records is that of the delivery it made: of one that is over
   for a subscribed message, and plain delivery where nobody is subscribed.
   */
  lemma VerdictIsOfItsDelivery(k: Setup, now: int, run: seq<Label>, w: Dispatch.WorkerId)
    requires Legal(k, Init(now), run) && Enabled(k, After(k, Init(now), run), Return(w))
    ensures var s := After(k, Init(now), run);
            && HasHead(s, w)
            && if Head(s, w).content.kind in k.subscribed then
                 && w in s.link && s.link[w] in s.guard.deliveries
                 && var d := s.guard.deliveries[s.link[w]];
                    d.key == Head(s, w).id && d.phase.Over? && Verdict(s, w) == VerdictOf(d.phase.end)
               else Verdict(s, w) == Dispatch.Delivered
  {
    RunKeepsInv(k, now, run);
    hide Legal;
    hide After;
    assert LinkSound(k, After(k, Init(now), run), w);
    hide Inv;
    hide VerdictOf;
  }

  /**
   Nothing is acknowledged unheard: in every reachable state, on every driver and
   with no assumption on handler durations, a done message with a subscribed
   handler had its handler run to success at least once.
   */
  lemma DoneMeansHandled(k: Setup, now: int, run: seq<Label>, id: MessageId)
    requires Legal(k, Init(now), run)
    requires id in After(k, Init(now), run).outbox.outbox.messages
    requires After(k, Init(now), run).outbox.outbox.messages[id].status == Done
    requires After(k, Init(now), run).outbox.outbox.messages[id].content.kind in k.subscribed
    ensures Succeeded(After(k, Init(now), run).guard, id)
  {
    RunKeepsInv(k, now, run);
    hide Dispatch.Inv;
    hide LinksSound;
    hide GuardSafe;
  }

  /**
   Nothing is phantom, and the guard's client errors are unreachable: every
   delivery carries the identifier and the type of a message enqueued before it,
   and none ends with a missing identifier or a fingerprint conflict.
   */
  lemma DeliveriesAreGenuine(k: Setup, now: int, run: seq<Label>, id: Guard.DeliveryId)
    requires Legal(k, Init(now), run) && id in After(k, Init(now), run).guard.deliveries
    ensures var s := After(k, Init(now), run);
            var d := s.guard.deliveries[id];
            && d.key in s.outbox.outbox.messages
            && s.outbox.outbox.messages[d.key].content.kind == d.fingerprint
            && s.outbox.outbox.messages[d.key].createdAt <= s.guard.now
            && d.phase != Guard.Over(Guard.NoId)
            && d.phase != Guard.Over(Guard.Refused(Idempotency.Conflict))
  {
    RunKeepsInv(k, now, run);
    hide Dispatch.Inv;
    hide LinksSound;
    hide DonesSucceeded;
    var s := After(k, Init(now), run);
    assert DeliverySafe(s.guard, s.outbox.outbox.messages, s.guard.deliveries[id]);
  }

  /**
   End to end, effectively once, with no proviso: on every driver, however late
   handlers end and whatever commands fail, a done and heard message whose window
   has not closed has exactly one delivery whose handler ran to success.
   */
  lemma ExactlyOnceInsideTheWindow(k: Setup, now: int, run: seq<Label>, id: MessageId)
    requires Legal(k, Init(now), run)
    requires id in After(k, Init(now), run).outbox.outbox.messages
    requires var s := After(k, Init(now), run);
             var m := s.outbox.outbox.messages[id];
             m.status == Done && m.content.kind in k.subscribed && s.guard.now < m.createdAt + k.guard.ttl
    ensures var g := After(k, Init(now), run).guard;
            exists i :: i in g.deliveries && g.deliveries[i].key == id && g.deliveries[i].HasSucceeded() &&
              forall j :: j in g.deliveries && g.deliveries[j].key == id && g.deliveries[j].HasSucceeded() ==> j == i
  {
    DoneMeansHandled(k, now, run, id);
    var s := After(k, Init(now), run);
    var i :| i in s.guard.deliveries && s.guard.deliveries[i].key == id && s.guard.deliveries[i].HasSucceeded();
    forall j | j in s.guard.deliveries && s.guard.deliveries[j].key == id && s.guard.deliveries[j].HasSucceeded()
      ensures j == i
    {
      AtMostOnceInsideTheWindow(k, now, run, i, j);
    }
  }

  /** While the window of a message is open, done or not, at most one of its deliveries ran to success. */
  lemma AtMostOnceInsideTheWindow(k: Setup, now: int, run: seq<Label>, i: Guard.DeliveryId, j: Guard.DeliveryId)
    requires Legal(k, Init(now), run)
    requires var s := After(k, Init(now), run);
             && i in s.guard.deliveries && j in s.guard.deliveries
             && s.guard.deliveries[i].key == s.guard.deliveries[j].key
             && s.guard.deliveries[i].HasSucceeded() && s.guard.deliveries[j].HasSucceeded()
             && (s.guard.deliveries[i].key in s.outbox.outbox.messages ==>
                   s.guard.now < s.outbox.outbox.messages[s.guard.deliveries[i].key].createdAt + k.guard.ttl)
    ensures i == j
  {
    RunKeepsInv(k, now, run);
    ChainRefinesGuard(k, Init(now), run);
    var s := After(k, Init(now), run);
    hide Dispatch.Inv;
    hide LinksSound;
    hide DonesSucceeded;
    hide Legal;
    hide Timely;
    hide After;
    DeliveriesAreReserved(s.guard, s.outbox.outbox.messages, i);
    var since := s.outbox.outbox.messages[s.guard.deliveries[i].key].createdAt;
    Guard.SuccessesInWindowCoincide(k.guard, now, GuardRun(k, Init(now), run), i, j, since);
  }

  /** Every reservation of a message's key was made after the message was created. */
  lemma DeliveriesAreReserved(g: Guard.State, messages: map<MessageId, Message>, i: Guard.DeliveryId)
    requires GuardSafe(g, messages) && i in g.deliveries
    ensures g.deliveries[i].key in messages
    ensures Guard.ReservedSince(g, g.deliveries[i].key, messages[g.deliveries[i].key].createdAt)
  {
    assert DeliverySafe(g, messages, g.deliveries[i]);
    forall id | id in g.deliveries && g.deliveries[id].key == g.deliveries[i].key && g.deliveries[id].reservedAt.Some?
      ensures messages[g.deliveries[i].key].createdAt <= g.deliveries[id].reservedAt.value
    {
      assert DeliverySafe(g, messages, g.deliveries[id]);
    }
  }

  /** The deliveries of one message carry one fingerprint, so its replays were memorised for it. */
  lemma ReplaysAreTheMessages(k: Setup, now: int, run: seq<Label>, id: Guard.DeliveryId)
    requires Legal(k, Init(now), run) && id in After(k, Init(now), run).guard.deliveries
    requires After(k, Init(now), run).guard.deliveries[id].phase.Over?
    requires After(k, Init(now), run).guard.deliveries[id].phase.end.Replayed?
    ensures var g := After(k, Init(now), run).guard;
            var d := g.deliveries[id];
            (d.key, d.fingerprint, d.phase.end.response) in g.memorised
  {
    RunKeepsInv(k, now, run);
    ChainRefinesGuard(k, Init(now), run);
    var s := After(k, Init(now), run);
    hide Dispatch.Inv;
    hide LinksSound;
    hide DonesSucceeded;
    hide Legal;
    hide Timely;
    hide After;
    var g, key := s.guard, s.guard.deliveries[id].key;
    forall i, j | i in g.deliveries && j in g.deliveries && g.deliveries[i].key == key && g.deliveries[j].key == key
      ensures g.deliveries[i].fingerprint == g.deliveries[j].fingerprint
    {
      assert DeliverySafe(g, s.outbox.outbox.messages, g.deliveries[i]);
      assert DeliverySafe(g, s.outbox.outbox.messages, g.deliveries[j]);
    }
    Guard.ReplaysWereMemorised(k.guard, now, GuardRun(k, Init(now), run), id);
  }
}
