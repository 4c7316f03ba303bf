/**
 One guarded consumption as the code runs it (internal/infrastructure/subscriber/once.go),
 the relay's envelope (internal/infrastructure/relay/relay.go) and the in-process bus
 (internal/infrastructure/messaging/inproc.go), over the idempotency store of any
 driver, whose commands may fail.
 */
module Once {
  import opened Wrappers
  import opened OutboxDomain
  import opened Idempotency
  import Guard

  datatype Envelope = Envelope(
    id: string, kind: string, aggregateId: string, payload: string, traceParent: string,
    occurredAt: int, headers: map<string, string>)

  function EnvelopeOf(m: Message): Envelope {
    Envelope(m.id, m.content.kind, m.content.aggregateId, m.content.payload, m.content.traceParent,
             m.createdAt, m.content.headers)
  }

  /** What a consumer reads out of an envelope. */
  function ContentOf(env: Envelope): NewMessage {
    NewMessage(env.kind, env.aggregateId, env.payload, env.traceParent, env.headers)
  }

  /**
   The relay neither drops nor moves a field: each field of the envelope is its own
   field of the message, and the consumer reads back what was enqueued, and when.
   */
  lemma EnvelopeLosesNothing(m: Message, m': Message)
    ensures var env := EnvelopeOf(m);
            && env.id == m.id && env.occurredAt == m.createdAt && env.kind == m.content.kind
            && env.aggregateId == m.content.aggregateId && env.payload == m.content.payload
            && env.traceParent == m.content.traceParent && env.headers == m.content.headers
    ensures ContentOf(EnvelopeOf(m)) == m.content
    ensures EnvelopeOf(m) == EnvelopeOf(m')
            <==> m.id == m'.id && m.content == m'.content && m.createdAt == m'.createdAt
  {
  }

  /** A handler's failure carries whether the key was given back; an unmarked success, why. */
  datatype ConsumeError = MissingId | Refused(error: Error) | HandlerFailed(released: bool) | NotMarked(error: Error)

  /** What the transport sees: an acknowledgement, an error, or a panic going through. */
  datatype Consumed = Acked | Errored(error: ConsumeError) | Panicking

  /** The rows left, the answer to the transport, and whether the handler ran. */
  datatype Trace = Trace(rows: Rows, answer: Consumed, ran: bool)

  /** One guarded consumption: reserved at `at`, the handler over at `later`. */
  function Consumption(
    driver: Driver, rows: Rows, env: Envelope, how: Guard.HandlerEnd, faults: Faults, at: int, later: int, ttl: int)
    : Trace
  {
    var (held, reservation) := Reserving(driver, rows, Request(env.id, env.kind), at, ttl, faults.ask, faults.read);
    if env.id == "" then Trace(rows, Errored(MissingId), false)
    else if reservation.Err? then Trace(held, Errored(Refused(reservation.error)), false)
    else if reservation.value.replayed then Trace(held, Acked, false)
    else Handled(driver, held, env.id, how, faults, later)
  }

  /** The handler has run, and its end is recorded. */
  function Handled(driver: Driver, held: Rows, key: string, how: Guard.HandlerEnd, faults: Faults, later: int): Trace {
    match how
    case Fails =>
      var (left, released) := ReleasingCall(driver, held, key, later, faults.fetch, faults.write);
      Trace(left, Errored(HandlerFailed(released.Ok?)), true)
    case Panics => Trace(held, Panicking, true)
    case Succeeds(_) =>
      var (done, marked) := CompletingCall(driver, held, key, None, later, faults.fetch, faults.write);
      Trace(done, if marked.Ok? then Acked else Errored(NotMarked(marked.error)), true)
  }

  method Consume(port: Port, env: Envelope, how: Guard.HandlerEnd, faults: Faults, at: int, later: int)
    returns (r: Consumed, ran: bool)
    requires faults.Possible(port.Which())
    modifies port.Footprint()
    ensures Trace(port.Content(), r, ran) ==
            Consumption(port.Which(), old(port.Content()), env, how, faults, at, later, port.Ttl())
    ensures ran <==>
            && env.id != "" && env.kind != "" && faults.ask.Fine?
            && Vacant(port.Which(), old(port.Content()), env.id, at)
    ensures ran ==>
              match how
              case Succeeds(_) => r == Acked || (r.Errored? && r.error.NotMarked?)
              case Fails => r.Errored? && r.error.HandlerFailed?
              case Panics => r.Panicking?
    ensures !ran ==>
              && (r == Acked ==>
                    && env.id in old(port.Content()) && old(port.Content())[env.id].status == Idempotency.Done
                    && old(port.Content())[env.id].fingerprint == env.kind)
              && (r.Errored? ==> if env.id == "" then r.error == MissingId else r.error.Refused?)
              && !r.Panicking?
    ensures env.id != "" && env.kind == "" ==> r == Errored(Refused(Incomplete))
    ensures env.id != "" && env.kind != "" && faults.ask.Fine? && faults.read.Fine?
            && env.id in old(port.Content()) && at < old(port.Content())[env.id].expiresAt ==>
              var held := old(port.Content())[env.id];
              r == if held.fingerprint != env.kind then Errored(Refused(Conflict))
                   else if held.status == Idempotency.InFlight then Errored(Refused(AlreadyInFlight))
                   else Acked
    ensures r == Acked ==>
              && env.id in port.Content() && port.Content()[env.id].status == Idempotency.Done
              && port.Content()[env.id].fingerprint == env.kind
    ensures forall key :: key != env.id ==>
              (key in port.Content() <==> key in old(port.Content()))
              && (key in port.Content() ==> port.Content()[key] == old(port.Content())[key])
  {
    ran := false;
    if env.id == "" {
      return Errored(MissingId), false;
    }
    var reservation := port.Reserve(Request(env.id, env.kind), at, faults);
    if reservation.Err? {
      return Errored(Refused(reservation.error)), false;
    }
    if reservation.value.replayed {
      return Acked, false;
    }
    ran := true;
    match how
    case Panics => return Panicking, true;
    case Fails =>
      var released := port.Release(env.id, later, faults);
      return Errored(HandlerFailed(released.Ok?)), true;
    case Succeeds(_) =>
      var marked := port.Complete(env.id, None, later, faults);
      if marked.Err? {
        return Errored(NotMarked(marked.error)), true;
      }
      return Acked, true;
  }

  /**
   The effect takes place once: after a consumption whose handler succeeded before
   its reservation expired and was marked, every further copy of the envelope whose
   commands are answered is acknowledged without running, for as long as the
   reservation lives, on every driver.
   */
  lemma CopyIsAcknowledged(
    driver: Driver, rows: Rows, env: Envelope, response: Option<string>, faults: Faults, at: int, later: int, ttl: int,
    how: Guard.HandlerEnd, next: Faults, again: int, over: int)
    requires var first := Consumption(driver, rows, env, Guard.Succeeds(response), faults, at, later, ttl);
             first.ran && first.answer == Acked
    requires at <= again < at + ttl && next.ask.Fine? && next.read.Fine?
    ensures var done := Consumption(driver, rows, env, Guard.Succeeds(response), faults, at, later, ttl).rows;
            Consumption(driver, done, env, how, next, again, over, ttl) == Trace(done, Acked, false)
  {
  }

  /** An expired reservation, as the driver tells it. */
  predicate Expired(driver: Driver, expiresAt: int, now: int) {
    if driver.Postgres? then expiresAt < now else expiresAt <= now
  }

  /** Whether the releasing commands take effect. */
  predicate ReleaseTakesEffect(driver: Driver, faults: Faults) {
    !faults.write.Lost? && (driver.Redis? ==> faults.fetch.Fine?)
  }

  /**
   After a failed handler the next copy runs at once exactly when the release took
   effect; otherwise it is refused until the reservation expires.
   */
  lemma FailureIsRetried(
    driver: Driver, rows: Rows, env: Envelope, faults: Faults, at: int, later: int, ttl: int,
    how: Guard.HandlerEnd, next: Faults, again: int, over: int)
    requires Consumption(driver, rows, env, Guard.Fails, faults, at, later, ttl).ran
    requires later <= again && next.ask.Fine? && next.read.Fine?
    ensures var left := Consumption(driver, rows, env, Guard.Fails, faults, at, later, ttl).rows;
            var copy := Consumption(driver, left, env, how, next, again, over, ttl);
            && (copy.ran <==> ReleaseTakesEffect(driver, faults) || Expired(driver, at + ttl, again))
            && (!copy.ran ==> copy == Trace(left, Errored(Refused(AlreadyInFlight)), false))
  {
  }

  /**
   A panicking handler keeps the key locked: copies of the envelope are refused
   until the reservation expires, and run again from that instant on.
   */
  lemma PanicLocksUntilExpiry(
    driver: Driver, rows: Rows, env: Envelope, faults: Faults, at: int, later: int, ttl: int,
    how: Guard.HandlerEnd, next: Faults, again: int, over: int)
    requires Consumption(driver, rows, env, Guard.Panics, faults, at, later, ttl).ran
    requires next.ask.Fine? && next.read.Fine?
    ensures var locked := Consumption(driver, rows, env, Guard.Panics, faults, at, later, ttl).rows;
            var copy := Consumption(driver, locked, env, how, next, again, over, ttl);
            && (copy.ran <==> Expired(driver, at + ttl, again))
            && (!copy.ran ==> copy == Trace(locked, Errored(Refused(AlreadyInFlight)), false))
  {
  }

  // ---- The guard machine runs this code ----

  /** The answer the machine's delivery ends with. */
  function AnswerOf(driver: Driver, end: Guard.End): Consumed {
    match end
    case NoId => Errored(MissingId)
    case NoFingerprint => Errored(Refused(Incomplete))
    case Refused(error) => Errored(Refused(error))
    case Replayed(_) => Acked
    case Completed => Acked
    case NotMarked => Errored(NotMarked(NotReserved))
    case Unconfirmed => Errored(NotMarked(FaultError(driver)))
    case GivenBack(heard) => Errored(HandlerFailed(heard))
    case Unreleased => Errored(HandlerFailed(false))
    case Crashed => Panicking
  }

  lemma TakeStep(c: Guard.Config, s0: Guard.State, run: seq<Guard.Label>, s: Guard.State, l: Guard.Label)
    returns (run': seq<Guard.Label>, s': Guard.State)
    requires Guard.Legal(c, s0, run) && s == Guard.After(c, s0, run) && Guard.Enabled(c, s, l)
    ensures run' == run + [l] && s' == Guard.Apply(c, s, l)
    ensures Guard.Legal(c, s0, run') && s' == Guard.After(c, s0, run')
  {
    Guard.Extend(c, s0, run, l);
    run', s' := run + [l], Guard.Apply(c, s, l);
  }

  /** What the first command, and the second where there is one, make of a delivery that asks. */
  lemma AskAnswers(c: Guard.Config, s: Guard.State, id: Guard.DeliveryId, faults: Faults)
    requires id in s.deliveries && s.deliveries[id].phase == Guard.Asking && faults.Possible(c.driver)
    ensures var d := s.deliveries[id];
            var ask := if d.key != "" && d.fingerprint != "" then faults.ask else Fine;
            var (rows, answer) := Reserving(c.driver, s.rows, d.Req(), s.now, c.ttl, faults.ask, faults.read);
            var s1 := Guard.ApplyAsk(c, s, id, ask);
            && id in s1.deliveries
            && var s2 := if s1.deliveries[id].phase.Inspecting? then Guard.ApplyRead(c, s1, id, faults.read) else s1;
            && s2.now == s.now && s2.rows == rows && id in s2.deliveries
            && s2.deliveries[id].key == d.key && s2.deliveries[id].fingerprint == d.fingerprint
            && s2.deliveries[id].phase ==
               if d.key == "" then Guard.Over(Guard.NoId)
               else if d.fingerprint == "" then Guard.Over(Guard.NoFingerprint)
               else if answer == GRANTED then Guard.Running
               else Guard.Over(Guard.EndOf(answer))
  {
  }

  /** Begin, Ask and, where the key is taken, Read: the reserving half of a consumption. */
  lemma AskIsRun(
    c: Guard.Config, s0: Guard.State, run: seq<Guard.Label>, s: Guard.State, id: Guard.DeliveryId,
    env: Envelope, faults: Faults)
    returns (run': seq<Guard.Label>, s': Guard.State)
    requires Guard.Legal(c, s0, run) && s == Guard.After(c, s0, run) && id !in s.deliveries && faults.Possible(c.driver)
    ensures Guard.Legal(c, s0, run') && s' == Guard.After(c, s0, run') && run <= run'
    ensures var req := Request(env.id, env.kind);
            var (rows, answer) := Reserving(c.driver, s.rows, req, s.now, c.ttl, faults.ask, faults.read);
            && s'.now == s.now && s'.rows == rows && id in s'.deliveries
            && s'.deliveries[id].key == env.id && s'.deliveries[id].fingerprint == env.kind
            && s'.deliveries[id].phase ==
               if env.id == "" then Guard.Over(Guard.NoId)
               else if env.kind == "" then Guard.Over(Guard.NoFingerprint)
               else if answer == GRANTED then Guard.Running
               else Guard.Over(Guard.EndOf(answer))
  {
    hide Guard.Legal;
    hide Guard.After;
    var ask := if env.id != "" && env.kind != "" then faults.ask else Fine;
    run', s' := TakeStep(c, s0, run, s, Guard.Begin(id, env.id, env.kind));
    var s1 := s';
    AskAnswers(c, s1, id, faults);
    run', s' := TakeStep(c, s0, run', s', Guard.Ask(id, ask));
    hide Reserving;
    hide Guard.EndOf;
    hide Guard.ApplyAsk;
    hide Guard.ApplyRead;
    if s'.deliveries[id].phase.Inspecting? {
      run', s' := TakeStep(c, s0, run', s', Guard.Read(id, faults.read));
    }
  }

  /** The handler, once the reservation is granted. */
  lemma HandlerIsRun(
    c: Guard.Config, s0: Guard.State, run: seq<Guard.Label>, s: Guard.State, id: Guard.DeliveryId,
    how: Guard.HandlerEnd, elapsed: nat)
    returns (run': seq<Guard.Label>, s': Guard.State)
    requires Guard.Legal(c, s0, run) && s == Guard.After(c, s0, run)
    requires id in s.deliveries && s.deliveries[id].phase == Guard.Running
    ensures Guard.Legal(c, s0, run') && s' == Guard.After(c, s0, run') && run <= run'
    ensures s'.rows == s.rows && s'.now == s.now + elapsed && id in s'.deliveries
    ensures s'.deliveries[id] == s.deliveries[id].(phase :=
              match how
              case Panics => Guard.Over(Guard.Crashed)
              case Fails => Guard.Failed
              case Succeeds(response) => Guard.Succeeded(response))
  {
    hide Guard.Legal;
    hide Guard.After;
    run', s' := TakeStep(c, s0, run, s, Guard.Tick(elapsed));
    run', s' := TakeStep(c, s0, run', s', Guard.Finish(id, how));
  }

  /** Recording a success: on Redis a fetch first. */
  lemma CompletionIsRun(
    c: Guard.Config, s0: Guard.State, run: seq<Guard.Label>, s: Guard.State, id: Guard.DeliveryId, faults: Faults)
    returns (run': seq<Guard.Label>, s': Guard.State)
    requires Guard.Legal(c, s0, run) && s == Guard.After(c, s0, run) && faults.Possible(c.driver)
    requires id in s.deliveries && s.deliveries[id].phase == Guard.Succeeded(None)
    ensures Guard.Legal(c, s0, run') && s' == Guard.After(c, s0, run') && run <= run'
    ensures var (rows, marked) :=
              CompletingCall(c.driver, s.rows, s.deliveries[id].key, None, s.now, faults.fetch, faults.write);
            && s'.rows == rows && id in s'.deliveries && s'.deliveries[id].phase.Over?
            && s'.deliveries[id].key == s.deliveries[id].key
            && AnswerOf(c.driver, s'.deliveries[id].phase.end) ==
               if marked.Ok? then Acked else Errored(NotMarked(marked.error))
  {
    hide Guard.Legal;
    hide Guard.After;
    run', s' := run, s;
    if c.driver.Redis? {
      run', s' := TakeStep(c, s0, run', s', Guard.Fetch(id, faults.fetch));
    }
    if !s'.deliveries[id].phase.Over? {
      run', s' := TakeStep(c, s0, run', s', Guard.Write(id, faults.write));
    }
  }

  /** Recording a failure: on Redis a fetch first. */
  lemma ReleaseIsRun(
    c: Guard.Config, s0: Guard.State, run: seq<Guard.Label>, s: Guard.State, id: Guard.DeliveryId, faults: Faults)
    returns (run': seq<Guard.Label>, s': Guard.State)
    requires Guard.Legal(c, s0, run) && s == Guard.After(c, s0, run) && faults.Possible(c.driver)
    requires id in s.deliveries && s.deliveries[id].phase == Guard.Failed
    ensures Guard.Legal(c, s0, run') && s' == Guard.After(c, s0, run') && run <= run'
    ensures var (rows, released) :=
              ReleasingCall(c.driver, s.rows, s.deliveries[id].key, s.now, faults.fetch, faults.write);
            && s'.rows == rows && id in s'.deliveries && s'.deliveries[id].phase.Over?
            && s'.deliveries[id].key == s.deliveries[id].key
            && AnswerOf(c.driver, s'.deliveries[id].phase.end) == Errored(HandlerFailed(released.Ok?))
  {
    hide Guard.Legal;
    hide Guard.After;
    run', s' := run, s;
    if c.driver.Redis? {
      run', s' := TakeStep(c, s0, run', s', Guard.Fetch(id, faults.fetch));
    }
    if !s'.deliveries[id].phase.Over? {
      run', s' := TakeStep(c, s0, run', s', Guard.Write(id, faults.write));
    }
  }

  /**
   From any state of the machine and on every driver, the code's consumption, its
   failing commands included, is a legal run with the same rows and answer.
   */
  lemma ConsumptionIsRun(
    c: Guard.Config, s0: Guard.State, run: seq<Guard.Label>, s: Guard.State, id: Guard.DeliveryId,
    env: Envelope, how: Guard.HandlerEnd, faults: Faults, elapsed: nat)
    returns (run': seq<Guard.Label>)
    requires Guard.Legal(c, s0, run) && s == Guard.After(c, s0, run) && id !in s.deliveries && faults.Possible(c.driver)
    requires how.Succeeds? ==> how.response == None
    ensures var t := Consumption(c.driver, s.rows, env, how, faults, s.now, s.now + elapsed, c.ttl);
            var s' := Guard.After(c, s0, run');
            && run <= run' && Guard.Legal(c, s0, run')
            && s'.rows == t.rows
            && id in s'.deliveries && s'.deliveries[id].phase.Over?
            && AnswerOf(c.driver, s'.deliveries[id].phase.end) == t.answer
            && s'.deliveries[id].key == env.id
  {
    hide Guard.Legal;
    hide Guard.After;
    hide Reserving;
    hide Guard.EndOf;
    hide AnswerOf;
    hide Consumption;
    hide Handled;
    var s1;
    run', s1 := AskIsRun(c, s0, run, s, id, env, faults);
    AskedEnds(c, s, env, how, faults, elapsed);
    if s1.deliveries[id].phase.Running? {
      var s2;
      run', s2 := WorkIsRun(c, s0, run', s1, id, how, faults, elapsed);
    }
  }

  /** The handler and what records its end. */
  lemma WorkIsRun(
    c: Guard.Config, s0: Guard.State, run: seq<Guard.Label>, s: Guard.State, id: Guard.DeliveryId,
    how: Guard.HandlerEnd, faults: Faults, elapsed: nat)
    returns (run': seq<Guard.Label>, s': Guard.State)
    requires Guard.Legal(c, s0, run) && s == Guard.After(c, s0, run) && faults.Possible(c.driver)
    requires how.Succeeds? ==> how.response == None
    requires id in s.deliveries && s.deliveries[id].phase == Guard.Running
    ensures Guard.Legal(c, s0, run') && s' == Guard.After(c, s0, run') && run <= run'
    ensures var t := Handled(c.driver, s.rows, s.deliveries[id].key, how, faults, s.now + elapsed);
            && s'.rows == t.rows && id in s'.deliveries && s'.deliveries[id].phase.Over?
            && s'.deliveries[id].key == s.deliveries[id].key
            && AnswerOf(c.driver, s'.deliveries[id].phase.end) == t.answer
  {
    hide Guard.Legal;
    hide Guard.After;
    hide CompletingCall;
    hide ReleasingCall;
    run', s' := HandlerIsRun(c, s0, run, s, id, how, elapsed);
    if how.Succeeds? {
      run', s' := CompletionIsRun(c, s0, run', s', id, faults);
    } else if how.Fails? {
      run', s' := ReleaseIsRun(c, s0, run', s', id, faults);
    }
  }

  /** Unless the key was granted, the consumption is over with the answer to the reservation. */
  lemma AskedEnds(c: Guard.Config, s: Guard.State, env: Envelope, how: Guard.HandlerEnd, faults: Faults, elapsed: nat)
    ensures var req := Request(env.id, env.kind);
            var (rows, answer) := Reserving(c.driver, s.rows, req, s.now, c.ttl, faults.ask, faults.read);
            var t := Consumption(c.driver, s.rows, env, how, faults, s.now, s.now + elapsed, c.ttl);
            if answer == GRANTED then
              env.id != "" && env.kind != "" && t == Handled(c.driver, rows, env.id, how, faults, s.now + elapsed)
            else
              && t.rows == rows
              && t.answer == AnswerOf(c.driver, if env.id == "" then Guard.NoId
                                                else if env.kind == "" then Guard.NoFingerprint
                                                else Guard.EndOf(answer))
  {
    hide CompletingCall;
    hide ReleasingCall;
  }

  // ---- The in-process bus ----

  /** How one subscribed handler goes: its end, its commands, and the instants of its reservation and of its end. */
  datatype Turn = Turn(how: Guard.HandlerEnd, faults: Faults, at: int, later: int)

  class Bus {
    var handlers: map<string, nat>
    const port: Port

    constructor (port: Port)
      ensures this.port == port && handlers == map[]
    {
      this.port, handlers := port, map[];
    }

    function Subscribed(kind: string): nat
      reads this
    {
      if kind in handlers then handlers[kind] else 0
    }

    /** Adds one guarded handler for an event type. */
    method Subscribe(kind: string)
      modifies this
      ensures Subscribed(kind) == old(Subscribed(kind)) + 1
      ensures forall other :: other != kind ==> Subscribed(other) == old(Subscribed(other))
    {
      handlers := handlers[kind := (if kind in handlers then handlers[kind] else 0) + 1];
    }

    /**
     Hands the envelope to every handler in turn and joins their errors: exactly the
     errors answered, in order. A panic goes through at once, and the handlers after it
     are not called. Without one, nothing is joined exactly when all acknowledged.
     */
    method Publish(env: Envelope, turns: seq<Turn>)
      returns (failures: seq<ConsumeError>, panicked: bool, ghost walk: Walk, ghost at: seq<nat>)
      requires |turns| == Subscribed(env.kind) && this !in port.Footprint()
      requires forall i :: 0 <= i < |turns| ==> turns[i].faults.Possible(port.Which())
      modifies port.Footprint()
      ensures Walks(port.Which(), old(port.Content()), env, turns, port.Ttl(), walk)
      ensures port.Content() == walk.rows[|walk.answers|]
      ensures panicked <==> exists i :: 0 <= i < |walk.answers| && walk.answers[i].Panicking?
      ensures if panicked then walk.answers[|walk.answers| - 1].Panicking? else |walk.answers| == |turns|
      ensures |at| == |failures| && forall k, l :: 0 <= k < l < |at| ==> at[k] < at[l]
      ensures forall k :: 0 <= k < |at| ==> at[k] < |walk.answers| && walk.answers[at[k]] == Errored(failures[k])
      ensures forall i: nat :: i < |walk.answers| && walk.answers[i].Errored? ==> i in at
      ensures !panicked ==> (failures == [] <==> forall i :: 0 <= i < |turns| ==> walk.answers[i] == Acked)
    {
      hide Consumption;
      hide Vacant;
      hide Joined;
      hide Walking;
      hide Walks;
      failures, panicked, walk, at := [], false, Walk([port.Content()], [], []), [];
      NothingWalked(port.Which(), port.Content(), env, turns, port.Ttl());
      for i := 0 to |turns|
        invariant Walking(port.Which(), old(port.Content()), env, turns, port.Ttl(), walk)
        invariant |walk.answers| == i && |walk.rows| == i + 1 && port.Content() == walk.rows[i]
        invariant forall n :: 0 <= n < i ==> !walk.answers[n].Panicking?
        invariant Joined(walk.answers, failures, at)
      {
        var turn := turns[i];
        var answer, ran := Consume(port, env, turn.how, turn.faults, turn.at, turn.later);
        WalkOn(port.Which(), old(port.Content()), env, turns, port.Ttl(), walk, Trace(port.Content(), answer, ran));
        JoinOn(walk.answers, failures, at, answer);
        walk := Walk(walk.rows + [port.Content()], walk.answers + [answer], walk.runs + [ran]);
        if answer.Panicking? {
          panicked := true;
          WalkEnds(port.Which(), old(port.Content()), env, turns, port.Ttl(), walk);
          JoinedIs(walk.answers, failures, at);
          return;
        }
        if answer.Errored? {
          failures, at := failures + [answer.error], at + [i];
        }
      }
      WalkEnds(port.Which(), old(port.Content()), env, turns, port.Ttl(), walk);
      JoinedIs(walk.answers, failures, at);
    }
  }

  /** The errors joined are those answered, in order; `at` says where. */
  ghost predicate Joined(answers: seq<Consumed>, failures: seq<ConsumeError>, at: seq<nat>) {
    && |at| == |failures| && (forall k, l :: 0 <= k < l < |at| ==> at[k] < at[l])
    && (forall k :: 0 <= k < |at| ==> at[k] < |answers| && answers[at[k]] == Errored(failures[k]))
    && (forall i: nat :: i < |answers| && answers[i].Errored? ==> i in at)
  }

  lemma JoinOn(answers: seq<Consumed>, failures: seq<ConsumeError>, at: seq<nat>, answer: Consumed)
    requires Joined(answers, failures, at)
    ensures answer.Errored? ==> Joined(answers + [answer], failures + [answer.error], at + [|answers|])
    ensures !answer.Errored? ==> Joined(answers + [answer], failures, at)
  {
    if answer.Errored? {
      assert (at + [|answers|])[|at|] == |answers|;
      forall i: nat | i < |answers| && answers[i].Errored? ensures i in at + [|answers|] {
      }
    }
  }

  lemma JoinedIs(answers: seq<Consumed>, failures: seq<ConsumeError>, at: seq<nat>)
    requires Joined(answers, failures, at)
    ensures |at| == |failures| && forall k, l :: 0 <= k < l < |at| ==> at[k] < at[l]
    ensures forall k :: 0 <= k < |at| ==> at[k] < |answers| && answers[at[k]] == Errored(failures[k])
    ensures forall i: nat :: i < |answers| && answers[i].Errored? ==> i in at
    ensures failures == [] <==> forall i :: 0 <= i < |answers| ==> !answers[i].Errored?
  {
    assert failures != [] ==> answers[at[0]].Errored?;
  }

  lemma NothingWalked(driver: Driver, rows: Rows, env: Envelope, turns: seq<Turn>, ttl: int)
    ensures Walking(driver, rows, env, turns, ttl, Walk([rows], [], [])) && Joined([], [], [])
  {
  }

  lemma WalkOn(driver: Driver, rows: Rows, env: Envelope, turns: seq<Turn>, ttl: int, walk: Walk, t: Trace)
    requires Walking(driver, rows, env, turns, ttl, walk) && |walk.answers| < |turns|
    requires var turn := turns[|walk.answers|];
             t == Consumption(driver, walk.rows[|walk.answers|], env, turn.how, turn.faults, turn.at, turn.later, ttl)
    ensures Walking(driver, rows, env, turns, ttl,
                    Walk(walk.rows + [t.rows], walk.answers + [t.answer], walk.runs + [t.ran]))
  {
    hide Consumption;
  }

  lemma WalkEnds(driver: Driver, rows: Rows, env: Envelope, turns: seq<Turn>, ttl: int, walk: Walk)
    requires Walking(driver, rows, env, turns, ttl, walk)
    requires forall i :: 0 <= i < |walk.answers| - 1 ==> !walk.answers[i].Panicking?
    requires |walk.answers| < |turns| ==> walk.answers != [] && walk.answers[|walk.answers| - 1].Panicking?
    ensures Walks(driver, rows, env, turns, ttl, walk)
  {
  }

  /** A walk over the handlers: the rows before and after each call, the answers, and which handlers ran. */
  datatype Walk = Walk(rows: seq<Rows>, answers: seq<Consumed>, runs: seq<bool>)

  ghost predicate Walking(driver: Driver, rows: Rows, env: Envelope, turns: seq<Turn>, ttl: int, walk: Walk) {
    && |walk.runs| == |walk.answers| <= |turns| && |walk.rows| == |walk.answers| + 1 && walk.rows[0] == rows
    && forall i :: 0 <= i < |walk.answers| ==>
         Trace(walk.rows[i + 1], walk.answers[i], walk.runs[i]) ==
         Consumption(driver, walk.rows[i], env, turns[i].how, turns[i].faults, turns[i].at, turns[i].later, ttl)
  }

  /** It ends with the last handler, or with the first that panics. */
  ghost predicate Walks(driver: Driver, rows: Rows, env: Envelope, turns: seq<Turn>, ttl: int, walk: Walk) {
    && Walking(driver, rows, env, turns, ttl, walk)
    && (forall i :: 0 <= i < |walk.answers| - 1 ==> !walk.answers[i].Panicking?)
    && (|walk.answers| < |turns| ==> walk.answers != [] && walk.answers[|walk.answers| - 1].Panicking?)
  }

  /**
   Why one guarded handler per event type: the key is the envelope's identifier
   alone, so once the first handler succeeds, no later handler of the same
   envelope runs while its reservation lives, and all are acknowledged.
   */
  lemma LaterHandlersNeverRun(driver: Driver, rows: Rows, env: Envelope, turns: seq<Turn>, ttl: int, walk: Walk)
    requires Walks(driver, rows, env, turns, ttl, walk) && turns != [] && turns[0].how.Succeeds?
    requires walk.answers != [] && walk.runs[0] && walk.answers[0] == Acked
    requires forall i :: 0 <= i < |turns| ==>
               && turns[0].at <= turns[i].at < turns[0].at + ttl
               && turns[i].faults.ask.Fine? && turns[i].faults.read.Fine?
    ensures |walk.answers| == |turns|
    ensures forall i :: 0 <= i < |turns| ==>
              walk.answers[i] == Acked && (walk.runs[i] <==> i == 0) && walk.rows[i + 1] == walk.rows[1]
  {
    hide Consumption;
    var last := |walk.answers| - 1;
    LaterAcknowledged(driver, rows, env, turns, ttl, walk, last);
    assert |walk.answers| == |turns|;
    forall i | 0 <= i < |turns|
      ensures walk.answers[i] == Acked && (walk.runs[i] <==> i == 0) && walk.rows[i + 1] == walk.rows[1]
    {
      LaterAcknowledged(driver, rows, env, turns, ttl, walk, i);
    }
  }

  lemma {:induction false} LaterAcknowledged(
    driver: Driver, rows: Rows, env: Envelope, turns: seq<Turn>, ttl: int, walk: Walk, i: nat)
    requires Walking(driver, rows, env, turns, ttl, walk) && turns != [] && turns[0].how.Succeeds?
    requires i < |walk.answers| && walk.runs[0] && walk.answers[0] == Acked
    requires forall j :: 0 <= j < |turns| ==>
               && turns[0].at <= turns[j].at < turns[0].at + ttl
               && turns[j].faults.ask.Fine? && turns[j].faults.read.Fine?
    ensures walk.answers[i] == Acked && (walk.runs[i] <==> i == 0) && walk.rows[i + 1] == walk.rows[1]
  {
    hide Consumption;
    if i > 0 {
      LaterAcknowledged(driver, rows, env, turns, ttl, walk, i - 1);
      assert walk.rows[i] == walk.rows[1];
      var first, next := turns[0], turns[i];
      WalkAt(driver, rows, env, turns, ttl, walk, 0);
      WalkAt(driver, rows, env, turns, ttl, walk, i);
      assert first.how == Guard.Succeeds(first.how.response);
      CopyIsAcknowledged(driver, rows, env, first.how.response, first.faults, first.at, first.later, ttl,
                         next.how, next.faults, next.at, next.later);
    }
  }

  lemma WalkAt(driver: Driver, rows: Rows, env: Envelope, turns: seq<Turn>, ttl: int, walk: Walk, i: nat)
    requires Walking(driver, rows, env, turns, ttl, walk) && i < |walk.answers|
    ensures walk.rows[0] == rows
    ensures Consumption(driver, walk.rows[i], env, turns[i].how, turns[i].faults, turns[i].at, turns[i].later, ttl) ==
            Trace(walk.rows[i + 1], walk.answers[i], walk.runs[i])
  {
    hide Consumption;
  }
}
