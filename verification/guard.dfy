/**
 The effect-once guard (internal/infrastructure/subscriber/once.go) run by any number
 of deliveries on any number of replicas over one shared idempotency store, each
 store command being one atomic step, which may fail with or without taking effect.
 The transport may begin a delivery of any envelope at any time, any number of
 times. `last` and `memorised` are history: who last took each key, and which
 responses were memorised; no step reads them.
 */
module Guard {
  import opened Wrappers
  import opened Idempotency

  type DeliveryId = nat

  datatype Config_ = Config(driver: Driver, ttl: int)

  type Config = c: Config_ | c.ttl > 0 witness Config(Memory, 1)

  datatype HandlerEnd = Succeeds(response: Option<string>) | Fails | Panics

  /** A handled delivery ends unmarked when the store refused, unconfirmed when the command failed. */
  datatype End =
    | NoId
    | NoFingerprint
    | Refused(error: Error)
    | Replayed(response: Option<string>)
    | Completed
    | NotMarked
    | Unconfirmed
    | GivenBack(heard: bool)
    | Unreleased
    | Crashed

  datatype Phase =
    | Asking
    | Inspecting
    | Running
    | Succeeded(response: Option<string>)
    | Failed
    | Completing(fingerprint: string, response: Option<string>)
    | Releasing
    | Over(end: End)

  datatype Delivery = Delivery(key: Key, fingerprint: string, phase: Phase, reservedAt: Option<int>) {
    function Req(): Request {
      Request(key, fingerprint)
    }

    /** The handler succeeded and its completion is not over. */
    predicate IsCompleting() {
      phase.Succeeded? || phase.Completing?
    }

    /** The handler failed and its release is not over. */
    predicate IsReleasing() {
      phase.Failed? || phase.Releasing?
    }

    /** The handler of this delivery ran to success. */
    predicate HasSucceeded() {
      IsCompleting() || phase == Over(Completed) || phase == Over(NotMarked) || phase == Over(Unconfirmed)
    }

    /** A reservation was granted and was not given back. */
    predicate Holds() {
      reservedAt.Some? && !(phase.Over? && phase.end.GivenBack?)
    }

    /** Holding a reservation that has not expired at `now`. */
    predicate HoldsLive(now: int, ttl: int) {
      Holds() && now < reservedAt.value + ttl
    }
  }

  datatype State = State(
    now: int,
    rows: Rows,
    deliveries: map<DeliveryId, Delivery>,
    last: map<Key, DeliveryId>,
    memorised: set<(Key, string, Option<string>)>)

  datatype Label =
    | Tick(elapsed: nat)
    | Begin(id: DeliveryId, key: Key, fingerprint: string)
    | Ask(id: DeliveryId, fault: Fault)
    | Read(id: DeliveryId, fault: Fault)
    | Finish(id: DeliveryId, how: HandlerEnd)
    | Fetch(id: DeliveryId, fault: Fault)
    | Write(id: DeliveryId, fault: Fault)
    | Purge

  function Init(now: int): State {
    State(now, map[], map[], map[], {})
  }

  /** The memory store fails only by refusing a cancelled reservation. */
  predicate Possible(c: Config, s: State, l: Label) {
    match l
    case Ask(id, fault) =>
      !fault.Fine? ==>
        id in s.deliveries && s.deliveries[id].Req().IsComplete() && (c.driver.Memory? ==> fault.Lost?)
    case Write(_, fault) => c.driver.Memory? ==> fault.Fine?
    case _ => true
  }

  predicate Enabled(c: Config, s: State, l: Label) {
    && Possible(c, s, l)
    && match l
       case Tick(_) => true
       case Purge => true
       case Begin(id, _, _) => id !in s.deliveries
       case Ask(id, _) => id in s.deliveries && s.deliveries[id].phase.Asking?
       case Read(id, _) => id in s.deliveries && s.deliveries[id].phase.Inspecting?
       case Finish(id, _) => id in s.deliveries && s.deliveries[id].phase.Running?
       case Fetch(id, _) =>
         c.driver.Redis? && id in s.deliveries && (s.deliveries[id].phase.Succeeded? || s.deliveries[id].phase.Failed?)
       case Write(id, _) =>
         id in s.deliveries &&
         if c.driver.Redis? then s.deliveries[id].phase.Completing? || s.deliveries[id].phase.Releasing?
         else s.deliveries[id].phase.Succeeded? || s.deliveries[id].phase.Failed?
  }

  function Move(s: State, id: DeliveryId, phase: Phase): State
    requires id in s.deliveries
  {
    s.(deliveries := s.deliveries[id := s.deliveries[id].(phase := phase)])
  }

  /** How a delivery that did not get the reservation ends. */
  function EndOf(answer: Result<Reservation, Error>): End {
    match answer
    case Ok(reservation) => Replayed(reservation.response)
    case Err(error) => Refused(error)
  }

  /** The reservation is written for this delivery. */
  function Granted(c: Config, s: State, id: DeliveryId, phase: Phase): State
    requires id in s.deliveries
  {
    var d := s.deliveries[id];
    s.(rows := Reserved(s.rows, d.Req(), s.now, c.ttl),
       deliveries := s.deliveries[id := d.(phase := phase, reservedAt := Some(s.now))],
       last := s.last[d.key := id])
  }

  function ApplyAsk(c: Config, s: State, id: DeliveryId, fault: Fault): State
    requires id in s.deliveries
  {
    var d := s.deliveries[id];
    if d.key == "" then Move(s, id, Over(NoId))
    else if d.fingerprint == "" then Move(s, id, Over(NoFingerprint))
    else if fault.Lost? then Move(s, id, Over(Refused(FaultError(c.driver))))
    else if Vacant(c.driver, s.rows, d.key, s.now) then
      Granted(c, s, id, if fault.Fine? then Running else Over(Refused(FaultError(c.driver))))
    else if fault.Unheard? then Move(s, id, Over(Refused(FaultError(c.driver))))
    else if c.driver.Memory? then Move(s, id, Over(EndOf(Decide(s.rows[d.key], d.Req()))))
    else Move(s, id, Inspecting)
  }

  function ApplyRead(c: Config, s: State, id: DeliveryId, fault: Fault): State
    requires id in s.deliveries
  {
    Move(s, id, Over(
      if fault.Fine? then EndOf(Inspect(c.driver, s.rows, s.deliveries[id].Req(), s.now))
      else Refused(FaultError(c.driver))))
  }

  function ApplyFetch(s: State, id: DeliveryId, fault: Fault): State
    requires id in s.deliveries
  {
    var d := s.deliveries[id];
    var held := Visible(Redis, s.rows, d.key, s.now);
    var found := held.Some? && held.value.status == InFlight;
    if d.phase.Succeeded? then
      Move(s, id,
           if !fault.Fine? then Over(Unconfirmed)
           else if found then Completing(held.value.fingerprint, d.phase.response) else Over(NotMarked))
    else
      Move(s, id,
           if !fault.Fine? then Over(Unreleased) else if found then Releasing else Over(GivenBack(true)))
  }

  function ApplyComplete(
    c: Config, s: State, id: DeliveryId, fingerprint: string, response: Option<string>, fault: Fault): State
    requires id in s.deliveries
  {
    var d := s.deliveries[id];
    var end := if !fault.Fine? then Unconfirmed
               else if Completable(c.driver, s.rows, d.key, s.now) then Completed else NotMarked;
    if fault.Lost? || !Completable(c.driver, s.rows, d.key, s.now) then Move(s, id, Over(end))
    else
      Move(s, id, Over(end)).(
        rows := Idempotency.Completed(c.driver, s.rows, d.key, fingerprint, response, s.now),
        memorised := s.memorised + {(d.key, d.fingerprint, response)})
  }

  function ApplyRelease(s: State, id: DeliveryId, rows: Rows, fault: Fault): State
    requires id in s.deliveries
  {
    if fault.Lost? then Move(s, id, Over(Unreleased)) else Move(s, id, Over(GivenBack(fault.Fine?))).(rows := rows)
  }

  function ApplyWrite(c: Config, s: State, id: DeliveryId, fault: Fault): State
    requires id in s.deliveries
  {
    var d := s.deliveries[id];
    match d.phase
    case Succeeded(response) => ApplyComplete(c, s, id, d.fingerprint, response, fault)
    case Completing(fingerprint, response) => ApplyComplete(c, s, id, fingerprint, response, fault)
    case Releasing => ApplyRelease(s, id, s.rows - {d.key}, fault)
    case _ => ApplyRelease(s, id, Released(s.rows, d.key), fault)
  }

  function Apply(c: Config, s: State, l: Label): State {
    if !Enabled(c, s, l) then s else
    match l
    case Tick(elapsed) => s.(now := s.now + elapsed)
    case Purge => s.(rows := Purged(c.driver, s.rows, s.now))
    case Begin(id, key, fingerprint) =>
      s.(deliveries := s.deliveries[id := Delivery(key, fingerprint, Asking, None)])
    case Ask(id, fault) => ApplyAsk(c, s, id, fault)
    case Read(id, fault) => ApplyRead(c, s, id, fault)
    case Finish(id, how) =>
      Move(s, id, match how case Succeeds(r) => Succeeded(r) case Fails => Failed case Panics => Over(Crashed))
    case Fetch(id, fault) => ApplyFetch(s, id, fault)
    case Write(id, fault) => ApplyWrite(c, s, id, fault)
  }

  // ---- Runs ----

  function After(c: Config, s: State, run: seq<Label>): State {
    if run == [] then s else Apply(c, After(c, s, run[..|run| - 1]), run[|run| - 1])
  }

  ghost predicate Legal(c: Config, s: State, run: seq<Label>) {
    run == [] ||
    (Legal(c, s, run[..|run| - 1]) && Enabled(c, After(c, s, run[..|run| - 1]), run[|run| - 1]))
  }

  lemma Extend(c: Config, s: State, run: seq<Label>, l: Label)
    requires Legal(c, s, run) && Enabled(c, After(c, s, run), l)
    ensures Legal(c, s, run + [l]) && After(c, s, run + [l]) == Apply(c, After(c, s, run), l)
  {
    assert (run + [l])[..|run|] == run;
  }

  // ---- The provisos, key by key ----

  /** The step is a command of a delivery of the key, after its reservation. */
  predicate Touches(s: State, l: Label, key: Key) {
    && (l.Fetch? || l.Write?) && l.id in s.deliveries
    && s.deliveries[l.id].key == key && s.deliveries[l.id].reservedAt.Some?
  }

  /** A command on the key comes before the reservation of its delivery expires. */
  predicate InTime(c: Config, s: State, l: Label, key: Key) {
    Touches(s, l, key) ==> s.now < s.deliveries[l.id].reservedAt.value + c.ttl
  }

  /** The same of releasing commands only; completions may come at any time. */
  predicate ReleaseInTime(c: Config, s: State, l: Label, key: Key) {
    l.Write? && Touches(s, l, key) && s.deliveries[l.id].IsReleasing() ==>
      s.now < s.deliveries[l.id].reservedAt.value + c.ttl
  }

  /**
   A releasing command takes the live reservation of another delivery: that one took
   the key since, its row is still live and, except on Redis, still in flight. The
   Redis DEL does not test the status again: it also erases a completed key.
   */
  predicate TakesAnother(c: Config, s: State, l: Label, key: Key) {
    && l.Write? && !l.fault.Lost? && l.id in s.deliveries
    && s.deliveries[l.id].key == key && s.deliveries[l.id].IsReleasing()
    && key in s.rows && s.rows[key].Live(s.now) && (c.driver.Redis? || s.rows[key].status == InFlight)
    && key in s.last && s.last[key] != l.id && s.last[key] in s.deliveries
    && s.deliveries[s.last[key]].HoldsLive(s.now, c.ttl)
  }

  /** No release of the run takes the live reservation of another delivery of the key. */
  ghost predicate Harmless(c: Config, s: State, run: seq<Label>, key: Key) {
    run == [] ||
    (Harmless(c, s, run[..|run| - 1], key) && !TakesAnother(c, After(c, s, run[..|run| - 1]), run[|run| - 1], key))
  }

  ghost predicate Timely(c: Config, s: State, run: seq<Label>, key: Key) {
    run == [] ||
    (Timely(c, s, run[..|run| - 1], key) && InTime(c, After(c, s, run[..|run| - 1]), run[|run| - 1], key))
  }

  ghost predicate ReleasesTimely(c: Config, s: State, run: seq<Label>, key: Key) {
    run == [] ||
    (ReleasesTimely(c, s, run[..|run| - 1], key)
     && ReleaseInTime(c, After(c, s, run[..|run| - 1]), run[|run| - 1], key))
  }

  lemma {:induction false} TimelyReleases(c: Config, s: State, run: seq<Label>, key: Key)
    requires Timely(c, s, run, key)
    ensures ReleasesTimely(c, s, run, key)
  {
    if run != [] {
      TimelyReleases(c, s, run[..|run| - 1], key);
    }
  }

  // ---- Reservations of one key, as long as no release takes another's ----

  /** A row is the reservation of the delivery that last took the key. */
  ghost predicate RowHeld(c: Config, s: State, key: Key) {
    key in s.rows ==>
      && key in s.last && s.last[key] in s.deliveries
      && s.deliveries[s.last[key]].key == key && s.deliveries[s.last[key]].reservedAt.Some?
      && s.rows[key].expiresAt == s.deliveries[s.last[key]].reservedAt.value + c.ttl
  }

  /** Every live reservation is the one in the store. */
  ghost predicate HolderStored(c: Config, s: State, key: Key) {
    forall id :: id in s.deliveries && s.deliveries[id].key == key && s.deliveries[id].HoldsLive(s.now, c.ttl) ==>
      key in s.rows && key in s.last && s.last[key] == id
  }

  /** What a delivery's phase says about its reservation. */
  ghost predicate Dated(s: State, d: Delivery) {
    && (d.reservedAt.Some? ==> d.reservedAt.value <= s.now && d.Req().IsComplete())
    && (d.phase.Asking? || d.phase.Inspecting? ==> d.reservedAt.None?)
    && (d.phase.Running? || d.HasSucceeded() || d.IsReleasing() ==> d.reservedAt.Some?)
  }

  ghost predicate AllDated(s: State, key: Key) {
    forall id :: id in s.deliveries && s.deliveries[id].key == key ==> Dated(s, s.deliveries[id])
  }

  /**
   A reservation that was not given back is at least a ttl older than any later
   reservation of its key, and never simultaneous with another one not given back.
   */
  ghost predicate Apart(ttl: int, d: Delivery, d': Delivery) {
    && d.Holds() && d'.reservedAt.Some?
    && (d.reservedAt.value < d'.reservedAt.value || (d.reservedAt == d'.reservedAt && d'.Holds()))
    ==>
      d.reservedAt.value + ttl <= d'.reservedAt.value
  }

  ghost predicate Spaced(c: Config, s: State, key: Key) {
    forall i, j ::
      i in s.deliveries && j in s.deliveries && i != j && s.deliveries[i].key == key && s.deliveries[j].key == key ==>
      Apart(c.ttl, s.deliveries[i], s.deliveries[j])
  }

  ghost predicate HoldInv(c: Config, s: State, key: Key) {
    RowHeld(c, s, key) && HolderStored(c, s, key) && AllDated(s, key) && Spaced(c, s, key)
  }

  /** The row of the key, if any, is the same reservation as before. */
  ghost predicate SameReservation(s: State, s': State, key: Key) {
    && (key in s'.rows <==> key in s.rows) && (key in s.rows ==> s'.rows[key].expiresAt == s.rows[key].expiresAt)
    && (key in s'.last <==> key in s.last) && (key in s.last ==> s'.last[key] == s.last[key])
    && s'.now == s.now
  }

  /** A step that moves one delivery from phase to phase, to hold the key at most as it did. */
  lemma MoveKeepsHold(c: Config, s: State, s': State, id: DeliveryId, phase: Phase, key: Key)
    requires HoldInv(c, s, key) && id in s.deliveries && SameReservation(s, s', key)
    requires s'.deliveries == s.deliveries[id := s.deliveries[id].(phase := phase)]
    requires s.deliveries[id].key == key ==> Dated(s, s.deliveries[id].(phase := phase))
    requires s.deliveries[id].(phase := phase).Holds() ==> s.deliveries[id].Holds()
    ensures HoldInv(c, s', key)
  {
    forall i, j |
      i in s'.deliveries && j in s'.deliveries && i != j && s'.deliveries[i].key == key && s'.deliveries[j].key == key
      ensures Apart(c.ttl, s'.deliveries[i], s'.deliveries[j])
    {
      assert Apart(c.ttl, s.deliveries[i], s.deliveries[j]);
    }
  }

  /** A step that leaves the key and its deliveries alone. */
  lemma OtherKeyKeepsHold(c: Config, s: State, s': State, key: Key)
    requires HoldInv(c, s, key) && SameReservation(s, s', key)
    requires forall id :: id in s'.deliveries && s'.deliveries[id].key == key ==>
               id in s.deliveries && s'.deliveries[id] == s.deliveries[id]
    requires forall id :: id in s.deliveries && s.deliveries[id].key == key ==> id in s'.deliveries
    requires forall id :: id in s.deliveries && s.deliveries[id].key == key ==> s'.deliveries[id] == s.deliveries[id]
    ensures HoldInv(c, s', key)
  {
    forall i, j |
      i in s'.deliveries && j in s'.deliveries && i != j && s'.deliveries[i].key == key && s'.deliveries[j].key == key
      ensures Apart(c.ttl, s'.deliveries[i], s'.deliveries[j])
    {
      assert Apart(c.ttl, s.deliveries[i], s.deliveries[j]);
    }
  }

  /** A vacant key is held by no live reservation, so any earlier one is a ttl old. */
  lemma VacantMeansExpired(c: Config, s: State, key: Key)
    requires RowHeld(c, s, key) && HolderStored(c, s, key) && Vacant(c.driver, s.rows, key, s.now)
    ensures forall id :: id in s.deliveries && s.deliveries[id].key == key && s.deliveries[id].Holds() ==>
              s.deliveries[id].reservedAt.value + c.ttl <= s.now
  {
    forall id | id in s.deliveries && s.deliveries[id].key == key && s.deliveries[id].Holds()
      ensures s.deliveries[id].reservedAt.value + c.ttl <= s.now
    {
      if s.deliveries[id].HoldsLive(s.now, c.ttl) {
        assert key in s.rows;
      }
    }
  }

  lemma GrantKeepsHold(c: Config, s: State, id: DeliveryId, phase: Phase)
    requires id in s.deliveries && s.deliveries[id].phase.Asking? && HoldInv(c, s, s.deliveries[id].key)
    requires Vacant(c.driver, s.rows, s.deliveries[id].key, s.now) && s.deliveries[id].Req().IsComplete()
    requires phase.Running? || (phase.Over? && phase.end.Refused?)
    ensures HoldInv(c, Granted(c, s, id, phase), s.deliveries[id].key)
  {
    var s', key := Granted(c, s, id, phase), s.deliveries[id].key;
    VacantMeansExpired(c, s, key);
    hide Vacant;
    assert Dated(s, s.deliveries[id]);
    forall i, j |
      i in s'.deliveries && j in s'.deliveries && i != j && s'.deliveries[i].key == key && s'.deliveries[j].key == key
      ensures Apart(c.ttl, s'.deliveries[i], s'.deliveries[j])
    {
      assert Dated(s, s.deliveries[i]) && Dated(s, s.deliveries[j]);
      assert Apart(c.ttl, s.deliveries[i], s.deliveries[j]);
    }
  }

  /** Giving back, with the row only if no other delivery holds it live. */
  lemma ReleaseKeepsHold(c: Config, s: State, id: DeliveryId, rows: Rows, heard: bool)
    requires id in s.deliveries && HoldInv(c, s, s.deliveries[id].key)
    requires var key := s.deliveries[id].key;
             rows == s.rows || (rows == s.rows - {key} && (key in s.last && s.last[key] in s.deliveries ==>
               s.last[key] == id || !s.deliveries[s.last[key]].HoldsLive(s.now, c.ttl)))
    ensures HoldInv(c, Move(s, id, Over(GivenBack(heard))).(rows := rows), s.deliveries[id].key)
  {
    var key := s.deliveries[id].key;
    var s' := Move(s, id, Over(GivenBack(heard))).(rows := rows);
    forall i, j |
      i in s'.deliveries && j in s'.deliveries && i != j && s'.deliveries[i].key == key && s'.deliveries[j].key == key
      ensures Apart(c.ttl, s'.deliveries[i], s'.deliveries[j])
    {
      assert Apart(c.ttl, s.deliveries[i], s.deliveries[j]);
    }
  }

  /** The store forgets expired rows only. */
  lemma TimeAndPurgeKeepHold(c: Config, s: State, s': State, key: Key)
    requires HoldInv(c, s, key) && s'.deliveries == s.deliveries && s'.last == s.last && s'.now >= s.now
    requires key in s'.rows ==> key in s.rows && s'.rows[key] == s.rows[key]
    requires key in s.rows && s.rows[key].Live(s'.now) ==> key in s'.rows
    ensures HoldInv(c, s', key)
  {
    forall id | id in s'.deliveries && s'.deliveries[id].key == key && s'.deliveries[id].HoldsLive(s'.now, c.ttl)
      ensures key in s'.rows && key in s'.last && s'.last[key] == id
    {
      assert s.deliveries[id].HoldsLive(s.now, c.ttl);
    }
  }

  lemma AskKeepsHold(c: Config, s: State, id: DeliveryId, fault: Fault, key: Key)
    requires HoldInv(c, s, key) && Enabled(c, s, Ask(id, fault))
    ensures HoldInv(c, ApplyAsk(c, s, id, fault), key)
  {
    var d, s' := s.deliveries[id], ApplyAsk(c, s, id, fault);
    if d.key == key {
      assert Dated(s, d);
      if d.Req().IsComplete() && !fault.Lost? && Vacant(c.driver, s.rows, key, s.now) {
        GrantKeepsHold(c, s, id, s'.deliveries[id].phase);
      } else {
        hide HoldInv;
        MoveKeepsHold(c, s, s', id, s'.deliveries[id].phase, key);
      }
    } else {
      OtherKeyKeepsHold(c, s, s', key);
    }
  }

  /** A completing, fetching, reading or finishing step, at any time and failing or not. */
  lemma WorkKeepsHold(c: Config, s: State, l: Label, key: Key)
    requires HoldInv(c, s, key) && Enabled(c, s, l) && (l.Read? || l.Finish? || l.Fetch? || l.Write?)
    requires l.Write? ==> s.deliveries[l.id].IsCompleting()
    ensures HoldInv(c, Apply(c, s, l), key)
  {
    var d, s' := s.deliveries[l.id], Apply(c, s, l);
    if d.key == key {
      assert Dated(s, d);
    }
    hide HoldInv;
    hide Inspect;
    MoveKeepsHold(c, s, s', l.id, s'.deliveries[l.id].phase, key);
  }

  lemma ReleasingKeepsHold(c: Config, s: State, id: DeliveryId, fault: Fault, key: Key)
    requires HoldInv(c, s, key) && Enabled(c, s, Write(id, fault)) && s.deliveries[id].IsReleasing()
    requires !TakesAnother(c, s, Write(id, fault), key)
    ensures HoldInv(c, ApplyWrite(c, s, id, fault), key)
  {
    var d, s' := s.deliveries[id], ApplyWrite(c, s, id, fault);
    if d.key != key {
      OtherKeyKeepsHold(c, s, s', key);
    } else {
      assert Dated(s, d);
      if fault.Lost? {
        MoveKeepsHold(c, s, s', id, Over(Unreleased), key);
      } else {
        ReleaseKeepsHold(c, s, id, s'.rows, fault.Fine?);
      }
    }
  }

  lemma StepKeepsHold(c: Config, s: State, l: Label, key: Key)
    requires HoldInv(c, s, key) && Enabled(c, s, l) && !TakesAnother(c, s, l, key)
    ensures HoldInv(c, Apply(c, s, l), key)
  {
    match l
    case Tick(_) => TimeAndPurgeKeepHold(c, s, Apply(c, s, l), key);
    case Purge => TimeAndPurgeKeepHold(c, s, Apply(c, s, l), key);
    case Begin(id, k, fingerprint) => BeginKeepsHold(c, s, id, k, fingerprint, key);
    case Ask(id, fault) => AskKeepsHold(c, s, id, fault, key);
    case Write(id, fault) =>
      hide HoldInv;
      if s.deliveries[id].IsReleasing() {
        ReleasingKeepsHold(c, s, id, fault, key);
      } else {
        WorkKeepsHold(c, s, l, key);
      }
    case _ => WorkKeepsHold(c, s, l, key);
  }

  lemma BeginKeepsHold(c: Config, s: State, id: DeliveryId, k: Key, fingerprint: string, key: Key)
    requires HoldInv(c, s, key) && id !in s.deliveries
    ensures HoldInv(c, s.(deliveries := s.deliveries[id := Delivery(k, fingerprint, Asking, None)]), key)
  {
    var s' := s.(deliveries := s.deliveries[id := Delivery(k, fingerprint, Asking, None)]);
    forall i, j |
      i in s'.deliveries && j in s'.deliveries && i != j && s'.deliveries[i].key == key && s'.deliveries[j].key == key
      ensures Apart(c.ttl, s'.deliveries[i], s'.deliveries[j])
    {
      if i != id && j != id {
        assert Apart(c.ttl, s.deliveries[i], s.deliveries[j]);
      }
    }
  }

  lemma {:induction false} RunKeepsHold(c: Config, now: int, run: seq<Label>, key: Key)
    requires Legal(c, Init(now), run) && Harmless(c, Init(now), run, key)
    ensures HoldInv(c, After(c, Init(now), run), key)
  {
    if run != [] {
      hide HoldInv;
      RunKeepsHold(c, now, run[..|run| - 1], key);
      StepKeepsHold(c, After(c, Init(now), run[..|run| - 1]), run[|run| - 1], key);
    }
  }

  /** A release in time takes nobody's reservation but its own. */
  lemma ReleaseInTimeIsHarmless(c: Config, s: State, l: Label, key: Key)
    requires HoldInv(c, s, key) && ReleaseInTime(c, s, l, key)
    ensures !TakesAnother(c, s, l, key)
  {
    if l.Write? && l.id in s.deliveries && s.deliveries[l.id].key == key {
      assert Dated(s, s.deliveries[l.id]);
    }
  }

  lemma {:induction false} ReleasesInTimeAreHarmless(c: Config, now: int, run: seq<Label>, key: Key)
    requires Legal(c, Init(now), run) && ReleasesTimely(c, Init(now), run, key)
    ensures Harmless(c, Init(now), run, key)
  {
    if run != [] {
      hide HoldInv;
      ReleasesInTimeAreHarmless(c, now, run[..|run| - 1], key);
      RunKeepsHold(c, now, run[..|run| - 1], key);
      ReleaseInTimeIsHarmless(c, After(c, Init(now), run[..|run| - 1]), run[|run| - 1], key);
      hide ReleaseInTime;
      hide TakesAnother;
      hide Apply;
      hide Enabled;
    }
  }

  // ---- Markings of one key, every command being in time ----

  /** A row has its holder's fingerprint and, once done, a response its holder memorised. */
  ghost predicate RowMarked(s: State, key: Key)
    requires key in s.rows && key in s.last && s.last[key] in s.deliveries
  {
    var d, e := s.deliveries[s.last[key]], s.rows[key];
    && d.Holds() && e.fingerprint == d.fingerprint
    && (e.status == Done ==>
          && (d.phase == Over(Completed) || d.phase == Over(Unconfirmed))
          && (key, d.fingerprint, e.response) in s.memorised)
    && (d.phase == Over(Completed) ==> e.status == Done)
  }

  ghost predicate Answered(s: State, d: Delivery) {
    && (d.phase.Completing? ==> d.phase.fingerprint == d.fingerprint)
    && d.phase != Over(NotMarked)
    && (d.phase.Over? && d.phase.end.Replayed? ==> (d.key, d.fingerprint, d.phase.end.response) in s.memorised)
  }

  ghost predicate MarkInv(s: State, key: Key) {
    && (key in s.rows && key in s.last && s.last[key] in s.deliveries && s.deliveries[s.last[key]].key == key ==>
          RowMarked(s, key))
    && (forall id :: id in s.deliveries && s.deliveries[id].key == key ==> Answered(s, s.deliveries[id]))
  }

  ghost predicate Inv(c: Config, s: State, key: Key) {
    HoldInv(c, s, key) && MarkInv(s, key)
  }

  /** The row of a live delivery at work is its own reservation, still in flight. */
  lemma OwnRow(c: Config, s: State, id: DeliveryId)
    requires id in s.deliveries && Inv(c, s, s.deliveries[id].key) && s.deliveries[id].HoldsLive(s.now, c.ttl)
    requires s.deliveries[id].IsCompleting() || s.deliveries[id].IsReleasing()
    ensures var d := s.deliveries[id];
            && d.key in s.rows && d.key in s.last && s.last[d.key] == id
            && s.rows[d.key].fingerprint == d.fingerprint
            && s.rows[d.key].status == InFlight
            && s.rows[d.key].expiresAt == d.reservedAt.value + c.ttl
            && s.rows[d.key].Live(s.now)
  {
  }

  /** The answer of a read: a replayed response was memorised for that key and fingerprint. */
  lemma AnswerIsMemorised(c: Config, s: State, id: DeliveryId)
    requires id in s.deliveries && Inv(c, s, s.deliveries[id].key)
    ensures var d := s.deliveries[id];
            && (d.key in s.rows && Decide(s.rows[d.key], d.Req()).Ok? ==>
                  (d.key, d.fingerprint, Decide(s.rows[d.key], d.Req()).value.response) in s.memorised)
            && (Inspect(c.driver, s.rows, d.Req(), s.now).Ok? ==>
                  (d.key, d.fingerprint, Inspect(c.driver, s.rows, d.Req(), s.now).value.response) in s.memorised)
  {
  }

  /** A step that moves one delivery not yet completed and leaves the rows alone. */
  lemma MoveKeepsMark(s: State, id: DeliveryId, phase: Phase, key: Key)
    requires MarkInv(s, key) && id in s.deliveries && s.deliveries[id].phase != Over(Completed)
    requires s.deliveries[id].phase != Over(Unconfirmed) && phase != Over(Completed)
    requires s.deliveries[id].key == key ==> !(phase.Over? && phase.end.GivenBack?)
    requires s.deliveries[id].key == key ==> Answered(s, s.deliveries[id].(phase := phase))
    ensures MarkInv(Move(s, id, phase), key)
  {
  }

  lemma AskKeepsMark(c: Config, s: State, id: DeliveryId, fault: Fault, key: Key)
    requires Inv(c, s, key) && Enabled(c, s, Ask(id, fault))
    ensures MarkInv(ApplyAsk(c, s, id, fault), key)
  {
    var d, s' := s.deliveries[id], ApplyAsk(c, s, id, fault);
    if d.key == key {
      AnswerIsMemorised(c, s, id);
    }
    if d.Req().IsComplete() && !fault.Lost? && Vacant(c.driver, s.rows, d.key, s.now) {
      hide Vacant;
    } else {
      hide HoldInv;
      hide MarkInv;
      MoveKeepsMark(s, id, s'.deliveries[id].phase, key);
    }
  }

  lemma CompleteKeepsMark(
    c: Config, s: State, id: DeliveryId, fingerprint: string, response: Option<string>, fault: Fault, key: Key)
    requires Inv(c, s, key) && id in s.deliveries && s.deliveries[id].IsCompleting()
    requires s.deliveries[id].key == key ==>
               s.deliveries[id].HoldsLive(s.now, c.ttl) && fingerprint == s.deliveries[id].fingerprint
    ensures MarkInv(ApplyComplete(c, s, id, fingerprint, response, fault), key)
  {
    if s.deliveries[id].key == key {
      OwnRow(c, s, id);
    }
    hide Spaced;
    hide AllDated;
  }

  lemma ReleaseKeepsMark(c: Config, s: State, id: DeliveryId, rows: Rows, fault: Fault, key: Key)
    requires Inv(c, s, key) && id in s.deliveries && s.deliveries[id].IsReleasing()
    requires s.deliveries[id].key == key ==> s.deliveries[id].HoldsLive(s.now, c.ttl)
    requires rows == s.rows - {s.deliveries[id].key} || rows == Released(s.rows, s.deliveries[id].key)
    ensures MarkInv(ApplyRelease(s, id, rows, fault), key)
  {
    if s.deliveries[id].key == key {
      OwnRow(c, s, id);
    }
    hide Spaced;
    hide AllDated;
  }

  lemma TouchKeepsMark(c: Config, s: State, l: Label, key: Key)
    requires Inv(c, s, key) && Enabled(c, s, l) && (l.Fetch? || l.Write?) && InTime(c, s, l, key)
    ensures MarkInv(Apply(c, s, l), key)
  {
    var d := s.deliveries[l.id];
    if d.key == key {
      assert Dated(s, d) && Answered(s, d);
      OwnRow(c, s, l.id);
    }
    hide HoldInv;
    hide MarkInv;
    match l
    case Fetch(id, fault) =>
      MoveKeepsMark(s, id, Apply(c, s, l).deliveries[id].phase, key);
    case Write(id, fault) =>
      match d.phase {
        case Succeeded(response) => CompleteKeepsMark(c, s, id, d.fingerprint, response, fault, key);
        case Completing(fingerprint, response) => CompleteKeepsMark(c, s, id, fingerprint, response, fault, key);
        case Releasing => ReleaseKeepsMark(c, s, id, s.rows - {d.key}, fault, key);
        case Failed => ReleaseKeepsMark(c, s, id, Released(s.rows, d.key), fault, key);
      }
  }

  lemma StepKeepsInv(c: Config, s: State, l: Label, key: Key)
    requires Inv(c, s, key) && Enabled(c, s, l) && InTime(c, s, l, key)
    ensures Inv(c, Apply(c, s, l), key)
  {
    assert key in s.rows ==> key in s.last && s.last[key] in s.deliveries;
    ReleaseInTimeIsHarmless(c, s, l, key);
    hide HoldInv;
    StepKeepsHold(c, s, l, key);
    match l
    case Ask(id, fault) =>
      hide MarkInv;
      AskKeepsMark(c, s, id, fault, key);
    case Read(id, fault) =>
      if s.deliveries[id].key == key {
        AnswerIsMemorised(c, s, id);
      }
      MoveKeepsMark(s, id, Apply(c, s, l).deliveries[id].phase, key);
    case Finish(id, how) => MoveKeepsMark(s, id, Apply(c, s, l).deliveries[id].phase, key);
    case Fetch(_, _) => TouchKeepsMark(c, s, l, key);
    case Write(_, _) => TouchKeepsMark(c, s, l, key);
    case _ =>
  }

  lemma {:induction false} RunKeepsInv(c: Config, now: int, run: seq<Label>, key: Key)
    requires Legal(c, Init(now), run) && Timely(c, Init(now), run, key)
    ensures Inv(c, After(c, Init(now), run), key)
  {
    if run != [] {
      hide Inv;
      RunKeepsInv(c, now, run[..|run| - 1], key);
      StepKeepsInv(c, After(c, Init(now), run[..|run| - 1]), run[|run| - 1], key);
    }
  }

  // ---- Theorems ----

  /**
   Exclusivity, on every driver: as long as no release takes the live reservation of
   another delivery of the key, at every instant at most one delivery of it holds a
   live reservation, however late commands come and whichever fail. Releases that
   come before their reservation expires take none.
   */
  lemma AtMostOneHolder(c: Config, now: int, run: seq<Label>, i: DeliveryId, j: DeliveryId)
    requires Legal(c, Init(now), run)
    requires var s := After(c, Init(now), run);
             && i in s.deliveries && j in s.deliveries && s.deliveries[i].key == s.deliveries[j].key
             && s.deliveries[i].HoldsLive(s.now, c.ttl) && s.deliveries[j].HoldsLive(s.now, c.ttl)
             && Harmless(c, Init(now), run, s.deliveries[i].key)
    ensures i == j
  {
    RunKeepsHold(c, now, run, After(c, Init(now), run).deliveries[i].key);
  }

  /**
   Effects are not repeated inside the window, under the same proviso: two
   successful runs for one key were reserved a ttl apart.
   */
  lemma SuccessesAreSpaced(c: Config, now: int, run: seq<Label>, i: DeliveryId, j: DeliveryId)
    requires Legal(c, Init(now), run)
    requires var s := After(c, Init(now), run);
             && i in s.deliveries && j in s.deliveries && i != j && s.deliveries[i].key == s.deliveries[j].key
             && s.deliveries[i].HasSucceeded() && s.deliveries[j].HasSucceeded()
             && Harmless(c, Init(now), run, s.deliveries[i].key)
    ensures var s := After(c, Init(now), run);
            && s.deliveries[i].reservedAt.Some? && s.deliveries[j].reservedAt.Some?
            && var r, r' := s.deliveries[i].reservedAt.value, s.deliveries[j].reservedAt.value;
               r + c.ttl <= r' || r' + c.ttl <= r
  {
    var s := After(c, Init(now), run);
    RunKeepsHold(c, now, run, s.deliveries[i].key);
    hide After;
    hide Legal;
    hide Harmless;
    SuccessesApart(c, s, i, j);
  }

  lemma SuccessesApart(c: Config, s: State, i: DeliveryId, j: DeliveryId)
    requires i in s.deliveries && j in s.deliveries && i != j && s.deliveries[i].key == s.deliveries[j].key
    requires HoldInv(c, s, s.deliveries[i].key) && s.deliveries[i].HasSucceeded() && s.deliveries[j].HasSucceeded()
    ensures s.deliveries[i].reservedAt.Some? && s.deliveries[j].reservedAt.Some?
    ensures var r, r' := s.deliveries[i].reservedAt.value, s.deliveries[j].reservedAt.value;
            r + c.ttl <= r' || r' + c.ttl <= r
  {
    assert Dated(s, s.deliveries[i]) && Dated(s, s.deliveries[j]);
    assert Apart(c.ttl, s.deliveries[i], s.deliveries[j]) && Apart(c.ttl, s.deliveries[j], s.deliveries[i]);
  }

  /**
   After a successful handler memorising is never refused, if every command on the
   key comes in time: a handled delivery that is over is completed, unless the
   completing command itself failed.
   */
  lemma SuccessIsAlwaysMarked(c: Config, now: int, run: seq<Label>, id: DeliveryId)
    requires Legal(c, Init(now), run) && id in After(c, Init(now), run).deliveries
    requires Timely(c, Init(now), run, After(c, Init(now), run).deliveries[id].key)
    ensures var d := After(c, Init(now), run).deliveries[id];
            d.HasSucceeded() && d.phase.Over? ==> d.phase == Over(Completed) || d.phase == Over(Unconfirmed)
  {
    var s := After(c, Init(now), run);
    RunKeepsInv(c, now, run, s.deliveries[id].key);
    hide After;
    hide Legal;
    hide Timely;
    assert Answered(s, s.deliveries[id]);
  }

  /** Some response was memorised for the key, under some fingerprint. */
  ghost predicate Memorised(s: State, key: Key, response: Option<string>) {
    exists f :: (key, f, response) in s.memorised
  }

  ghost predicate GenuineRow(s: State, key: Key)
    requires key in s.rows
  {
    s.rows[key].status == Done ==> Memorised(s, key, s.rows[key].response)
  }

  ghost predicate GenuineAnswer(s: State, d: Delivery) {
    d.phase.Over? && d.phase.end.Replayed? ==> Memorised(s, d.key, d.phase.end.response)
  }

  /** A memorised response comes from a delivery of that key and fingerprint. */
  ghost predicate GenuineMemory(s: State, key: Key, f: string) {
    exists id :: id in s.deliveries && s.deliveries[id].key == key && s.deliveries[id].fingerprint == f
  }

  ghost predicate Genuine(s: State) {
    && (forall key :: key in s.rows ==> GenuineRow(s, key))
    && (forall id :: id in s.deliveries ==> GenuineAnswer(s, s.deliveries[id]))
    && (forall m :: m in s.memorised ==> GenuineMemory(s, m.0, m.1))
  }

  lemma MemoryPersists(c: Config, s: State, l: Label, key: Key)
    ensures forall r :: Memorised(s, key, r) ==> Memorised(Apply(c, s, l), key, r)
    ensures forall f :: GenuineMemory(s, key, f) ==> GenuineMemory(Apply(c, s, l), key, f)
  {
    var s' := Apply(c, s, l);
    MemoryGrows(c, s, l);
    hide Apply;
    forall f | GenuineMemory(s, key, f) ensures GenuineMemory(s', key, f) {
      var id :| id in s.deliveries && s.deliveries[id].key == key && s.deliveries[id].fingerprint == f;
      assert s'.deliveries[id].fingerprint == f;
    }
  }

  /** What a step does to a delivery: its key, its fingerprint and its reservation stay. */
  lemma DeliveryPersists(c: Config, s: State, l: Label, id: DeliveryId)
    requires id in s.deliveries
    ensures var s' := Apply(c, s, l);
            && id in s'.deliveries && s'.deliveries[id].key == s.deliveries[id].key
            && s'.deliveries[id].fingerprint == s.deliveries[id].fingerprint
            && (s.deliveries[id].reservedAt.Some? && !s.deliveries[id].phase.Asking? ==>
                  s'.deliveries[id].reservedAt == s.deliveries[id].reservedAt)
            && (s'.deliveries[id].phase.Asking? ==> s'.deliveries[id] == s.deliveries[id])
  {
    hide Inspect;
    hide Decide;
    hide Purged;
    hide Visible;
    hide Completable;
    hide Idempotency.Completed;
    hide Released;
    hide Reserved;
    hide Vacant;
    hide EndOf;
    hide FaultError;
    match l
    case Ask(x, fault) =>
    case Read(x, fault) =>
    case Fetch(x, fault) =>
    case Write(x, fault) =>
      if x in s.deliveries {
        WritePersists(c, s, x, fault, id);
      }
      hide ApplyWrite;
    case _ =>
  }

  lemma WritePersists(c: Config, s: State, x: DeliveryId, fault: Fault, id: DeliveryId)
    requires x in s.deliveries && id in s.deliveries
    ensures var s' := ApplyWrite(c, s, x, fault);
            && id in s'.deliveries && s'.deliveries[id].key == s.deliveries[id].key
            && s'.deliveries[id].fingerprint == s.deliveries[id].fingerprint
            && s'.deliveries[id].reservedAt == s.deliveries[id].reservedAt
            && (s'.deliveries[id].phase.Asking? ==> s'.deliveries[id] == s.deliveries[id])
  {
    WriteMoves(c, s, x, fault);
    hide ApplyWrite;
  }

  /** The ends that recording a handler's success or failure may have. */
  predicate Recorded(d: Delivery, end: End) {
    if d.IsCompleting() then end.Completed? || end.NotMarked? || end.Unconfirmed? else end.GivenBack? || end.Unreleased?
  }

  /** A command recording an end moves its delivery to that end and touches no other. */
  lemma WriteMoves(c: Config, s: State, x: DeliveryId, fault: Fault)
    requires x in s.deliveries
    ensures var s' := ApplyWrite(c, s, x, fault);
            && x in s'.deliveries && s'.deliveries[x].phase.Over?
            && Recorded(s.deliveries[x], s'.deliveries[x].phase.end)
            && s'.deliveries == s.deliveries[x := s.deliveries[x].(phase := s'.deliveries[x].phase)]
            && s'.now == s.now && s.memorised <= s'.memorised
  {
    hide Completable;
    hide Idempotency.Completed;
    hide Released;
    var d := s.deliveries[x];
    match d.phase
    case Succeeded(response) =>
      CompleteMoves(c, s, x, d.fingerprint, response, fault);
      hide ApplyComplete;
    case Completing(fingerprint, response) =>
      CompleteMoves(c, s, x, fingerprint, response, fault);
      hide ApplyComplete;
    case _ =>
      hide ApplyComplete;
  }

  lemma CompleteMoves(c: Config, s: State, x: DeliveryId, fingerprint: string, response: Option<string>, fault: Fault)
    requires x in s.deliveries && s.deliveries[x].IsCompleting()
    ensures var s' := ApplyComplete(c, s, x, fingerprint, response, fault);
            && x in s'.deliveries && s'.deliveries[x].phase.Over?
            && Recorded(s.deliveries[x], s'.deliveries[x].phase.end)
            && s'.deliveries == s.deliveries[x := s.deliveries[x].(phase := s'.deliveries[x].phase)]
            && s'.now == s.now && s.memorised <= s'.memorised
  {
    hide Completable;
    hide Idempotency.Completed;
  }

  lemma MemoryKept(c: Config, s: State, l: Label)
    ensures s.memorised <= Apply(c, s, l).memorised && s.now <= Apply(c, s, l).now
  {
    hide Inspect;
    hide Decide;
    hide Purged;
    hide Visible;
    hide Completable;
    hide Idempotency.Completed;
    hide Released;
    hide Reserved;
    hide Vacant;
  }

  /** Deliveries keep their key, their fingerprint and their reservation; memories only grow. */
  lemma MemoryGrows(c: Config, s: State, l: Label)
    ensures var s' := Apply(c, s, l);
            && s.memorised <= s'.memorised && s.now <= s'.now
            && forall id :: id in s.deliveries ==>
                 && id in s'.deliveries && s'.deliveries[id].key == s.deliveries[id].key
                 && s'.deliveries[id].fingerprint == s.deliveries[id].fingerprint
                 && (s.deliveries[id].reservedAt.Some? && !s.deliveries[id].phase.Asking? ==>
                       s'.deliveries[id].reservedAt == s.deliveries[id].reservedAt)
  {
    MemoryKept(c, s, l);
    hide Apply;
    forall id | id in s.deliveries
      ensures var s' := Apply(c, s, l);
              && id in s'.deliveries && s'.deliveries[id].key == s.deliveries[id].key
              && s'.deliveries[id].fingerprint == s.deliveries[id].fingerprint
              && (s.deliveries[id].reservedAt.Some? && !s.deliveries[id].phase.Asking? ==>
                    s'.deliveries[id].reservedAt == s.deliveries[id].reservedAt)
    {
      DeliveryPersists(c, s, l, id);
    }
  }

  /** What one step memorises, and where a new answer or a newly done row comes from. */
  lemma NewMemories(c: Config, s: State, l: Label)
    requires Genuine(s) && Enabled(c, s, l)
    ensures var s' := Apply(c, s, l);
            forall m :: m in s'.memorised && m !in s.memorised ==>
              l.Write? && m.0 == s.deliveries[l.id].key && m.1 == s.deliveries[l.id].fingerprint
  {
    hide Idempotency.Completed;
  }

  lemma RowStaysGenuine(c: Config, s: State, l: Label, key: Key)
    requires Genuine(s) && Enabled(c, s, l) && key in Apply(c, s, l).rows
    ensures GenuineRow(Apply(c, s, l), key)
  {
    var s' := Apply(c, s, l);
    MemoryPersists(c, s, l, key);
    if key in s.rows {
      assert GenuineRow(s, key);
    }
    if l.Write? && s.deliveries[l.id].IsCompleting() && s.deliveries[l.id].key == key && s'.rows != s.rows {
      assert (key, s.deliveries[l.id].fingerprint, s.deliveries[l.id].phase.response) in s'.memorised;
    }
  }

  /** A new replay repeats the response of a row that is done. */
  lemma NewReplayReadsRow(c: Config, s: State, l: Label, id: DeliveryId)
    requires Enabled(c, s, l) && id in Apply(c, s, l).deliveries
    requires var d' := Apply(c, s, l).deliveries[id];
             d'.phase.Over? && d'.phase.end.Replayed? && (id in s.deliveries ==> d' != s.deliveries[id])
    ensures var d' := Apply(c, s, l).deliveries[id];
            && id in s.deliveries && d'.key == s.deliveries[id].key
            && d'.key in s.rows && s.rows[d'.key].status == Done && s.rows[d'.key].response == d'.phase.end.response
  {
    hide Purged;
    hide Released;
    hide Reserved;
    if l.Write? {
      WriteMoves(c, s, l.id, l.fault);
    }
    hide ApplyWrite;
    assert l.Ask? || l.Read?;
    assert id == l.id && Apply(c, s, l).deliveries[id].key == s.deliveries[id].key;
  }

  lemma AnswerStaysGenuine(c: Config, s: State, l: Label, id: DeliveryId)
    requires Genuine(s) && Enabled(c, s, l) && id in Apply(c, s, l).deliveries
    ensures GenuineAnswer(Apply(c, s, l), Apply(c, s, l).deliveries[id])
  {
    var d' := Apply(c, s, l).deliveries[id];
    if d'.phase.Over? && d'.phase.end.Replayed? {
      MemoryPersists(c, s, l, d'.key);
      if id in s.deliveries && d' == s.deliveries[id] {
        assert GenuineAnswer(s, d');
      } else {
        NewReplayReadsRow(c, s, l, id);
        assert GenuineRow(s, d'.key);
      }
      hide Apply;
      hide Genuine;
      hide Memorised;
    }
  }

  lemma {:induction false} RunIsGenuine(c: Config, now: int, run: seq<Label>)
    requires Legal(c, Init(now), run)
    ensures Genuine(After(c, Init(now), run))
  {
    if run != [] {
      var s, l := After(c, Init(now), run[..|run| - 1]), run[|run| - 1];
      RunIsGenuine(c, now, run[..|run| - 1]);
      var s' := Apply(c, s, l);
      forall key | key in s'.rows ensures GenuineRow(s', key) {
        RowStaysGenuine(c, s, l, key);
      }
      forall id | id in s'.deliveries ensures GenuineAnswer(s', s'.deliveries[id]) {
        AnswerStaysGenuine(c, s, l, id);
      }
      NewMemories(c, s, l);
      forall m | m in s'.memorised ensures GenuineMemory(s', m.0, m.1) {
        MemoryPersists(c, s, l, m.0);
        MemoryGrows(c, s, l);
        if m in s.memorised {
          assert GenuineMemory(s, m.0, m.1);
        } else {
          assert s'.deliveries[l.id].key == m.0;
        }
        hide Apply;
      }
      hide Apply;
    }
  }

  /** All deliveries of the key carry the same fingerprint, as envelopes of one message do. */
  ghost predicate OneFingerprint(s: State, key: Key) {
    forall i, j ::
      i in s.deliveries && j in s.deliveries && s.deliveries[i].key == key && s.deliveries[j].key == key ==>
      s.deliveries[i].fingerprint == s.deliveries[j].fingerprint
  }

  /**
   A replay only returns a response memorised for that key, whatever comes late or
   fails; and for that very fingerprint when the key has one fingerprint or every
   command on it comes in time.
   */
  lemma ReplaysWereMemorised(c: Config, now: int, run: seq<Label>, id: DeliveryId)
    requires Legal(c, Init(now), run) && id in After(c, Init(now), run).deliveries
    requires After(c, Init(now), run).deliveries[id].phase.Over?
    requires After(c, Init(now), run).deliveries[id].phase.end.Replayed?
    ensures var s := After(c, Init(now), run);
            var d := s.deliveries[id];
            && Memorised(s, d.key, d.phase.end.response)
            && (OneFingerprint(s, d.key) || Timely(c, Init(now), run, d.key) ==>
                  (d.key, d.fingerprint, d.phase.end.response) in s.memorised)
  {
    var s := After(c, Init(now), run);
    var d := s.deliveries[id];
    RunIsGenuine(c, now, run);
    if Timely(c, Init(now), run, d.key) {
      RunKeepsInv(c, now, run, d.key);
      assert Answered(s, d);
    }
    hide After;
    hide Legal;
    hide Timely;
    assert GenuineAnswer(s, d);
    var f :| (d.key, f, d.phase.end.response) in s.memorised;
    assert GenuineMemory(s, d.key, f);
  }

  // ---- The window needs no proviso ----

  /** Every reservation of the key was made at `since` or later. */
  ghost predicate ReservedSince(s: State, key: Key, since: int) {
    forall id :: id in s.deliveries && s.deliveries[id].key == key && s.deliveries[id].reservedAt.Some? ==>
      since <= s.deliveries[id].reservedAt.value
  }

  /** Only a delivery past asking has a reservation. */
  ghost predicate AskersFree(s: State) {
    forall id :: id in s.deliveries && s.deliveries[id].phase.Asking? ==> s.deliveries[id].reservedAt.None?
  }

  lemma {:induction false} RunKeepsAskersFree(c: Config, now: int, run: seq<Label>)
    requires Legal(c, Init(now), run)
    ensures AskersFree(After(c, Init(now), run))
  {
    if run != [] {
      RunKeepsAskersFree(c, now, run[..|run| - 1]);
      StepKeepsAskersFree(c, After(c, Init(now), run[..|run| - 1]), run[|run| - 1]);
    }
  }

  lemma StepKeepsAskersFree(c: Config, s: State, l: Label)
    requires AskersFree(s)
    ensures AskersFree(Apply(c, s, l))
  {
    forall id | id in Apply(c, s, l).deliveries && Apply(c, s, l).deliveries[id].phase.Asking?
      ensures Apply(c, s, l).deliveries[id].reservedAt.None?
    {
      if id in s.deliveries {
        DeliveryPersists(c, s, l, id);
        hide Apply;
      } else {
        OnlyBeginAdds(c, s, l, id);
      }
    }
  }

  lemma OnlyBeginAdds(c: Config, s: State, l: Label, id: DeliveryId)
    requires id !in s.deliveries && id in Apply(c, s, l).deliveries
    ensures l.Begin? && Apply(c, s, l).deliveries[id] == Delivery(l.key, l.fingerprint, Asking, None)
  {
    hide Inspect;
    hide Decide;
    hide Purged;
    hide Visible;
    hide Completable;
    hide Idempotency.Completed;
    hide Released;
    hide Reserved;
    hide Vacant;
  }

  /**
   Less than a ttl after the first instant at which a key may have been reserved,
   no command on it can be late: the provisos hold of every legal run.
   */
  lemma {:induction false} WindowIsTimely(c: Config, now: int, run: seq<Label>, key: Key, since: int)
    requires Legal(c, Init(now), run)
    requires var s := After(c, Init(now), run); ReservedSince(s, key, since) && s.now < since + c.ttl
    ensures Timely(c, Init(now), run, key)
  {
    if run != [] {
      var s, l := After(c, Init(now), run[..|run| - 1]), run[|run| - 1];
      RunKeepsAskersFree(c, now, run[..|run| - 1]);
      MemoryGrows(c, s, l);
      hide Apply;
      hide Enabled;
      WindowIsTimely(c, now, run[..|run| - 1], key, since);
    }
  }

  /** So inside that window two successful deliveries of the key are one. */
  lemma SuccessesInWindowCoincide(c: Config, now: int, run: seq<Label>, i: DeliveryId, j: DeliveryId, since: int)
    requires Legal(c, Init(now), run)
    requires var s := After(c, Init(now), run);
             && i in s.deliveries && j in s.deliveries && s.deliveries[i].key == s.deliveries[j].key
             && s.deliveries[i].HasSucceeded() && s.deliveries[j].HasSucceeded()
             && ReservedSince(s, s.deliveries[i].key, since) && s.now < since + c.ttl
    ensures i == j
  {
    var s := After(c, Init(now), run);
    var key := s.deliveries[i].key;
    WindowIsTimely(c, now, run, key, since);
    TimelyReleases(c, Init(now), run, key);
    ReleasesInTimeAreHarmless(c, now, run, key);
    RunKeepsHold(c, now, run, key);
    hide After;
    hide Legal;
    assert Dated(s, s.deliveries[i]) && Dated(s, s.deliveries[j]);
    if i != j {
      SuccessesApart(c, s, i, j);
      assert false;
    }
  }

  // ---- Exactly when exclusivity holds ----

  /** Two deliveries of the key that both hold a live reservation. */
  ghost predicate DoublyHeld(c: Config, s: State, key: Key) {
    exists i, j ::
      && i in s.deliveries && j in s.deliveries && i != j && s.deliveries[i].key == s.deliveries[j].key == key
      && s.deliveries[i].HoldsLive(s.now, c.ttl) && s.deliveries[j].HoldsLive(s.now, c.ttl)
  }

  /** One more copy of the envelope comes and asks. */
  function WithCopy(run: seq<Label>, id: DeliveryId, key: Key, kind: string): seq<Label> {
    run + [Begin(id, key, kind)] + [Ask(id, Fine)]
  }

  lemma AskingIsLegal(c: Config, s: State, run: seq<Label>, id: DeliveryId, key: Key, kind: string)
    requires Legal(c, s, run) && id !in After(c, s, run).deliveries
    ensures Legal(c, s, WithCopy(run, id, key, kind))
    ensures After(c, s, WithCopy(run, id, key, kind)) ==
            Apply(c, Apply(c, After(c, s, run), Begin(id, key, kind)), Ask(id, Fine))
    ensures forall k :: Harmless(c, s, run, k) ==> Harmless(c, s, WithCopy(run, id, key, kind), k)
  {
    hide Legal;
    hide After;
    var begun := run + [Begin(id, key, kind)];
    Extend(c, s, run, Begin(id, key, kind));
    Extend(c, s, begun, Ask(id, Fine));
    assert begun[..|run|] == run;
    assert WithCopy(run, id, key, kind)[..|begun|] == begun;
    hide TakesAnother;
    hide Apply;
    forall k | Harmless(c, s, run, k) ensures Harmless(c, s, WithCopy(run, id, key, kind), k) {
      NoRelease(c, After(c, s, run), Begin(id, key, kind), k);
      NoRelease(c, After(c, s, begun), Ask(id, Fine), k);
      assert Harmless(c, s, begun, k);
    }
  }

  lemma NoRelease(c: Config, s: State, l: Label, key: Key)
    requires !l.Write?
    ensures !TakesAnother(c, s, l, key)
  {
  }

  lemma {:induction false} Prefix(c: Config, s: State, run: seq<Label>, n: nat, key: Key)
    requires n <= |run|
    ensures Legal(c, s, run) ==> Legal(c, s, run[..n])
    ensures Harmless(c, s, run, key) ==> Harmless(c, s, run[..n], key)
    decreases |run|
  {
    if n == |run| {
      assert run[..n] == run;
    } else {
      Prefix(c, s, run[..|run| - 1], n, key);
      assert run[..|run| - 1][..n] == run[..n];
    }
  }

  /** A run that is not harmless has a first release that takes another's reservation. */
  lemma {:induction false} FirstHarm(c: Config, s: State, run: seq<Label>, key: Key) returns (n: nat)
    requires !Harmless(c, s, run, key)
    ensures n < |run| && Harmless(c, s, run[..n], key) && TakesAnother(c, After(c, s, run[..n]), run[n], key)
    decreases |run|
  {
    hide TakesAnother;
    n := |run| - 1;
    if !Harmless(c, s, run[..n], key) {
      var m := FirstHarm(c, s, run[..n], key);
      assert run[..n][..m] == run[..m];
      n := m;
    }
  }

  lemma FreshDelivery(s: State) returns (id: DeliveryId)
    ensures id !in s.deliveries
  {
    id := Above(s.deliveries.Keys);
  }

  lemma {:induction false} Above(ids: set<DeliveryId>) returns (bound: nat)
    ensures forall id :: id in ids ==> id < bound
  {
    bound := 0;
    if ids != {} {
      var some :| some in ids;
      var rest := Above(ids - {some});
      bound := if some < rest then rest else some + 1;
      forall id | id in ids ensures id < bound {
        assert id != some ==> id in ids - {some};
      }
    }
  }

  /** Once a release takes another's live reservation, the next copy makes a second holder. */
  lemma TakingLetsAnotherIn(c: Config, s: State, l: Label, key: Key, id: DeliveryId, kind: string)
    requires key != "" && Enabled(c, s, l) && TakesAnother(c, s, l, key) && s.deliveries[s.last[key]].key == key
    requires id !in s.deliveries && kind != ""
    ensures DoublyHeld(c, Apply(c, Apply(c, Apply(c, s, l), Begin(id, key, kind)), Ask(id, Fine)), key)
  {
    var holder := s.last[key];
    var s1 := Apply(c, s, l);
    Taken(c, s, l, key);
    hide Apply;
    hide Enabled;
    CopyIsGranted(c, s1, key, id, kind);
    var s3 := Apply(c, Apply(c, s1, Begin(id, key, kind)), Ask(id, Fine));
    assert s3.deliveries[holder].HoldsLive(s3.now, c.ttl) && s3.deliveries[id].HoldsLive(s3.now, c.ttl);
  }

  lemma Taken(c: Config, s: State, l: Label, key: Key)
    requires Enabled(c, s, l) && TakesAnother(c, s, l, key)
    ensures var s' := Apply(c, s, l);
            && key !in s'.rows && s'.deliveries.Keys == s.deliveries.Keys && s'.now == s.now
            && s'.deliveries[s.last[key]] == s.deliveries[s.last[key]]
  {
    hide Completable;
    hide Idempotency.Completed;
  }

  lemma CopyIsGranted(c: Config, s: State, key: Key, id: DeliveryId, kind: string)
    requires key !in s.rows && id !in s.deliveries && key != "" && kind != ""
    ensures var s' := Apply(c, Apply(c, s, Begin(id, key, kind)), Ask(id, Fine));
            && id in s'.deliveries && s'.deliveries[id] == Delivery(key, kind, Running, Some(s.now)) && s'.now == s.now
            && forall j :: j in s.deliveries ==> j in s'.deliveries && s'.deliveries[j] == s.deliveries[j]
  {
  }

  /**
   Exactly when exclusivity holds of a key over a legal run, at every instant of it
   and with one more copy coming at that instant: when no release of the run takes
   the live reservation of another delivery.
   */
  lemma ExclusiveIff(c: Config, now: int, run: seq<Label>, key: Key)
    requires Legal(c, Init(now), run)
    ensures Harmless(c, Init(now), run, key) <==>
            forall n, id, kind ::
              0 <= n <= |run| && id !in After(c, Init(now), run[..n]).deliveries && kind != "" ==>
                !DoublyHeld(c, After(c, Init(now), WithCopy(run[..n], id, key, kind)), key)
  {
    if Harmless(c, Init(now), run, key) {
      forall n, id, kind | 0 <= n <= |run| && id !in After(c, Init(now), run[..n]).deliveries && kind != ""
        ensures !DoublyHeld(c, After(c, Init(now), WithCopy(run[..n], id, key, kind)), key)
      {
        HarmlessIsExclusive(c, now, run, key, n, id, kind);
      }
    } else {
      HarmIsShown(c, now, run, key);
    }
  }

  lemma HarmlessIsExclusive(c: Config, now: int, run: seq<Label>, key: Key, n: nat, id: DeliveryId, kind: string)
    requires Legal(c, Init(now), run) && Harmless(c, Init(now), run, key)
    requires n <= |run| && id !in After(c, Init(now), run[..n]).deliveries
    ensures !DoublyHeld(c, After(c, Init(now), WithCopy(run[..n], id, key, kind)), key)
  {
    Prefix(c, Init(now), run, n, key);
    AskingIsLegal(c, Init(now), run[..n], id, key, kind);
    RunKeepsHold(c, now, WithCopy(run[..n], id, key, kind), key);
    hide Legal;
    hide After;
    hide Harmless;
    hide WithCopy;
  }

  lemma HarmIsShown(c: Config, now: int, run: seq<Label>, key: Key)
    requires Legal(c, Init(now), run) && !Harmless(c, Init(now), run, key)
    ensures exists n, id, kind ::
              0 <= n <= |run| && id !in After(c, Init(now), run[..n]).deliveries && kind != "" &&
              DoublyHeld(c, After(c, Init(now), WithCopy(run[..n], id, key, kind)), key)
  {
    hide Legal;
    hide After;
    hide Harmless;
    hide HoldInv;
    var n := FirstHarm(c, Init(now), run, key);
    Prefix(c, Init(now), run, n, key);
    Prefix(c, Init(now), run, n + 1, key);
    RunKeepsHold(c, now, run[..n], key);
    TakenKeyIsNamed(c, After(c, Init(now), run[..n]), run[n], key);
    Unroll(c, Init(now), run, n);
    var id := FreshDelivery(After(c, Init(now), run[..n + 1]));
    Taken(c, After(c, Init(now), run[..n]), run[n], key);
    AskingIsLegal(c, Init(now), run[..n + 1], id, key, "kind");
    TakingLetsAnotherIn(c, After(c, Init(now), run[..n]), run[n], key, id, "kind");
    hide *;
    assert DoublyHeld(c, After(c, Init(now), WithCopy(run[..n + 1], id, key, "kind")), key);
  }

  lemma TakenKeyIsNamed(c: Config, s: State, l: Label, key: Key)
    requires HoldInv(c, s, key) && TakesAnother(c, s, l, key)
    ensures key != "" && s.deliveries[s.last[key]].key == key
  {
    var holder := s.deliveries[s.last[key]];
    assert holder.key == key && holder.reservedAt.Some?;
    assert Dated(s, holder);
    assert holder.Req().IsComplete();
  }

  // ---- Why the provisos are needed ----

  /** Delivery 0's handler ends after its reservation expired and delivery 1 took the key over. */
  function Overtaken(c: Config, key: Key, kind: string, how: HandlerEnd): seq<Label> {
    [Begin(0, key, kind), Ask(0, Fine), Tick(c.ttl + 1), Begin(1, key, kind), Ask(1, Fine), Finish(0, how)]
  }

  function OvertakenState(c: Config, key: Key, kind: string, how: HandlerEnd): State
    requires !how.Panics?
  {
    State(
      c.ttl + 1,
      map[key := Entry(kind, InFlight, None, c.ttl + 1 + c.ttl)],
      map[0 := Delivery(key, kind, if how.Fails? then Failed else Succeeded(how.response), Some(0)),
          1 := Delivery(key, kind, Running, Some(c.ttl + 1))],
      map[key := 1],
      {})
  }

  /** Delivery 0 takes the key and outlives its reservation. */
  lemma OvertakenHalf(c: Config, key: Key, kind: string, how: HandlerEnd)
    requires key != "" && kind != ""
    ensures var run := Overtaken(c, key, kind, how);
            var s1 := Apply(c, Init(0), run[0]);
            var s2 := Apply(c, s1, run[1]);
            && Enabled(c, Init(0), run[0]) && Enabled(c, s1, run[1]) && Enabled(c, s2, run[2])
            && Apply(c, s2, run[2]) == State(
                 c.ttl + 1, map[key := Entry(kind, InFlight, None, c.ttl)],
                 map[0 := Delivery(key, kind, Running, Some(0))], map[key := 0], {})
  {
  }

  /** Delivery 1 takes the expired key over, then delivery 0's handler ends. */
  lemma OvertakenRest(c: Config, key: Key, kind: string, how: HandlerEnd, s3: State)
    requires key != "" && kind != "" && !how.Panics?
    requires s3 == State(
                     c.ttl + 1, map[key := Entry(kind, InFlight, None, c.ttl)],
                     map[0 := Delivery(key, kind, Running, Some(0))], map[key := 0], {})
    ensures var run := Overtaken(c, key, kind, how);
            var s4 := Apply(c, s3, run[3]);
            var s5 := Apply(c, s4, run[4]);
            && Enabled(c, s3, run[3]) && Enabled(c, s4, run[4]) && Enabled(c, s5, run[5])
            && Apply(c, s5, run[5]) == OvertakenState(c, key, kind, how)
  {
    hide Inspect;
    hide Idempotency.Completed;
    hide Released;
    hide Purged;
    hide Completable;
  }

  lemma OvertakenRun(c: Config, key: Key, kind: string, how: HandlerEnd)
    requires key != "" && kind != "" && !how.Panics?
    ensures Legal(c, Init(0), Overtaken(c, key, kind, how))
    ensures After(c, Init(0), Overtaken(c, key, kind, how)) == OvertakenState(c, key, kind, how)
  {
    hide Legal;
    hide After;
    hide Apply;
    hide Enabled;
    hide OvertakenState;
    var run := Overtaken(c, key, kind, how);
    SixSteps(c, Init(0), run);
    OvertakenHalf(c, key, kind, how);
    OvertakenRest(c, key, kind, how, Apply(c, Apply(c, Apply(c, Init(0), run[0]), run[1]), run[2]));
  }

  lemma SixSteps(c: Config, s: State, run: seq<Label>)
    requires |run| == 6
    ensures var s1 := Apply(c, s, run[0]);
            var s2 := Apply(c, s1, run[1]);
            var s3 := Apply(c, s2, run[2]);
            var s4 := Apply(c, s3, run[3]);
            var s5 := Apply(c, s4, run[4]);
            && After(c, s, run) == Apply(c, s5, run[5])
            && (Legal(c, s, run) <==>
                  && Enabled(c, s, run[0]) && Enabled(c, s1, run[1]) && Enabled(c, s2, run[2])
                  && Enabled(c, s3, run[3]) && Enabled(c, s4, run[4]) && Enabled(c, s5, run[5]))
  {
    hide Apply;
    hide Enabled;
    Unroll(c, s, run, 0);
    Unroll(c, s, run, 1);
    Unroll(c, s, run, 2);
    Unroll(c, s, run, 3);
    Unroll(c, s, run, 4);
    Unroll(c, s, run, 5);
    assert run[..6] == run;
  }

  lemma Unroll(c: Config, s: State, run: seq<Label>, n: nat)
    requires n < |run|
    ensures After(c, s, run[..n + 1]) == Apply(c, After(c, s, run[..n]), run[n])
    ensures Legal(c, s, run[..n + 1]) <==> Legal(c, s, run[..n]) && Enabled(c, After(c, s, run[..n]), run[n])
    ensures After(c, s, []) == s && Legal(c, s, [])
  {
    assert run[..n + 1][..n] == run[..n];
  }

  /**
   The failing family: on every driver, whatever the ttl, one release after expiry
   lets a third delivery in while the second still holds the key.
   */
  lemma LateReleaseBreaksExclusivity(c: Config, key: Key, kind: string)
    requires key != "" && kind != ""
    ensures exists run :: Legal(c, Init(0), run) && DoublyHeld(c, After(c, Init(0), run), key)
  {
    var run := Overtaken(c, key, kind, Fails);
    OvertakenRun(c, key, kind, Fails);
    hide Overtaken;
    hide Legal;
    hide After;
    var s := OvertakenState(c, key, kind, Fails);
    if c.driver.Redis? {
      Extend(c, Init(0), run, Fetch(0, Fine));
      run := run + [Fetch(0, Fine)];
      s := Apply(c, s, Fetch(0, Fine));
    }
    assert s.deliveries[0].phase == if c.driver.Redis? then Releasing else Failed;
    Extend(c, Init(0), run, Write(0, Fine));
    run := run + [Write(0, Fine)];
    s := Apply(c, s, Write(0, Fine));
    assert key !in s.rows;
    TakeAgain(c, run, s, key, kind);
  }

  lemma TakeAgain(c: Config, run: seq<Label>, s: State, key: Key, kind: string)
    requires key != "" && kind != ""
    requires Legal(c, Init(0), run) && After(c, Init(0), run) == s
    requires key !in s.rows && 2 !in s.deliveries
    requires 1 in s.deliveries && s.deliveries[1].key == key && s.deliveries[1].HoldsLive(s.now, c.ttl)
    ensures exists r :: Legal(c, Init(0), r) && DoublyHeld(c, After(c, Init(0), r), key)
  {
    hide Legal;
    hide After;
    Extend(c, Init(0), run, Begin(2, key, kind));
    var run1 := run + [Begin(2, key, kind)];
    var s1 := Apply(c, s, Begin(2, key, kind));
    Extend(c, Init(0), run1, Ask(2, Fine));
    var run2 := run1 + [Ask(2, Fine)];
    var s2 := Apply(c, s1, Ask(2, Fine));
    assert s2.deliveries[1].HoldsLive(s2.now, c.ttl) && s2.deliveries[2].HoldsLive(s2.now, c.ttl);
    assert DoublyHeld(c, s2, key);
    assert Legal(c, Init(0), run2) && DoublyHeld(c, After(c, Init(0), run2), key);
  }

  /**
   Exactly when a release leaves every live reservation of its key in the store, from
   every state the theorems on exclusivity speak of, late completions included.
   */
  lemma ReleaseIsHarmlessIff(c: Config, s: State, id: DeliveryId, fault: Fault)
    requires Enabled(c, s, Write(id, fault)) && s.deliveries[id].IsReleasing()
    requires HoldInv(c, s, s.deliveries[id].key)
    ensures HolderStored(c, Apply(c, s, Write(id, fault)), s.deliveries[id].key) <==>
            !TakesAnother(c, s, Write(id, fault), s.deliveries[id].key)
  {
    var key := s.deliveries[id].key;
    var s' := Apply(c, s, Write(id, fault));
    if TakesAnother(c, s, Write(id, fault), key) {
      var holder := s.last[key];
      assert s'.deliveries[holder] == s.deliveries[holder];
      assert s'.deliveries[holder].HoldsLive(s'.now, c.ttl);
      assert key !in s'.rows;
    } else {
      StepKeepsHold(c, s, Write(id, fault), key);
    }
  }

  /** The delivery holds the key live, and its row is done. */
  predicate HeldDone(c: Config, s: State, key: Key, j: DeliveryId) {
    && j in s.deliveries && s.deliveries[j].key == key && s.deliveries[j].HoldsLive(s.now, c.ttl)
    && key in s.rows && s.rows[key].status == Done
  }

  /**
   Exactly when a completing command that takes effect marks the row of another
   delivery that still holds it live: that one took the key since, and the row is
   still in flight. Its holder is then done with before its handler ended.
   */
  lemma CompletionMarksAnotherIff(c: Config, s: State, id: DeliveryId, fault: Fault)
    requires Enabled(c, s, Write(id, fault)) && s.deliveries[id].IsCompleting() && !fault.Lost?
    requires HoldInv(c, s, s.deliveries[id].key)
    ensures var key, s' := s.deliveries[id].key, Apply(c, s, Write(id, fault));
            (exists j :: j != id && HeldDone(c, s', key, j) && !HeldDone(c, s, key, j)) <==>
            && key in s.rows && s.rows[key].status == InFlight
            && s.last[key] != id && s.deliveries[s.last[key]].HoldsLive(s.now, c.ttl)
  {
    var key, s' := s.deliveries[id].key, Apply(c, s, Write(id, fault));
    hide Spaced;
    hide AllDated;
    if key in s.rows && s.rows[key].status == InFlight && s.last[key] != id
       && s.deliveries[s.last[key]].HoldsLive(s.now, c.ttl) {
      assert s'.deliveries[s.last[key]] == s.deliveries[s.last[key]];
      assert HeldDone(c, s', key, s.last[key]) && !HeldDone(c, s, key, s.last[key]);
    }
  }

  /**
   Exactly when a completion that is itself in time and answered is refused: another
   delivery, late, already marked its row, and the driver tests the status, Postgres
   in the update, Redis in the read before it. Memory never refuses one.
   */
  lemma InTimeCompletionIsRefusedIff(c: Config, s: State, l: Label)
    requires Enabled(c, s, l) && (l.Fetch? || l.Write?) && l.fault.Fine? && s.deliveries[l.id].IsCompleting()
    requires HoldInv(c, s, s.deliveries[l.id].key) && s.deliveries[l.id].HoldsLive(s.now, c.ttl)
    ensures var key := s.deliveries[l.id].key;
            && key in s.rows
            && (Apply(c, s, l).deliveries[l.id].phase == Over(NotMarked) <==>
                  s.rows[key].status == Done && (if l.Fetch? then c.driver.Redis? else c.driver.Postgres?))
  {
    hide Spaced;
  }

  /**
   The failing family: on Postgres, whatever the ttl, a completion after expiry marks
   the successor's row, and the successor, itself in time, ends handled but unmarked.
   */
  lemma LateCompletionSpoilsAnother(c: Config, key: Key, kind: string)
    requires key != "" && kind != "" && c.driver.Postgres?
    ensures exists run :: Legal(c, Init(0), run) &&
              var s := After(c, Init(0), run);
              && 1 in s.deliveries && s.deliveries[1].phase == Over(NotMarked)
              && s.deliveries[1].HoldsLive(s.now, c.ttl)
  {
    var how := Succeeds(None);
    var run := Overtaken(c, key, kind, how);
    OvertakenRun(c, key, kind, how);
    hide Overtaken;
    hide Legal;
    hide After;
    var s := OvertakenState(c, key, kind, how);
    Extend(c, Init(0), run, Write(0, Fine));
    run := run + [Write(0, Fine)];
    s := Apply(c, s, Write(0, Fine));
    assert s.rows[key].status == Done;
    Extend(c, Init(0), run, Finish(1, how));
    run := run + [Finish(1, how)];
    s := Apply(c, s, Finish(1, how));
    Extend(c, Init(0), run, Write(1, Fine));
    run := run + [Write(1, Fine)];
    s := Apply(c, s, Write(1, Fine));
    assert s.deliveries[1].phase == Over(NotMarked) && s.deliveries[1].HoldsLive(s.now, c.ttl);
    assert Legal(c, Init(0), run) && After(c, Init(0), run) == s;
  }

  // ---- What failed commands cost ----

  /** What one more copy gets that comes now and whose commands are answered. */
  function CopyGets(c: Config, s: State, n: DeliveryId, key: Key, kind: string): Phase
    requires n !in s.deliveries
  {
    CopyStays(c, s, n, key, kind);
    var asked := Apply(c, Apply(c, s, Begin(n, key, kind)), Ask(n, Fine));
    if asked.deliveries[n].phase.Inspecting? then Apply(c, asked, Read(n, Fine)).deliveries[n].phase
    else asked.deliveries[n].phase
  }

  lemma CopyStays(c: Config, s: State, n: DeliveryId, key: Key, kind: string)
    requires n !in s.deliveries
    ensures var asked := Apply(c, Apply(c, s, Begin(n, key, kind)), Ask(n, Fine));
            n in asked.deliveries && n in Apply(c, asked, Read(n, Fine)).deliveries
  {
    var begun := Apply(c, s, Begin(n, key, kind));
    assert n in begun.deliveries;
    MemoryGrows(c, begun, Ask(n, Fine));
    MemoryGrows(c, Apply(c, begun, Ask(n, Fine)), Read(n, Fine));
    hide Apply;
  }

  /**
   A delivery whose completing command failed is handled and unconfirmed. While its
   reservation lives, a copy is given its response exactly when the command took
   effect, and is refused otherwise: the effect is not repeated in either case.
   */
  lemma FailedCompletionIsReplayedIff(c: Config, s: State, id: DeliveryId, fault: Fault, n: DeliveryId)
    requires Enabled(c, s, Write(id, fault)) && s.deliveries[id].IsCompleting() && !fault.Fine?
    requires Inv(c, s, s.deliveries[id].key) && s.deliveries[id].HoldsLive(s.now, c.ttl) && n !in s.deliveries
    ensures var d, s' := s.deliveries[id], Apply(c, s, Write(id, fault));
            && s'.deliveries[id].phase == Over(Unconfirmed) && n !in s'.deliveries
            && CopyGets(c, s', n, d.key, d.fingerprint) ==
               Over(if fault.Unheard? then Replayed(d.phase.response) else Refused(AlreadyInFlight))
  {
    var d, s' := s.deliveries[id], Apply(c, s, Write(id, fault));
    OwnRow(c, s, id);
    assert Answered(s, d) && Dated(s, d);
    CopyAnswer(c, s', n, d.key, d.fingerprint);
    hide CopyGets;
  }

  /** A copy is answered by the rows and the clock. */
  lemma CopyAnswer(c: Config, s: State, n: DeliveryId, key: Key, kind: string)
    requires n !in s.deliveries
    ensures CopyGets(c, s, n, key, kind) ==
            if key == "" then Over(NoId)
            else if kind == "" then Over(NoFingerprint)
            else if Vacant(c.driver, s.rows, key, s.now) then Running
            else if c.driver.Memory? then Over(EndOf(Decide(s.rows[key], Request(key, kind))))
            else Over(EndOf(Inspect(c.driver, s.rows, Request(key, kind), s.now)))
  {
    hide Inspect;
    hide Decide;
    hide EndOf;
    hide Purged;
    hide ApplyWrite;
    hide ApplyFetch;
  }

  lemma SameRowsSameAnswer(c: Config, s: State, s': State, n: DeliveryId, key: Key, kind: string)
    requires n !in s.deliveries && n !in s'.deliveries && s'.rows == s.rows && s'.now == s.now
    ensures CopyGets(c, s', n, key, kind) == CopyGets(c, s, n, key, kind)
  {
    CopyAnswer(c, s, n, key, kind);
    CopyAnswer(c, s', n, key, kind);
    hide *;
  }

  lemma TakenKeyIsRefused(c: Config, s: State, n: DeliveryId, key: Key, kind: string)
    requires n !in s.deliveries && key != "" && kind != "" && key in s.rows
    requires s.rows[key] == Entry(kind, InFlight, None, s.now + c.ttl)
    ensures CopyGets(c, s, n, key, kind) == Over(Refused(AlreadyInFlight))
  {
    CopyAnswer(c, s, n, key, kind);
    hide CopyGets;
  }

  /**
   A failed reservation never runs the handler. It changes what copies get exactly
   when it took effect on a vacant key: they are then refused until it expires.
   */
  lemma FailedReservationLocksIff(c: Config, s: State, id: DeliveryId, fault: Fault, n: DeliveryId)
    requires Enabled(c, s, Ask(id, fault)) && !fault.Fine? && n !in s.deliveries
    ensures var d, s' := s.deliveries[id], Apply(c, s, Ask(id, fault));
            && s'.deliveries[id].phase == Over(Refused(FaultError(c.driver))) && n !in s'.deliveries
            && CopyGets(c, s', n, d.key, d.fingerprint) ==
               if fault.Unheard? && Vacant(c.driver, s.rows, d.key, s.now) then Over(Refused(AlreadyInFlight))
               else CopyGets(c, s, n, d.key, d.fingerprint)
  {
    var d, s' := s.deliveries[id], Apply(c, s, Ask(id, fault));
    hide CopyGets;
    if fault.Unheard? && Vacant(c.driver, s.rows, d.key, s.now) {
      TakenKeyIsRefused(c, s', n, d.key, d.fingerprint);
    } else {
      SameRowsSameAnswer(c, s, s', n, d.key, d.fingerprint);
    }
  }

  /** After a failed release the handler of the next copy runs exactly when the command took effect. */
  lemma FailedReleaseLocksIff(c: Config, s: State, id: DeliveryId, fault: Fault, n: DeliveryId)
    requires Enabled(c, s, Write(id, fault)) && s.deliveries[id].IsReleasing() && !fault.Fine?
    requires Inv(c, s, s.deliveries[id].key) && s.deliveries[id].HoldsLive(s.now, c.ttl) && n !in s.deliveries
    ensures var d, s' := s.deliveries[id], Apply(c, s, Write(id, fault));
            && n !in s'.deliveries
            && CopyGets(c, s', n, d.key, d.fingerprint) ==
               if fault.Unheard? then Running else Over(Refused(AlreadyInFlight))
  {
    var d, s' := s.deliveries[id], Apply(c, s, Write(id, fault));
    OwnRow(c, s, id);
    assert Dated(s, d);
    CopyAnswer(c, s', n, d.key, d.fingerprint);
    hide CopyGets;
  }
}
