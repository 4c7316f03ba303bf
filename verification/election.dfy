/**
 The election of periodic tasks by PostgreSQL advisory lock
 (internal/core/scheduler/drivers/postgres/postgres.go) under the runner that pairs
 Acquire with Release (internal/core/scheduler/application/runner.go): any number of
 replicas, each with a connection pool and a `held` map, any number of goroutines
 calling RunOnce, one database. A session lock is counted and re-entrant, and ends
 with its session. Every statement, every critical section and every pool operation
 is one step. LockKey is an arbitrary function of the task name.
 */
module Election {
  type TaskName = string
  type SessionId = nat
  type ReplicaId = nat
  type AttemptId = nat

  datatype Config = Config(lockKey: TaskName -> int)

  datatype JobEnd = Succeeded | Failed | Panicked

  /** What the runner reports. */
  datatype Event = EventSkipped | EventSucceeded | EventFailed | EventElectionFailed | EventReleaseFailed

  /** How one call of RunOnce ended. */
  datatype Outcome = Skipped | ElectionFailed | Worked(job: JobEnd) | ReleaseFailed(job: JobEnd)

  /** Where one call of RunOnce stands, and the connection it works on. */
  datatype Phase =
    | Checking
    | Connecting
    | Locking(session: SessionId)
    | Elected(session: SessionId)
    | Running(session: SessionId)
    | Finished(session: SessionId, job: JobEnd)
    | Unlocking(session: SessionId, job: JobEnd)
    | Breaking(session: SessionId, job: JobEnd)
    | Returning(session: SessionId, outcome: Outcome)
    | Over(outcome: Outcome)

  datatype Attempt = Attempt(replica: ReplicaId, task: TaskName, phase: Phase) {
    predicate Uses() {
      !phase.Checking? && !phase.Connecting? && !phase.Over?
    }

    /** Between the grant of the lock and the unlock statement. */
    predicate Entitled() {
      phase.Elected? || phase.Running? || phase.Finished? || phase.Unlocking?
    }

    predicate Holding() {
      phase.Running? || phase.Finished?
    }
  }

  datatype Lock = Lock(owner: SessionId, count: nat)

  datatype Replica = Replica(pool: set<SessionId>, held: map<TaskName, SessionId>, dead: bool)

  /** `home` lists every session ever opened with the replica that opened it. */
  datatype State = State(
    locks: map<int, Lock>,
    alive: set<SessionId>,
    home: map<SessionId, ReplicaId>,
    replicas: map<ReplicaId, Replica>,
    attempts: map<AttemptId, Attempt>)

  datatype Label =
    | Spawn(id: AttemptId, replica: ReplicaId, task: TaskName)
    | Check(id: AttemptId)
    | Connect(id: AttemptId, session: SessionId)
    | ConnectFails(id: AttemptId)
    | TryLock(id: AttemptId)
    | TryLockFails(id: AttemptId, granted: bool)
    | Hold(id: AttemptId)
    | Finish(id: AttemptId, job: JobEnd)
    | Pop(id: AttemptId)
    | Unlock(id: AttemptId)
    | UnlockFails(id: AttemptId, released: bool)
    | Close(id: AttemptId)
    | GiveBack(id: AttemptId)
    | Die(replica: ReplicaId)
    | Lose(session: SessionId)

  const NEW_REPLICA: Replica := Replica({}, map[], false)

  const INITIAL: State := State(map[], {}, map[], map[], map[])

  function ReplicaAt(s: State, r: ReplicaId): Replica {
    if r in s.replicas then s.replicas[r] else NEW_REPLICA
  }

  predicate Lives(s: State, r: ReplicaId) {
    !ReplicaAt(s, r).dead
  }

  /** The attempt exists, in a living process. */
  predicate Active(s: State, id: AttemptId) {
    id in s.attempts && Lives(s, s.attempts[id].replica)
  }

  predicate Enabled(s: State, l: Label) {
    match l
    case Spawn(id, r, _) => id !in s.attempts && Lives(s, r)
    case Check(id) => Active(s, id) && s.attempts[id].phase.Checking?
    case Connect(id, session) =>
      && Active(s, id) && s.attempts[id].phase.Connecting?
      && (session in ReplicaAt(s, s.attempts[id].replica).pool || session !in s.home)
    case ConnectFails(id) => Active(s, id) && s.attempts[id].phase.Connecting?
    case TryLock(id) => Active(s, id) && s.attempts[id].phase.Locking? && s.attempts[id].phase.session in s.alive
    case TryLockFails(id, granted) =>
      && Active(s, id) && s.attempts[id].phase.Locking?
      && (granted ==> s.attempts[id].phase.session in s.alive)
    case Hold(id) => Active(s, id) && s.attempts[id].phase.Elected?
    case Finish(id, _) => Active(s, id) && s.attempts[id].phase.Running?
    case Pop(id) => Active(s, id) && s.attempts[id].phase.Finished?
    case Unlock(id) => Active(s, id) && s.attempts[id].phase.Unlocking? && s.attempts[id].phase.session in s.alive
    case UnlockFails(id, released) =>
      && Active(s, id) && s.attempts[id].phase.Unlocking?
      && (released ==> s.attempts[id].phase.session in s.alive)
    case Close(id) => Active(s, id) && s.attempts[id].phase.Breaking?
    case GiveBack(id) => Active(s, id) && s.attempts[id].phase.Returning?
    case Die(r) => true
    case Lose(session) => session in s.alive
  }

  // ---- The database ----

  /** pg_try_advisory_lock succeeds on a free key and, re-entrantly, on one's own. */
  predicate Grantable(locks: map<int, Lock>, key: int, session: SessionId) {
    key in locks ==> locks[key].owner == session
  }

  function Granted(locks: map<int, Lock>, key: int, session: SessionId): map<int, Lock> {
    locks[key := Lock(session, if key in locks then locks[key].count + 1 else 1)]
  }

  /** pg_advisory_unlock gives back one of the session's own grants. */
  predicate Owns(locks: map<int, Lock>, key: int, session: SessionId) {
    key in locks && locks[key].owner == session
  }

  function Unlocked(locks: map<int, Lock>, key: int): map<int, Lock>
    requires key in locks
  {
    if locks[key].count <= 1 then locks - {key} else locks[key := locks[key].(count := locks[key].count - 1)]
  }

  /** The end of a session drops everything it holds. */
  function Dropped(locks: map<int, Lock>, session: SessionId): map<int, Lock> {
    map key | key in locks && locks[key].owner != session :: locks[key]
  }

  /** A grant counts one more for its session and touches no other key; giving it back undoes it. */
  lemma GrantIsUndone(locks: map<int, Lock>, key: int, session: SessionId)
    requires key in locks ==> locks[key].owner == session && locks[key].count > 0
    ensures var after := Granted(locks, key, session);
            && key in after && after[key].owner == session
            && after[key].count == (if key in locks then locks[key].count + 1 else 1)
            && (forall k :: k != key ==> (k in after <==> k in locks) && (k in locks ==> after[k] == locks[k]))
            && Unlocked(after, key) == locks
  {
  }

  // ---- The steps ----

  function To(s: State, id: AttemptId, phase: Phase): State
    requires id in s.attempts
  {
    s.(attempts := s.attempts[id := s.attempts[id].(phase := phase)])
  }

  function Put(s: State, r: ReplicaId, replica: Replica): State {
    s.(replicas := s.replicas[r := replica])
  }

  function ApplyAttempt(c: Config, s: State, l: Label): State
    requires Enabled(s, l) && !l.Spawn? && !l.Die? && !l.Lose?
  {
    var id := l.id;
    var a := s.attempts[id];
    var r := ReplicaAt(s, a.replica);
    var key := c.lockKey(a.task);
    match l
    case Check(_) => To(s, id, if a.task in r.held then Over(Skipped) else Connecting)
    case Connect(_, session) =>
      var s' := To(s, id, Locking(session));
      if session in r.pool then Put(s', a.replica, r.(pool := r.pool - {session}))
      else s'.(alive := s.alive + {session}, home := s.home[session := a.replica])
    case ConnectFails(_) => To(s, id, Over(ElectionFailed))
    case TryLock(_) =>
      if Grantable(s.locks, key, a.phase.session)
      then To(s, id, Elected(a.phase.session)).(locks := Granted(s.locks, key, a.phase.session))
      else To(s, id, Returning(a.phase.session, Skipped))
    case TryLockFails(_, granted) =>
      var s' := To(s, id, Returning(a.phase.session, ElectionFailed));
      if granted && Grantable(s.locks, key, a.phase.session)
      then s'.(locks := Granted(s.locks, key, a.phase.session)) else s'
    case Hold(_) =>
      Put(To(s, id, Running(a.phase.session)), a.replica, r.(held := r.held[a.task := a.phase.session]))
    case Finish(_, job) => To(s, id, Finished(a.phase.session, job))
    case Pop(_) =>
      if a.task in r.held
      then Put(To(s, id, Unlocking(r.held[a.task], a.phase.job)), a.replica, r.(held := r.held - {a.task}))
      else To(s, id, Over(Worked(a.phase.job)))
    case Unlock(_) =>
      if Owns(s.locks, key, a.phase.session)
      then To(s, id, Returning(a.phase.session, Worked(a.phase.job))).(locks := Unlocked(s.locks, key))
      else To(s, id, Breaking(a.phase.session, a.phase.job))
    case UnlockFails(_, released) =>
      var s' := To(s, id, Breaking(a.phase.session, a.phase.job));
      if released && Owns(s.locks, key, a.phase.session) then s'.(locks := Unlocked(s.locks, key)) else s'
    case Close(_) =>
      To(s, id, Over(ReleaseFailed(a.phase.job)))
      .(alive := s.alive - {a.phase.session}, locks := Dropped(s.locks, a.phase.session))
    case GiveBack(_) =>
      Put(To(s, id, Over(a.phase.outcome)), a.replica, r.(pool := r.pool + {a.phase.session}))
  }

  function Apply(c: Config, s: State, l: Label): State {
    if !Enabled(s, l) then s else
    match l
    case Spawn(id, r, task) => s.(attempts := s.attempts[id := Attempt(r, task, Checking)])
    case Die(r) => Put(s, r, ReplicaAt(s, r).(dead := true))
    case Lose(session) => s.(alive := s.alive - {session}, locks := Dropped(s.locks, session))
    case _ => ApplyAttempt(c, s, l)
  }

  /** The proviso: the database ends a session only when its process is dead. */
  predicate Sound(s: State, l: Label) {
    l.Lose? && l.session in s.home ==> !Lives(s, s.home[l.session])
  }

  function After(c: Config, s: State, run: seq<Label>): State {
    if run == [] then s else Apply(c, After(c, s, run[..|run| - 1]), run[|run| - 1])
  }

  ghost predicate Legal(c: Config, s: State, run: seq<Label>) {
    run == [] ||
    (Legal(c, s, run[..|run| - 1]) && Enabled(After(c, s, run[..|run| - 1]), run[|run| - 1]))
  }

  ghost predicate SoundRun(c: Config, s: State, run: seq<Label>) {
    run == [] ||
    (SoundRun(c, s, run[..|run| - 1]) && Sound(After(c, s, run[..|run| - 1]), run[|run| - 1]))
  }

  /** No failed lock query was granted. */
  ghost predicate HonestRun(run: seq<Label>) {
    forall i :: 0 <= i < |run| && run[i].TryLockFails? ==> !run[i].granted
  }

  lemma Extend(c: Config, s: State, run: seq<Label>, l: Label)
    requires Legal(c, s, run) && Enabled(After(c, s, run), l)
    ensures Legal(c, s, run + [l]) && After(c, s, run + [l]) == Apply(c, After(c, s, run), l)
    ensures SoundRun(c, s, run + [l]) <==> SoundRun(c, s, run) && Sound(After(c, s, run), l)
  {
    assert (run + [l])[..|run|] == run;
  }

  // ---- The invariant ----

  /** A connection in use belongs to the process using it and is not in its pool. */
  ghost predicate Private(s: State, a: Attempt) {
    a.Uses() ==>
      && a.phase.session in s.home && s.home[a.phase.session] == a.replica
      && a.phase.session !in ReplicaAt(s, a.replica).pool
      && (Lives(s, a.replica) ==> a.phase.session in s.alive)
  }

  /** No two attempts share a connection. */
  ghost predicate Separate(s: State) {
    && (forall id :: id in s.attempts ==> Private(s, s.attempts[id]))
    && (forall i, j ::
          && i in s.attempts && j in s.attempts && s.attempts[i].Uses() && s.attempts[j].Uses()
          && s.attempts[i].phase.session == s.attempts[j].phase.session
          ==> i == j)
  }

  /** Pools hold live connections of their own process. */
  ghost predicate Pooled(s: State) {
    forall r, session :: session in ReplicaAt(s, r).pool ==>
      && session in s.home && s.home[session] == r && (Lives(s, r) ==> session in s.alive)
  }

  /** Sessions and grants are real. */
  ghost predicate Granting(s: State) {
    && s.alive <= s.home.Keys
    && (forall key :: key in s.locks ==> s.locks[key].owner in s.alive && s.locks[key].count > 0)
  }

  /** Between election and unlock, the connection owns the task's key. */
  ghost predicate EntitledOwn(c: Config, s: State) {
    forall id :: Active(s, id) && s.attempts[id].Entitled() ==>
      Owns(s.locks, c.lockKey(s.attempts[id].task), s.attempts[id].phase.session)
  }

  /** `held` lists exactly the tasks whose job runs or has just finished, with their connections. */
  ghost predicate HeldExact(s: State) {
    && (forall id :: Active(s, id) && s.attempts[id].Holding() ==>
          var a := s.attempts[id];
          a.task in ReplicaAt(s, a.replica).held && ReplicaAt(s, a.replica).held[a.task] == a.phase.session)
    && (forall r, task :: task in ReplicaAt(s, r).held ==> HeldBy(s, r, task))
  }

  ghost predicate HeldAt(s: State, r: ReplicaId, task: TaskName, id: AttemptId) {
    && id in s.attempts && s.attempts[id].Holding()
    && s.attempts[id].replica == r && s.attempts[id].task == task
  }

  ghost predicate HeldBy(s: State, r: ReplicaId, task: TaskName) {
    exists id :: HeldAt(s, r, task, id)
  }

  ghost predicate Inv(c: Config, s: State) {
    Separate(s) && Pooled(s) && Granting(s) && EntitledOwn(c, s) && HeldExact(s)
  }

  lemma InitialInv(c: Config)
    ensures Inv(c, INITIAL)
  {
  }

  // ---- Every sound step keeps it ----

  /** The task of a finished job is in `held` with the connection of that job. */
  lemma HeldIsOwn(s: State, id: AttemptId)
    requires HeldExact(s) && Active(s, id) && s.attempts[id].phase.Finished?
    ensures var a := s.attempts[id];
            a.task in ReplicaAt(s, a.replica).held && ReplicaAt(s, a.replica).held[a.task] == a.phase.session
  {
  }

  /** The label of a step of attempt `id`. */
  predicate StepsOf(l: Label, id: AttemptId) {
    !l.Die? && !l.Lose? && l.id == id
  }

  lemma OthersUnmoved(c: Config, s: State, l: Label, id: AttemptId)
    requires Enabled(s, l) && !StepsOf(l, id)
    ensures id in s.attempts <==> id in Apply(c, s, l).attempts
    ensures id in s.attempts ==> Apply(c, s, l).attempts[id] == s.attempts[id]
  {
  }

  /** Processes never come back, and home addresses never change. */
  lemma WorldMovesOn(c: Config, s: State, l: Label)
    requires Enabled(s, l)
    ensures forall r: ReplicaId :: Lives(Apply(c, s, l), r) ==> Lives(s, r)
    ensures forall r: ReplicaId :: !l.Die? || r != l.replica ==> (Lives(Apply(c, s, l), r) <==> Lives(s, r))
    ensures forall session :: session in s.home ==>
              session in Apply(c, s, l).home && Apply(c, s, l).home[session] == s.home[session]
  {
    hide Granted;
    hide Unlocked;
    hide Dropped;
  }

  /** An attempt only ever gets a connection from its pool, and keeps it until it gives it back. */
  lemma ConnectionStays(c: Config, s: State, l: Label, id: AttemptId)
    requires HeldExact(s) && Enabled(s, l) && id in Apply(c, s, l).attempts && Apply(c, s, l).attempts[id].Uses()
    ensures var a' := Apply(c, s, l).attempts[id];
            || (id in s.attempts && s.attempts[id].Uses() && s.attempts[id].phase.session == a'.phase.session
                && s.attempts[id].replica == a'.replica)
            || (l == Connect(id, a'.phase.session))
  {
    if StepsOf(l, id) {
      if l.Pop? {
        HeldIsOwn(s, id);
      }
    } else {
      OthersUnmoved(c, s, l, id);
    }
  }

  /** Only a give-back fills a pool, and a connection taken from it leaves it. */
  lemma PoolChange(c: Config, s: State, l: Label, r: ReplicaId, session: SessionId)
    requires Enabled(s, l) && session in ReplicaAt(Apply(c, s, l), r).pool
    ensures session in ReplicaAt(s, r).pool
            || (l.GiveBack? && s.attempts[l.id].replica == r && s.attempts[l.id].phase.session == session)
    ensures l.Connect? && s.attempts[l.id].replica == r ==> l.session != session || session !in s.home
  {
    hide Granted;
    hide Unlocked;
    hide Dropped;
  }

  /** Only a close or a loss ends a session. */
  lemma SessionEnds(c: Config, s: State, l: Label, session: SessionId)
    requires Enabled(s, l) && session in s.alive && session !in Apply(c, s, l).alive
    ensures l == Lose(session) || (l.Close? && s.attempts[l.id].phase.session == session)
  {
    hide Granted;
    hide Unlocked;
    hide Dropped;
  }

  lemma NewConnectionIsPrivate(c: Config, s: State, l: Label)
    requires Pooled(s) && Enabled(s, l) && l.Connect?
    ensures Private(Apply(c, s, l), Apply(c, s, l).attempts[l.id])
  {
    assert ReplicaAt(s, s.attempts[l.id].replica).pool <= s.home.Keys;
  }

  lemma PrivateKept(c: Config, s: State, l: Label, id: AttemptId)
    requires Separate(s) && Pooled(s) && HeldExact(s) && Enabled(s, l) && Sound(s, l)
    requires id in Apply(c, s, l).attempts
    ensures Private(Apply(c, s, l), Apply(c, s, l).attempts[id])
  {
    var s' := Apply(c, s, l);
    if l.Connect? && l.id == id {
      NewConnectionIsPrivate(c, s, l);
    } else if s'.attempts[id].Uses() {
      ConnectionStays(c, s, l, id);
      OldConnectionIsPrivate(c, s, l, id);
    }
  }

  lemma OldConnectionIsPrivate(c: Config, s: State, l: Label, id: AttemptId)
    requires Separate(s) && Enabled(s, l) && Sound(s, l)
    requires id in s.attempts && s.attempts[id].Uses()
    requires var s' := Apply(c, s, l);
             && id in s'.attempts && s'.attempts[id].Uses()
             && s'.attempts[id].phase.session == s.attempts[id].phase.session
             && s'.attempts[id].replica == s.attempts[id].replica
    ensures Private(Apply(c, s, l), Apply(c, s, l).attempts[id])
  {
    var s' := Apply(c, s, l);
    var session := s.attempts[id].phase.session;
    assert Private(s, s.attempts[id]);
    if l.Close? || l.GiveBack? {
      StillUsed(c, s, l, id);
    }
    WorldMovesOn(c, s, l);
    if session in s.alive && session !in s'.alive {
      SessionEnds(c, s, l, session);
    }
    if session in ReplicaAt(s', s.attempts[id].replica).pool {
      PoolChange(c, s, l, s.attempts[id].replica, session);
    }
    hide Apply;
    hide ApplyAttempt;
  }

  /** A close or a give-back ends the use of the connection. */
  lemma StillUsed(c: Config, s: State, l: Label, id: AttemptId)
    requires Enabled(s, l) && (l.Close? || l.GiveBack?) && id in Apply(c, s, l).attempts
    requires Apply(c, s, l).attempts[id].Uses()
    ensures l.id != id
  {
  }

  lemma SeparateKept(c: Config, s: State, l: Label)
    requires Separate(s) && Pooled(s) && Granting(s) && HeldExact(s) && Enabled(s, l) && Sound(s, l)
    ensures Separate(Apply(c, s, l))
  {
    var s' := Apply(c, s, l);
    forall id | id in s'.attempts ensures Private(s', s'.attempts[id]) {
      PrivateKept(c, s, l, id);
    }
    forall i, j |
      && i in s'.attempts && j in s'.attempts && s'.attempts[i].Uses() && s'.attempts[j].Uses()
      && s'.attempts[i].phase.session == s'.attempts[j].phase.session
      ensures i == j
    {
      ConnectionStays(c, s, l, i);
      ConnectionStays(c, s, l, j);
      hide Apply;
      hide HeldExact;
      hide Granting;
    }
  }

  lemma PooledKept(c: Config, s: State, l: Label)
    requires Separate(s) && Pooled(s) && Granting(s) && Enabled(s, l) && Sound(s, l)
    ensures Pooled(Apply(c, s, l))
  {
    var s' := Apply(c, s, l);
    WorldMovesOn(c, s, l);
    if !l.Die? && !l.Lose? && l.id in s.attempts {
      assert Private(s, s.attempts[l.id]);
    }
    forall r, session | session in ReplicaAt(s', r).pool
      ensures session in s'.home && s'.home[session] == r && (Lives(s', r) ==> session in s'.alive)
    {
      PooledConnectionKept(c, s, l, r, session);
    }
  }

  lemma PooledConnectionKept(c: Config, s: State, l: Label, r: ReplicaId, session: SessionId)
    requires Pooled(s) && Granting(s) && Enabled(s, l) && Sound(s, l)
    requires !l.Die? && !l.Lose? && l.id in s.attempts ==> Private(s, s.attempts[l.id])
    requires session in ReplicaAt(Apply(c, s, l), r).pool
    ensures var s' := Apply(c, s, l);
            session in s'.home && s'.home[session] == r && (Lives(s', r) ==> session in s'.alive)
  {
    WorldMovesOn(c, s, l);
    PoolChange(c, s, l, r, session);
    if session in s.alive && session !in Apply(c, s, l).alive {
      SessionEnds(c, s, l, session);
    }
    hide Apply;
    hide ApplyAttempt;
  }

  lemma GrantingKept(c: Config, s: State, l: Label)
    requires Separate(s) && Granting(s) && Enabled(s, l)
    ensures Granting(Apply(c, s, l))
  {
    hide ReplicaAt;
  }

  /** A grant lasts until its own attempt unlocks it or its session ends. */
  lemma GrantLasts(c: Config, s: State, l: Label, id: AttemptId)
    requires Separate(s) && Enabled(s, l) && Sound(s, l) && !StepsOf(l, id)
    requires Active(s, id) && s.attempts[id].Entitled() && Lives(Apply(c, s, l), s.attempts[id].replica)
    requires Owns(s.locks, c.lockKey(s.attempts[id].task), s.attempts[id].phase.session)
    ensures Owns(Apply(c, s, l).locks, c.lockKey(s.attempts[id].task), s.attempts[id].phase.session)
  {
    assert Private(s, s.attempts[id]);
    if !l.Die? && !l.Lose? && l.id in s.attempts && s.attempts[l.id].Uses() {
      assert s.attempts[l.id].phase.session != s.attempts[id].phase.session;
    }
  }

  /** An attempt entitled by its own step has just been granted the lock, or was entitled already. */
  lemma OwnGrant(c: Config, s: State, l: Label, id: AttemptId)
    requires HeldExact(s) && Enabled(s, l) && StepsOf(l, id) && Apply(c, s, l).attempts[id].Entitled()
    requires id in s.attempts && s.attempts[id].Entitled() ==>
               Owns(s.locks, c.lockKey(s.attempts[id].task), s.attempts[id].phase.session)
    ensures var a' := Apply(c, s, l).attempts[id];
            Owns(Apply(c, s, l).locks, c.lockKey(a'.task), a'.phase.session)
  {
    if l.Pop? {
      HeldIsOwn(s, id);
    }
  }

  lemma EntitledKept(c: Config, s: State, l: Label)
    requires Separate(s) && HeldExact(s) && EntitledOwn(c, s) && Enabled(s, l) && Sound(s, l)
    ensures EntitledOwn(c, Apply(c, s, l))
  {
    var s' := Apply(c, s, l);
    WorldMovesOn(c, s, l);
    forall id | Active(s', id) && s'.attempts[id].Entitled()
      ensures Owns(s'.locks, c.lockKey(s'.attempts[id].task), s'.attempts[id].phase.session)
    {
      if StepsOf(l, id) {
        hide Separate;
        OwnGrant(c, s, l, id);
      } else {
        OthersUnmoved(c, s, l, id);
        GrantLasts(c, s, l, id);
      }
      hide Apply;
      hide HeldExact;
    }
  }

  /** Two entitled attempts of living processes never share a key. */
  lemma EntitledIsUnique(c: Config, s: State, i: AttemptId, j: AttemptId)
    requires Separate(s) && EntitledOwn(c, s) && Active(s, i) && Active(s, j)
    requires s.attempts[i].Entitled() && s.attempts[j].Entitled()
    requires c.lockKey(s.attempts[i].task) == c.lockKey(s.attempts[j].task)
    ensures i == j
  {
  }

  lemma HoldsBy(c: Config, s: State, l: Label, id: AttemptId)
    requires Enabled(s, l) && StepsOf(l, id) && id in Apply(c, s, l).attempts && Apply(c, s, l).attempts[id].Holding()
    ensures l.Hold? || l.Finish?
  {
  }

  lemma HeldNamesRunner(c: Config, s: State, l: Label, id: AttemptId)
    requires Separate(s) && HeldExact(s) && EntitledOwn(c, s) && Enabled(s, l)
    requires Active(Apply(c, s, l), id) && Apply(c, s, l).attempts[id].Holding()
    ensures var s' := Apply(c, s, l);
            var a := s'.attempts[id];
            a.task in ReplicaAt(s', a.replica).held && ReplicaAt(s', a.replica).held[a.task] == a.phase.session
  {
    WorldMovesOn(c, s, l);
    if StepsOf(l, id) {
      hide Separate;
      hide EntitledOwn;
      HoldsBy(c, s, l, id);
    } else {
      OthersUnmoved(c, s, l, id);
      var a := s.attempts[id];
      if (l.Hold? || l.Pop?) && s.attempts[l.id].replica == a.replica && s.attempts[l.id].task == a.task {
        EntitledIsUnique(c, s, id, l.id);
      }
      hide Separate;
      hide EntitledOwn;
      HeldFrame(c, s, l, a.replica, a.task);
      hide Apply;
    }
  }

  /** Only hold and pop steps of the same process and task touch an entry of `held`. */
  lemma HeldFrame(c: Config, s: State, l: Label, r: ReplicaId, task: TaskName)
    requires Enabled(s, l)
    requires l.Hold? || l.Pop? ==> s.attempts[l.id].replica != r || s.attempts[l.id].task != task
    ensures task in ReplicaAt(s, r).held <==> task in ReplicaAt(Apply(c, s, l), r).held
    ensures task in ReplicaAt(s, r).held ==> ReplicaAt(Apply(c, s, l), r).held[task] == ReplicaAt(s, r).held[task]
  {
    hide Granted;
    hide Unlocked;
    hide Dropped;
  }

  lemma HeldGrowsByHold(c: Config, s: State, l: Label, r: ReplicaId, task: TaskName)
    requires Enabled(s, l) && task in ReplicaAt(Apply(c, s, l), r).held
    ensures task in ReplicaAt(s, r).held || (l.Hold? && s.attempts[l.id].replica == r && s.attempts[l.id].task == task)
    ensures l.Pop? ==> s.attempts[l.id].replica != r || s.attempts[l.id].task != task
  {
    hide Granted;
    hide Unlocked;
    hide Dropped;
  }

  lemma HoldHolds(c: Config, s: State, l: Label)
    requires Enabled(s, l) && l.Hold?
    ensures var s' := Apply(c, s, l);
            && l.id in s'.attempts && s'.attempts[l.id].Holding()
            && s'.attempts[l.id].replica == s.attempts[l.id].replica && s'.attempts[l.id].task == s.attempts[l.id].task
  {
  }

  /** Until its task is popped, a running or finished job stays one. */
  lemma HolderStays(c: Config, s: State, l: Label, id: AttemptId)
    requires Enabled(s, l) && id in s.attempts && s.attempts[id].Holding() && (l.Pop? ==> l.id != id)
    ensures var s' := Apply(c, s, l);
            && id in s'.attempts && s'.attempts[id].Holding()
            && s'.attempts[id].replica == s.attempts[id].replica && s'.attempts[id].task == s.attempts[id].task
  {
    if !StepsOf(l, id) {
      OthersUnmoved(c, s, l, id);
      hide Apply;
    }
  }

  lemma RunnerStaysNamed(c: Config, s: State, l: Label, r: ReplicaId, task: TaskName)
    requires HeldExact(s) && Enabled(s, l) && task in ReplicaAt(Apply(c, s, l), r).held
    ensures HeldBy(Apply(c, s, l), r, task)
  {
    var s' := Apply(c, s, l);
    HeldGrowsByHold(c, s, l, r, task);
    if l.Hold? && s.attempts[l.id].replica == r && s.attempts[l.id].task == task {
      HoldHolds(c, s, l);
      hide Apply;
      assert HeldAt(s', r, task, l.id);
    } else {
      assert HeldBy(s, r, task);
      hide HeldExact;
      var id :| HeldAt(s, r, task, id);
      HolderStays(c, s, l, id);
      hide Apply;
      hide ReplicaAt;
      assert HeldAt(s', r, task, id);
    }
  }

  lemma HeldKept(c: Config, s: State, l: Label)
    requires Separate(s) && HeldExact(s) && EntitledOwn(c, s) && Enabled(s, l)
    ensures HeldExact(Apply(c, s, l))
  {
    var s' := Apply(c, s, l);
    forall id | Active(s', id) && s'.attempts[id].Holding()
      ensures var a := s'.attempts[id];
              a.task in ReplicaAt(s', a.replica).held && ReplicaAt(s', a.replica).held[a.task] == a.phase.session
    {
      HeldNamesRunner(c, s, l, id);
    }
    forall r, task | task in ReplicaAt(s', r).held ensures HeldBy(s', r, task) {
      RunnerStaysNamed(c, s, l, r, task);
    }
    hide Apply;
  }

  lemma StepKeepsInv(c: Config, s: State, l: Label)
    requires Inv(c, s) && Enabled(s, l) && Sound(s, l)
    ensures Inv(c, Apply(c, s, l))
  {
    hide Separate;
    hide Pooled;
    hide Granting;
    hide EntitledOwn;
    hide HeldExact;
    SeparateKept(c, s, l);
    PooledKept(c, s, l);
    GrantingKept(c, s, l);
    EntitledKept(c, s, l);
    HeldKept(c, s, l);
  }

  lemma {:induction false} RunKeepsInv(c: Config, s: State, run: seq<Label>)
    requires Inv(c, s) && Legal(c, s, run) && SoundRun(c, s, run)
    ensures Inv(c, After(c, s, run))
  {
    hide Inv;
    if run != [] {
      RunKeepsInv(c, s, run[..|run| - 1]);
      StepKeepsInv(c, After(c, s, run[..|run| - 1]), run[|run| - 1]);
    }
  }

  lemma Reached(c: Config, run: seq<Label>)
    requires Legal(c, INITIAL, run) && SoundRun(c, INITIAL, run)
    ensures Inv(c, After(c, INITIAL, run))
  {
    InitialInv(c);
    RunKeepsInv(c, INITIAL, run);
  }

  // ---- Theorems ----

  /** A session that is closed or lost is gone with its locks, and no other session goes with it. */
  lemma EndedIsGone(c: Config, s: State, l: Label)
    requires Enabled(s, l) && (l.Lose? || l.Close?)
    ensures var s', session := Apply(c, s, l), if l.Lose? then l.session else s.attempts[l.id].phase.session;
            && s'.alive == s.alive - {session}
            && (forall key :: key in s'.locks <==> key in s.locks && s.locks[key].owner != session)
            && forall key :: key in s'.locks ==> s'.locks[key] == s.locks[key]
  {
  }

  /** A process that dies never lives again, and no other process dies with it. */
  lemma DeathIsFinal(c: Config, s: State, l: Label, r: ReplicaId)
    requires Enabled(s, l)
    ensures Lives(Apply(c, s, l), r) <==> Lives(s, r) && l != Die(r)
  {
    hide Granted;
    hide Unlocked;
    hide Dropped;
  }

  /**
   Election safety: across any replicas, goroutines, deaths of replicas, failed
   queries and failed unlocks, at most one job per lock key runs at a time, and
   so does at most one call between election and unlock.
   */
  lemma OneJobPerKey(c: Config, run: seq<Label>, i: AttemptId, j: AttemptId)
    requires Legal(c, INITIAL, run) && SoundRun(c, INITIAL, run)
    requires var s := After(c, INITIAL, run);
             && Active(s, i) && Active(s, j) && s.attempts[i].Entitled() && s.attempts[j].Entitled()
             && c.lockKey(s.attempts[i].task) == c.lockKey(s.attempts[j].task)
    ensures i == j
  {
    Reached(c, run);
    EntitledIsUnique(c, After(c, INITIAL, run), i, j);
  }

  /** `held` names, for each task, a connection outside the pool whose live session owns the task's key. */
  lemma HeldNamesTheOwner(c: Config, run: seq<Label>, r: ReplicaId, task: TaskName)
    requires Legal(c, INITIAL, run) && SoundRun(c, INITIAL, run)
    requires Lives(After(c, INITIAL, run), r) && task in ReplicaAt(After(c, INITIAL, run), r).held
    ensures var s := After(c, INITIAL, run);
            var session := ReplicaAt(s, r).held[task];
            && Owns(s.locks, c.lockKey(task), session)
            && session in s.alive && session in s.home && s.home[session] == r && session !in ReplicaAt(s, r).pool
  {
    Reached(c, run);
    var s := After(c, INITIAL, run);
    assert HeldBy(s, r, task);
    var id :| HeldAt(s, r, task, id);
    assert Active(s, id) && Private(s, s.attempts[id]);
  }

  /** A call that works on a connection works on the same one until it is over. */
  lemma StepKeepsConnection(c: Config, s: State, l: Label, id: AttemptId)
    requires HeldExact(s) && Enabled(s, l) && id in s.attempts && (s.attempts[id].Uses() || s.attempts[id].phase.Over?)
    ensures var s' := Apply(c, s, l);
            && id in s'.attempts && s'.attempts[id].replica == s.attempts[id].replica
            && s'.attempts[id].task == s.attempts[id].task
            && (s'.attempts[id].Uses() ==>
                  s.attempts[id].Uses() && s'.attempts[id].phase.session == s.attempts[id].phase.session)
            && (s'.attempts[id].Uses() || s'.attempts[id].phase.Over?)
  {
    if StepsOf(l, id) {
      if l.Pop? {
        HeldIsOwn(s, id);
      }
      hide HeldExact;
      hide ReplicaAt;
      hide Granted;
      hide Unlocked;
      hide Dropped;
    } else {
      OthersUnmoved(c, s, l, id);
      hide Apply;
      hide HeldExact;
    }
  }

  lemma {:induction false} KeepsConnection(c: Config, s: State, run: seq<Label>, id: AttemptId)
    requires Inv(c, s) && Legal(c, s, run) && SoundRun(c, s, run)
    requires id in s.attempts && s.attempts[id].Uses()
    ensures var s' := After(c, s, run);
            && id in s'.attempts && s'.attempts[id].replica == s.attempts[id].replica
            && s'.attempts[id].task == s.attempts[id].task
            && (s'.attempts[id].Uses() ==> s'.attempts[id].phase.session == s.attempts[id].phase.session)
            && (s'.attempts[id].Uses() || s'.attempts[id].phase.Over?)
  {
    if run != [] {
      var front := run[..|run| - 1];
      KeepsConnection(c, s, front, id);
      RunKeepsInv(c, s, front);
      StepKeepsConnection(c, After(c, s, front), run[|run| - 1], id);
      hide Inv;
    }
  }

  /**
   Release works on the connection the same call of Acquire put in `held`, and finds
   it there, whatever the other goroutines, processes and failures did in between.
   */
  lemma PopsItsOwn(c: Config, run: seq<Label>, s: State, between: seq<Label>, id: AttemptId)
    requires Legal(c, INITIAL, run) && SoundRun(c, INITIAL, run) && s == After(c, INITIAL, run)
    requires Enabled(s, Hold(id))
    requires Legal(c, Apply(c, s, Hold(id)), between) && SoundRun(c, Apply(c, s, Hold(id)), between)
    requires Enabled(After(c, Apply(c, s, Hold(id)), between), Pop(id))
    ensures var a := s.attempts[id];
            var s' := After(c, Apply(c, s, Hold(id)), between);
            && a.task in ReplicaAt(s', a.replica).held
            && ReplicaAt(s', a.replica).held[a.task] == a.phase.session
            && Apply(c, s', Pop(id)).attempts[id].phase == Unlocking(a.phase.session, s'.attempts[id].phase.job)
  {
    Reached(c, run);
    StepKeepsInv(c, s, Hold(id));
    var held := Apply(c, s, Hold(id));
    KeepsConnection(c, held, between, id);
    RunKeepsInv(c, held, between);
    HeldIsOwn(After(c, held, between), id);
  }

  /** Whoever owns the lock of a key, once, is a call between its election and the end of its release. */
  ghost predicate Accounted(c: Config, s: State, key: int)
    requires key in s.locks
  {
    s.locks[key].count == 1 && exists id :: OwnedBy(c, s, key, id)
  }

  ghost predicate OwnedBy(c: Config, s: State, key: int, id: AttemptId)
    requires key in s.locks
  {
    && id in s.attempts && (s.attempts[id].Entitled() || s.attempts[id].phase.Breaking?)
    && s.attempts[id].phase.session == s.locks[key].owner && c.lockKey(s.attempts[id].task) == key
  }

  ghost predicate Clean(c: Config, s: State) {
    forall key :: key in s.locks ==> Accounted(c, s, key)
  }

  /** A connection about to be locked owns nothing yet. */
  lemma LockingOwnsNothing(c: Config, s: State, id: AttemptId, key: int)
    requires Separate(s) && Clean(c, s) && id in s.attempts && s.attempts[id].phase.Locking? && key in s.locks
    ensures s.locks[key].owner != s.attempts[id].phase.session
  {
    assert Accounted(c, s, key);
  }

  /** What one step does to one lock. */
  lemma LockChange(c: Config, s: State, l: Label, key: int)
    requires Enabled(s, l) && key in Apply(c, s, l).locks
    ensures (key in s.locks && Apply(c, s, l).locks[key] == s.locks[key])
            || ((l.TryLock? || l.TryLockFails?) && c.lockKey(s.attempts[l.id].task) == key
                && Grantable(s.locks, key, s.attempts[l.id].phase.session)
                && (l.TryLockFails? ==> l.granted)
                && Apply(c, s, l).locks == Granted(s.locks, key, s.attempts[l.id].phase.session))
            || ((l.Unlock? || l.UnlockFails?) && c.lockKey(s.attempts[l.id].task) == key
                && Owns(s.locks, key, s.attempts[l.id].phase.session) && Apply(c, s, l).locks == Unlocked(s.locks, key))
  {
  }

  /** A step that does not end the ownership leaves its owner in place. */
  lemma OwnerStays(c: Config, s: State, l: Label, key: int, id: AttemptId)
    requires HeldExact(s) && Enabled(s, l) && key in s.locks && OwnedBy(c, s, key, id)
    requires key in Apply(c, s, l).locks && Apply(c, s, l).locks[key].owner == s.locks[key].owner
    requires s.locks[key].count == 1
    ensures OwnedBy(c, Apply(c, s, l), key, id)
  {
    if StepsOf(l, id) {
      if l.Pop? {
        HeldIsOwn(s, id);
      }
    } else {
      OthersUnmoved(c, s, l, id);
    }
  }

  lemma LockStaysAccounted(c: Config, s: State, l: Label, key: int)
    requires Separate(s) && HeldExact(s) && Clean(c, s) && Enabled(s, l) && key in Apply(c, s, l).locks
    requires l.TryLockFails? ==> !l.granted
    ensures Accounted(c, Apply(c, s, l), key)
  {
    var s' := Apply(c, s, l);
    LockChange(c, s, l, key);
    if key in s.locks {
      assert Accounted(c, s, key);
      var id :| OwnedBy(c, s, key, id);
      if l.TryLock? && c.lockKey(s.attempts[l.id].task) == key {
        LockingOwnsNothing(c, s, l.id, key);
      }
      OwnerStays(c, s, l, key, id);
    } else {
      assert OwnedBy(c, s', key, l.id);
    }
  }

  lemma {:induction false} RunKeepsClean(c: Config, run: seq<Label>)
    requires Legal(c, INITIAL, run) && SoundRun(c, INITIAL, run) && HonestRun(run)
    ensures Clean(c, After(c, INITIAL, run))
  {
    if run != [] {
      var front := run[..|run| - 1];
      RunKeepsClean(c, front);
      Reached(c, front);
      var s := After(c, INITIAL, front);
      hide Pooled;
      hide Granting;
      hide EntitledOwn;
      var s' := Apply(c, s, run[|run| - 1]);
      forall key | key in s'.locks ensures Accounted(c, s', key) {
        LockStaysAccounted(c, s, run[|run| - 1], key);
      }
    }
  }

  /**
   Assuming that a failed lock query was not granted, no pooled connection owns a
   lock, and when no call is between its election and the end of its release every
   lock is free, whatever died or failed before.
   */
  lemma PoolsOwnNothing(c: Config, run: seq<Label>, r: ReplicaId, key: int)
    requires Legal(c, INITIAL, run) && SoundRun(c, INITIAL, run)
    requires forall i :: 0 <= i < |run| && run[i].TryLockFails? ==> !run[i].granted
    ensures var s := After(c, INITIAL, run);
            && (key in s.locks ==> s.locks[key].owner !in ReplicaAt(s, r).pool)
            && ((forall id :: id in s.attempts ==> !s.attempts[id].Entitled() && !s.attempts[id].phase.Breaking?) ==>
                  key !in s.locks)
  {
    Reached(c, run);
    RunKeepsClean(c, run);
    hide Granting;
    hide HeldExact;
    hide EntitledOwn;
    hide Legal;
    hide SoundRun;
    hide After;
    if key in After(c, INITIAL, run).locks {
      OwnerIsNotPooled(c, After(c, INITIAL, run), r, key);
    }
  }

  lemma OwnerIsNotPooled(c: Config, s: State, r: ReplicaId, key: int)
    requires Separate(s) && Pooled(s) && Clean(c, s) && key in s.locks
    ensures s.locks[key].owner !in ReplicaAt(s, r).pool
    ensures exists id :: id in s.attempts && (s.attempts[id].Entitled() || s.attempts[id].phase.Breaking?)
  {
    assert Accounted(c, s, key);
    var id :| OwnedBy(c, s, key, id);
    assert Private(s, s.attempts[id]);
  }

  /** Exactly when a failed lock query leaks: it was granted after all, on a free key. */
  lemma FailedQueryLeaksIff(c: Config, s: State, id: AttemptId, granted: bool)
    requires Inv(c, s) && Clean(c, s) && Enabled(s, TryLockFails(id, granted))
    ensures Clean(c, Apply(c, s, TryLockFails(id, granted))) <==>
            !(granted && c.lockKey(s.attempts[id].task) !in s.locks)
  {
    hide Pooled;
    hide EntitledOwn;
    hide HeldExact;
    var s' := Apply(c, s, TryLockFails(id, granted));
    var key := c.lockKey(s.attempts[id].task);
    if key in s.locks {
      LockingOwnsNothing(c, s, id, key);
    }
    if granted && key !in s.locks {
      assert forall j :: j in s'.attempts && s'.attempts[j].Uses() && j != id ==>
                           s'.attempts[j].phase.session != s.attempts[id].phase.session;
      assert !Accounted(c, s', key);
    } else {
      hide Separate;
      assert s'.locks == s.locks;
      forall k | k in s'.locks ensures Accounted(c, s', k) {
        assert Accounted(c, s, k);
        var j :| OwnedBy(c, s, k, j);
        assert OwnedBy(c, s', k, j);
      }
    }
  }

  /**
   Why the proviso is needed: while a job runs, the database ending a session lets
   a second job of the same key be elected exactly when it ends the session of the
   running one. This is the failover the driver does not survive.
   */
  lemma LostSessionElectsAnother(c: Config, s: State, i: AttemptId, j: AttemptId, lost: SessionId)
    requires Inv(c, s) && Active(s, i) && Active(s, j) && s.attempts[i].phase.Running? && s.attempts[j].phase.Locking?
    requires c.lockKey(s.attempts[i].task) == c.lockKey(s.attempts[j].task)
    requires lost in s.alive && lost != s.attempts[j].phase.session
    ensures var s' := Apply(c, Apply(c, s, Lose(lost)), TryLock(j));
            && s'.attempts[i].phase.Running?
            && (s'.attempts[j].phase.Elected? <==> lost == s.attempts[i].phase.session)
  {
    hide Pooled;
    hide HeldExact;
    assert Private(s, s.attempts[j]);
    var s1 := Apply(c, s, Lose(lost));
    assert Enabled(s1, TryLock(j));
    assert Owns(s.locks, c.lockKey(s.attempts[i].task), s.attempts[i].phase.session);
    assert s.attempts[i].phase.session != s.attempts[j].phase.session;
    assert Grantable(s1.locks, c.lockKey(s.attempts[i].task), s.attempts[j].phase.session) <==>
      lost == s.attempts[i].phase.session;
  }

  // ---- The code ----

  class Database {
    var locks: map<int, Lock>
    var alive: set<SessionId>
    var home: map<SessionId, ReplicaId>

    constructor ()
      ensures locks == map[] && alive == {} && home == map[]
    {
      locks, alive, home := map[], {}, map[];
    }
  }

  /** What the outside answers during one call: a connection or none, failed queries, the job's fate. */
  datatype Script = Script(
    connection: (bool, SessionId), lockQuery: (bool, bool), job: JobEnd, unlockQuery: (bool, bool))

  class Elector {
    const c: Config
    const replica: ReplicaId
    const db: Database
    var idle: set<SessionId>
    var held: map<TaskName, SessionId>

    constructor (c: Config, replica: ReplicaId, db: Database)
      ensures this.c == c && this.replica == replica && this.db == db && idle == {} && held == map[]
    {
      this.c, this.replica, this.db := c, replica, db;
      idle, held := {}, map[];
    }

    /** The machine state, seen from this process and its database. */
    ghost predicate Sees(s: State)
      reads this, db
    {
      && db.locks == s.locks && db.alive == s.alive && db.home == s.home
      && idle == ReplicaAt(s, replica).pool && held == ReplicaAt(s, replica).held && !ReplicaAt(s, replica).dead
    }

    method Busy(task: TaskName, ghost s: State, ghost id: AttemptId) returns (busy: bool)
      requires Sees(s) && id in s.attempts && s.attempts[id] == Attempt(replica, task, Checking)
      ensures Enabled(s, Check(id)) && Sees(Apply(c, s, Check(id)))
      ensures Apply(c, s, Check(id)).attempts[id] == Attempt(replica, task, if busy then Over(Skipped) else Connecting)
      ensures Apply(c, s, Check(id)).replicas == s.replicas && Apply(c, s, Check(id)).home == s.home
    {
      busy := task in held;
    }

    method Keep(task: TaskName, session: SessionId, ghost s: State, ghost id: AttemptId)
      requires Sees(s) && id in s.attempts && s.attempts[id] == Attempt(replica, task, Elected(session))
      modifies this`held
      ensures Enabled(s, Hold(id)) && Sees(Apply(c, s, Hold(id)))
      ensures Apply(c, s, Hold(id)).attempts[id] == Attempt(replica, task, Running(session))
      ensures id in Apply(c, s, Hold(id)).attempts && held == old(held)[task := session]
    {
      held := held[task := session];
    }

    /** Borrows a pooled connection, or opens one. */
    method Borrow(session: SessionId, ghost s: State, ghost id: AttemptId)
      requires Sees(s) && Enabled(s, Connect(id, session)) && s.attempts[id].replica == replica
      modifies this`idle, db`alive, db`home
      ensures Sees(Apply(c, s, Connect(id, session)))
      ensures Apply(c, s, Connect(id, session)).attempts[id] == s.attempts[id].(phase := Locking(session))
    {
      if session in idle {
        idle := idle - {session};
      } else {
        db.alive, db.home := db.alive + {session}, db.home[session := replica];
      }
    }

    method Return(session: SessionId, ghost s: State, ghost id: AttemptId)
      requires Sees(s) && Enabled(s, GiveBack(id)) && s.attempts[id].replica == replica
      requires s.attempts[id].phase.session == session
      modifies this`idle
      ensures Sees(Apply(c, s, GiveBack(id))) && id in Apply(c, s, GiveBack(id)).attempts
      ensures idle == old(idle) + {session}
      ensures Apply(c, s, GiveBack(id)).attempts[id] == s.attempts[id].(phase := Over(s.attempts[id].phase.outcome))
    {
      idle := idle + {session};
    }

    /** The lock query: it may fail after the database granted it. */
    method LockQuery(
      task: TaskName, session: SessionId, fails: bool, granted: bool, ghost s: State, ghost id: AttemptId)
      returns (elected: bool, ghost l: Label)
      requires Sees(s) && Active(s, id) && s.attempts[id] == Attempt(replica, task, Locking(session))
      requires session in db.alive
      modifies db`locks
      ensures l == if fails then TryLockFails(id, granted) else TryLock(id)
      ensures Enabled(s, l) && Sees(Apply(c, s, l))
      ensures elected <==> !fails && Grantable(s.locks, c.lockKey(task), session)
      ensures db.locks == if (fails ==> granted) && Grantable(s.locks, c.lockKey(task), session)
                          then Granted(s.locks, c.lockKey(task), session) else s.locks
      ensures id in Apply(c, s, l).attempts
      ensures Apply(c, s, l).attempts[id] == Attempt(
                replica, task,
                if elected then Elected(session) else Returning(session, if fails then ElectionFailed else Skipped))
    {
      var key := c.lockKey(task);
      var grantable := Grantable(db.locks, key, session);
      l := if fails then TryLockFails(id, granted) else TryLock(id);
      if grantable && (fails ==> granted) {
        db.locks := Granted(db.locks, key, session);
      }
      elected := !fails && grantable;
    }

    method UnlockQuery(
      task: TaskName, session: SessionId, fails: bool, released: bool, ghost s: State, ghost id: AttemptId)
      returns (done: bool, ghost l: Label)
      requires Sees(s) && Active(s, id) && s.attempts[id].phase.Unlocking? && s.attempts[id].phase.session == session
      requires s.attempts[id].replica == replica && s.attempts[id].task == task && session in db.alive
      modifies db`locks
      ensures l == if fails then UnlockFails(id, released) else Unlock(id)
      ensures Enabled(s, l) && Sees(Apply(c, s, l))
      ensures done <==> !fails && Owns(s.locks, c.lockKey(task), session)
      ensures db.locks == if (fails ==> released) && Owns(s.locks, c.lockKey(task), session)
                          then Unlocked(s.locks, c.lockKey(task)) else s.locks
      ensures var job := s.attempts[id].phase.job;
              Apply(c, s, l).attempts[id].phase ==
              if done then Returning(session, Worked(job)) else Breaking(session, job)
      ensures Apply(c, s, l).attempts[id].replica == replica
    {
      var key := c.lockKey(task);
      var owns := Owns(db.locks, key, session);
      l := if fails then UnlockFails(id, released) else Unlock(id);
      if owns && (fails ==> released) {
        db.locks := Unlocked(db.locks, key);
      }
      done := !fails && owns;
    }

    /** Hijack and close: the connection leaves the pool for good and its session dies. */
    method Destroy(session: SessionId, ghost s: State, ghost id: AttemptId)
      requires Sees(s) && Enabled(s, Close(id)) && s.attempts[id].replica == replica
      requires s.attempts[id].phase.session == session
      modifies db`alive, db`locks
      ensures Sees(Apply(c, s, Close(id)))
      ensures db.alive == old(db.alive) - {session} && db.locks == Dropped(old(db.locks), session)
      ensures Apply(c, s, Close(id)).attempts[id].phase == Over(ReleaseFailed(s.attempts[id].phase.job))
    {
      db.alive, db.locks := db.alive - {session}, Dropped(db.locks, session);
    }

    lemma NoConnection(c: Config, s: State, id: AttemptId)
      requires Sees(s) && Enabled(s, ConnectFails(id))
      ensures Sees(Apply(c, s, ConnectFails(id)))
      ensures Apply(c, s, ConnectFails(id)).attempts[id] == s.attempts[id].(phase := Over(ElectionFailed))
    {
    }

    /** The lock query and what follows it: the connection is kept, or given back at once. */
    method Elect(task: TaskName, session: SessionId, script: Script, ghost s: State, ghost id: AttemptId)
      returns (elected: bool, ghost run: seq<Label>)
      requires Sees(s) && id in s.attempts && s.attempts[id] == Attempt(replica, task, Locking(session))
      requires session in db.alive
      modifies this, db
      ensures Legal(c, s, run) && SoundRun(c, s, run) && Sees(After(c, s, run))
      ensures elected <==> !script.lockQuery.0 && Grantable(old(db.locks), c.lockKey(task), session)
      ensures held == if elected then old(held)[task := session] else old(held)
      ensures db.locks == if (script.lockQuery.0 ==> script.lockQuery.1)
                             && Grantable(old(db.locks), c.lockKey(task), session)
                          then Granted(old(db.locks), c.lockKey(task), session) else old(db.locks)
      ensures id in After(c, s, run).attempts
      ensures After(c, s, run).attempts[id] == Attempt(
                replica, task,
                if elected then Running(session) else Over(if script.lockQuery.0 then ElectionFailed else Skipped))
    {
      hide Legal;
      hide After;
      hide SoundRun;
      hide Apply;
      hide Granted;
      hide Grantable;
      NothingYet(c, s);
      ghost var l;
      elected, l := LockQuery(task, session, script.lockQuery.0, script.lockQuery.1, s, id);
      ghost var now := Step(c, s, [], l);
      run := [] + [l];
      if !elected {
        Return(session, now, id);
        now := Step(c, s, run, GiveBack(id));
        run := run + [GiveBack(id)];
        return;
      }
      Keep(task, session, now, id);
      now := Step(c, s, run, Hold(id));
      run := run + [Hold(id)];
    }

    /**
     One uninterrupted call of Acquire is a run of the machine from any state the
     other goroutines, processes and failures may have led to. It elects exactly when
     this process does not run the task, a connection comes, and its query is answered
     and finds the key free or its own; a query whose answer is lost may take the lock.
     */
    method Acquire(task: TaskName, script: Script, ghost s: State, ghost id: AttemptId)
      returns (elected: bool, failed: bool, ghost run: seq<Label>)
      requires Inv(c, s) && Sees(s) && id in s.attempts && s.attempts[id] == Attempt(replica, task, Checking)
      requires script.connection.0 ==> script.connection.1 in idle || script.connection.1 !in db.home
      modifies this, db
      ensures Legal(c, s, run) && SoundRun(c, s, run) && Sees(After(c, s, run))
      ensures elected <==>
              && task !in old(held) && script.connection.0 && !script.lockQuery.0
              && (c.lockKey(task) in old(db.locks) ==>
                    old(db.locks)[c.lockKey(task)].owner == script.connection.1)
      ensures failed <==> task !in old(held) && (!script.connection.0 || script.lockQuery.0)
      ensures held == if elected then old(held)[task := script.connection.1] else old(held)
      ensures db.locks == if task !in old(held) && script.connection.0 && (script.lockQuery.0 ==> script.lockQuery.1)
                             && (c.lockKey(task) in old(db.locks) ==>
                                   old(db.locks)[c.lockKey(task)].owner == script.connection.1)
                          then Granted(old(db.locks), c.lockKey(task), script.connection.1) else old(db.locks)
      ensures id in After(c, s, run).attempts
      ensures After(c, s, run).attempts[id] == Attempt(
                replica, task,
                if elected then Running(held[task]) else Over(if failed then ElectionFailed else Skipped))
    {
      elected, failed := false, false;
      assert Pooled(s);
      hide Inv;
      hide Pooled;
      hide Legal;
      hide After;
      hide SoundRun;
      hide Apply;
      hide Granted;
      hide Lives;
      NothingYet(c, s);
      var busy := Busy(task, s, id);
      ghost var now := Step(c, s, [], Check(id));
      run := [] + [Check(id)];
      if busy {
        return;
      }
      if !script.connection.0 {
        NoConnection(c, now, id);
        now := Step(c, s, run, ConnectFails(id));
        run := run + [ConnectFails(id)];
        failed := true;
        return;
      }
      var session := script.connection.1;
      Borrow(session, now, id);
      now := Step(c, s, run, Connect(id, session));
      run := run + [Connect(id, session)];
      ghost var part;
      elected, part := Elect(task, session, script, now, id);
      failed := script.lockQuery.0;
      Join(c, s, run, part);
      run := run + part;
    }

    /** Takes the connection of a task out of `held`. */
    method Forget(task: TaskName, ghost s: State, ghost id: AttemptId) returns (found: bool, session: SessionId)
      requires Sees(s) && Active(s, id) && s.attempts[id].phase.Finished?
      requires s.attempts[id].replica == replica && s.attempts[id].task == task
      modifies this`held
      ensures Enabled(s, Pop(id)) && Sees(Apply(c, s, Pop(id))) && held == old(held) - {task}
      ensures found <==> task in old(held)
      ensures found ==> session == old(held)[task]
      ensures var job := s.attempts[id].phase.job;
              Apply(c, s, Pop(id)).attempts[id] ==
              Attempt(replica, task, if found then Unlocking(session, job) else Over(Worked(job)))
    {
      found, session := task in held, if task in held then held[task] else 0;
      held := held - {task};
    }

    /** One uninterrupted call of Release; the connection survives only if the unlock succeeded. */
    method Release(task: TaskName, job: JobEnd, script: Script, ghost s: State, ghost id: AttemptId)
      returns (failed: bool, ghost run: seq<Label>)
      requires Inv(c, s) && Sees(s) && Active(s, id) && s.attempts[id].phase.Finished?
      requires s.attempts[id] == Attempt(replica, task, Finished(s.attempts[id].phase.session, job))
      modifies this, db
      ensures Legal(c, s, run) && SoundRun(c, s, run) && Sees(After(c, s, run))
      ensures held == old(held) - {task}
      ensures task in old(held) && Owns(old(db.locks), c.lockKey(task), old(held)[task])
      ensures var session, unlocked := old(held)[task], Unlocked(old(db.locks), c.lockKey(task));
              if !failed then
                db.locks == unlocked && db.alive == old(db.alive) && idle == old(idle) + {session}
              else
                && idle == old(idle)
                && db.locks == Dropped(if script.unlockQuery.1 then unlocked else old(db.locks), session)
                && db.alive == old(db.alive) - {session}
      ensures failed <==> script.unlockQuery.0
      ensures id in After(c, s, run).attempts
      ensures After(c, s, run).attempts[id] == Attempt(
                replica, task, Over(if failed then ReleaseFailed(job) else Worked(job)))
    {
      HeldIsOwn(s, id);
      assert Private(s, s.attempts[id]) && Owns(s.locks, c.lockKey(task), s.attempts[id].phase.session);
      hide Inv;
      hide Separate;
      hide Legal;
      hide After;
      hide SoundRun;
      hide Apply;
      NothingYet(c, s);
      var found, session := Forget(task, s, id);
      PopLeavesTheDatabase(c, s, id);
      ghost var now := Step(c, s, [], Pop(id));
      run := [] + [Pop(id)];
      failed := false;
      if !found {
        return;
      }
      ghost var l;
      var done;
      done, l := UnlockQuery(task, session, script.unlockQuery.0, script.unlockQuery.1, now, id);
      now := Step(c, s, run, l);
      run := run + [l];
      if done {
        Return(session, now, id);
        now := Step(c, s, run, GiveBack(id));
        run := run + [GiveBack(id)];
      } else {
        Destroy(session, now, id);
        now := Step(c, s, run, Close(id));
        run := run + [Close(id)];
        failed := true;
      }
    }

    lemma PopLeavesTheDatabase(c: Config, s: State, id: AttemptId)
      requires Enabled(s, Pop(id))
      ensures Apply(c, s, Pop(id)).locks == s.locks && Apply(c, s, Pop(id)).alive == s.alive
    {
    }

    /** The job runs and ends; the election is not touched. */
    ghost method Work(job: JobEnd, s: State, id: AttemptId)
      requires Sees(s) && Active(s, id) && s.attempts[id].phase.Running? && s.attempts[id].replica == replica
      ensures Enabled(s, Finish(id, job)) && Sees(Apply(c, s, Finish(id, job)))
      ensures Apply(c, s, Finish(id, job)).attempts[id] ==
              s.attempts[id].(phase := Finished(s.attempts[id].phase.session, job))
    {
    }

    /**
     One call of RunOnce: the job runs exactly when elected, and whatever happens to it
     the election is released. The job's end is reported first, unless it panicked, then
     a failed release; a panic of the job goes on after it. A call that is not elected
     reports that, or that the election failed.
     */
    method RunOnce(task: TaskName, script: Script, ghost s: State, ghost id: AttemptId)
      returns (reports: seq<Event>, panicked: bool, ghost ran: bool, ghost outcome: Outcome, ghost run: seq<Label>)
      requires Inv(c, s) && Sees(s) && id !in s.attempts
      requires script.connection.0 ==> script.connection.1 in idle || script.connection.1 !in db.home
      modifies this, db
      ensures Legal(c, s, run) && SoundRun(c, s, run) && Inv(c, After(c, s, run)) && Sees(After(c, s, run))
      ensures id in After(c, s, run).attempts && After(c, s, run).attempts[id] == Attempt(replica, task, Over(outcome))
      ensures ran <==>
              && task !in old(held) && script.connection.0 && !script.lockQuery.0
              && (c.lockKey(task) in old(db.locks) ==>
                    old(db.locks)[c.lockKey(task)].owner == script.connection.1)
      ensures ran ==> outcome == if script.unlockQuery.0 then ReleaseFailed(script.job) else Worked(script.job)
      ensures ran ==> reports ==
                      (match script.job
                       case Succeeded => [EventSucceeded]
                       case Failed => [EventFailed]
                       case Panicked => [])
                      + (if script.unlockQuery.0 then [EventReleaseFailed] else [])
      ensures !ran ==>
                var failed := task !in old(held) && (!script.connection.0 || script.lockQuery.0);
                && outcome == (if failed then ElectionFailed else Skipped)
                && reports == [if failed then EventElectionFailed else EventSkipped]
      ensures panicked <==> ran && script.job.Panicked?
      ensures held == old(held)
    {
      hide Inv;
      hide Legal;
      hide After;
      hide SoundRun;
      SpawnStep(s, id, task);
      NothingYet(c, s);
      ghost var now := Step(c, s, [], Spawn(id, replica, task));
      run := [] + [Spawn(id, replica, task)];
      RunKeepsInv(c, s, run);
      hide Apply;
      reports, panicked := [], false;
      var elected, failed;
      ghost var part;
      elected, failed, part := Acquire(task, script, now, id);
      Join(c, s, run, part);
      RunKeepsInv(c, s, run + part);
      now, run := After(c, s, run + part), run + part;
      ran := elected;
      if failed {
        outcome := ElectionFailed;
        reports := [EventElectionFailed];
        return;
      }
      if !elected {
        outcome := Skipped;
        reports := [EventSkipped];
        return;
      }
      Work(script.job, now, id);
      match script.job {
        case Succeeded => reports := [EventSucceeded];
        case Failed => reports := [EventFailed];
        case Panicked => panicked := true;
      }
      now := Step(c, s, run, Finish(id, script.job));
      run := run + [Finish(id, script.job)];
      RunKeepsInv(c, s, run);
      failed, part := Release(task, script.job, script, now, id);
      Join(c, s, run, part);
      RunKeepsInv(c, s, run + part);
      run := run + part;
      if failed {
        reports := reports + [EventReleaseFailed];
      }
      outcome := if failed then ReleaseFailed(script.job) else Worked(script.job);
    }

    lemma SpawnStep(s: State, id: AttemptId, task: TaskName)
      requires Sees(s) && id !in s.attempts
      ensures Enabled(s, Spawn(id, replica, task)) && Sees(Apply(c, s, Spawn(id, replica, task)))
      ensures id in Apply(c, s, Spawn(id, replica, task)).attempts
      ensures Apply(c, s, Spawn(id, replica, task)).attempts[id] == Attempt(replica, task, Checking)
    {
    }
  }

  lemma {:induction false} Join(c: Config, s: State, run: seq<Label>, part: seq<Label>)
    requires Legal(c, s, run) && SoundRun(c, s, run)
    requires Legal(c, After(c, s, run), part) && SoundRun(c, After(c, s, run), part)
    ensures Legal(c, s, run + part) && SoundRun(c, s, run + part)
    ensures After(c, s, run + part) == After(c, After(c, s, run), part)
  {
    hide Enabled;
    hide Apply;
    hide Sound;
    if part == [] {
      assert run + part == run;
    } else {
      var front := part[..|part| - 1];
      Join(c, s, run, front);
      Extend(c, s, run + front, part[|part| - 1]);
      assert run + part == run + front + [part[|part| - 1]];
    }
  }

  lemma NothingYet(c: Config, s: State)
    ensures Legal(c, s, []) && SoundRun(c, s, []) && After(c, s, []) == s
  {
  }

  /** Extends a run by one enabled, sound step and names the state it leads to. */
  ghost function Step(c: Config, s: State, run: seq<Label>, l: Label): (s': State)
    requires Legal(c, s, run) && SoundRun(c, s, run)
    requires Enabled(After(c, s, run), l) && Sound(After(c, s, run), l)
    ensures s' == After(c, s, run + [l]) == Apply(c, After(c, s, run), l)
    ensures Legal(c, s, run + [l]) && SoundRun(c, s, run + [l])
  {
    Extend(c, s, run, l);
    Apply(c, After(c, s, run), l)
  }
}
