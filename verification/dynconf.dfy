/**
 Dynamic configuration: a cache with a time to live in front of a shared table, on any
 number of replicas (internal/core/dynconf/drivers/postgres/postgres.go). A lookup is
 a clock read, a cache read, a query and a cache write, with anything in between; a
 write is a statement followed by an invalidation of the local cache. Each replica
 reads its own clock.
 */
module Dynconf {
  type ReplicaId = nat
  type LookupId = nat

  datatype Kind = Flag | Setting

  datatype Value = Absent | Present(text: string)

  datatype Cached = Cached(value: Value, expires: int)

  datatype Phase = Begun | Missed | Loaded(value: Value) | Answered(value: Value)

  datatype Lookup = Lookup(replica: ReplicaId, kind: Kind, key: string, start: int, phase: Phase)

  datatype Row = Row(kind: Kind, key: string)

  datatype State = State(
    clocks: map<ReplicaId, int>,
    table: map<Row, string>,
    caches: map<ReplicaId, map<string, Cached>>,
    lookups: map<LookupId, Lookup>)

  datatype Label =
    | Tick(replica: ReplicaId, elapsed: nat)
    | Begin(id: LookupId, replica: ReplicaId, kind: Kind, key: string)
    | Peek(id: LookupId)
    | Query(id: LookupId, fails: bool)
    | Fill(id: LookupId)
    | Write(row: Row, text: string)
    | Invalidate(replica: ReplicaId)

  function Init(clocks: map<ReplicaId, int>): State {
    State(clocks, map[], map[], map[])
  }

  /** The clock of a replica; those not listed start at zero. */
  function ClockAt(s: State, r: ReplicaId): int {
    if r in s.clocks then s.clocks[r] else 0
  }

  function NameOf(kind: Kind): string {
    match kind
    case Flag => "flag"
    case Setting => "setting"
  }

  /** The cache key. */
  function Qualify(kind: Kind, key: string): string {
    NameOf(kind) + "." + key
  }

  function CacheAt(s: State, r: ReplicaId): map<string, Cached> {
    if r in s.caches then s.caches[r] else map[]
  }

  /** What the table says of a row: the text stored under it, or its absence. */
  function ValueAt(table: map<Row, string>, row: Row): (value: Value)
    ensures forall text :: value == Present(text) <==> row in table && table[row] == text
  {
    if row in table then Present(table[row]) else Absent
  }

  predicate Enabled(s: State, l: Label) {
    match l
    case Tick(_, _) => true
    case Begin(id, _, _, _) => id !in s.lookups
    case Peek(id) => id in s.lookups && s.lookups[id].phase.Begun?
    case Query(id, _) => id in s.lookups && s.lookups[id].phase.Missed?
    case Fill(id) => id in s.lookups && s.lookups[id].phase.Loaded?
    case Write(row, _) => row.key != ""
    case Invalidate(_) => true
  }

  function To(s: State, id: LookupId, phase: Phase): State
    requires id in s.lookups
  {
    s.(lookups := s.lookups[id := s.lookups[id].(phase := phase)])
  }

  function Apply(ttl: int, s: State, l: Label): State {
    if !Enabled(s, l) then s else
    match l
    case Tick(r, elapsed) => s.(clocks := s.clocks[r := ClockAt(s, r) + elapsed])
    case Begin(id, r, kind, key) => s.(lookups := s.lookups[id := Lookup(r, kind, key, ClockAt(s, r), Begun)])
    case Peek(id) =>
      var k := s.lookups[id];
      var full, cache := Qualify(k.kind, k.key), CacheAt(s, k.replica);
      To(s, id, if full in cache && k.start < cache[full].expires then Answered(cache[full].value) else Missed)
    case Query(id, fails) =>
      var k := s.lookups[id];
      To(s, id, Loaded(if fails then Absent else ValueAt(s.table, Row(k.kind, k.key))))
    case Fill(id) =>
      var k := s.lookups[id];
      var entry := Cached(k.phase.value, k.start + ttl);
      To(s, id, Answered(k.phase.value))
      .(caches := s.caches[k.replica := CacheAt(s, k.replica)[Qualify(k.kind, k.key) := entry]])
    case Write(row, text) => s.(table := s.table[row := text])
    case Invalidate(r) => s.(caches := s.caches[r := map[]])
  }

  function After(ttl: int, s: State, run: seq<Label>): State {
    if run == [] then s else Apply(ttl, After(ttl, s, run[..|run| - 1]), run[|run| - 1])
  }

  ghost predicate Legal(ttl: int, s: State, run: seq<Label>) {
    run == [] ||
    (Legal(ttl, s, run[..|run| - 1]) && Enabled(After(ttl, s, run[..|run| - 1]), run[|run| - 1]))
  }

  lemma Extend(ttl: int, s: State, run: seq<Label>, l: Label)
    requires Legal(ttl, s, run) && Enabled(After(ttl, s, run), l)
    ensures Legal(ttl, s, run + [l]) && After(ttl, s, run + [l]) == Apply(ttl, After(ttl, s, run), l)
  {
    assert (run + [l])[..|run|] == run;
  }

  /** Cache keys never collide, across kinds either. */
  lemma QualifyIsInjective(kind: Kind, key: string, kind': Kind, key': string)
    requires Qualify(kind, key) == Qualify(kind', key')
    ensures kind == kind' && key == key'
  {
    var full := Qualify(kind, key);
    assert full[0] == NameOf(kind)[0] == NameOf(kind')[0];
    assert key == full[|NameOf(kind)| + 1..];
    assert key' == full[|NameOf(kind)| + 1..];
  }

  // ---- Where a value comes from ----

  /** The step is a failed read of the row. */
  predicate FailsToRead(s: State, l: Label, row: Row) {
    l.Query? && l.fails && l.id in s.lookups && Row(s.lookups[l.id].kind, s.lookups[l.id].key) == row
  }

  /**
   After the first n steps of the run the table said this value for the row; or the
   next step is a failed read of the row, which says it is absent.
   */
  ghost predicate SaidAt(ttl: int, s: State, run: seq<Label>, n: nat, row: Row, value: Value)
    requires n <= |run|
  {
    var there := After(ttl, s, run[..n]);
    || (match value
        case Present(text) => row in there.table && there.table[row] == text
        case Absent => row !in there.table)
    || (value == Absent && n < |run| && FailsToRead(there, run[n], row))
  }

  /** The value was said at some instant not before `since` on the clock of the replica. */
  ghost predicate SaidSince(ttl: int, s: State, run: seq<Label>, r: ReplicaId, row: Row, value: Value, since: int) {
    exists n :: 0 <= n <= |run| && SaidAt(ttl, s, run, n, row, value) && ClockAt(After(ttl, s, run[..n]), r) >= since
  }

  lemma SaidSinceExtends(
    ttl: int, s: State, run: seq<Label>, l: Label, r: ReplicaId, row: Row, value: Value, since: int)
    requires SaidSince(ttl, s, run, r, row, value, since)
    ensures SaidSince(ttl, s, run + [l], r, row, value, since)
  {
    hide After;
    var n :| 0 <= n <= |run| && SaidAt(ttl, s, run, n, row, value) && ClockAt(After(ttl, s, run[..n]), r) >= since;
    assert (run + [l])[..n] == run[..n];
    assert SaidAt(ttl, s, run + [l], n, row, value);
  }

  /** A query says what it loads. */
  lemma QuerySays(ttl: int, s: State, run: seq<Label>, id: LookupId, fails: bool, r: ReplicaId)
    requires Enabled(After(ttl, s, run), Query(id, fails))
    ensures var there := After(ttl, s, run);
            var row := Row(there.lookups[id].kind, there.lookups[id].key);
            var value := if fails then Absent else ValueAt(there.table, row);
            SaidSince(ttl, s, run + [Query(id, fails)], r, row, value, ClockAt(there, r))
  {
    hide After;
    var all := run + [Query(id, fails)];
    var there := After(ttl, s, run);
    var row := Row(there.lookups[id].kind, there.lookups[id].key);
    assert all[..|run|] == run && all[|run|] == Query(id, fails);
    assert SaidAt(ttl, s, all, |run|, row, if fails then Absent else ValueAt(there.table, row));
  }

  // ---- The invariant ----

  ghost predicate LookupSound(ttl: int, s: State, run: seq<Label>, k: Lookup) {
    && k.start <= ClockAt(After(ttl, s, run), k.replica)
    && (k.phase.Loaded? ==> SaidSince(ttl, s, run, k.replica, Row(k.kind, k.key), k.phase.value, k.start))
    && (k.phase.Answered? ==>
          || SaidSince(ttl, s, run, k.replica, Row(k.kind, k.key), k.phase.value, k.start)
          || SaidSince(ttl, s, run, k.replica, Row(k.kind, k.key), k.phase.value, k.start - ttl + 1))
  }

  /** A cached value was said not before its expiry minus the ttl: the clock was read before the load. */
  ghost predicate CacheSound(ttl: int, s: State, run: seq<Label>, r: ReplicaId, cache: map<string, Cached>) {
    forall full :: full in cache ==>
      exists kind, key :: full == Qualify(kind, key) &&
        SaidSince(ttl, s, run, r, Row(kind, key), cache[full].value, cache[full].expires - ttl)
  }

  ghost predicate Sound(ttl: int, s: State, run: seq<Label>) {
    var t := After(ttl, s, run);
    && (forall id :: id in t.lookups ==> LookupSound(ttl, s, run, t.lookups[id]))
    && (forall r: ReplicaId :: CacheSound(ttl, s, run, r, CacheAt(t, r)))
  }

  lemma LookupSoundExtends(ttl: int, s: State, run: seq<Label>, l: Label, k: Lookup)
    requires LookupSound(ttl, s, run, k) && Legal(ttl, s, run) && Enabled(After(ttl, s, run), l)
    ensures LookupSound(ttl, s, run + [l], k)
  {
    Extend(ttl, s, run, l);
    hide SaidSince;
    hide After;
    hide Legal;
    var row := Row(k.kind, k.key);
    if k.phase.Loaded? || k.phase.Answered? {
      if SaidSince(ttl, s, run, k.replica, row, k.phase.value, k.start) {
        SaidSinceExtends(ttl, s, run, l, k.replica, row, k.phase.value, k.start);
      }
      if SaidSince(ttl, s, run, k.replica, row, k.phase.value, k.start - ttl + 1) {
        SaidSinceExtends(ttl, s, run, l, k.replica, row, k.phase.value, k.start - ttl + 1);
      }
    }
  }

  lemma CacheSoundExtends(
    ttl: int, s: State, run: seq<Label>, l: Label, r: ReplicaId, cache: map<string, Cached>)
    requires CacheSound(ttl, s, run, r, cache)
    ensures CacheSound(ttl, s, run + [l], r, cache)
  {
    hide SaidSince;
    forall full | full in cache
      ensures exists kind, key :: full == Qualify(kind, key) &&
                SaidSince(ttl, s, run + [l], r, Row(kind, key), cache[full].value, cache[full].expires - ttl)
    {
      var kind, key :| full == Qualify(kind, key) &&
        SaidSince(ttl, s, run, r, Row(kind, key), cache[full].value, cache[full].expires - ttl);
      SaidSinceExtends(ttl, s, run, l, r, Row(kind, key), cache[full].value, cache[full].expires - ttl);
    }
  }

  /** A weaker bound is weaker. */
  lemma SaidEarlier(
    ttl: int, s: State, run: seq<Label>, r: ReplicaId, row: Row, value: Value, since: int, before: int)
    requires SaidSince(ttl, s, run, r, row, value, since) && before <= since
    ensures SaidSince(ttl, s, run, r, row, value, before)
  {
  }

  /** The lookup that a step moves. */
  lemma MovedLookupIsSound(ttl: int, s: State, run: seq<Label>, l: Label)
    requires Legal(ttl, s, run) && Sound(ttl, s, run) && Enabled(After(ttl, s, run), l)
    requires l.Begin? || l.Peek? || l.Query? || l.Fill?
    ensures After(ttl, s, run + [l]) == Apply(ttl, After(ttl, s, run), l)
    ensures LookupSound(ttl, s, run + [l], After(ttl, s, run + [l]).lookups[l.id])
  {
    var t := After(ttl, s, run);
    Extend(ttl, s, run, l);
    hide SaidSince;
    hide Legal;
    hide After;
    if !l.Begin? {
      var k := t.lookups[l.id];
      assert LookupSound(ttl, s, run, k);
      LookupSoundExtends(ttl, s, run, l, k);
      if l.Query? {
        QuerySays(ttl, s, run, l.id, l.fails, k.replica);
        var value := Apply(ttl, t, l).lookups[l.id].phase.value;
        SaidEarlier(ttl, s, run + [l], k.replica, Row(k.kind, k.key), value, ClockAt(t, k.replica), k.start);
      }
      var full, cache := Qualify(k.kind, k.key), CacheAt(t, k.replica);
      if l.Peek? && full in cache && k.start < cache[full].expires {
        assert CacheSound(ttl, s, run, k.replica, cache);
        HitIsSaid(ttl, s, run, l, k.replica, cache, k.kind, k.key, k.start);
      }
    }
  }

  lemma HitIsSaid(
    ttl: int, s: State, run: seq<Label>, l: Label, r: ReplicaId, cache: map<string, Cached>,
    kind: Kind, key: string, start: int)
    requires CacheSound(ttl, s, run, r, cache)
    requires Qualify(kind, key) in cache && start < cache[Qualify(kind, key)].expires
    ensures SaidSince(ttl, s, run + [l], r, Row(kind, key), cache[Qualify(kind, key)].value, start - ttl + 1)
  {
    hide SaidSince;
    var full := Qualify(kind, key);
    var kind', key' :| full == Qualify(kind', key') &&
      SaidSince(ttl, s, run, r, Row(kind', key'), cache[full].value, cache[full].expires - ttl);
    QualifyIsInjective(kind, key, kind', key');
    SaidEarlier(ttl, s, run, r, Row(kind, key), cache[full].value, cache[full].expires - ttl, start - ttl + 1);
    SaidSinceExtends(ttl, s, run, l, r, Row(kind, key), cache[full].value, start - ttl + 1);
  }

  lemma CachesStaySound(ttl: int, s: State, run: seq<Label>, l: Label, r: ReplicaId)
    requires Legal(ttl, s, run) && Sound(ttl, s, run) && Enabled(After(ttl, s, run), l)
    ensures CacheSound(ttl, s, run + [l], r, CacheAt(Apply(ttl, After(ttl, s, run), l), r))
  {
    var t := After(ttl, s, run);
    hide SaidSince;
    hide Legal;
    hide After;
    CacheSoundExtends(ttl, s, run, l, r, CacheAt(t, r));
    if l.Fill? && t.lookups[l.id].replica == r {
      var k := t.lookups[l.id];
      assert LookupSound(ttl, s, run, k);
      SaidSinceExtends(ttl, s, run, l, r, Row(k.kind, k.key), k.phase.value, k.start);
    }
  }

  lemma StepKeepsSound(ttl: int, s: State, run: seq<Label>, l: Label)
    requires Legal(ttl, s, run) && Sound(ttl, s, run) && Enabled(After(ttl, s, run), l)
    ensures Sound(ttl, s, run + [l])
  {
    Extend(ttl, s, run, l);
    var t, t' := After(ttl, s, run), After(ttl, s, run + [l]);
    hide After;
    hide Legal;
    hide LookupSound;
    hide CacheSound;
    forall id | id in t'.lookups ensures LookupSound(ttl, s, run + [l], t'.lookups[id]) {
      if id in t.lookups && t'.lookups[id] == t.lookups[id] {
        LookupSoundExtends(ttl, s, run, l, t.lookups[id]);
      } else {
        MovedLookupIsSound(ttl, s, run, l);
      }
    }
    forall r: ReplicaId ensures CacheSound(ttl, s, run + [l], r, CacheAt(t', r)) {
      CachesStaySound(ttl, s, run, l, r);
    }
  }

  lemma {:induction false} RunIsSound(ttl: int, clocks: map<ReplicaId, int>, run: seq<Label>)
    requires Legal(ttl, Init(clocks), run)
    ensures Sound(ttl, Init(clocks), run)
  {
    if run != [] {
      var front := run[..|run| - 1];
      RunIsSound(ttl, clocks, front);
      StepKeepsSound(ttl, Init(clocks), front, run[|run| - 1]);
      assert front + [run[|run| - 1]] == run;
    }
  }

  // ---- Theorems ----

  /** The bound on the age of an answer: less than a ttl before the start, and not negative. */
  function Earliest(ttl: int, start: int): int {
    if ttl > 0 then start - ttl + 1 else start
  }

  /**
   Bounded staleness: over any interleaving of lookups, writes and invalidations on
   any replicas, every answer is what the table said for that kind and key, or the
   absence of a failed read of it, at some instant of the run later than the
   lookup's start minus the ttl, or not before that start, on the clock of the replica
   that answers. Clocks of other replicas do not matter.
   */
  lemma AnswersAreFresh(ttl: int, clocks: map<ReplicaId, int>, run: seq<Label>, id: LookupId)
    requires Legal(ttl, Init(clocks), run) && id in After(ttl, Init(clocks), run).lookups
    requires After(ttl, Init(clocks), run).lookups[id].phase.Answered?
    ensures var k := After(ttl, Init(clocks), run).lookups[id];
            exists n :: 0 <= n <= |run| && SaidAt(ttl, Init(clocks), run, n, Row(k.kind, k.key), k.phase.value) &&
              ClockAt(After(ttl, Init(clocks), run[..n]), k.replica) >= Earliest(ttl, k.start)
  {
    RunIsSound(ttl, clocks, run);
    hide After;
    hide Legal;
    assert LookupSound(ttl, Init(clocks), run, After(ttl, Init(clocks), run).lookups[id]);
  }

  /** Time passes on one replica at a time, and no other step moves a clock. */
  lemma ClockMoves(ttl: int, s: State, l: Label, r: ReplicaId)
    ensures ClockAt(Apply(ttl, s, l), r) ==
            ClockAt(s, r) + if l.Tick? && l.replica == r then l.elapsed else 0
  {
  }

  lemma {:induction false} ClockAdvances(ttl: int, s: State, run: seq<Label>, n: nat, r: ReplicaId)
    requires n <= |run|
    ensures ClockAt(After(ttl, s, run[..n]), r) <= ClockAt(After(ttl, s, run), r)
  {
    if n == |run| {
      assert run[..n] == run;
    } else {
      ClockAdvances(ttl, s, run[..|run| - 1], n, r);
      assert run[..|run| - 1][..n] == run[..n];
    }
  }

  /**
   Propagation takes at most a ttl: once the table has said one value for a row
   through the whole rest of the run, and no read of that row fails, every lookup
   begun a ttl or more later on the clock of its replica answers that value, on every
   replica, however their clocks differ.
   */
  lemma PropagationIsBounded(
    ttl: int, clocks: map<ReplicaId, int>, run: seq<Label>, since: nat, id: LookupId, value: Value)
    requires ttl > 0 && Legal(ttl, Init(clocks), run) && since <= |run|
    requires id in After(ttl, Init(clocks), run).lookups && After(ttl, Init(clocks), run).lookups[id].phase.Answered?
    requires var k := After(ttl, Init(clocks), run).lookups[id];
             && k.start >= ClockAt(After(ttl, Init(clocks), run[..since]), k.replica) + ttl
             && (forall n :: since <= n <= |run| ==>
                   var table := After(ttl, Init(clocks), run[..n]).table;
                   match value
                   case Present(text) => Row(k.kind, k.key) in table && table[Row(k.kind, k.key)] == text
                   case Absent => Row(k.kind, k.key) !in table)
             && (forall n :: since <= n < |run| && run[n].Query? && run[n].fails ==>
                   var lookups := After(ttl, Init(clocks), run[..n]).lookups;
                   run[n].id in lookups ==> lookups[run[n].id].kind != k.kind || lookups[run[n].id].key != k.key)
    ensures After(ttl, Init(clocks), run).lookups[id].phase.value == value
  {
    AnswersAreFresh(ttl, clocks, run, id);
    var k := After(ttl, Init(clocks), run).lookups[id];
    var n :| 0 <= n <= |run| && SaidAt(ttl, Init(clocks), run, n, Row(k.kind, k.key), k.phase.value) &&
      ClockAt(After(ttl, Init(clocks), run[..n]), k.replica) >= Earliest(ttl, k.start);
    if n < since {
      assert run[..since][..n] == run[..n];
      ClockAdvances(ttl, Init(clocks), run[..since], n, k.replica);
      assert false;
    }
  }

  // ---- What the bound does not give ----

  /** A lookup loads the old value, a write and its invalidation complete, and the lookup fills the cache. */
  function Race(r: ReplicaId, row: Row, text: string): seq<Label> {
    [Begin(0, r, row.kind, row.key), Peek(0), Query(0, false), Write(row, text), Invalidate(r), Fill(0),
     Begin(1, r, row.kind, row.key), Peek(1)]
  }

  /**
   A write does not read its own replica's writes under every interleaving: a slow
   lookup racing it makes the next lookup of the same replica answer the old value
   exactly when the ttl is positive; otherwise it goes back to the table.
   */
  lemma RacedWriteIsHiddenIff(ttl: int, s: State, r: ReplicaId, row: Row, text: string)
    requires row.key != "" && s.lookups == map[] && CacheAt(s, r) == map[] && ValueAt(s.table, row) != Present(text)
    ensures Legal(ttl, s, Race(r, row, text))
    ensures var t := After(ttl, s, Race(r, row, text));
            && row in t.table && t.table[row] == text && 1 in t.lookups
            && (t.lookups[1].phase == Answered(ValueAt(s.table, row)) <==> ttl > 0)
            && (t.lookups[1].phase == Missed <==> ttl <= 0)
  {
    hide Qualify;
    hide Legal;
    hide After;
    EmptyRun(ttl, s);
    var run := Race(r, row, text);
    var s1, run1 := Slow(ttl, s, r, row);
    var s2 := TakeStep(ttl, s, run1, s1, Write(row, text));
    var run2 := run1 + [Write(row, text)];
    var s3 := TakeStep(ttl, s, run2, s2, Invalidate(r));
    var run3 := run2 + [Invalidate(r)];
    var s4 := TakeStep(ttl, s, run3, s3, Fill(0));
    var run4 := run3 + [Fill(0)];
    var s5 := TakeStep(ttl, s, run4, s4, Begin(1, r, row.kind, row.key));
    var run5 := run4 + [Begin(1, r, row.kind, row.key)];
    var s6 := TakeStep(ttl, s, run5, s5, Peek(1));
    assert run5 + [Peek(1)] == run;
  }

  /** A write that succeeded, then an undisturbed lookup of the same row on the same replica. */
  function WriteThenRead(r: ReplicaId, row: Row, text: string, id: LookupId): seq<Label> {
    [Write(row, text), Invalidate(r), Begin(id, r, row.kind, row.key), Peek(id), Query(id, false), Fill(id)]
  }

  /** From every state and for every ttl it answers the text written. */
  lemma OwnWritesAreRead(ttl: int, s: State, r: ReplicaId, row: Row, text: string, id: LookupId)
    requires row.key != "" && id !in s.lookups
    ensures Legal(ttl, s, WriteThenRead(r, row, text, id))
    ensures var t := After(ttl, s, WriteThenRead(r, row, text, id));
            id in t.lookups && t.lookups[id].phase == Answered(Present(text))
  {
    hide Qualify;
    hide Legal;
    hide After;
    EmptyRun(ttl, s);
    var s1 := TakeStep(ttl, s, [], s, Write(row, text));
    var run := [] + [Write(row, text)];
    var s2 := TakeStep(ttl, s, run, s1, Invalidate(r));
    run := run + [Invalidate(r)];
    LookupOfRow(ttl, s, run, r, row, text, id);
    assert run + [Begin(id, r, row.kind, row.key)] + [Peek(id)] + [Query(id, false)] + [Fill(id)] ==
      WriteThenRead(r, row, text, id);
  }

  lemma LookupOfRow(ttl: int, s: State, run: seq<Label>, r: ReplicaId, row: Row, text: string, id: LookupId)
    requires Legal(ttl, s, run) && id !in After(ttl, s, run).lookups && CacheAt(After(ttl, s, run), r) == map[]
    requires row in After(ttl, s, run).table && After(ttl, s, run).table[row] == text
    ensures var all := run + [Begin(id, r, row.kind, row.key)] + [Peek(id)] + [Query(id, false)] + [Fill(id)];
            && Legal(ttl, s, all) && id in After(ttl, s, all).lookups
            && After(ttl, s, all).lookups[id].phase == Answered(Present(text))
  {
    hide Qualify;
    hide Legal;
    hide After;
    var s3 := TakeStep(ttl, s, run, After(ttl, s, run), Begin(id, r, row.kind, row.key));
    var run3 := run + [Begin(id, r, row.kind, row.key)];
    var s4 := TakeStep(ttl, s, run3, s3, Peek(id));
    var run4 := run3 + [Peek(id)];
    var s5 := TakeStep(ttl, s, run4, s4, Query(id, false));
    var s6 := TakeStep(ttl, s, run4 + [Query(id, false)], s5, Fill(id));
  }

  /** The slow lookup, up to its load. */
  lemma Slow(ttl: int, s: State, r: ReplicaId, row: Row) returns (t: State, run: seq<Label>)
    requires s.lookups == map[] && CacheAt(s, r) == map[]
    ensures Legal(ttl, s, run) && After(ttl, s, run) == t
    ensures run == [Begin(0, r, row.kind, row.key), Peek(0), Query(0, false)]
    ensures t == s.(lookups := map[0 := Lookup(r, row.kind, row.key, ClockAt(s, r), Loaded(ValueAt(s.table, row)))])
  {
    hide Qualify;
    hide Legal;
    hide After;
    EmptyRun(ttl, s);
    t := TakeStep(ttl, s, [], s, Begin(0, r, row.kind, row.key));
    run := [] + [Begin(0, r, row.kind, row.key)];
    t := TakeStep(ttl, s, run, t, Peek(0));
    run := run + [Peek(0)];
    t := TakeStep(ttl, s, run, t, Query(0, false));
    run := run + [Query(0, false)];
  }

  lemma TakeStep(ttl: int, s: State, run: seq<Label>, t: State, l: Label) returns (t': State)
    requires Legal(ttl, s, run) && After(ttl, s, run) == t && Enabled(t, l)
    ensures t' == Apply(ttl, t, l) == After(ttl, s, run + [l]) && Legal(ttl, s, run + [l])
  {
    Extend(ttl, s, run, l);
    t' := Apply(ttl, t, l);
  }

  lemma EmptyRun(ttl: int, s: State)
    ensures Legal(ttl, s, []) && After(ttl, s, []) == s
  {
  }

  // ---- The code ----

  class Table {
    var rows: map<Row, string>

    constructor ()
      ensures rows == map[]
    {
      rows := map[];
    }
  }

  class Store {
    const replica: ReplicaId
    const ttl: int
    const table: Table
    var values: map<string, Cached>

    constructor (replica: ReplicaId, ttl: int, table: Table)
      ensures this.replica == replica && this.ttl == ttl && this.table == table && values == map[]
    {
      this.replica, this.ttl, this.table := replica, ttl, table;
      values := map[];
    }

    /** The machine state, seen from this replica and the shared table. */
    ghost predicate Sees(s: State)
      reads this, table
    {
      table.rows == s.table && values == CacheAt(s, replica)
    }

    /** The query; an outage gives absence. */
    method Load(kind: Kind, key: string, fails: bool) returns (value: Value)
      ensures value == if fails then Absent else ValueAt(table.rows, Row(kind, key))
    {
      if fails || Row(kind, key) !in table.rows {
        return Absent;
      }
      return Present(table.rows[Row(kind, key)]);
    }

    /**
     One uninterrupted lookup is a run of the machine ending with the same answer: the
     cached value while it is fresh, else what the table says, or absence in an outage.
     The answer is fresh for a ttl from the clock read, and nothing else is forgotten.
     */
    method Read(kind: Kind, key: string, now: int, fails: bool, ghost s: State, ghost id: LookupId)
      returns (value: Value, ghost run: seq<Label>)
      requires Sees(s) && ClockAt(s, replica) == now && id !in s.lookups
      modifies this`values
      ensures Legal(ttl, s, run) && Sees(After(ttl, s, run))
      ensures id in After(ttl, s, run).lookups
      ensures After(ttl, s, run).lookups[id] == Lookup(replica, kind, key, now, Answered(value))
      ensures var full, row := Qualify(kind, key), Row(kind, key);
              if full in old(values) && now < old(values)[full].expires then
                value == old(values)[full].value && values == old(values)
              else
                && values == old(values)[full := Cached(value, now + ttl)]
                && (fails ==> value == Absent)
                && (!fails ==> forall text :: value == Present(text) <==> row in table.rows && table.rows[row] == text)
    {
      hide Legal;
      hide After;
      hide Qualify;
      hide ValueAt;
      EmptyRun(ttl, s);
      ghost var t := TakeStep(ttl, s, [], s, Begin(id, replica, kind, key));
      run := [] + [Begin(id, replica, kind, key)];
      var full := Qualify(kind, key);
      t := TakeStep(ttl, s, run, t, Peek(id));
      run := run + [Peek(id)];
      if full in values && now < values[full].expires {
        return values[full].value, run;
      }
      value, run := Refill(kind, key, now, fails, s, run, id);
    }

    /** The lookup goes to the table and fills the cache with what it says. */
    method Refill(kind: Kind, key: string, now: int, fails: bool,
                  ghost s: State, ghost run: seq<Label>, ghost id: LookupId)
      returns (value: Value, ghost run': seq<Label>)
      requires Legal(ttl, s, run) && Sees(After(ttl, s, run)) && id in After(ttl, s, run).lookups
      requires After(ttl, s, run).lookups[id] == Lookup(replica, kind, key, now, Missed)
      modifies this`values
      ensures Legal(ttl, s, run') && Sees(After(ttl, s, run')) && id in After(ttl, s, run').lookups
      ensures After(ttl, s, run').lookups[id] == Lookup(replica, kind, key, now, Answered(value))
      ensures value == if fails then Absent else ValueAt(table.rows, Row(kind, key))
      ensures values == old(values)[Qualify(kind, key) := Cached(value, now + ttl)]
    {
      hide Legal;
      hide After;
      hide Qualify;
      hide ValueAt;
      value := Load(kind, key, fails);
      ghost var t := TakeStep(ttl, s, run, After(ttl, s, run), Query(id, fails));
      values := values[Qualify(kind, key) := Cached(value, now + ttl)];
      t := TakeStep(ttl, s, run + [Query(id, fails)], t, Fill(id));
      run' := run + [Query(id, fails)] + [Fill(id)];
    }

    /**
     A write: refused when incomplete, then the statement, which may fail with or
     without effect, then the local invalidation of a write known to have succeeded.
     */
    method Set(kind: Kind, key: string, text: string, fails: bool, applied: bool, ghost s: State)
      returns (ok: bool, ghost run: seq<Label>)
      requires Sees(s)
      modifies this`values, table
      ensures Legal(ttl, s, run) && Sees(After(ttl, s, run))
      ensures ok <==> key != "" && !fails
      ensures ok ==> Row(kind, key) in table.rows && table.rows[Row(kind, key)] == text
      ensures table.rows == if key != "" && (fails ==> applied) then old(table.rows)[Row(kind, key) := text]
                            else old(table.rows)
      ensures values == if ok then map[] else old(values)
    {
      hide Legal;
      hide After;
      EmptyRun(ttl, s);
      run := [];
      if key == "" || (fails && !applied) {
        return false, run;
      }
      table.rows := table.rows[Row(kind, key) := text];
      ghost var t := TakeStep(ttl, s, run, s, Write(Row(kind, key), text));
      run := run + [Write(Row(kind, key), text)];
      if fails {
        return false, run;
      }
      values := map[];
      t := TakeStep(ttl, s, run, t, Invalidate(replica));
      run := run + [Invalidate(replica)];
      return true, run;
    }
  }
}
