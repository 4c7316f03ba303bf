/**
 Accounts under concurrency: registrations, activations and role assignments of any
 number of callers over one store, each locked store method one step
 (internal/core/auth/drivers/memory/identities.go, roles.go). An activation is two
 steps, a read and a write back of the whole identity
 (internal/core/auth/application/identities.go). `born` is history: the subject and
 digest each identifier was registered with; no step reads it.
 */
module AuthAccounts {
  import opened Wrappers
  import opened AsciiText
  import opened AuthDomain
  import opened AuthHistory

  type Caller = nat

  datatype State = State(auth: Auth, read: map<Caller, Identity>, born: map<string, (string, string)>)

  datatype Label =
    | Save(call: Call)
    | Read(caller: Caller, id: string)
    | WriteBack(caller: Caller, active: bool)
    | Bind(id: string, roles: seq<string>)
    | Other(call: Call)

  const INITIAL: State := State(EMPTY, map[], map[])

  predicate Enabled(s: State, l: Label) {
    match l
    case Save(call) => call.Register? && call.id !in s.auth.credentials
    case Read(_, id) => id != ""
    case WriteBack(caller, _) => caller in s.read
    case Bind(id, _) => id != ""
    case Other(call) => !call.Register? && !call.SetActive? && !call.AssignRoles?
  }

  function Apply(c: Config, s: State, l: Label): State {
    if !Enabled(s, l) then s else
    match l
    case Save(call) =>
      if Enrolled(s.auth, call).Ok?
      then State(Enrolled(s.auth, call).value.0, s.read,
                 s.born[call.id := (NewSubject(call.raw).value, call.digest.value)])
      else s
    case Read(caller, id) =>
      if FindIdentity(s.auth, id).Ok? then s.(read := s.read[caller := FindIdentity(s.auth, id).value]) else s
    case WriteBack(caller, active) =>
      s.(auth := OrElse(UpdateIdentity(s.auth, s.read[caller].(active := active)), s.auth), read := s.read - {caller})
    case Bind(id, roles) => s.(auth := OrElse(BindRoles(s.auth, id, roles), s.auth))
    case Other(call) => s.(auth := Next(c, s.auth, call))
  }

  function After(c: Config, s: State, run: seq<Label>): State {
    if run == [] then s else Apply(c, After(c, s, run[..|run| - 1]), run[|run| - 1])
  }

  ghost predicate Legal(c: Config, s: State, run: seq<Label>) {
    run == [] ||
    (Legal(c, s, run[..|run| - 1]) && Enabled(After(c, s, run[..|run| - 1]), run[|run| - 1]))
  }

  // ---- The invariant ----

  /** The subject index and the credentials are inverse to each other. */
  ghost predicate Inverse(a: Auth) {
    && (forall subject :: subject in a.bySubject ==>
          && a.bySubject[subject] in a.credentials
          && a.credentials[a.bySubject[subject]].identity.subject == subject)
    && (forall id :: id in a.credentials ==>
          && a.credentials[id].identity.subject in a.bySubject
          && a.bySubject[a.credentials[id].identity.subject] == id)
  }

  /** Every credential still has the subject and the digest it was registered with. */
  ghost predicate Unaltered(s: State) {
    && s.born.Keys == s.auth.credentials.Keys
    && (forall id :: id in s.auth.credentials ==>
          && id != "" && s.auth.credentials[id].identity.id == id
          && s.born[id] == (s.auth.credentials[id].identity.subject, s.auth.credentials[id].digest)
          && s.auth.credentials[id].digest != "")
  }

  /** An identity read earlier may be stale, but not in its identifier and subject. */
  ghost predicate ReadsGenuine(s: State) {
    forall caller :: caller in s.read ==>
      s.read[caller].id in s.born && s.read[caller].subject == s.born[s.read[caller].id].0
  }

  ghost predicate Inv(s: State) {
    Inverse(s.auth) && Unaltered(s) && ReadsGenuine(s)
  }

  lemma AddKeepsInverse(a: Auth, a': Auth, subject: string, credential: Credential)
    requires Inverse(a) && credential.identity.subject == subject && subject !in a.bySubject
    requires var id := credential.identity.id;
             && id !in a.credentials
             && a'.bySubject == a.bySubject[subject := id] && a'.credentials == a.credentials[id := credential]
    ensures Inverse(a')
  {
    forall x | x in a'.credentials
      ensures a'.credentials[x].identity.subject in a'.bySubject
      ensures a'.bySubject[a'.credentials[x].identity.subject] == x
    {
    }
  }

  lemma ReplaceKeepsInverse(a: Auth, a': Auth, id: string, credential: Credential)
    requires Inverse(a) && id in a.credentials
    requires credential.identity.subject == a.credentials[id].identity.subject
    requires a'.bySubject == a.bySubject && a'.credentials == a.credentials[id := credential]
    ensures Inverse(a')
  {
  }

  lemma SaveKeepsInv(c: Config, s: State, call: Call)
    requires Inv(s) && Enabled(s, Save(call))
    ensures Inv(Apply(c, s, Save(call)))
  {
    if Enrolled(s.auth, call).Ok? {
      EnrolledAdds(s.auth, call);
      hide NewSubject;
      hide Enrolled;
      var s' := Apply(c, s, Save(call));
      AddKeepsInverse(s.auth, s'.auth, NewSubject(call.raw).value, s'.auth.credentials[call.id]);
      AddKeepsReads(s, s'.auth, call.id, s'.born[call.id]);
      AddKeepsUnaltered(s, s'.auth, call.id, s'.auth.credentials[call.id], s'.read);
      hide Inverse;
      hide ReadsGenuine;
      hide Unaltered;
    }
  }

  lemma AddKeepsUnaltered(s: State, auth: Auth, id: string, credential: Credential, read: map<Caller, Identity>)
    requires Unaltered(s) && id != "" && credential.identity.id == id && credential.digest != ""
    requires auth.credentials == s.auth.credentials[id := credential]
    ensures Unaltered(State(auth, read, s.born[id := (credential.identity.subject, credential.digest)]))
  {
  }

  lemma AddKeepsReads(s: State, auth: Auth, id: string, birth: (string, string))
    requires ReadsGenuine(s) && id !in s.born
    ensures ReadsGenuine(State(auth, s.read, s.born[id := birth]))
  {
  }

  lemma OtherKeepsInv(c: Config, s: State, call: Call)
    requires Inv(s) && Enabled(s, Other(call))
    ensures Inv(Apply(c, s, Other(call)))
  {
    OthersLeaveAccounts(c, s.auth, call);
    hide Next;
  }

  lemma ReadKeepsInv(c: Config, s: State, caller: Caller, id: string)
    requires Inv(s) && Enabled(s, Read(caller, id))
    ensures Inv(Apply(c, s, Read(caller, id)))
  {
    hide Inverse;
  }

  lemma StepKeepsInv(c: Config, s: State, l: Label)
    requires Inv(s) && Enabled(s, l)
    ensures Inv(Apply(c, s, l))
  {
    hide Inv;
    hide Apply;
    match l
    case Save(call) => SaveKeepsInv(c, s, call);
    case Other(call) => OtherKeepsInv(c, s, call);
    case Read(caller, id) => ReadKeepsInv(c, s, caller, id);
    case WriteBack(caller, active) => WriteBackKeepsInv(c, s, caller, active);
    case Bind(id, roles) => BindKeepsInv(c, s, id, roles);
  }

  /** Replacing the identity of a known account by one with its identifier and subject. */
  lemma ReplaceKeepsInv(s: State, id: string, identity: Identity, read: map<Caller, Identity>)
    requires Inv(s) && id in s.auth.credentials
    requires identity.id == id && identity.subject == s.auth.credentials[id].identity.subject
    requires forall caller :: caller in read ==> caller in s.read && read[caller] == s.read[caller]
    ensures var credential := Credential(identity, s.auth.credentials[id].digest);
            Inv(State(s.auth.(credentials := s.auth.credentials[id := credential]), read, s.born))
  {
    var credential := Credential(identity, s.auth.credentials[id].digest);
    ReplaceKeepsInverse(s.auth, s.auth.(credentials := s.auth.credentials[id := credential]), id, credential);
    hide Inverse;
  }

  lemma WriteBackKeepsInv(c: Config, s: State, caller: Caller, active: bool)
    requires Inv(s) && Enabled(s, WriteBack(caller, active))
    ensures Inv(Apply(c, s, WriteBack(caller, active)))
  {
    var identity := s.read[caller].(active := active);
    ReplaceKeepsInv(s, identity.id, identity, s.read - {caller});
  }

  lemma BindKeepsInv(c: Config, s: State, id: string, roles: seq<string>)
    requires Inv(s) && Enabled(s, Bind(id, roles))
    ensures Inv(Apply(c, s, Bind(id, roles)))
  {
    hide NormalizeRoles;
    if id in s.auth.credentials {
      ReplaceKeepsInv(s, id, s.auth.credentials[id].identity.(roles := NormalizeRoles(roles)), s.read);
    }
  }

  lemma {:induction false} RunKeepsInv(c: Config, s: State, run: seq<Label>)
    requires Inv(s) && Legal(c, s, run)
    ensures Inv(After(c, s, run))
  {
    if run != [] {
      hide Inv;
      RunKeepsInv(c, s, run[..|run| - 1]);
      StepKeepsInv(c, After(c, s, run[..|run| - 1]), run[|run| - 1]);
    }
  }

  // ---- Theorems ----

  /** Under any interleaving, the subject index and the credentials are mutually inverse. */
  lemma IndexIsInverse(c: Config, run: seq<Label>, subject: string, id: string)
    requires Legal(c, INITIAL, run)
    ensures var a := After(c, INITIAL, run).auth;
            (subject in a.bySubject && a.bySubject[subject] == id) <==>
            (id in a.credentials && a.credentials[id].identity.subject == subject)
  {
    RunKeepsInv(c, INITIAL, run);
  }

  /** A lookup by subject succeeds exactly for a subject with an account, and there is no other with that subject. */
  lemma LookupFindsTheAccount(c: Config, run: seq<Label>, subject: string)
    requires Legal(c, INITIAL, run)
    ensures var a := After(c, INITIAL, run).auth;
            && (FindBySubject(a, subject).Ok? <==>
                  exists id :: id in a.credentials && a.credentials[id].identity.subject == subject)
            && (forall id :: id in a.credentials && a.credentials[id].identity.subject == subject ==>
                  FindBySubject(a, subject) == Ok(a.credentials[id]))
  {
    var a := After(c, INITIAL, run).auth;
    forall id ensures (subject in a.bySubject && a.bySubject[subject] == id) <==>
                      (id in a.credentials && a.credentials[id].identity.subject == subject)
    {
      IndexIsInverse(c, run, subject, id);
    }
    hide After;
    hide Legal;
  }

  /** The account persists, with its subject and its digest; no step ever changes them. */
  lemma {:induction false} DigestIsForever(c: Config, s: State, run: seq<Label>, id: string)
    requires Inv(s) && Legal(c, s, run) && id in s.auth.credentials
    ensures var a, a' := s.auth, After(c, s, run).auth;
            && id in a'.credentials
            && a'.credentials[id].digest == a.credentials[id].digest
            && a'.credentials[id].identity.subject == a.credentials[id].identity.subject
  {
    RunKeepsInv(c, s, run);
    BirthsArePermanent(c, s, run, id);
  }

  lemma {:induction false} BirthsArePermanent(c: Config, s: State, run: seq<Label>, id: string)
    requires Inv(s) && Legal(c, s, run) && id in s.born
    ensures id in After(c, s, run).born && After(c, s, run).born[id] == s.born[id]
  {
    if run != [] {
      RunKeepsInv(c, s, run[..|run| - 1]);
      BirthsArePermanent(c, s, run[..|run| - 1], id);
      hide Inverse;
      hide ReadsGenuine;
      hide Enrolled;
      hide Next;
    }
  }

  /** The registration at position i of the run opened an account for the subject. */
  ghost predicate Opens(c: Config, run: seq<Label>, i: nat, subject: string)
    requires i < |run|
  {
    && run[i].Save? && run[i].call.Register? && NewSubject(run[i].call.raw) == Ok(subject)
    && Enrolled(After(c, INITIAL, run[..i]).auth, run[i].call).Ok?
  }

  /** The registration at position i is well formed; only the subject may refuse it. */
  ghost predicate Asks(run: seq<Label>, i: nat, subject: string)
    requires i < |run|
  {
    && run[i].Save? && run[i].call.Register? && NewSubject(run[i].call.raw) == Ok(subject)
    && |run[i].call.secret| >= SECRET_MIN_LEN && run[i].call.digest.Some? && run[i].call.digest.value != ""
    && run[i].call.id != ""
  }

  lemma {:induction false} SubjectsStay(c: Config, run: seq<Label>, i: nat, subject: string)
    requires Legal(c, INITIAL, run) && i <= |run| && subject in After(c, INITIAL, run[..i]).auth.bySubject
    ensures subject in After(c, INITIAL, run).auth.bySubject
    decreases |run|
  {
    if i == |run| {
      assert run[..i] == run;
    } else {
      var front := run[..|run| - 1];
      assert front[..i] == run[..i];
      SubjectsStay(c, front, i, subject);
      SubjectStays(c, After(c, INITIAL, front), run[|run| - 1], subject);
    }
  }

  lemma SubjectStays(c: Config, s: State, l: Label, subject: string)
    requires Enabled(s, l) && subject in s.auth.bySubject
    ensures subject in Apply(c, s, l).auth.bySubject
  {
    hide Normalize;
    if l.Other? {
      OthersLeaveAccounts(c, s.auth, l.call);
    }
    hide Next;
  }

  lemma {:induction false} LegalPrefix(c: Config, s: State, run: seq<Label>, n: nat)
    requires Legal(c, s, run) && n <= |run|
    ensures Legal(c, s, run[..n])
  {
    if n < |run| {
      LegalPrefix(c, s, run[..|run| - 1], n);
      assert run[..|run| - 1][..n] == run[..n];
    } else {
      assert run[..n] == run;
    }
  }

  lemma OpeningTakesSubject(c: Config, s: State, call: Call)
    requires Enabled(s, Save(call))
    ensures Enrolled(s.auth, call).Ok? ==>
              && NewSubject(call.raw).Ok? && NewSubject(call.raw).value !in s.auth.bySubject
              && NewSubject(call.raw).value in Apply(c, s, Save(call)).auth.bySubject
  {
    hide Normalize;
  }

  /** Concurrent registrations of one subject open at most one account. */
  lemma OneAccountPerSubject(c: Config, run: seq<Label>, i: nat, j: nat, subject: string)
    requires Legal(c, INITIAL, run) && i < |run| && j < |run|
    requires Opens(c, run, i, subject) && Opens(c, run, j, subject)
    ensures i == j
  {
    if i < j {
      SecondOpeningIsRefused(c, run, i, j, subject);
    } else if j < i {
      SecondOpeningIsRefused(c, run, j, i, subject);
    }
  }

  lemma SecondOpeningIsRefused(c: Config, run: seq<Label>, i: nat, j: nat, subject: string)
    requires Legal(c, INITIAL, run) && i < j < |run| && Opens(c, run, i, subject)
    ensures !Opens(c, run, j, subject)
  {
    LegalPrefix(c, INITIAL, run, j);
    StepOfPrefix(c, run, i);
    StepOfPrefix(c, run, j);
    assert run[..j][..i + 1] == run[..i + 1];
    hide Enrolled;
    hide NewSubject;
    hide Apply;
    hide After;
    hide Legal;
    hide Enabled;
    OpeningTakesSubject(c, After(c, INITIAL, run[..i]), run[i].call);
    SubjectsStay(c, run[..j], i + 1, subject);
    if run[j].Save? {
      OpeningTakesSubject(c, After(c, INITIAL, run[..j]), run[j].call);
    }
  }

  /** The step at position i of a legal run. */
  lemma StepOfPrefix(c: Config, run: seq<Label>, i: nat)
    requires Legal(c, INITIAL, run) && i < |run|
    ensures Enabled(After(c, INITIAL, run[..i]), run[i])
    ensures After(c, INITIAL, run[..i + 1]) == Apply(c, After(c, INITIAL, run[..i]), run[i])
  {
    LegalPrefix(c, INITIAL, run, i + 1);
    assert run[..i + 1][..i] == run[..i];
  }

  /** Only a successful registration adds a subject. */
  lemma IndexGrows(c: Config, s: State, l: Label, subject: string)
    requires Enabled(s, l)
    ensures subject in Apply(c, s, l).auth.bySubject <==>
            || subject in s.auth.bySubject
            || (l.Save? && NewSubject(l.call.raw) == Ok(subject) && Enrolled(s.auth, l.call).Ok?)
  {
    hide Normalize;
    if l.Other? {
      OthersLeaveAccounts(c, s.auth, l.call);
    }
    hide Next;
  }

  /** Whether some registration of the run opened an account for the subject. */
  ghost predicate Opened(c: Config, run: seq<Label>, subject: string) {
    exists i :: 0 <= i < |run| && Opens(c, run, i, subject)
  }

  lemma OpensPrefix(c: Config, run: seq<Label>, n: nat, i: nat, subject: string)
    requires i < n <= |run|
    ensures Opens(c, run[..n], i, subject) <==> Opens(c, run, i, subject)
  {
    assert run[..n][..i] == run[..i];
  }

  lemma OpenedStep(c: Config, run: seq<Label>, subject: string)
    requires run != []
    ensures Opened(c, run, subject) <==>
            Opened(c, run[..|run| - 1], subject) || Opens(c, run, |run| - 1, subject)
  {
    var front := run[..|run| - 1];
    if Opened(c, run, subject) {
      var i :| 0 <= i < |run| && Opens(c, run, i, subject);
      if i < |front| {
        OpensPrefix(c, run, |front|, i, subject);
      }
    }
    if Opened(c, front, subject) {
      var i :| 0 <= i < |front| && Opens(c, front, i, subject);
      OpensPrefix(c, run, |front|, i, subject);
    }
  }

  /** A subject is indexed exactly when some registration opened an account for it. */
  lemma {:induction false} IndexedWasOpened(c: Config, run: seq<Label>, subject: string)
    requires Legal(c, INITIAL, run)
    ensures subject in After(c, INITIAL, run).auth.bySubject <==> Opened(c, run, subject)
  {
    if run != [] {
      IndexedWasOpened(c, run[..|run| - 1], subject);
      OpenedStep(c, run, subject);
      hide Opened;
      hide Apply;
      hide Enrolled;
      hide NewSubject;
      IndexGrows(c, After(c, INITIAL, run[..|run| - 1]), run[|run| - 1], subject);
    }
  }

  /**
   Concurrent registrations of one subject give exactly one account: as soon as a
   well-formed registration was made, one of those made so far opened it, and no
   other ever does.
   */
  lemma ExactlyOneAccount(c: Config, run: seq<Label>, k: nat, subject: string)
    requires Legal(c, INITIAL, run) && k < |run| && Asks(run, k, subject)
    ensures exists i :: 0 <= i <= k && Opens(c, run, i, subject) &&
              forall j :: 0 <= j < |run| && Opens(c, run, j, subject) ==> j == i
  {
    LegalPrefix(c, INITIAL, run, k);
    IndexedWasOpened(c, run[..k], subject);
    AskedIsOpenedOrTaken(c, run, k, subject);
    hide Opens;
    hide Asks;
    var i: nat := k;
    if !Opens(c, run, k, subject) {
      i :| 0 <= i < |run[..k]| && Opens(c, run[..k], i, subject);
      OpensPrefix(c, run, k, i, subject);
    }
    forall j | 0 <= j < |run| && Opens(c, run, j, subject) ensures j == i {
      OneAccountPerSubject(c, run, i, j, subject);
    }
  }

  lemma AskedIsOpenedOrTaken(c: Config, run: seq<Label>, k: nat, subject: string)
    requires k < |run| && Asks(run, k, subject)
    ensures Opens(c, run, k, subject) || subject in After(c, INITIAL, run[..k]).auth.bySubject
  {
    hide Normalize;
    hide After;
  }

  // ---- Overlapping activations and assignments ----

  /** The roles of the account after n steps. */
  function RolesAt(c: Config, run: seq<Label>, n: nat, id: string): Option<seq<string>>
    requires n <= |run|
  {
    var credentials := After(c, INITIAL, run[..n]).auth.credentials;
    if id in credentials then Some(credentials[id].identity.roles) else None
  }

  /** The caller reads, or writes back what it read. */
  predicate Turns(s: State, l: Label, caller: Caller) {
    || (l.Read? && l.caller == caller && FindIdentity(s.auth, l.id).Ok?)
    || (l.WriteBack? && l.caller == caller)
  }

  /** What the caller would write back after the run is the account it read at step i. */
  ghost predicate ReadsAt(c: Config, run: seq<Label>, i: nat, caller: Caller, id: string) {
    && i < |run| && run[i] == Read(caller, id) && RolesAt(c, run, i, id).Some?
    && forall n :: i < n < |run| ==> !Turns(After(c, INITIAL, run[..n]), run[n], caller)
  }

  lemma TurnChanges(c: Config, s: State, l: Label, caller: Caller)
    requires Enabled(s, l)
    ensures var s' := Apply(c, s, l);
            if !Turns(s, l, caller) then
              && (caller in s'.read <==> caller in s.read) && (caller in s.read ==> s'.read[caller] == s.read[caller])
            else if l.WriteBack? then caller !in s'.read
            else
              caller in s'.read && l.id in s.auth.credentials && s'.read[caller] == s.auth.credentials[l.id].identity
  {
  }

  /** A caller's read is the identity it read last. */
  lemma {:induction false} ReadWasMade(c: Config, run: seq<Label>, caller: Caller) returns (i: nat)
    requires Legal(c, INITIAL, run) && caller in After(c, INITIAL, run).read
    ensures var read := After(c, INITIAL, run).read[caller];
            ReadsAt(c, run, i, caller, read.id) && RolesAt(c, run, i, read.id) == Some(read.roles)
  {
    var last := |run| - 1;
    var front, l := run[..last], run[last];
    var s := After(c, INITIAL, front);
    RunKeepsInv(c, INITIAL, front);
    IdsAreKeys(s);
    TurnChanges(c, s, l, caller);
    hide Apply;
    hide Inv;
    if Turns(s, l, caller) {
      i := last;
    } else {
      hide Turns;
      i := ReadWasMade(c, front, caller);
      ReadsLonger(c, run, i, caller, s.read[caller].id);
      hide ReadsAt;
      hide RolesAt;
    }
  }

  lemma ReadsLonger(c: Config, run: seq<Label>, i: nat, caller: Caller, id: string)
    requires run != [] && i < |run| - 1
    ensures var last := |run| - 1;
            && RolesAt(c, run[..last], i, id) == RolesAt(c, run, i, id)
            && (ReadsAt(c, run, i, caller, id) <==>
                  ReadsAt(c, run[..last], i, caller, id) && !Turns(After(c, INITIAL, run[..last]), run[last], caller))
  {
    hide Turns;
    hide After;
    var last := |run| - 1;
    SameRoles(c, run, last, i, id);
    assert forall n :: 0 <= n <= last ==> run[..last][..n] == run[..n];
  }

  lemma IdsAreKeys(s: State)
    requires Inv(s)
    ensures forall id :: id in s.auth.credentials ==> s.auth.credentials[id].identity.id == id
  {
  }

  lemma {:induction false} ReadIsKept(c: Config, run: seq<Label>, i: nat, caller: Caller, id: string)
    requires Legal(c, INITIAL, run) && ReadsAt(c, run, i, caller, id)
    ensures var s := After(c, INITIAL, run);
            caller in s.read && s.read[caller].id == id && RolesAt(c, run, i, id) == Some(s.read[caller].roles)
  {
    var last := |run| - 1;
    var front, l := run[..last], run[last];
    var s := After(c, INITIAL, front);
    RunKeepsInv(c, INITIAL, front);
    IdsAreKeys(s);
    TurnChanges(c, s, l, caller);
    hide Apply;
    hide Inv;
    if i < last {
      hide Turns;
      ReadsLonger(c, run, i, caller, id);
      hide ReadsAt;
      hide RolesAt;
      ReadIsKept(c, front, i, caller, id);
    }
  }

  /** Roles change by assignments and by write backs, and by nothing else. */
  lemma RolesChange(c: Config, s: State, l: Label, id: string)
    requires Inv(s) && Enabled(s, l) && id in s.auth.credentials
    ensures var after := Apply(c, s, l).auth.credentials;
            && id in after
            && after[id].identity.roles ==
               if l.Bind? && l.id == id then NormalizeRoles(l.roles)
               else if l.WriteBack? && s.read[l.caller].id == id then s.read[l.caller].roles
               else s.auth.credentials[id].identity.roles
  {
    hide NormalizeRoles;
    hide NewSubject;
    if l.Other? {
      OthersLeaveAccounts(c, s.auth, l.call);
    } else if l.Save? && Enrolled(s.auth, l.call).Ok? {
      EnrolledAdds(s.auth, l.call);
    }
    hide Next;
    hide Enrolled;
  }

  lemma RolesStep(c: Config, run: seq<Label>, n: nat, id: string)
    requires Legal(c, INITIAL, run) && n < |run| && RolesAt(c, run, n, id).Some?
    ensures var s, l := After(c, INITIAL, run[..n]), run[n];
            && Enabled(s, l)
            && RolesAt(c, run, n + 1, id) ==
               if l.Bind? && l.id == id then Some(NormalizeRoles(l.roles))
               else if l.WriteBack? && s.read[l.caller].id == id then Some(s.read[l.caller].roles)
               else RolesAt(c, run, n, id)
  {
    LegalPrefix(c, INITIAL, run, n);
    RunKeepsInv(c, INITIAL, run[..n]);
    StepOfPrefix(c, run, n);
    hide After;
    hide Legal;
    hide NormalizeRoles;
    hide Apply;
    hide Inv;
    RolesChange(c, After(c, INITIAL, run[..n]), run[n], id);
  }

  lemma {:induction false} KnownStays(c: Config, run: seq<Label>, k: nat, n: nat, id: string)
    requires Legal(c, INITIAL, run) && k <= n <= |run| && RolesAt(c, run, k, id).Some?
    ensures RolesAt(c, run, n, id).Some?
  {
    hide RolesAt;
    if k < n {
      KnownStays(c, run, k, n - 1, id);
      RolesStep(c, run, n - 1, id);
      hide NormalizeRoles;
    }
  }

  /** Step k assigns roles to a known account, and no later step of the run does. */
  ghost predicate AssignsLast(c: Config, run: seq<Label>, k: nat, id: string, roles: seq<string>) {
    && k < |run| && run[k] == Bind(id, roles) && RolesAt(c, run, k, id).Some?
    && forall n :: k < n < |run| ==> !(run[n].Bind? && run[n].id == id)
  }

  /** The write back at j restores roles read at i, before step k, other than those assigned there. */
  ghost predicate Overwrites(
    c: Config, run: seq<Label>, k: nat, i: nat, j: nat, caller: Caller, id: string, roles: seq<string>)
  {
    && i < k < j < |run| && run[j].WriteBack? && run[j].caller == caller && ReadsAt(c, run[..j], i, caller, id)
    && RolesAt(c, run, i, id) != Some(NormalizeRoles(roles))
  }

  /**
   Why authorisation is promised for calls that do not overlap: over any run, the
   roles last assigned to an account are ever lost exactly when some activation that
   had read other roles before the assignment is written back after it.
   */
  lemma OverlappedAssignmentIsLostIff(c: Config, run: seq<Label>, k: nat, id: string, roles: seq<string>)
    requires Legal(c, INITIAL, run) && AssignsLast(c, run, k, id, roles)
    ensures (exists n :: k < n <= |run| && RolesAt(c, run, n, id) != Some(NormalizeRoles(roles))) <==>
            (exists i, j, caller :: Overwrites(c, run, k, i, j, caller, id, roles))
  {
    if n :| k < n <= |run| && RolesAt(c, run, n, id) != Some(NormalizeRoles(roles)) {
      var i, j, caller := LossIsAnOverwrite(c, run, k, n, id, roles);
    }
    hide RolesAt;
    if i: nat, j: nat, caller :| Overwrites(c, run, k, i, j, caller, id, roles) {
      OverwriteIsALoss(c, run, k, i, j, caller, id, roles);
    }
    hide Overwrites;
  }

  lemma OverwriteIsALoss(
    c: Config, run: seq<Label>, k: nat, i: nat, j: nat, caller: Caller, id: string, roles: seq<string>)
    requires Legal(c, INITIAL, run) && AssignsLast(c, run, k, id, roles)
    requires Overwrites(c, run, k, i, j, caller, id, roles)
    ensures RolesAt(c, run, j + 1, id) != Some(NormalizeRoles(roles))
  {
    LegalPrefix(c, INITIAL, run, j);
    ReadIsKept(c, run[..j], i, caller, id);
    SameRoles(c, run, j, i, id);
    KnownStays(c, run, k, j, id);
    hide After;
    hide NormalizeRoles;
    RolesStep(c, run, j, id);
    hide RolesAt;
  }

  lemma SameRoles(c: Config, run: seq<Label>, j: nat, i: nat, id: string)
    requires i <= j <= |run|
    ensures RolesAt(c, run[..j], i, id) == RolesAt(c, run, i, id)
  {
    assert run[..j][..i] == run[..i];
  }

  lemma {:induction false} LossIsAnOverwrite(c: Config, run: seq<Label>, k: nat, n: nat, id: string, roles: seq<string>)
    returns (i: nat, j: nat, caller: Caller)
    requires Legal(c, INITIAL, run) && AssignsLast(c, run, k, id, roles)
    requires k < n <= |run| && RolesAt(c, run, n, id) != Some(NormalizeRoles(roles))
    ensures Overwrites(c, run, k, i, j, caller, id, roles)
    decreases n
  {
    hide NormalizeRoles;
    hide After;
    hide Legal;
    hide RolesAt;
    KnownStays(c, run, k, n - 1, id);
    RolesStep(c, run, n - 1, id);
    if n > k + 1 && RolesAt(c, run, n - 1, id) != Some(NormalizeRoles(roles)) {
      i, j, caller := LossIsAnOverwrite(c, run, k, n - 1, id, roles);
    } else {
      j, caller := n - 1, run[n - 1].caller;
      LegalPrefix(c, INITIAL, run, j);
      i := ReadWasMade(c, run[..j], caller);
      SameRoles(c, run, j, i, id);
      if i > k {
        i, j, caller := LossIsAnOverwrite(c, run, k, i, id, roles);
      }
    }
  }
}
