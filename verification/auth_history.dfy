/**
 The authentication module as answers to a history of calls
 (internal/core/auth/application, internal/core/auth/drivers/memory). `Next` and
 `Reply` say what one call does to the four maps of the store and what it answers;
 the theorems say the same of every answer without mentioning the maps, in terms of
 the calls made before.
 */
module AuthHistory {
  import opened Wrappers
  import opened AsciiText
  import opened AuthDomain

  /** The secret comparison is an arbitrary function: a digest may also be unreadable. */
  datatype Config = Config(ttl: int, matches: (string, string) -> Option<bool>)

  datatype Auth = Auth(
    bySubject: map<string, string>,
    credentials: map<string, Credential>,
    roles: map<string, Role>,
    sessions: map<string, Session>)

  const EMPTY: Auth := Auth(map[], map[], map[], map[])

  const SECRET_MIN_LEN: nat := 12

  /** Identifiers, tokens, digests and instants come from outside; randomness and hashing may fail. */
  datatype Call =
    | Register(raw: string, secret: string, digest: Option<string>, id: string, now: int)
    | Authenticate(raw: string, secret: string, drawn: Option<string>, now: int)
    | Verify(token: string, now: int)
    | Revoke(token: string)
    | SetActive(id: string, active: bool)
    | DefineRole(name: string, permissions: seq<string>)
    | AssignRoles(id: string, roles: seq<string>)
    | Authorize(id: string, permission: string)
    | Purge(now: int)

  datatype Answer =
    | Registered(identity: Identity)
    | Opened(session: Session)
    | Known(identity: Identity)
    | Removed(count: int)
    | Done
    | Failed(error: Error)

  // ---- The store ----

  function SaveIdentity(a: Auth, c: Credential): Result<Auth, Error> {
    if c.identity.subject in a.bySubject then Err(SubjectTaken)
    else Ok(a.(bySubject := a.bySubject[c.identity.subject := c.identity.id],
               credentials := a.credentials[c.identity.id := c]))
  }

  function FindBySubject(a: Auth, subject: string): Result<Credential, Error> {
    if subject in a.bySubject && a.bySubject[subject] in a.credentials then Ok(a.credentials[a.bySubject[subject]])
    else Err(InvalidCredentials)
  }

  function FindIdentity(a: Auth, id: string): Result<Identity, Error> {
    if id in a.credentials then Ok(a.credentials[id].identity) else Err(TokenUnknown)
  }

  function UpdateIdentity(a: Auth, identity: Identity): Result<Auth, Error> {
    if identity.id !in a.credentials then Err(InvalidCredentials)
    else
      match NewCredential(identity, a.credentials[identity.id].digest)
      case Ok(updated) => Ok(a.(credentials := a.credentials[identity.id := updated]))
      case Err(e) => Err(e)
  }

  function BindRoles(a: Auth, id: string, roles: seq<string>): Result<Auth, Error> {
    if id !in a.credentials then Err(InvalidCredentials)
    else Ok(a.(credentials := a.credentials[id := Rebound(a.credentials[id], roles)]))
  }

  function Rebound(c: Credential, roles: seq<string>): Credential {
    match NewCredential(c.identity.(roles := NormalizeRoles(roles)), c.digest)
    case Ok(rebound) => rebound
    case Err(_) => c
  }

  predicate GrantedBy(roles: map<string, Role>, names: seq<string>, permission: string) {
    exists i :: 0 <= i < |names| && names[i] in roles && permission in roles[names[i]].permissions
  }

  predicate IsGranted(a: Auth, id: string, permission: string) {
    && id in a.credentials && a.credentials[id].identity.active
    && GrantedBy(a.roles, a.credentials[id].identity.roles, permission)
  }

  function LiveSessions(sessions: map<string, Session>, now: int): map<string, Session> {
    map token | token in sessions && !sessions[token].Expired(now) :: sessions[token]
  }

  // ---- The use cases ----

  function Enrolled(a: Auth, call: Call): Result<(Auth, Identity), Error>
    requires call.Register?
  {
    var subject := NewSubject(call.raw);
    if subject.Err? then Err(subject.error)
    else if |call.secret| < SECRET_MIN_LEN then Err(Incomplete)
    else if call.digest.None? then Err(SecretUnreadable)
    else
      match NewIdentity(call.id, subject.value, [], call.now)
      case Err(e) => Err(e)
      case Ok(identity) =>
        match NewCredential(identity, call.digest.value)
        case Err(e) => Err(e)
        case Ok(credential) =>
          match SaveIdentity(a, credential)
          case Err(e) => Err(e)
          case Ok(a') => Ok((a', identity))
  }

  /** The session an authentication opens. */
  function Issued(c: Config, a: Auth, call: Call): Result<Session, Error>
    requires call.Authenticate?
  {
    var subject := NewSubject(call.raw);
    if subject.Err? then Err(InvalidCredentials)
    else
      match FindBySubject(a, subject.value)
      case Err(e) => Err(e)
      case Ok(credential) =>
        if !credential.identity.active then Err(InvalidCredentials)
        else
          match c.matches(call.secret, credential.digest)
          case None => Err(SecretUnreadable)
          case Some(matches) =>
            if !matches then Err(InvalidCredentials)
            else if call.drawn.None? then Err(NoRandomness)
            else NewSession(call.drawn.value, credential.identity.id, call.now, c.ttl)
  }

  function Verified(a: Auth, token: string, now: int): Result<Identity, Error> {
    if token == "" || token !in a.sessions || a.sessions[token].Expired(now) then Err(TokenUnknown)
    else
      match FindIdentity(a, a.sessions[token].identity)
      case Err(_) => Err(TokenUnknown)
      case Ok(identity) => if identity.active then Ok(identity) else Err(TokenUnknown)
  }

  function Activated(a: Auth, id: string, active: bool): Result<Auth, Error> {
    if id == "" then Err(Incomplete)
    else
      match FindIdentity(a, id)
      case Err(e) => Err(e)
      case Ok(identity) => UpdateIdentity(a, identity.(active := active))
  }

  /** The canonical permissions, or nothing at all if one is malformed. */
  function NewPermissions(raw: seq<string>): Result<seq<string>, Error> {
    if raw == [] then Ok([])
    else
      match NewPermissions(raw[..|raw| - 1])
      case Err(e) => Err(e)
      case Ok(front) =>
        match NewPermission(raw[|raw| - 1])
        case Err(e) => Err(e)
        case Ok(p) => Ok(front + [p])
  }

  function Defined(name: string, raw: seq<string>): Result<Role, Error> {
    match NewPermissions(raw)
    case Err(e) => Err(e)
    case Ok(permissions) => RoleOf(name, permissions)
  }

  function Assigned(a: Auth, id: string, roles: seq<string>): Result<Auth, Error> {
    if id == "" then Err(Incomplete) else BindRoles(a, id, roles)
  }

  function OrElse(r: Result<Auth, Error>, a: Auth): Auth {
    if r.Ok? then r.value else a
  }

  function Next(c: Config, a: Auth, call: Call): Auth {
    match call
    case Register(_, _, _, _, _) => if Enrolled(a, call).Ok? then Enrolled(a, call).value.0 else a
    case Authenticate(_, _, _, _) =>
      if Issued(c, a, call).Ok?
      then a.(sessions := a.sessions[Issued(c, a, call).value.token := Issued(c, a, call).value]) else a
    case Verify(_, _) => a
    case Revoke(token) => if token == "" then a else a.(sessions := a.sessions - {token})
    case SetActive(id, active) => OrElse(Activated(a, id, active), a)
    case DefineRole(name, permissions) =>
      if Defined(name, permissions).Ok?
      then a.(roles := a.roles[Defined(name, permissions).value.name := Defined(name, permissions).value]) else a
    case AssignRoles(id, roles) => OrElse(Assigned(a, id, roles), a)
    case Authorize(_, _) => a
    case Purge(now) => a.(sessions := LiveSessions(a.sessions, now))
  }

  function Outcome(r: Result<Auth, Error>): Answer {
    if r.Ok? then Done else Failed(r.error)
  }

  function Reply(c: Config, a: Auth, call: Call): Answer {
    match call
    case Register(_, _, _, _, _) =>
      if Enrolled(a, call).Ok? then Registered(Enrolled(a, call).value.1) else Failed(Enrolled(a, call).error)
    case Authenticate(_, _, _, _) =>
      if Issued(c, a, call).Ok? then Opened(Issued(c, a, call).value) else Failed(Issued(c, a, call).error)
    case Verify(token, now) =>
      if Verified(a, token, now).Ok? then Known(Verified(a, token, now).value) else Failed(TokenUnknown)
    case Revoke(token) => if token == "" then Failed(Incomplete) else Done
    case SetActive(id, active) => Outcome(Activated(a, id, active))
    case DefineRole(name, permissions) =>
      if Defined(name, permissions).Ok? then Done else Failed(Defined(name, permissions).error)
    case AssignRoles(id, roles) => Outcome(Assigned(a, id, roles))
    case Authorize(id, permission) =>
      if id == "" || permission == "" then Failed(Incomplete)
      else if !IsGranted(a, id, permission) then Failed(Forbidden)
      else Done
    case Purge(now) => Removed(|a.sessions| - |LiveSessions(a.sessions, now)|)
  }

  function After(c: Config, calls: seq<Call>): Auth {
    if calls == [] then EMPTY else Next(c, After(c, calls[..|calls| - 1]), calls[|calls| - 1])
  }

  // ---- The specification: what the calls made so far mean ----

  function Front(calls: seq<Call>): seq<Call>
    requires calls != []
  {
    calls[..|calls| - 1]
  }

  function Last(calls: seq<Call>): Call
    requires calls != []
  {
    calls[|calls| - 1]
  }

  /** What the last call answered. */
  function LastReply(c: Config, calls: seq<Call>): Answer
    requires calls != []
  {
    Reply(c, After(c, Front(calls)), Last(calls))
  }

  /** To whom, and when, the token was last issued, unless it was revoked since. */
  function Holder(c: Config, calls: seq<Call>, token: string): Option<(string, int)> {
    if calls == [] then None
    else if LastReply(c, calls).Opened? && LastReply(c, calls).session.token == token then
      Some((LastReply(c, calls).session.identity, Last(calls).now))
    else if token != "" && Last(calls) == Revoke(token) then None
    else Holder(c, Front(calls), token)
  }

  /** Whether the identity exists and its last activation change did not switch it off. */
  function IsActive(c: Config, calls: seq<Call>, id: string): bool {
    if calls == [] then false
    else if LastReply(c, calls).Registered? && Last(calls).id == id then true
    else if Last(calls).SetActive? && Last(calls).id == id && LastReply(c, calls) == Done then Last(calls).active
    else IsActive(c, Front(calls), id)
  }

  /** The list of names last assigned to the identity. */
  function LastAssigned(c: Config, calls: seq<Call>, id: string): seq<string> {
    if calls == [] then []
    else if LastReply(c, calls).Registered? && Last(calls).id == id then []
    else if Last(calls).AssignRoles? && Last(calls).id == id && LastReply(c, calls) == Done then Last(calls).roles
    else LastAssigned(c, Front(calls), id)
  }

  /** The permissions, as typed, of the last successful definition of the role. */
  function LastDefined(c: Config, calls: seq<Call>, name: string): Option<seq<string>> {
    if calls == [] then None
    else if Last(calls).DefineRole? && Normalize(Last(calls).name) == name && LastReply(c, calls) == Done then
      Some(Last(calls).permissions)
    else LastDefined(c, Front(calls), name)
  }

  function TimeOf(call: Call): Option<int> {
    match call
    case Register(_, _, _, _, now) => Some(now)
    case Authenticate(_, _, _, now) => Some(now)
    case Verify(_, now) => Some(now)
    case Purge(now) => Some(now)
    case _ => None
  }

  /** The clock never goes back. */
  ghost predicate WellTimed(calls: seq<Call>) {
    forall i, j :: 0 <= i < j < |calls| && TimeOf(calls[i]).Some? && TimeOf(calls[j]).Some? ==>
      TimeOf(calls[i]).value <= TimeOf(calls[j]).value
  }

  // ---- Sessions refine the history ----

  ghost predicate PurgedAt(calls: seq<Call>, instant: int) {
    exists i :: 0 <= i < |calls| && calls[i].Purge? && calls[i].now >= instant
  }

  /** One token, in the map and in the history. */
  ghost predicate SessionAgrees(c: Config, calls: seq<Call>, token: string) {
    var sessions, holder := After(c, calls).sessions, Holder(c, calls, token);
    && (token in sessions ==>
          && holder == Some((sessions[token].identity, sessions[token].issuedAt))
          && sessions[token].expiresAt == sessions[token].issuedAt + c.ttl)
    && (holder.Some? && token !in sessions ==> PurgedAt(calls, holder.value.1 + c.ttl))
  }

  lemma PurgesAccumulate(calls: seq<Call>, instant: int)
    requires calls != []
    ensures PurgedAt(Front(calls), instant) ==> PurgedAt(calls, instant)
    ensures Last(calls).Purge? && Last(calls).now >= instant ==> PurgedAt(calls, instant)
  {
    if PurgedAt(Front(calls), instant) {
      var i :| 0 <= i < |Front(calls)| && Front(calls)[i].Purge? && Front(calls)[i].now >= instant;
      assert calls[i].Purge? && calls[i].now >= instant;
    }
  }

  /** What a call that neither opens nor closes sessions does to them. */
  lemma OtherCallsKeepSessions(c: Config, a: Auth, call: Call)
    requires !call.Authenticate? && !call.Revoke? && !call.Purge?
    ensures Next(c, a, call).sessions == a.sessions
    ensures !Reply(c, a, call).Opened?
  {
  }

  lemma OpeningIsIssued(c: Config, a: Auth, call: Call)
    requires call.Authenticate?
    ensures var r := Reply(c, a, call);
            if r.Opened? then
              && r.session.token != "" && call.drawn == Some(r.session.token)
              && r.session.issuedAt == call.now && r.session.expiresAt == call.now + c.ttl
              && Next(c, a, call) == a.(sessions := a.sessions[r.session.token := r.session])
              && r.session.identity in IdsOf(a)
            else Next(c, a, call) == a
  {
  }

  /** The identifiers that credentials carry. */
  function IdsOf(a: Auth): set<string> {
    set key | key in a.credentials :: a.credentials[key].identity.id
  }

  lemma ClosingCalls(c: Config, a: Auth, call: Call)
    requires call.Revoke? || call.Purge?
    ensures !Reply(c, a, call).Opened?
    ensures call.Revoke? && call.token != "" ==> Next(c, a, call).sessions == a.sessions - {call.token}
    ensures call.Revoke? && call.token == "" ==> Next(c, a, call).sessions == a.sessions
    ensures call.Purge? ==> Next(c, a, call).sessions == LiveSessions(a.sessions, call.now)
  {
  }

  /** What one call does to one token. */
  lemma SessionChange(c: Config, a: Auth, call: Call, token: string)
    ensures var a', r := Next(c, a, call), Reply(c, a, call);
            if r.Opened? && r.session.token == token then
              && call.Authenticate? && token in a'.sessions && a'.sessions[token] == r.session
              && r.session == Session(token, r.session.identity, call.now, call.now + c.ttl)
            else if token != "" && call == Revoke(token) then token !in a'.sessions
            else if token in a.sessions && call.Purge? && a.sessions[token].Expired(call.now) then token !in a'.sessions
            else
              && (token in a'.sessions <==> token in a.sessions)
              && (token in a.sessions ==> a'.sessions[token] == a.sessions[token])
  {
    hide Enrolled;
    hide Issued;
    if call.Authenticate? {
      OpeningIsIssued(c, a, call);
    } else if call.Revoke? || call.Purge? {
      ClosingCalls(c, a, call);
    } else {
      OtherCallsKeepSessions(c, a, call);
    }
    hide Next;
    hide Reply;
    hide IdsOf;
  }

  lemma {:induction false} SessionsAgree(c: Config, calls: seq<Call>, token: string)
    ensures SessionAgrees(c, calls, token)
  {
    hide Next;
    hide Reply;
    hide PurgedAt;
    if calls != [] {
      SessionsAgree(c, Front(calls), token);
      SessionChange(c, After(c, Front(calls)), Last(calls), token);
      var holder := Holder(c, calls, token);
      if holder.Some? {
        PurgesAccumulate(calls, holder.value.1 + c.ttl);
      }
    }
  }

  /** The store's own invariant: every record is under its own key. */
  ghost predicate WellKeyed(a: Auth) {
    && (forall id :: id in a.credentials ==>
          a.credentials[id].identity.id == id && id != "" && a.credentials[id].digest != "")
    && (forall subject :: subject in a.bySubject ==> a.bySubject[subject] in a.credentials)
    && (forall token :: token in a.sessions ==> a.sessions[token].identity in a.credentials)
    && (forall name :: name in a.roles ==> a.roles[name].name == name && name != "")
  }

  lemma EnrolledKeeps(a: Auth, call: Call)
    requires WellKeyed(a) && call.Register? && Enrolled(a, call).Ok?
    ensures WellKeyed(Enrolled(a, call).value.0)
    ensures var (a', identity) := Enrolled(a, call).value;
            && identity.id == call.id && identity.active && identity.roles == []
            && call.id in a'.credentials && a'.credentials[call.id].identity == identity
            && (forall id :: id != call.id ==>
                  (id in a'.credentials <==> id in a.credentials) &&
                  (id in a.credentials ==> a'.credentials[id] == a.credentials[id]))
            && a'.roles == a.roles && a'.sessions == a.sessions
  {
  }

  /** Giving a known account another identity under the same identifier. */
  lemma ReplacedKeeps(a: Auth, id: string, credential: Credential)
    requires WellKeyed(a) && id in a.credentials && credential.identity.id == id && credential.digest != ""
    ensures WellKeyed(a.(credentials := a.credentials[id := credential]))
  {
  }

  lemma ActivatedKeeps(a: Auth, id: string, active: bool)
    requires WellKeyed(a) && Activated(a, id, active).Ok?
    ensures WellKeyed(Activated(a, id, active).value)
  {
    var c := a.credentials[id];
    ReplacedKeeps(a, id, Credential(c.identity.(active := active), c.digest));
  }

  lemma AssignedKeeps(a: Auth, id: string, roles: seq<string>)
    requires WellKeyed(a) && Assigned(a, id, roles).Ok?
    ensures WellKeyed(Assigned(a, id, roles).value)
  {
    hide NormalizeRoles;
    ReplacedKeeps(a, id, Rebound(a.credentials[id], roles));
  }

  lemma IssuedKeeps(c: Config, a: Auth, call: Call)
    requires WellKeyed(a) && call.Authenticate?
    ensures WellKeyed(Next(c, a, call))
  {
    hide NewSubject;
  }

  lemma DefinedKeeps(c: Config, a: Auth, call: Call)
    requires WellKeyed(a) && call.DefineRole?
    ensures WellKeyed(Next(c, a, call))
  {
    hide NewPermissions;
    hide SortUnique;
    hide Normalize;
  }

  lemma WellKeyedKept(c: Config, a: Auth, call: Call)
    requires WellKeyed(a)
    ensures WellKeyed(Next(c, a, call))
  {
    match call
    case Register(_, _, _, _, _) =>
      hide Enrolled;
      if Enrolled(a, call).Ok? {
        EnrolledKeeps(a, call);
      }
    case Authenticate(_, _, _, _) =>
      IssuedKeeps(c, a, call);
    case SetActive(id, active) =>
      hide Activated;
      if Activated(a, id, active).Ok? {
        ActivatedKeeps(a, id, active);
      }
    case AssignRoles(id, roles) =>
      hide Assigned;
      if Assigned(a, id, roles).Ok? {
        AssignedKeeps(a, id, roles);
      }
    case DefineRole(_, _) =>
      DefinedKeeps(c, a, call);
    case _ =>
  }

  lemma {:induction false} AlwaysWellKeyed(c: Config, calls: seq<Call>)
    ensures WellKeyed(After(c, calls))
  {
    if calls != [] {
      hide WellKeyed;
      AlwaysWellKeyed(c, Front(calls));
      WellKeyedKept(c, After(c, Front(calls)), Last(calls));
    } else {
      assert WellKeyed(EMPTY);
    }
  }

  /** One identity, in the map and in the history. */
  ghost predicate IdentityAgrees(c: Config, calls: seq<Call>, id: string) {
    var credentials := After(c, calls).credentials;
    if id in credentials then
      && credentials[id].identity.active == IsActive(c, calls, id)
      && credentials[id].identity.roles == NormalizeRoles(LastAssigned(c, calls, id))
    else !IsActive(c, calls, id)
  }

  /** What one call does to one identity. */
  lemma IdentityChange(c: Config, a: Auth, call: Call, id: string)
    requires WellKeyed(a)
    ensures var a', r := Next(c, a, call), Reply(c, a, call);
            if call.Register? && r.Registered? && call.id == id then
              id in a'.credentials && a'.credentials[id].identity.active && a'.credentials[id].identity.roles == []
            else if call.SetActive? && call.id == id && r == Done then
              && id in a'.credentials && id in a.credentials
              && a'.credentials[id].identity == a.credentials[id].identity.(active := call.active)
            else if call.AssignRoles? && call.id == id && r == Done then
              && id in a'.credentials && id in a.credentials
              && a'.credentials[id].identity == a.credentials[id].identity.(roles := NormalizeRoles(call.roles))
            else
              && (id in a'.credentials <==> id in a.credentials)
              && (id in a.credentials ==> a'.credentials[id] == a.credentials[id])
  {
    match call
    case Register(_, _, _, _, _) =>
      if Enrolled(a, call).Ok? {
        EnrolledKeeps(a, call);
      }
      hide Enrolled;
      hide WellKeyed;
    case SetActive(_, _) =>
    case AssignRoles(_, _) => hide NormalizeRoles;
    case _ =>
      OthersLeaveAccounts(c, a, call);
      hide Next;
      hide Reply;
      hide WellKeyed;
  }

  lemma {:induction false} IdentitiesAgree(c: Config, calls: seq<Call>, id: string)
    ensures IdentityAgrees(c, calls, id)
  {
    if calls != [] {
      IdentitiesAgree(c, Front(calls), id);
      hide IdentityAgrees;
      IdentityStep(c, calls, id);
    }
  }

  lemma IdentityStep(c: Config, calls: seq<Call>, id: string)
    requires calls != [] && IdentityAgrees(c, Front(calls), id)
    ensures IdentityAgrees(c, calls, id)
  {
    EmptyRoles();
    AlwaysWellKeyed(c, Front(calls));
    hide NormalizeRoles;
    IdentityChange(c, After(c, Front(calls)), Last(calls), id);
    hide WellKeyed;
    hide Next;
    hide Reply;
  }

  lemma EmptyRoles()
    ensures NormalizeRoles([]) == []
  {
  }

  /** One role, in the map and in the history. */
  ghost predicate RoleAgrees(c: Config, calls: seq<Call>, name: string) {
    var roles, defined := After(c, calls).roles, LastDefined(c, calls, name);
    && (name in roles <==> defined.Some?)
    && (name in roles ==> forall p :: p in roles[name].permissions <==> Mentions(defined.value, p))
  }

  /** Some permission of the list, as typed, has this canonical form. */
  ghost predicate Mentions(raw: seq<string>, permission: string) {
    exists i :: 0 <= i < |raw| && Normalize(raw[i]) == permission
  }

  lemma {:induction false} NewPermissionsAre(raw: seq<string>, p: string)
    requires NewPermissions(raw).Ok?
    ensures p in NewPermissions(raw).value <==> Mentions(raw, p)
  {
    if raw != [] {
      var front := raw[..|raw| - 1];
      NewPermissionsAre(front, p);
      if i :| 0 <= i < |raw| && Normalize(raw[i]) == p {
        assert i < |front| ==> Normalize(front[i]) == p;
      }
      if i :| 0 <= i < |front| && Normalize(front[i]) == p {
        assert Normalize(raw[i]) == p;
      }
    }
  }

  lemma DefinedRoleMentions(name: string, raw: seq<string>)
    requires Defined(name, raw).Ok?
    ensures Defined(name, raw).value.name == Normalize(name)
    ensures forall p :: p in Defined(name, raw).value.permissions <==> Mentions(raw, p)
  {
    var permissions := NewPermissions(raw).value;
    SortUniqueIsCanonical(permissions);
    forall p ensures p in permissions <==> Mentions(raw, p) {
      NewPermissionsAre(raw, p);
    }
  }

  lemma {:induction false} RolesAgree(c: Config, calls: seq<Call>, name: string)
    ensures RoleAgrees(c, calls, name)
  {
    if calls != [] {
      RolesAgree(c, Front(calls), name);
      hide Issued;
      hide Normalize;
      hide Mentions;
      hide Defined;
      var a := After(c, Front(calls));
      match Last(calls)
      case DefineRole(typed, raw) =>
        if Defined(typed, raw).Ok? {
          DefinedRoleMentions(typed, raw);
        }
      case _ =>
    }
  }

  /**
   Verify answers for whom the token was issued exactly when it was issued less
   than a ttl ago, was not revoked since, and the identity is active; anything
   else is the one indistinguishable refusal. Purges made at any time do not count.
   */
  lemma VerifyRefinesHistory(c: Config, calls: seq<Call>, token: string, now: int)
    requires WellTimed(calls + [Verify(token, now)])
    ensures var r, holder := Reply(c, After(c, calls), Verify(token, now)), Holder(c, calls, token);
            if token != "" && holder.Some? && now < holder.value.1 + c.ttl && IsActive(c, calls, holder.value.0)
            then r.Known? && r.identity.id == holder.value.0 && r.identity.active
            else r == Failed(TokenUnknown)
  {
    SessionsAgree(c, calls, token);
    AlwaysWellKeyed(c, calls);
    hide After;
    hide IsActive;
    hide LastAssigned;
    hide NormalizeRoles;
    var holder := Holder(c, calls, token);
    hide Holder;
    if holder.Some? {
      IdentitiesAgree(c, calls, holder.value.0);
      if PurgedAt(calls, holder.value.1 + c.ttl) {
        var i :| 0 <= i < |calls| && calls[i].Purge? && calls[i].now >= holder.value.1 + c.ttl;
        var all := calls + [Verify(token, now)];
        assert all[i] == calls[i] && all[|calls|] == Verify(token, now);
        assert TimeOf(all[i]).value <= TimeOf(all[|calls|]).value;
      }
    }
  }

  /**
   Authorisation refines the history: a permission is granted exactly to an active
   identity whose last assigned list contains a name that, case and blanks aside,
   is that of a role whose last successful definition mentions the permission.
   */
  lemma AuthorizeRefinesHistory(c: Config, calls: seq<Call>, id: string, permission: string)
    requires id != "" && permission != ""
    ensures var r := Reply(c, After(c, calls), Authorize(id, permission));
            var names := LastAssigned(c, calls, id);
            && (r == Done || r == Failed(Forbidden))
            && (r == Done <==>
                  && IsActive(c, calls, id)
                  && exists i :: 0 <= i < |names| && GrantsInHistory(c, calls, Normalize(names[i]), permission))
  {
    IdentitiesAgree(c, calls, id);
    NamesGrantInHistory(c, calls, LastAssigned(c, calls, id), permission);
    hide GrantedBy;
    hide GrantsInHistory;
    hide Normalize;
    var a := After(c, calls);
    assert id in a.credentials ==> a.credentials[id].identity.roles == NormalizeRoles(LastAssigned(c, calls, id));
    assert IsGranted(a, id, permission) <==>
      IsActive(c, calls, id) && GrantedBy(a.roles, NormalizeRoles(LastAssigned(c, calls, id)), permission);
  }

  lemma NamesGrantInHistory(c: Config, calls: seq<Call>, names: seq<string>, permission: string)
    ensures GrantedBy(After(c, calls).roles, NormalizeRoles(names), permission) <==>
            exists i :: 0 <= i < |names| && GrantsInHistory(c, calls, Normalize(names[i]), permission)
  {
    hide After;
    hide LastDefined;
    hide Mentions;
    hide Normalize;
    hide NormalizeRoles;
    var roles, kept := After(c, calls).roles, NormalizeRoles(names);
    AlwaysWellKeyed(c, calls);
    if GrantedBy(roles, kept, permission) {
      var i :| 0 <= i < |kept| && kept[i] in roles && permission in roles[kept[i]].permissions;
      NormalizedRolesAre(names, kept[i]);
      RolesAgree(c, calls, kept[i]);
      var j :| 0 <= j < |names| && Normalize(names[j]) == kept[i];
      assert GrantsInHistory(c, calls, Normalize(names[j]), permission);
    }
    if j :| 0 <= j < |names| && GrantsInHistory(c, calls, Normalize(names[j]), permission) {
      var name := Normalize(names[j]);
      RolesAgree(c, calls, name);
      assert name in roles && roles[name].name == name;
      NormalizedRolesAre(names, name);
      var i :| 0 <= i < |kept| && kept[i] == name;
    }
  }

  ghost predicate GrantsInHistory(c: Config, calls: seq<Call>, name: string, permission: string) {
    LastDefined(c, calls, name).Some? && Mentions(LastDefined(c, calls, name).value, permission)
  }

  // ---- Signing in refines the history ----

  /** Identifiers come from randomness: no two registrations use the same one. */
  ghost predicate FreshIds(calls: seq<Call>) {
    forall i, j :: 0 <= i < j < |calls| && calls[i].Register? && calls[j].Register? ==> calls[i].id != calls[j].id
  }

  /** The identifier and the digest with which the subject was registered. */
  function AccountOf(c: Config, calls: seq<Call>, subject: string): Option<(string, string)> {
    if calls == [] then None
    else if LastReply(c, calls).Registered? && LastReply(c, calls).identity.subject == subject
            && Last(calls).digest.Some? then
      Some((Last(calls).id, Last(calls).digest.value))
    else AccountOf(c, Front(calls), subject)
  }

  /** Some registration used the identifier. */
  ghost predicate Drawn(calls: seq<Call>, id: string) {
    exists i :: 0 <= i < |calls| && calls[i].Register? && calls[i].id == id
  }

  /** One subject, in the index and in the history. */
  ghost predicate AccountAgrees(c: Config, calls: seq<Call>, subject: string) {
    var a, account := After(c, calls), AccountOf(c, calls, subject);
    && (subject in a.bySubject <==> account.Some?)
    && (subject in a.bySubject ==>
          && a.bySubject[subject] == account.value.0 && account.value.0 in a.credentials
          && a.credentials[account.value.0].digest == account.value.1)
  }

  lemma {:induction false} StoredWasDrawn(c: Config, calls: seq<Call>, id: string)
    requires id in After(c, calls).credentials
    ensures Drawn(calls, id)
  {
    var front, last := Front(calls), Last(calls);
    AlwaysWellKeyed(c, front);
    AccountsChange(c, After(c, front), last, id);
    hide Next;
    hide WellKeyed;
    if id in After(c, front).credentials {
      StoredWasDrawn(c, front, id);
      var i :| 0 <= i < |front| && front[i].Register? && front[i].id == id;
      assert calls[i] == front[i];
    } else {
      assert calls[|front|] == last;
    }
  }

  /** A successful registration adds one account under a subject nobody had. */
  lemma EnrolledAdds(a: Auth, call: Call)
    requires call.Register? && Enrolled(a, call).Ok?
    ensures NewSubject(call.raw).Ok? && call.digest.Some? && call.digest.value != "" && call.id != ""
    ensures var subject := NewSubject(call.raw).value;
            var (a', identity) := Enrolled(a, call).value;
            && subject !in a.bySubject && identity.id == call.id && identity.subject == subject
            && a' == a.(bySubject := a.bySubject[subject := call.id],
                        credentials := a.credentials[call.id := Credential(identity, call.digest.value)])
  {
    hide Normalize;
  }

  /** What one call does to the index and to the digests. */
  lemma AccountsChange(c: Config, a: Auth, call: Call, id: string)
    requires WellKeyed(a)
    ensures var a', r := Next(c, a, call), Reply(c, a, call);
            if r.Registered? then
              && call.Register? && call.digest.Some? && r.identity.subject !in a.bySubject
              && a'.bySubject == a.bySubject[r.identity.subject := call.id]
              && a'.credentials == a.credentials[call.id := Credential(r.identity, call.digest.value)]
            else
              && a'.bySubject == a.bySubject && a'.credentials.Keys == a.credentials.Keys
              && (id in a.credentials ==> a'.credentials[id].digest == a.credentials[id].digest)
  {
    match call
    case Register(_, _, _, _, _) =>
      RegisterChanges(c, a, call);
      hide Next;
      hide Reply;
    case SetActive(x, active) => ActivationChanges(c, a, call, id);
    case AssignRoles(x, roles) => AssignmentChanges(c, a, call, id);
    case _ =>
      OthersLeaveAccounts(c, a, call);
      hide Next;
      hide Reply;
  }

  lemma ActivationChanges(c: Config, a: Auth, call: Call, id: string)
    requires WellKeyed(a) && call.SetActive?
    ensures var a', r := Next(c, a, call), Reply(c, a, call);
            && !r.Registered? && a'.bySubject == a.bySubject && a'.credentials.Keys == a.credentials.Keys
            && (id in a.credentials ==> a'.credentials[id].digest == a.credentials[id].digest)
  {
    hide Activated;
    if Activated(a, call.id, call.active).Ok? {
      ActivatedKeepsDigests(a, call.id, call.active, id);
    }
  }

  lemma AssignmentChanges(c: Config, a: Auth, call: Call, id: string)
    requires call.AssignRoles?
    ensures var a', r := Next(c, a, call), Reply(c, a, call);
            && !r.Registered? && a'.bySubject == a.bySubject && a'.credentials.Keys == a.credentials.Keys
            && (id in a.credentials ==> a'.credentials[id].digest == a.credentials[id].digest)
  {
    hide Assigned;
    if Assigned(a, call.id, call.roles).Ok? {
      AssignedKeepsDigests(a, call.id, call.roles, id);
    }
  }

  /** Calls about sessions and roles leave the accounts alone. */
  lemma OthersLeaveAccounts(c: Config, a: Auth, call: Call)
    requires !call.Register? && !call.SetActive? && !call.AssignRoles?
    ensures Next(c, a, call).bySubject == a.bySubject && Next(c, a, call).credentials == a.credentials
    ensures !Reply(c, a, call).Registered?
  {
    hide Next;
    hide Reply;
    OthersKeepAccounts(c, a, call);
    OthersRegisterNobody(c, a, call);
  }

  lemma OthersKeepAccounts(c: Config, a: Auth, call: Call)
    requires !call.Register? && !call.SetActive? && !call.AssignRoles?
    ensures Next(c, a, call).bySubject == a.bySubject && Next(c, a, call).credentials == a.credentials
  {
    hide Enrolled;
    hide Issued;
    hide Verified;
    hide Defined;
    hide Activated;
    hide Assigned;
    hide IsGranted;
    hide LiveSessions;
  }

  lemma OthersRegisterNobody(c: Config, a: Auth, call: Call)
    requires !call.Register?
    ensures !Reply(c, a, call).Registered?
  {
    hide Enrolled;
    hide Issued;
    hide Verified;
    hide Defined;
    hide Activated;
    hide Assigned;
    hide IsGranted;
    hide LiveSessions;
  }

  lemma RegisterChanges(c: Config, a: Auth, call: Call)
    requires call.Register?
    ensures var a', r := Next(c, a, call), Reply(c, a, call);
            if r.Registered? then
              && call.digest.Some? && r.identity.subject !in a.bySubject
              && a'.bySubject == a.bySubject[r.identity.subject := call.id]
              && a'.credentials == a.credentials[call.id := Credential(r.identity, call.digest.value)]
            else a'.bySubject == a.bySubject && a'.credentials == a.credentials
  {
    hide Enrolled;
    if Enrolled(a, call).Ok? {
      EnrolledAdds(a, call);
    }
  }

  lemma ActivatedKeepsDigests(a: Auth, x: string, active: bool, id: string)
    requires WellKeyed(a) && Activated(a, x, active).Ok?
    ensures var a' := Activated(a, x, active).value;
            && a'.bySubject == a.bySubject && a'.credentials.Keys == a.credentials.Keys
            && (id in a.credentials ==> a'.credentials[id].digest == a.credentials[id].digest)
  {
  }

  lemma AssignedKeepsDigests(a: Auth, x: string, roles: seq<string>, id: string)
    requires Assigned(a, x, roles).Ok?
    ensures var a' := Assigned(a, x, roles).value;
            && a'.bySubject == a.bySubject && a'.credentials.Keys == a.credentials.Keys
            && (id in a.credentials ==> a'.credentials[id].digest == a.credentials[id].digest)
  {
    hide NormalizeRoles;
  }

  lemma {:induction false} AccountsAgree(c: Config, calls: seq<Call>, subject: string)
    requires FreshIds(calls)
    ensures AccountAgrees(c, calls, subject)
  {
    if calls != [] {
      var front := Front(calls);
      AccountsAgree(c, front, subject);
      hide AccountAgrees;
      AccountsStep(c, calls, subject);
    }
  }

  lemma AccountsStep(c: Config, calls: seq<Call>, subject: string)
    requires FreshIds(calls) && calls != [] && AccountAgrees(c, Front(calls), subject)
    ensures AccountAgrees(c, calls, subject)
  {
    var front, last := Front(calls), Last(calls);
    AlwaysWellKeyed(c, front);
    var a := After(c, front);
    if LastReply(c, calls).Registered? {
      NewAccount(c, calls, subject);
    } else {
      AccountsChange(c, a, last, if subject in a.bySubject then a.bySubject[subject] else "");
      hide Next;
      hide Reply;
      hide WellKeyed;
    }
  }

  lemma NewAccount(c: Config, calls: seq<Call>, subject: string)
    requires FreshIds(calls) && calls != [] && AccountAgrees(c, Front(calls), subject)
    requires LastReply(c, calls).Registered?
    ensures AccountAgrees(c, calls, subject)
  {
    var front, last := Front(calls), Last(calls);
    AlwaysWellKeyed(c, front);
    var a := After(c, front);
    AccountsChange(c, a, last, "");
    hide Next;
    hide Reply;
    hide WellKeyed;
    if last.id in a.credentials {
      StoredWasDrawn(c, front, last.id);
      assert false;
    }
  }

  /**
   Signing in refines the history: with fresh identifiers a session is opened
   exactly for the active account registered under the subject, case and blanks
   aside, with a matching secret; an unknown subject, an inactive account and a
   wrong secret get one and the same refusal.
   */
  lemma AuthenticateRefinesHistory(c: Config, calls: seq<Call>, raw: string, secret: string, token: string, now: int)
    requires FreshIds(calls) && token != "" && c.ttl > 0
    ensures var r := Reply(c, After(c, calls), Authenticate(raw, secret, Some(token), now));
            var account := if NewSubject(raw).Ok? then AccountOf(c, calls, NewSubject(raw).value) else None;
            if account.None? || !IsActive(c, calls, account.value.0) then r == Failed(InvalidCredentials)
            else
              match c.matches(secret, account.value.1)
              case None => r == Failed(SecretUnreadable)
              case Some(matches) =>
                r == if matches then Opened(Session(token, account.value.0, now, now + c.ttl))
                     else Failed(InvalidCredentials)
  {
    AlwaysWellKeyed(c, calls);
    if NewSubject(raw).Ok? {
      AccountsAgree(c, calls, NewSubject(raw).value);
      var account := AccountOf(c, calls, NewSubject(raw).value);
      if account.Some? {
        IdentitiesAgree(c, calls, account.value.0);
      }
    }
    hide NewSubject;
    hide After;
    hide AccountOf;
    hide IsActive;
    hide LastAssigned;
    hide NormalizeRoles;
  }

  // ---- The same, as "some call issued it" ----

  /** Tokens come from randomness: no two calls draw the same one. */
  ghost predicate FreshTokens(calls: seq<Call>) {
    forall i, j :: 0 <= i < j < |calls| && calls[i].Authenticate? && calls[j].Authenticate? ==>
      calls[i].drawn == None || calls[i].drawn != calls[j].drawn
  }

  /** Call i was an authentication that issued the token to the identity at the instant. */
  ghost predicate IssuedBy(c: Config, calls: seq<Call>, i: nat, token: string, id: string, at: int)
    requires i < |calls|
  {
    Reply(c, After(c, calls[..i]), calls[i]) == Opened(Session(token, id, at, at + c.ttl))
  }

  /** Some call issued the token and no later call revoked it. */
  ghost predicate StillIssued(c: Config, calls: seq<Call>, token: string, id: string, at: int) {
    exists i :: 0 <= i < |calls| && IssuedBy(c, calls, i, token, id, at) &&
      forall j :: i < j < |calls| ==> calls[j] != Revoke(token)
  }

  lemma StillIssuedStep(c: Config, calls: seq<Call>, token: string, id: string, at: int)
    requires calls != []
    ensures StillIssued(c, calls, token, id, at) <==>
            || LastReply(c, calls) == Opened(Session(token, id, at, at + c.ttl))
            || (Last(calls) != Revoke(token) && StillIssued(c, Front(calls), token, id, at))
  {
    hide Next;
    hide Reply;
    var front := Front(calls);
    if StillIssued(c, calls, token, id, at) {
      var i :| 0 <= i < |calls| && IssuedBy(c, calls, i, token, id, at)
        && forall j :: i < j < |calls| ==> calls[j] != Revoke(token);
      if i < |front| {
        assert front[..i] == calls[..i];
        assert IssuedBy(c, front, i, token, id, at);
      }
    }
    if Last(calls) != Revoke(token) && StillIssued(c, front, token, id, at) {
      var i :| 0 <= i < |front| && IssuedBy(c, front, i, token, id, at)
        && forall j :: i < j < |front| ==> front[j] != Revoke(token);
      assert front[..i] == calls[..i];
      assert IssuedBy(c, calls, i, token, id, at);
    }
    if LastReply(c, calls) == Opened(Session(token, id, at, at + c.ttl)) {
      assert IssuedBy(c, calls, |front|, token, id, at);
    }
  }

  /** A token held was drawn by some earlier authentication. */
  lemma {:induction false} IssuedWasDrawn(c: Config, calls: seq<Call>, token: string, id: string, at: int)
    requires StillIssued(c, calls, token, id, at)
    ensures exists i :: 0 <= i < |calls| && calls[i].Authenticate? && calls[i].drawn == Some(token)
  {
    var i :| 0 <= i < |calls| && IssuedBy(c, calls, i, token, id, at)
      && forall j :: i < j < |calls| ==> calls[j] != Revoke(token);
    OpenedMeansDrawn(c, After(c, calls[..i]), calls[i]);
  }

  lemma OpenedMeansDrawn(c: Config, a: Auth, call: Call)
    requires Reply(c, a, call).Opened?
    ensures call.Authenticate? && call.drawn == Some(Reply(c, a, call).session.token) && call.drawn != Some("")
    ensures var s := Reply(c, a, call).session; s.issuedAt == call.now && s.expiresAt == call.now + c.ttl
  {
    if !call.Authenticate? && !call.Revoke? && !call.Purge? {
      OtherCallsKeepSessions(c, a, call);
    } else if call.Authenticate? {
      OpeningIsIssued(c, a, call);
    }
  }

  lemma {:induction false} HolderIsIssued(c: Config, calls: seq<Call>, token: string, id: string, at: int)
    requires FreshTokens(calls)
    ensures Holder(c, calls, token) == Some((id, at)) <==> StillIssued(c, calls, token, id, at)
  {
    if calls != [] {
      var front := Front(calls);
      HolderIsIssued(c, front, token, id, at);
      StillIssuedStep(c, calls, token, id, at);
      var r := LastReply(c, calls);
      if r.Opened? {
        OpenedMeansDrawn(c, After(c, front), Last(calls));
        hide Reply;
        if r.session.token == token && StillIssued(c, front, token, id, at) {
          IssuedWasDrawn(c, front, token, id, at);
          assert false;
        }
      }
      if token == "" && StillIssued(c, front, token, id, at) {
        EmptyTokenIsNeverIssued(c, front, id, at);
        assert false;
      }
    }
  }

  lemma EmptyTokenIsNeverIssued(c: Config, calls: seq<Call>, id: string, at: int)
    ensures !StillIssued(c, calls, "", id, at)
  {
    if StillIssued(c, calls, "", id, at) {
      var i :| 0 <= i < |calls| && IssuedBy(c, calls, i, "", id, at)
        && forall j :: i < j < |calls| ==> calls[j] != Revoke("");
      OpenedMeansDrawn(c, After(c, calls[..i]), calls[i]);
    }
  }

  /**
   Sessions refine history: with fresh tokens, Verify answers for an identity
   exactly when some authentication issued the token to it less than a ttl ago, no
   later call revoked it, and the identity's last activation change left it active.
   */
  lemma VerifyMeansIssued(c: Config, calls: seq<Call>, token: string, now: int, id: string)
    requires WellTimed(calls + [Verify(token, now)]) && FreshTokens(calls)
    ensures var r := Reply(c, After(c, calls), Verify(token, now));
            (r.Known? && r.identity.id == id) <==>
            (exists at :: StillIssued(c, calls, token, id, at) && now < at + c.ttl) && IsActive(c, calls, id)
  {
    VerifyRefinesHistory(c, calls, token, now);
    hide Reply;
    var holder := Holder(c, calls, token);
    if holder.Some? {
      HolderIsIssued(c, calls, token, holder.value.0, holder.value.1);
    }
    if at :| StillIssued(c, calls, token, id, at) && now < at + c.ttl {
      HolderIsIssued(c, calls, token, id, at);
      if token == "" {
        EmptyTokenIsNeverIssued(c, calls, id, at);
        assert false;
      }
    }
  }

  // ---- Purges are invisible ----

  /** The same store but for sessions that had expired by the instant. */
  ghost predicate Shadows(a': Auth, a: Auth, instant: int) {
    && a'.bySubject == a.bySubject && a'.credentials == a.credentials && a'.roles == a.roles
    && (forall token :: token in a'.sessions ==> token in a.sessions && a'.sessions[token] == a.sessions[token])
    && (forall token :: token in a.sessions && token !in a'.sessions ==> a.sessions[token].Expired(instant))
  }

  lemma ShadowStep(c: Config, a: Auth, a': Auth, instant: int, call: Call)
    requires Shadows(a', a, instant) && (TimeOf(call).Some? ==> TimeOf(call).value >= instant)
    ensures Shadows(Next(c, a', call), Next(c, a, call), instant)
    ensures !call.Purge? ==> Reply(c, a', call) == Reply(c, a, call)
  {
    hide Shadows;
    hide Enrolled;
    hide Issued;
    hide IsGranted;
    hide Activated;
    hide Assigned;
    hide Verified;
    hide Defined;
    match call
    case Register(_, _, _, _, _) => ShadowEnrols(a, a', instant, call);
    case Authenticate(_, _, _, _) =>
      ShadowIssues(c, a, a', instant, call);
      ShadowMoves(c, a, a', instant, call);
    case Verify(token, now) => ShadowVerifies(a, a', instant, token, now);
    case Revoke(_) => ShadowMoves(c, a, a', instant, call);
    case SetActive(id, active) => ShadowActivates(a, a', instant, id, active);
    case DefineRole(_, _) => ShadowMoves(c, a, a', instant, call);
    case AssignRoles(id, roles) => ShadowAssigns(a, a', instant, id, roles);
    case Authorize(id, permission) => ShadowGrants(a, a', instant, id, permission);
    case Purge(_) => ShadowMoves(c, a, a', instant, call);
  }

  lemma ShadowMoves(c: Config, a: Auth, a': Auth, instant: int, call: Call)
    requires Shadows(a', a, instant)
    requires call.Authenticate? || call.Revoke? || call.DefineRole? || (call.Purge? && call.now >= instant)
    requires call.Authenticate? ==> Issued(c, a', call) == Issued(c, a, call)
    ensures Shadows(Next(c, a', call), Next(c, a, call), instant)
  {
    hide Issued;
    hide Defined;
  }

  lemma ShadowEnrols(a: Auth, a': Auth, instant: int, call: Call)
    requires Shadows(a', a, instant) && call.Register?
    ensures Enrolled(a', call).Ok? <==> Enrolled(a, call).Ok?
    ensures Enrolled(a, call).Err? ==> Enrolled(a', call).error == Enrolled(a, call).error
    ensures Enrolled(a, call).Ok? ==>
              && Enrolled(a', call).value.1 == Enrolled(a, call).value.1
              && Shadows(Enrolled(a', call).value.0, Enrolled(a, call).value.0, instant)
  {
    hide NewSubject;
    hide NormalizeRoles;
  }

  lemma ShadowIssues(c: Config, a: Auth, a': Auth, instant: int, call: Call)
    requires Shadows(a', a, instant) && call.Authenticate?
    ensures Issued(c, a', call) == Issued(c, a, call)
  {
    hide NewSubject;
  }

  lemma ShadowVerifies(a: Auth, a': Auth, instant: int, token: string, now: int)
    requires Shadows(a', a, instant) && now >= instant
    ensures Verified(a', token, now) == Verified(a, token, now)
  {
  }

  lemma ShadowActivates(a: Auth, a': Auth, instant: int, id: string, active: bool)
    requires Shadows(a', a, instant)
    ensures Outcome(Activated(a', id, active)) == Outcome(Activated(a, id, active))
    ensures Shadows(OrElse(Activated(a', id, active), a'), OrElse(Activated(a, id, active), a), instant)
  {
  }

  lemma ShadowAssigns(a: Auth, a': Auth, instant: int, id: string, roles: seq<string>)
    requires Shadows(a', a, instant)
    ensures Outcome(Assigned(a', id, roles)) == Outcome(Assigned(a, id, roles))
    ensures Shadows(OrElse(Assigned(a', id, roles), a'), OrElse(Assigned(a, id, roles), a), instant)
  {
    hide NormalizeRoles;
  }

  lemma ShadowGrants(a: Auth, a': Auth, instant: int, id: string, permission: string)
    requires Shadows(a', a, instant)
    ensures IsGranted(a', id, permission) == IsGranted(a, id, permission)
  {
    hide GrantedBy;
  }

  lemma {:induction false} ShadowRun(c: Config, before: seq<Call>, instant: int, after: seq<Call>)
    requires forall i :: 0 <= i < |after| && TimeOf(after[i]).Some? ==> TimeOf(after[i]).value >= instant
    ensures Shadows(After(c, before + [Purge(instant)] + after), After(c, before + after), instant)
  {
    if after == [] {
      assert before + after == before && before + [Purge(instant)] + after == before + [Purge(instant)];
      ShadowStarts(c, before, instant);
      hide After;
    } else {
      hide Shadows;
      hide Next;
      var front := Front(after);
      ShadowRun(c, before, instant, front);
      LastStep(c, before, after);
      LastStep(c, before + [Purge(instant)], after);
      hide After;
      ShadowStep(c, After(c, before + front), After(c, before + [Purge(instant)] + front), instant, Last(after));
    }
  }

  lemma LastStep(c: Config, before: seq<Call>, after: seq<Call>)
    requires after != []
    ensures After(c, before + after) == Next(c, After(c, before + Front(after)), Last(after))
  {
    hide Next;
    assert Front(before + after) == before + Front(after);
  }

  lemma ShadowStarts(c: Config, before: seq<Call>, instant: int)
    ensures Shadows(After(c, before + [Purge(instant)]), After(c, before), instant)
  {
    assert Front(before + [Purge(instant)]) == before;
    var a := After(c, before);
    assert After(c, before + [Purge(instant)]) == Next(c, a, Purge(instant));
    hide After;
  }

  /** Inserting a purge anywhere in a history changes no later answer, except the count of another purge. */
  lemma PurgesAreInvisible(c: Config, before: seq<Call>, instant: int, after: seq<Call>, call: Call)
    requires WellTimed(before + [Purge(instant)] + after + [call]) && !call.Purge?
    ensures Reply(c, After(c, before + [Purge(instant)] + after), call) == Reply(c, After(c, before + after), call)
  {
    var all := before + [Purge(instant)] + after + [call];
    assert all[|before|] == Purge(instant);
    forall i | 0 <= i < |after| && TimeOf(after[i]).Some? ensures TimeOf(after[i]).value >= instant {
      assert all[|before| + 1 + i] == after[i];
    }
    assert all[|all| - 1] == call;
    ShadowRun(c, before, instant, after);
    ShadowStep(c, After(c, before + after), After(c, before + [Purge(instant)] + after), instant, call);
  }
}
