/**
 The code of the authentication module: the four maps of the in-memory store
 (internal/core/auth/drivers/memory) and the use cases that sequence its methods
 (internal/core/auth/application), each proved to make the state change and the
 answer of AuthHistory, so that the theorems there are about it.
 */
module AuthStore {
  import opened Wrappers
  import opened AsciiText
  import opened AuthDomain
  import H = AuthHistory

  class Store {
    var bySubject: map<string, string>
    var credentials: map<string, Credential>
    var roles: map<string, Role>
    var sessions: map<string, Session>

    ghost function Value(): H.Auth
      reads this
    {
      H.Auth(bySubject, credentials, roles, sessions)
    }

    constructor ()
      ensures Value() == H.EMPTY
    {
      bySubject, credentials, roles, sessions := map[], map[], map[], map[];
    }

    method SaveIdentity(credential: Credential) returns (r: Result<(), Error>)
      modifies this`bySubject, this`credentials
      ensures r.Ok? <==> H.SaveIdentity(old(Value()), credential).Ok?
      ensures r.Ok? ==> Ok(Value()) == H.SaveIdentity(old(Value()), credential)
      ensures r.Err? ==> r.error == SubjectTaken && Value() == old(Value())
    {
      var subject := credential.identity.subject;
      if subject in bySubject {
        return Err(SubjectTaken);
      }
      bySubject := bySubject[subject := credential.identity.id];
      credentials := credentials[credential.identity.id := credential];
      return Ok(());
    }

    method FindBySubject(subject: string) returns (r: Result<Credential, Error>)
      ensures r == H.FindBySubject(Value(), subject)
    {
      if subject !in bySubject {
        return Err(InvalidCredentials);
      }
      var id := bySubject[subject];
      if id !in credentials {
        return Err(InvalidCredentials);
      }
      return Ok(credentials[id]);
    }

    method FindIdentity(id: string) returns (r: Result<Identity, Error>)
      ensures r == H.FindIdentity(Value(), id)
    {
      if id !in credentials {
        return Err(TokenUnknown);
      }
      return Ok(credentials[id].identity);
    }

    method UpdateIdentity(identity: Identity) returns (r: Result<(), Error>)
      modifies this`credentials
      ensures r.Ok? <==> H.UpdateIdentity(old(Value()), identity).Ok?
      ensures r.Err? ==> r.error == H.UpdateIdentity(old(Value()), identity).error
      ensures Value() == H.OrElse(H.UpdateIdentity(old(Value()), identity), old(Value()))
    {
      if identity.id !in credentials {
        return Err(InvalidCredentials);
      }
      var updated := NewCredential(identity, credentials[identity.id].digest);
      if updated.Err? {
        return Err(updated.error);
      }
      credentials := credentials[identity.id := updated.value];
      return Ok(());
    }

    method SaveRole(role: Role)
      modifies this`roles
      ensures Value() == old(Value()).(roles := old(roles)[role.name := role])
    {
      roles := roles[role.name := role];
    }

    method BindRoles(id: string, names: seq<string>) returns (r: Result<(), Error>)
      modifies this`credentials
      ensures r.Ok? <==> H.BindRoles(old(Value()), id, names).Ok?
      ensures r.Err? ==> r.error == InvalidCredentials
      ensures Value() == H.OrElse(H.BindRoles(old(Value()), id, names), old(Value()))
    {
      if id !in credentials {
        return Err(InvalidCredentials);
      }
      var credential := credentials[id];
      var kept := NormalizeAll(names);
      var rebound := NewCredential(credential.identity.(roles := kept), credential.digest);
      credentials := credentials[id := if rebound.Ok? then rebound.value else credential];
      return Ok(());
    }

    method Grants(id: string, permission: string) returns (granted: bool)
      ensures granted <==> H.IsGranted(Value(), id, permission)
    {
      if id !in credentials || !credentials[id].identity.active {
        return false;
      }
      var names := credentials[id].identity.roles;
      for i := 0 to |names|
        invariant forall j :: 0 <= j < i && names[j] in roles ==> permission !in roles[names[j]].permissions
      {
        if names[i] in roles {
          var carries := AuthDomain.Grants(roles[names[i]], permission);
          if carries {
            return true;
          }
        }
      }
      return false;
    }

    method SaveSession(session: Session)
      modifies this`sessions
      ensures Value() == old(Value()).(sessions := old(sessions)[session.token := session])
    {
      sessions := sessions[session.token := session];
    }

    method FindSession(token: string) returns (r: Result<Session, Error>)
      ensures r == if token in sessions then Ok(sessions[token]) else Err(TokenUnknown)
    {
      if token !in sessions {
        return Err(TokenUnknown);
      }
      return Ok(sessions[token]);
    }

    method DeleteSession(token: string)
      modifies this`sessions
      ensures Value() == old(Value()).(sessions := old(sessions) - {token})
    {
      sessions := sessions - {token};
    }

    /** The walk over the map visits the sessions in no particular order. */
    method PurgeExpired(now: int) returns (removed: nat)
      modifies this`sessions
      ensures Value() == old(Value()).(sessions := H.LiveSessions(old(sessions), now))
      ensures forall token :: token in sessions <==> token in old(sessions) && now < old(sessions)[token].expiresAt
      ensures forall token :: token in sessions ==> sessions[token] == old(sessions)[token]
      ensures removed == |old(sessions)| - |sessions|
    {
      ghost var all := sessions;
      var left := sessions.Keys;
      removed := 0;
      while left != {}
        invariant left <= sessions.Keys <= all.Keys && removed + |sessions| == |all|
        invariant forall token :: token in sessions ==> sessions[token] == all[token]
        invariant forall token :: token in all && token !in sessions ==> all[token].Expired(now)
        invariant forall token :: token in sessions && token !in left ==> !all[token].Expired(now)
        decreases |left|
      {
        var token :| token in left;
        if sessions[token].Expired(now) {
          RemovingOne(sessions, token);
          sessions := sessions - {token};
          removed := removed + 1;
        }
        left := left - {token};
      }
      assert sessions == H.LiveSessions(all, now);
    }

    lemma RemovingOne(m: map<string, Session>, token: string)
      requires token in m
      ensures |m - {token}| == |m| - 1
    {
      assert (m - {token}).Keys == m.Keys - {token};
    }
  }

  class UseCases {
    const c: H.Config
    const store: Store

    constructor (c: H.Config, store: Store)
      ensures this.c == c && this.store == store
    {
      this.c, this.store := c, store;
    }

    method Register(raw: string, secret: string, digest: Option<string>, id: string, now: int)
      returns (r: Result<Identity, Error>)
      modifies store
      ensures var call := H.Register(raw, secret, digest, id, now);
              && store.Value() == H.Next(c, old(store.Value()), call)
              && H.Reply(c, old(store.Value()), call) == if r.Ok? then H.Registered(r.value) else H.Failed(r.error)
      ensures r == if NewSubject(raw).Err? || |secret| < 12 then Err(Incomplete)
                   else if digest.None? then Err(SecretUnreadable)
                   else if id == "" || digest.value == "" then Err(Incomplete)
                   else if NewSubject(raw).value in old(store.bySubject) then Err(SubjectTaken)
                   else Ok(Identity(id, NewSubject(raw).value, [], true, now))
      ensures r.Ok? ==>
                && store.bySubject == old(store.bySubject)[r.value.subject := id]
                && store.credentials == old(store.credentials)[id := Credential(r.value, digest.value)]
                && store.roles == old(store.roles) && store.sessions == old(store.sessions)
      ensures r.Err? ==> store.Value() == old(store.Value())
    {
      hide Normalize;
      var subject := NewSubject(raw);
      if subject.Err? {
        return Err(subject.error);
      }
      if |secret| < H.SECRET_MIN_LEN {
        return Err(Incomplete);
      }
      if digest.None? {
        return Err(SecretUnreadable);
      }
      var identity := NewIdentity(id, subject.value, [], now);
      if identity.Err? {
        return Err(identity.error);
      }
      var credential := NewCredential(identity.value, digest.value);
      if credential.Err? {
        return Err(credential.error);
      }
      var saved := store.SaveIdentity(credential.value);
      if saved.Err? {
        return Err(saved.error);
      }
      return Ok(identity.value);
    }

    method Authenticate(raw: string, secret: string, drawn: Option<string>, now: int)
      returns (r: Result<Session, Error>)
      modifies store
      ensures var call := H.Authenticate(raw, secret, drawn, now);
              && store.Value() == H.Next(c, old(store.Value()), call)
              && H.Reply(c, old(store.Value()), call) == if r.Ok? then H.Opened(r.value) else H.Failed(r.error)
      ensures var known := NewSubject(raw).Ok? && NewSubject(raw).value in old(store.bySubject)
                           && old(store.bySubject)[NewSubject(raw).value] in old(store.credentials);
              if !known then r == Err(InvalidCredentials)
              else
                var account := old(store.credentials)[old(store.bySubject)[NewSubject(raw).value]];
                var matches := c.matches(secret, account.digest);
                && (r.Ok? <==> account.identity.active && matches == Some(true) && account.identity.id != ""
                               && drawn.Some? && drawn.value != "" && c.ttl > 0)
                && (r.Ok? ==> r.value == Session(drawn.value, account.identity.id, now, now + c.ttl))
                && (!account.identity.active || matches == Some(false) ==> r == Err(InvalidCredentials))
                && (account.identity.active && matches == None ==> r == Err(SecretUnreadable))
                && (account.identity.active && matches == Some(true) && r.Err? ==>
                      r.error == if drawn.None? then NoRandomness else Incomplete)
      ensures store.sessions == if r.Ok? then old(store.sessions)[r.value.token := r.value] else old(store.sessions)
      ensures store.bySubject == old(store.bySubject) && store.credentials == old(store.credentials)
      ensures store.roles == old(store.roles)
    {
      hide Normalize;
      var subject := NewSubject(raw);
      if subject.Err? {
        return Err(InvalidCredentials);
      }
      var found := store.FindBySubject(subject.value);
      if found.Err? {
        return Err(found.error);
      }
      if !found.value.identity.active {
        return Err(InvalidCredentials);
      }
      var matches := c.matches(secret, found.value.digest);
      if matches.None? {
        return Err(SecretUnreadable);
      }
      if !matches.value {
        return Err(InvalidCredentials);
      }
      r := Issue(found.value.identity.id, drawn, now);
    }

    method Issue(id: string, drawn: Option<string>, now: int) returns (r: Result<Session, Error>)
      modifies store`sessions
      ensures r == if drawn.None? then Err(NoRandomness) else NewSession(drawn.value, id, now, c.ttl)
      ensures store.Value() == if r.Ok?
                               then old(store.Value()).(sessions := old(store.sessions)[r.value.token := r.value])
                               else old(store.Value())
    {
      if drawn.None? {
        return Err(NoRandomness);
      }
      r := NewSession(drawn.value, id, now, c.ttl);
      if r.Ok? {
        store.SaveSession(r.value);
      }
    }

    method Verify(token: string, now: int) returns (r: Result<Identity, Error>)
      ensures H.Reply(c, store.Value(), H.Verify(token, now)) == if r.Ok? then H.Known(r.value) else H.Failed(r.error)
      ensures r.Ok? <==>
              && token != "" && token in store.sessions && now < store.sessions[token].expiresAt
              && store.sessions[token].identity in store.credentials
              && store.credentials[store.sessions[token].identity].identity.active
      ensures r.Ok? ==> r.value == store.credentials[store.sessions[token].identity].identity
      ensures r.Err? ==> r.error == TokenUnknown
    {
      if token == "" {
        return Err(TokenUnknown);
      }
      var session := store.FindSession(token);
      if session.Err? {
        return Err(TokenUnknown);
      }
      if session.value.Expired(now) {
        return Err(TokenUnknown);
      }
      var identity := store.FindIdentity(session.value.identity);
      if identity.Err? || !identity.value.active {
        return Err(TokenUnknown);
      }
      return identity;
    }

    method Revoke(token: string) returns (r: Result<(), Error>)
      modifies store
      ensures store.Value() == H.Next(c, old(store.Value()), H.Revoke(token))
      ensures H.Reply(c, old(store.Value()), H.Revoke(token)) == if r.Ok? then H.Done else H.Failed(r.error)
      ensures r == if token == "" then Err(Incomplete) else Ok(())
      ensures store.sessions == if token == "" then old(store.sessions) else old(store.sessions) - {token}
    {
      if token == "" {
        return Err(Incomplete);
      }
      store.DeleteSession(token);
      return Ok(());
    }

    /** Deactivation and reactivation: read, transform, write back. */
    method SetActive(id: string, active: bool) returns (r: Result<(), Error>)
      modifies store
      ensures store.Value() == H.Next(c, old(store.Value()), H.SetActive(id, active))
      ensures H.Reply(c, old(store.Value()), H.SetActive(id, active)) == if r.Ok? then H.Done else H.Failed(r.error)
      ensures id == "" ==> r == Err(Incomplete)
      ensures id != "" && id !in old(store.credentials) ==> r == Err(TokenUnknown)
      ensures id != "" && id in old(store.credentials) && old(store.credentials)[id].identity.id == id
              && old(store.credentials)[id].digest != "" ==>
                var before := old(store.credentials)[id];
                && r.Ok?
                && store.credentials ==
                   old(store.credentials)[id := Credential(before.identity.(active := active), before.digest)]
      ensures r.Err? ==> store.Value() == old(store.Value())
    {
      if id == "" {
        return Err(Incomplete);
      }
      var identity := store.FindIdentity(id);
      if identity.Err? {
        return Err(identity.error);
      }
      r := store.UpdateIdentity(identity.value.(active := active));
    }

    method DefineRole(name: string, raw: seq<string>) returns (r: Result<(), Error>)
      modifies store
      ensures store.Value() == H.Next(c, old(store.Value()), H.DefineRole(name, raw))
      ensures H.Reply(c, old(store.Value()), H.DefineRole(name, raw)) == if r.Ok? then H.Done else H.Failed(r.error)
      ensures r.Ok? <==> Normalize(name) != "" && forall i :: 0 <= i < |raw| ==> NewPermission(raw[i]).Ok?
      ensures r.Err? ==> r.error == Incomplete && store.Value() == old(store.Value())
      ensures r.Ok? ==>
                var key := Normalize(name);
                && key in store.roles && store.roles == old(store.roles)[key := store.roles[key]]
                && forall p :: p in store.roles[key].permissions <==>
                               exists i :: 0 <= i < |raw| && NewPermission(raw[i]) == Ok(p)
    {
      var permissions: seq<string> := [];
      for i := 0 to |raw|
        invariant H.NewPermissions(raw[..i]) == Ok(permissions)
        invariant forall j :: 0 <= j < i ==> NewPermission(raw[j]).Ok?
        invariant store.Value() == old(store.Value())
      {
        assert raw[..i + 1][..i] == raw[..i];
        var permission := NewPermission(raw[i]);
        if permission.Err? {
          FirstMalformed(raw, i);
          return Err(permission.error);
        }
        permissions := permissions + [permission.value];
      }
      assert raw[..|raw|] == raw;
      PermissionsAre(raw, permissions);
      var role := NewRole(name, permissions);
      if role.Err? {
        return Err(role.error);
      }
      store.SaveRole(role.value);
      return Ok(());
    }

    /** The permissions built are those of the texts, and none is empty. */
    lemma PermissionsAre(raw: seq<string>, permissions: seq<string>)
      requires H.NewPermissions(raw) == Ok(permissions) && forall j :: 0 <= j < |raw| ==> NewPermission(raw[j]).Ok?
      ensures forall p :: p in permissions <==> exists i :: 0 <= i < |raw| && NewPermission(raw[i]) == Ok(p)
      ensures "" !in permissions
    {
      forall p ensures p in permissions <==> exists i :: 0 <= i < |raw| && NewPermission(raw[i]) == Ok(p) {
        H.NewPermissionsAre(raw, p);
        hide NewPermission;
      }
    }

    /** One malformed permission refuses the whole definition. */
    lemma {:induction false} FirstMalformed(raw: seq<string>, i: nat)
      requires i < |raw| && H.NewPermissions(raw[..i]).Ok? && NewPermission(raw[i]).Err?
      ensures H.NewPermissions(raw) == Err(NewPermission(raw[i]).error)
      decreases |raw|
    {
      hide NewPermission;
      if i < |raw| - 1 {
        assert raw[..|raw| - 1][..i] == raw[..i];
        FirstMalformed(raw[..|raw| - 1], i);
      }
    }

    method AssignRoles(id: string, names: seq<string>) returns (r: Result<(), Error>)
      modifies store
      ensures store.Value() == H.Next(c, old(store.Value()), H.AssignRoles(id, names))
      ensures H.Reply(c, old(store.Value()), H.AssignRoles(id, names)) == if r.Ok? then H.Done else H.Failed(r.error)
      ensures r.Ok? <==> id != "" && id in old(store.credentials)
      ensures r.Err? ==> r.error == if id == "" then Incomplete else InvalidCredentials
      ensures r.Ok? && old(store.credentials)[id].identity.id == id && old(store.credentials)[id].digest != "" ==>
                && id in store.credentials
                && store.credentials == old(store.credentials)[id := store.credentials[id]]
                && store.credentials[id].digest == old(store.credentials)[id].digest
                && store.credentials[id].identity ==
                   old(store.credentials)[id].identity.(roles := store.credentials[id].identity.roles)
                && forall name :: name in store.credentials[id].identity.roles <==>
                                  name != "" && exists i :: 0 <= i < |names| && Normalize(names[i]) == name
      ensures r.Err? ==> store.Value() == old(store.Value())
    {
      if id == "" {
        return Err(Incomplete);
      }
      r := store.BindRoles(id, names);
      RolesBound(names);
      hide NormalizeRoles;
    }

    lemma RolesBound(names: seq<string>)
      ensures forall name :: name in NormalizeRoles(names) <==>
                             name != "" && exists i :: 0 <= i < |names| && Normalize(names[i]) == name
    {
      forall name ensures name in NormalizeRoles(names) <==>
                          name != "" && exists i :: 0 <= i < |names| && Normalize(names[i]) == name
      {
        NormalizedRolesAre(names, name);
      }
    }

    method Authorize(id: string, permission: string) returns (r: Result<(), Error>)
      ensures H.Reply(c, store.Value(), H.Authorize(id, permission)) == if r.Ok? then H.Done else H.Failed(r.error)
      ensures r.Ok? <==>
              && id != "" && permission != "" && id in store.credentials && store.credentials[id].identity.active
              && exists i :: 0 <= i < |store.credentials[id].identity.roles|
                             && store.credentials[id].identity.roles[i] in store.roles
                             && permission in store.roles[store.credentials[id].identity.roles[i]].permissions
      ensures r.Err? ==> r.error == if id == "" || permission == "" then Incomplete else Forbidden
    {
      if id == "" || permission == "" {
        return Err(Incomplete);
      }
      var granted := store.Grants(id, permission);
      return if granted then Ok(()) else Err(Forbidden);
    }
  }
}
