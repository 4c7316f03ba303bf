/**
 The vocabulary of authentication (internal/core/auth/domain): subjects, permissions,
 roles, sessions. Text is ASCII: lower-casing and trimming act on ASCII letters and
 blanks.
 */
module AuthDomain {
  import opened Wrappers
  import opened AsciiText
  import opened ByteOrder

  datatype Error =
    | Incomplete
    | InvalidCredentials
    | TokenUnknown
    | Forbidden
    | SubjectTaken
    | SecretUnreadable
    | NoRandomness

  // ---- Subjects ----

  const SUBJECT_MAX_LEN: nat := 254

  predicate HasInnerBlank(s: string) {
    ' ' in s || '\t' in s || '\n' in s
  }

  function NewSubject(raw: string): Result<string, Error> {
    var normalized := Normalize(raw);
    if normalized == "" || |normalized| > SUBJECT_MAX_LEN || HasInnerBlank(normalized) then Err(Incomplete)
    else Ok(normalized)
  }

  /**
   A subject is accepted exactly when, the blanks around it aside, it has 1 to 254
   characters and no space, tab or line feed; it is then the text in lower case.
   */
  lemma SubjectIs(l: string, s: string, r: string)
    requires AllBlank(l) && AllBlank(r) && Trimmed(s)
    ensures NewSubject(l + s + r).Ok? <==>
            0 < |s| <= 254 && forall i :: 0 <= i < |s| ==> s[i] as int !in {32, 9, 10}
    ensures var subject := NewSubject(l + s + r);
            if subject.Ok? then
              SameButForCase(s, subject.value) && forall i :: 0 <= i < |subject.value| ==> !IsUpper(subject.value[i])
            else subject.error == Incomplete
  {
    var n := Normalize(l + s + r);
    NormalizeIs(l, s, r);
    hide Normalize;
    assert forall i :: 0 <= i < |s| ==> SameLetter(s[i], n[i]);
    assert HasInnerBlank(n) <==> exists i :: 0 <= i < |n| && n[i] as int in {32, 9, 10};
    if i :| 0 <= i < |n| && n[i] as int in {32, 9, 10} {
      assert SameLetter(s[i], n[i]);
    }
    if i :| 0 <= i < |s| && s[i] as int in {32, 9, 10} {
      assert SameLetter(s[i], n[i]);
    }
  }

  // ---- Permissions ----

  predicate IsLower(c: char) {
    'a' <= c <= 'z'
  }

  predicate IsWordChar(c: char) {
    IsLower(c) || '0' <= c <= '9' || c == '_'
  }

  /** Runs the pattern's automaton: `dots` more segments are owed, `start` says a segment is about to begin. */
  predicate Scan(s: string, dots: nat, start: bool) {
    if s == "" then dots == 0 && !start
    else if start then IsLower(s[0]) && Scan(s[1..], dots, false)
    else if s[0] == '.' then dots > 0 && Scan(s[1..], dots - 1, true)
    else IsWordChar(s[0]) && Scan(s[1..], dots, false)
  }

  function NewPermission(raw: string): Result<string, Error> {
    var normalized := Normalize(raw);
    if Scan(normalized, 2, true) then Ok(normalized) else Err(Incomplete)
  }

  /** One segment: a lower-case letter, then letters, digits and underscores. */
  predicate IsSegment(s: string) {
    && s != "" && 97 <= s[0] as int <= 122
    && forall i :: 0 <= i < |s| ==> var c := s[i] as int; 97 <= c <= 122 || 48 <= c <= 57 || c == 95
  }

  lemma {:induction false} ScanTail(s: string)
    ensures Scan(s, 0, false) <==> forall i :: 0 <= i < |s| ==> IsWordChar(s[i])
  {
    if s != "" {
      ScanTail(s[1..]);
      assert s == [s[0]] + s[1..];
      if Scan(s, 0, false) {
        forall i | 0 <= i < |s| ensures IsWordChar(s[i]) {
          if i > 0 {
            assert s[i] == s[1..][i - 1];
          }
        }
      }
      if forall i :: 0 <= i < |s| ==> IsWordChar(s[i]) {
        assert IsWordChar(s[0]);
        assert forall i :: 0 <= i < |s[1..]| ==> s[1..][i] == s[i + 1];
      }
    }
  }

  /** The segment that has begun ends with the dot at k, and the rest is scanned. */
  ghost predicate SegmentEnds(s: string, dots: nat, k: nat)
    requires dots > 0
  {
    k < |s| && s[k] == '.' && (forall i :: 0 <= i < k ==> IsWordChar(s[i])) && Scan(s[k + 1..], dots - 1, true)
  }

  lemma SegmentGoesOn(s: string, dots: nat, k: nat)
    requires dots > 0 && s != ""
    ensures SegmentEnds(s, dots, k + 1) <==> IsWordChar(s[0]) && SegmentEnds(s[1..], dots, k)
  {
    hide Scan;
    hide IsWordChar;
    var rest := s[1..];
    if k < |rest| {
      assert rest[k + 1..] == s[k + 2..] && rest[k] == s[k + 1];
    }
    if SegmentEnds(s, dots, k + 1) {
      forall i | 0 <= i < k ensures IsWordChar(rest[i]) {
        assert rest[i] == s[i + 1];
      }
    }
    if IsWordChar(s[0]) && SegmentEnds(rest, dots, k) {
      forall i | 0 <= i < k + 1 ensures IsWordChar(s[i]) {
        assert i > 0 ==> s[i] == rest[i - 1];
      }
    }
  }

  lemma {:induction false} ScanStep(s: string, dots: nat)
    requires dots > 0
    ensures Scan(s, dots, false) <==> exists k: nat :: SegmentEnds(s, dots, k)
  {
    if s != "" && s[0] != '.' {
      ScanStep(s[1..], dots);
      if k: nat :| SegmentEnds(s[1..], dots, k) {
        SegmentGoesOn(s, dots, k);
      }
      if k: nat :| SegmentEnds(s, dots, k) {
        assert k > 0;
        SegmentGoesOn(s, dots, k - 1);
      }
      hide SegmentEnds;
    } else if s != "" {
      assert s[0 + 1..] == s[1..];
      assert Scan(s, dots, false) ==> SegmentEnds(s, dots, 0);
      assert forall k: nat :: SegmentEnds(s, dots, k) ==> k == 0;
    }
  }

  lemma ScanStart(s: string, dots: nat)
    ensures Scan(s, dots, true) <==> s != "" && IsLower(s[0]) && Scan(s, dots, false)
  {
  }

  /** The pattern accepts exactly three segments separated by dots. */
  lemma PermissionHasThreeSegments(s: string)
    ensures Scan(s, 2, true) <==>
            exists a, b, c :: IsSegment(a) && IsSegment(b) && IsSegment(c) && s == a + "." + b + "." + c
  {
    if Scan(s, 2, true) {
      var a, t := CutSegment(s, 2);
      var b, c := CutSegment(t, 1);
      ScanStart(c, 0);
      ScanTail(c);
      assert IsSegment(c);
      assert s == a + "." + (b + "." + c) == a + "." + b + "." + c;
    }
    if a, b, c :| IsSegment(a) && IsSegment(b) && IsSegment(c) && s == a + "." + b + "." + c {
      SegmentsScan(a, b, c);
    }
  }

  /**
   A permission is accepted exactly when, case and the blanks around it aside, it is
   three segments joined by dots; it is then that text in lower case.
   */
  lemma PermissionIs(l: string, s: string, r: string)
    requires AllBlank(l) && AllBlank(r) && Trimmed(s)
    ensures var permission := NewPermission(l + s + r);
            && (permission.Ok? <==> exists a, b, c :: IsSegment(a) && IsSegment(b) && IsSegment(c)
                                      && SameButForCase(s, a + "." + b + "." + c))
            && (permission.Ok? ==>
                  && SameButForCase(s, permission.value)
                  && forall i :: 0 <= i < |permission.value| ==> !IsUpper(permission.value[i]))
            && (permission.Err? ==> permission.error == Incomplete)
  {
    var n := Normalize(l + s + r);
    NormalizeIs(l, s, r);
    PermissionHasThreeSegments(n);
    hide Normalize;
    hide Scan;
    if a, b, c :| IsSegment(a) && IsSegment(b) && IsSegment(c) && SameButForCase(s, a + "." + b + "." + c) {
      NoUpperInSegments(a, b, c);
      LowerFormIsUnique(s, n, a + "." + b + "." + c);
    }
    hide IsSegment;
  }

  lemma NoUpperInSegments(a: string, b: string, c: string)
    requires IsSegment(a) && IsSegment(b) && IsSegment(c)
    ensures var p := a + "." + b + "." + c; forall i :: 0 <= i < |p| ==> !IsUpper(p[i])
  {
  }

  lemma LowerFormIsUnique(s: string, n: string, p: string)
    requires SameButForCase(s, n) && SameButForCase(s, p)
    requires forall i :: 0 <= i < |n| ==> !IsUpper(n[i])
    requires forall i :: 0 <= i < |p| ==> !IsUpper(p[i])
    ensures n == p
  {
    forall i | 0 <= i < |p| ensures n[i] == p[i] {
      assert SameLetter(s[i], p[i]) && SameLetter(s[i], n[i]);
    }
  }

  lemma CutSegment(s: string, dots: nat) returns (head: string, tail: string)
    requires dots > 0 && Scan(s, dots, true)
    ensures IsSegment(head) && s == head + "." + tail && Scan(tail, dots - 1, true)
  {
    ScanStart(s, dots);
    ScanStep(s, dots);
    var k: nat :| SegmentEnds(s, dots, k);
    hide Scan;
    head, tail := s[..k], s[k + 1..];
    assert k > 0 && head[0] == s[0];
    assert s == s[..k] + [s[k]] + s[k + 1..];
  }

  lemma SegmentsScan(a: string, b: string, c: string)
    requires IsSegment(a) && IsSegment(b) && IsSegment(c)
    ensures Scan(a + "." + b + "." + c, 2, true)
  {
    ScanTail(c);
    ScanStart(c, 0);
    hide *;
    SegmentScans(b, c, 1);
    SegmentScans(a, b + "." + c, 2);
    assert a + "." + b + "." + c == a + "." + (b + "." + c);
  }

  lemma SegmentScans(a: string, rest: string, dots: nat)
    requires dots > 0 && IsSegment(a) && Scan(rest, dots - 1, true)
    ensures Scan(a + "." + rest, dots, true)
  {
    var s := a + "." + rest;
    ScanStart(s, dots);
    ScanStep(s, dots);
    hide Scan;
    assert s[0] == a[0] && s[|a|] == '.' && s[|a| + 1..] == rest;
    assert SegmentEnds(s, dots, |a|);
  }

  // ---- Roles ----

  datatype Role = Role(name: string, permissions: seq<string>)

  ghost predicate Ascending(s: seq<string>) {
    forall i, j :: 0 <= i < j < |s| ==> Less(s[i], s[j])
  }

  function Insert(p: string, sorted: seq<string>): seq<string> {
    if sorted == [] || Less(p, sorted[0]) then [p] + sorted
    else if p == sorted[0] then sorted
    else [sorted[0]] + Insert(p, sorted[1..])
  }

  /** The permissions of a role: each one once, in order. */
  function SortUnique(permissions: seq<string>): seq<string> {
    if permissions == [] then []
    else Insert(permissions[|permissions| - 1], SortUnique(permissions[..|permissions| - 1]))
  }

  lemma {:induction false} InsertIsAscending(p: string, sorted: seq<string>)
    requires Ascending(sorted)
    ensures Ascending(Insert(p, sorted))
    ensures forall q :: q in Insert(p, sorted) <==> q == p || q in sorted
  {
    if sorted == [] {
    } else if Less(p, sorted[0]) {
      forall j | 0 < j < |sorted| ensures Less(p, sorted[j]) {
        LessIsTransitive(p, sorted[0], sorted[j]);
      }
    } else if p != sorted[0] {
      var rest := Insert(p, sorted[1..]);
      InsertIsAscending(p, sorted[1..]);
      LessIsTotal(p, sorted[0]);
      forall j | 0 <= j < |rest| ensures Less(sorted[0], rest[j]) {
        assert rest[j] in rest;
      }
      assert sorted == [sorted[0]] + sorted[1..];
    }
  }

  lemma {:induction false} SortUniqueIsCanonical(permissions: seq<string>)
    ensures Ascending(SortUnique(permissions))
    ensures forall q :: q in SortUnique(permissions) <==> q in permissions
  {
    if permissions != [] {
      var front := permissions[..|permissions| - 1];
      SortUniqueIsCanonical(front);
      InsertIsAscending(permissions[|permissions| - 1], SortUnique(front));
      assert permissions == front + [permissions[|permissions| - 1]];
    }
  }

  lemma {:induction false} AscendingIsUnique(s: seq<string>, t: seq<string>)
    requires Ascending(s) && Ascending(t) && forall q :: q in s <==> q in t
    ensures s == t
  {
    assert s != [] ==> s[0] in t;
    assert t != [] ==> t[0] in s;
    if s != [] {
      FirstIsLeast(s, t[0]);
      FirstIsLeast(t, s[0]);
      if s[0] != t[0] {
        LessIsTransitive(s[0], t[0], s[0]);
        LessIsIrreflexive(s[0]);
      }
      RestHasOthers(s);
      RestHasOthers(t);
      AscendingIsUnique(s[1..], t[1..]);
      assert s == [s[0]] + s[1..] && t == [t[0]] + t[1..];
    }
  }

  lemma FirstIsLeast(s: seq<string>, q: string)
    requires Ascending(s) && q in s
    ensures q == s[0] || Less(s[0], q)
  {
  }

  lemma RestHasOthers(s: seq<string>)
    requires Ascending(s) && s != []
    ensures forall q :: q in s[1..] <==> q in s && q != s[0]
  {
    LessIsIrreflexive(s[0]);
    assert s == [s[0]] + s[1..];
  }

  /** Sorts the slice in place; the library routine, here by insertion. */
  method Sort(a: array<string>)
    requires forall i, j :: 0 <= i < j < a.Length ==> a[i] != a[j]
    modifies a
    ensures Ascending(a[..]) && multiset(a[..]) == multiset(old(a[..]))
  {
    for n := 0 to a.Length
      invariant Ascending(a[..n])
      invariant forall i, j :: 0 <= i < j < a.Length ==> a[i] != a[j]
      invariant multiset(a[..]) == multiset(old(a[..]))
    {
      Sink(a, n);
    }
    assert a[..a.Length] == a[..];
  }

  /** Moves element n down to its place among the sorted elements before it. */
  method Sink(a: array<string>, n: nat)
    requires n < a.Length && Ascending(a[..n])
    requires forall i, j :: 0 <= i < j < a.Length ==> a[i] != a[j]
    modifies a
    ensures Ascending(a[..n + 1]) && multiset(a[..]) == multiset(old(a[..]))
    ensures forall i, j :: 0 <= i < j < a.Length ==> a[i] != a[j]
  {
    hide Less;
    var k := n;
    while k > 0 && Less(a[k], a[k - 1])
      invariant 0 <= k <= n
      invariant forall i, j :: 0 <= i < j <= n && j != k ==> Less(a[i], a[j])
      invariant forall i, j :: 0 <= i < j < a.Length ==> a[i] != a[j]
      invariant multiset(a[..]) == multiset(old(a[..]))
    {
      a[k], a[k - 1] := a[k - 1], a[k];
      k := k - 1;
    }
    Sunk(a[..n + 1], k);
  }

  /** All in order but element k, which is not below the one before it. */
  lemma Sunk(s: seq<string>, k: nat)
    requires k < |s| && (k > 0 ==> !Less(s[k], s[k - 1])) && forall i, j :: 0 <= i < j < |s| ==> s[i] != s[j]
    requires forall i, j :: 0 <= i < j < |s| && j != k ==> Less(s[i], s[j])
    ensures Ascending(s)
  {
    hide Less;
    forall i | 0 <= i < k ensures Less(s[i], s[k]) {
      LessIsTotal(s[k - 1], s[k]);
      if i < k - 1 {
        LessIsTransitive(s[i], s[k - 1], s[k]);
      }
    }
  }

  /** Builds a role: a map absorbs the duplicates, then its values are sorted. */
  method NewRole(name: string, permissions: seq<string>) returns (r: Result<Role, Error>)
    ensures r == RoleOf(name, permissions)
    ensures r.Ok? <==> Normalize(name) != "" && "" !in permissions
    ensures r.Ok? ==>
              && r.value.name == Normalize(name) && Ascending(r.value.permissions)
              && forall q :: q in r.value.permissions <==> q in permissions
    ensures r.Err? ==> r.error == Incomplete
  {
    var trimmed := Normalize(name);
    if trimmed == "" {
      return Err(Incomplete);
    }
    var unique: set<string> := {};
    for i := 0 to |permissions|
      invariant forall q :: q in unique <==> q in permissions[..i]
      invariant "" !in permissions[..i]
    {
      if permissions[i] == "" {
        return Err(Incomplete);
      }
      unique := unique + {permissions[i]};
    }
    assert permissions[..|permissions|] == permissions;
    var kept := new string[|unique|];
    var left := unique;
    var n := 0;
    while left != {}
      invariant n + |left| == |unique| == kept.Length && left <= unique
      invariant forall q :: q in kept[..n] <==> q in unique && q !in left
      invariant forall i, j :: 0 <= i < j < n ==> kept[i] != kept[j]
      decreases |left|
    {
      var p :| p in left;
      assert p !in kept[..n];
      ghost var before := kept[..n];
      kept[n] := p;
      assert kept[..n] == before && kept[..n + 1] == before + [p];
      left := left - {p};
      n := n + 1;
    }
    assert kept[..n] == kept[..];
    Sort(kept);
    SortUniqueIsCanonical(permissions);
    AscendingIsUnique(kept[..], SortUnique(permissions)) by {
      forall q ensures q in kept[..] <==> q in SortUnique(permissions) {
        assert q in multiset(kept[..]) <==> q in unique;
      }
    }
    return Ok(Role(trimmed, kept[..]));
  }

  function RoleOf(name: string, permissions: seq<string>): Result<Role, Error> {
    if Normalize(name) == "" || "" in permissions then Err(Incomplete)
    else Ok(Role(Normalize(name), SortUnique(permissions)))
  }

  /** Exact comparison, no wildcard; the order and repetition of the definition never matter. */
  method Grants(role: Role, permission: string) returns (granted: bool)
    ensures granted <==> permission in role.permissions
  {
    for i := 0 to |role.permissions|
      invariant permission !in role.permissions[..i]
    {
      if role.permissions[i] == permission {
        return true;
      }
    }
    assert role.permissions[..|role.permissions|] == role.permissions;
    return false;
  }

  /** Two definitions with the same permissions, in any order and repetition, are the same role. */
  lemma RoleForgetsOrder(name: string, permissions: seq<string>, name': string, permissions': seq<string>)
    requires Normalize(name) == Normalize(name') && forall q :: q in permissions <==> q in permissions'
    ensures RoleOf(name, permissions) == RoleOf(name', permissions')
  {
    SortUniqueIsCanonical(permissions);
    SortUniqueIsCanonical(permissions');
    AscendingIsUnique(SortUnique(permissions), SortUnique(permissions'));
  }

  /** The role names an identity carries: canonical, blanks dropped. */
  function NormalizeRoles(roles: seq<string>): seq<string> {
    if roles == [] then []
    else
      var trimmed := Normalize(roles[|roles| - 1]);
      NormalizeRoles(roles[..|roles| - 1]) + if trimmed != "" then [trimmed] else []
  }

  method NormalizeAll(roles: seq<string>) returns (kept: seq<string>)
    ensures kept == NormalizeRoles(roles)
  {
    kept := [];
    for i := 0 to |roles|
      invariant kept == NormalizeRoles(roles[..i])
    {
      assert roles[..i + 1][..i] == roles[..i];
      var trimmed := Normalize(roles[i]);
      if trimmed != "" {
        kept := kept + [trimmed];
      }
    }
    assert roles[..|roles|] == roles;
  }

  lemma {:induction false} NormalizedRolesAre(roles: seq<string>, name: string)
    ensures name in NormalizeRoles(roles) <==> name != "" && exists i :: 0 <= i < |roles| && Normalize(roles[i]) == name
  {
    if roles != [] {
      var front := roles[..|roles| - 1];
      NormalizedRolesAre(front, name);
      assert forall i :: 0 <= i < |front| ==> front[i] == roles[i];
      if i :| 0 <= i < |roles| && Normalize(roles[i]) == name && name != "" {
        assert i < |front| ==> Normalize(front[i]) == name;
      }
    }
  }

  // ---- Identities and sessions ----

  datatype Identity = Identity(id: string, subject: string, roles: seq<string>, active: bool, createdAt: int)

  datatype Credential = Credential(identity: Identity, digest: string)

  datatype Session = Session(token: string, identity: string, issuedAt: int, expiresAt: int) {
    /** A session expires at its date, not after. */
    predicate Expired(now: int) {
      now >= expiresAt
    }
  }

  function NewIdentity(id: string, subject: string, roles: seq<string>, now: int): Result<Identity, Error> {
    if id == "" || subject == "" then Err(Incomplete) else Ok(Identity(id, subject, NormalizeRoles(roles), true, now))
  }

  function NewCredential(identity: Identity, digest: string): Result<Credential, Error> {
    if identity.id == "" || digest == "" then Err(Incomplete) else Ok(Credential(identity, digest))
  }

  function NewSession(token: string, identity: string, now: int, ttl: int): Result<Session, Error> {
    if token == "" || identity == "" || ttl <= 0 then Err(Incomplete)
    else Ok(Session(token, identity, now, now + ttl))
  }
}
