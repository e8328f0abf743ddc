/** Rotating refresh tokens: each login starts a chain of sessions, and presenting a replaced token ends the chain. */
module RefreshSessions {
  import opened Common

  type Time = int

  // Token hashes are injective and unique, so the position of a session in the table stands for its id and for its
  // token; a position past the end is a token that was never issued.
  datatype Session = Session(
    user: nat,
    expiresAt: Time,
    revokedAt: Option<Time>,
    replacedBy: Option<nat>,
    compromised: bool)

  /** Replacements are later rows, no session replaces two, and a replaced session is revoked. */
  ghost predicate Sound(s: seq<Session>) {
    && (forall i :: 0 <= i < |s| && s[i].replacedBy.Some? ==> i < s[i].replacedBy.value < |s| && s[i].revokedAt.Some?)
    && (forall i, j :: 0 <= i < j < |s| && s[i].replacedBy.Some? ==> s[i].replacedBy != s[j].replacedBy)
    && (forall i :: 0 <= i < |s| && s[i].compromised ==> s[i].revokedAt.Some?)
  }

  predicate Live(session: Session, now: Time) {
    session.revokedAt.None? && !session.compromised && session.expiresAt > now
  }

  /** The sessions from `i` to the end of its chain. */
  function Path(s: seq<Session>, i: nat): (path: seq<nat>)
    requires i < |s|
    ensures |path| > 0 && path[0] == i
    ensures forall k :: 0 <= k < |path| ==> i <= path[k] < |s|
    decreases |s| - i
  {
    match s[i].replacedBy
    case Some(next) => if i < next < |s| then [i] + Path(s, next) else [i]
    case None => [i]
  }

  // ---- The chain walk ----

  function OrNow(at: Option<Time>, now: Time): Option<Time> { if at.Some? then at else Some(now) }

  function Revoked(session: Session, now: Time, compromised: bool): Session {
    session.(revokedAt := OrNow(session.revokedAt, now), compromised := session.compromised || compromised)
  }

  /** Every session from `root` on is revoked. */
  function RevokeChain(s: seq<Session>, root: nat, now: Time, compromised: bool): (r: seq<Session>)
    requires root < |s|
    ensures |r| == |s|
  {
    seq(|s|, j requires 0 <= j < |s| => if j in Path(s, root) then Revoked(s[j], now, compromised) else s[j])
  }

  // ---- Operations ----

  function NewSession(user: nat, expiresAt: Time): Session { Session(user, expiresAt, None, None, false) }

  /** Exchanges a token. Failures change the table too: they are raised after the transaction has committed. */
  function Refresh(
      s: seq<Session>, now: Time, token: nat, userActive: bool, expiresAt: Time)
    : (seq<Session>, Result<nat>)
  {
    if token >= |s| then (s, Err(InvalidRefreshToken)) else
    var current := s[token];
    if current.replacedBy.Some? || current.compromised then
      (RevokeChain(s, token, now, true), Err(TokenReuseDetected))
    else if current.revokedAt.Some? || current.expiresAt <= now || !userActive then
      (s[token := current.(revokedAt := OrNow(current.revokedAt, now))], Err(InvalidRefreshToken))
    else
      var used := current.(revokedAt := Some(now), replacedBy := Some(|s|));
      (s[token := used] + [NewSession(current.user, expiresAt)], Ok(|s|))
  }

  function Logout(s: seq<Session>, now: Time, token: nat): seq<Session> {
    if token < |s| then RevokeChain(s, token, now, false) else s
  }

  function Authenticate(s: seq<Session>, now: Time, session: nat, user: nat, userActive: bool): Result<nat> {
    if session < |s| && s[session].user == user && Live(s[session], now) && userActive then Ok(session)
    else Err(InvalidCredentials)
  }

  class SessionTable {
    var sessions: seq<Session>

    ghost predicate Valid()
      reads this
    {
      Sound(sessions)
    }

    constructor ()
      ensures Valid() && sessions == []
    {
      sessions := [];
    }

    /** A successful login or registration. */
    method Login(user: nat, expiresAt: Time) returns (id: nat)
      requires Valid()
      modifies this
      ensures Valid() && id == |old(sessions)|
      ensures sessions == old(sessions) + [Session(user, expiresAt, None, None, false)]
    {
      id := |sessions|;
      sessions := sessions + [NewSession(user, expiresAt)];
    }

    /** Follows the replacements, remembering which sessions were visited. */
    method RevokeReplacementChain(root: nat, now: Time, compromised: bool)
      requires Valid() && root < |sessions|
      modifies this
      ensures Valid() && sessions == RevokeChain(old(sessions), root, now, compromised)
    {
      ghost var s, path, k := sessions, Path(sessions, root), 0;
      var current := Some(root);
      var visited: set<nat> := {};
      PathIsAChain(s, root);
      while current.Some? && current.value !in visited
        invariant k <= |path| && current == (if k < |path| then Some(path[k]) else None)
        invariant visited == set i | 0 <= i < k :: path[i]
        invariant |sessions| == |s|
        invariant forall j :: 0 <= j < |s| ==>
          sessions[j] == if j in visited then Revoked(s[j], now, compromised) else s[j]
        decreases |path| - k
      {
        assert Linked(s, path, k);
        var id := current.value;
        visited := visited + {id};
        var session := sessions[id];
        session := session.(revokedAt := OrNow(session.revokedAt, now));
        session := session.(compromised := session.compromised || compromised);
        sessions := sessions[id := session];
        current := session.replacedBy;
        k := k + 1;
      }
      forall j | 0 <= j < |s| ensures j in path <==> j in visited {
        if j in path {
          var i :| 0 <= i < |path| && path[i] == j;
        }
      }
      RevokeChainIsSound(s, root, now, compromised);
    }

    method RefreshToken(now: Time, token: nat, userActive: bool, expiresAt: Time) returns (r: Result<nat>)
      requires Valid()
      modifies this
      ensures Valid() && (sessions, r) == Refresh(old(sessions), now, token, userActive, expiresAt)
    {
      RefreshIsSound(sessions, now, token, userActive, expiresAt);
      if token >= |sessions| {
        return Err(InvalidRefreshToken);
      }
      var current := sessions[token];
      if current.replacedBy.Some? || current.compromised {
        RevokeReplacementChain(token, now, true);
        return Err(TokenReuseDetected);
      }
      if current.revokedAt.Some? || current.expiresAt <= now || !userActive {
        sessions := sessions[token := current.(revokedAt := OrNow(current.revokedAt, now))];
        return Err(InvalidRefreshToken);
      }
      var replacement := |sessions|;
      sessions := sessions + [NewSession(current.user, expiresAt)];
      current := current.(revokedAt := Some(now));
      current := current.(replacedBy := Some(replacement));
      assert sessions[token := current]
          == sessions[..replacement][token := current] + [NewSession(sessions[token].user, expiresAt)];
      sessions := sessions[token := current];
      r := Ok(replacement);
    }

    method LogoutToken(now: Time, token: nat)
      requires Valid()
      modifies this
      ensures Valid() && sessions == Logout(old(sessions), now, token)
    {
      if token < |sessions| {
        RevokeReplacementChain(token, now, false);
      }
    }

    /** An access token names a session and a user; it is honoured only for the live end of a chain. */
    method AuthenticateAccess(now: Time, session: nat, user: nat, userActive: bool) returns (r: Result<nat>)
      requires Valid()
      ensures r == Authenticate(sessions, now, session, user, userActive)
      ensures r.Ok? ==> session < |sessions| && Path(sessions, session) == [session]
    {
      r := Err(InvalidCredentials);
      if session < |sessions| {
        var row := sessions[session];
        if row.user == user && row.revokedAt.None? && !row.compromised && row.expiresAt > now && userActive {
          r := Ok(session);
        }
      }
    }
  }

  // ---- The shape of a chain ----

  /** A member is replaced by the next one and revoked; the end has no replacement. */
  predicate Linked(s: seq<Session>, path: seq<nat>, k: nat)
    requires k < |path| && path[k] < |s|
  {
    if k + 1 < |path| then s[path[k]].replacedBy == Some(path[k + 1]) && s[path[k]].revokedAt.Some?
    else s[path[k]].replacedBy.None?
  }

  ghost predicate IsChain(s: seq<Session>, path: seq<nat>) {
    && (forall k :: 0 <= k < |path| ==> path[k] < |s|)
    && (forall k, l :: 0 <= k < l < |path| ==> path[k] < path[l])
    && (forall k: nat :: k < |path| ==> Linked(s, path, k))
  }

  /** A chain is acyclic, each member is replaced by the next, and only its end may be unrevoked. */
  lemma {:induction false} PathIsAChain(s: seq<Session>, i: nat)
    requires Sound(s) && i < |s|
    ensures IsChain(s, Path(s, i))
    decreases |s| - i
  {
    if s[i].replacedBy.Some? {
      var path, rest := Path(s, i), Path(s, s[i].replacedBy.value);
      PathIsAChain(s, s[i].replacedBy.value);
      forall k, l | 0 <= k < l < |path| ensures path[k] < path[l] {
        assert path[l] == rest[l - 1];
        assert k > 0 ==> path[k] == rest[k - 1];
      }
      forall k: nat | k < |path| ensures Linked(s, path, k) {
        if k > 0 {
          assert Linked(s, rest, k - 1);
        }
      }
    }
  }

  /** In a chain at most one session is not revoked, and it is the end. */
  lemma OneLiveSession(s: seq<Session>, i: nat, j: nat)
    requires Sound(s) && i < |s| && j in Path(s, i) && s[j].revokedAt.None?
    ensures var path := Path(s, i); j == path[|path| - 1] && forall k :: k in path && s[k].revokedAt.None? ==> k == j
  {
    PathIsAChain(s, i);
    var path := Path(s, i);
    forall k | k in path && s[k].revokedAt.None? ensures k == path[|path| - 1] {
      var l :| 0 <= l < |path| && path[l] == k;
      assert Linked(s, path, l);
    }
  }

  predicate IsLogin(s: seq<Session>, i: nat) { i < |s| && forall j :: 0 <= j < |s| ==> s[j].replacedBy != Some(i) }

  /** Every session belongs to the chain of some login. */
  lemma {:induction false} EverySessionHasALogin(s: seq<Session>, j: nat) returns (login: nat)
    requires Sound(s) && j < |s|
    ensures IsLogin(s, login) && j in Path(s, login)
  {
    if i :| 0 <= i < |s| && s[i].replacedBy == Some(j) {
      login := EverySessionHasALogin(s, i);
      ChainGoesOn(s, login, i, j);
    } else {
      login := j;
    }
  }

  lemma ChainGoesOn(s: seq<Session>, login: nat, i: nat, j: nat)
    requires Sound(s) && login < |s| && i < |s| && i in Path(s, login) && s[i].replacedBy == Some(j)
    ensures j in Path(s, login)
  {
    PathIsAChain(s, login);
    var path := Path(s, login);
    var k :| 0 <= k < |path| && path[k] == i;
    assert Linked(s, path, k);
  }

  /** The chains of different logins share no session. */
  lemma {:induction false} ChainsAreDisjoint(s: seq<Session>, a: nat, b: nat, j: nat)
    requires Sound(s) && IsLogin(s, a) && IsLogin(s, b) && j in Path(s, a) && j in Path(s, b)
    ensures a == b
    decreases j
  {
    PathIsAChain(s, a);
    PathIsAChain(s, b);
    var p, q := Path(s, a), Path(s, b);
    var k :| 0 <= k < |p| && p[k] == j;
    var l :| 0 <= l < |q| && q[l] == j;
    if k > 0 {
      assert Linked(s, p, k - 1);
    }
    if l > 0 {
      assert Linked(s, q, l - 1);
    }
    if k > 0 && l > 0 {
      assert s[p[k - 1]].replacedBy == s[q[l - 1]].replacedBy;
      ChainsAreDisjoint(s, a, b, p[k - 1]);
    }
  }

  // ---- Every operation keeps the shape ----

  lemma RevokeChainIsSound(s: seq<Session>, root: nat, now: Time, compromised: bool)
    requires Sound(s) && root < |s|
    ensures Sound(RevokeChain(s, root, now, compromised))
  {
  }

  lemma RefreshIsSound(s: seq<Session>, now: Time, token: nat, userActive: bool, expiresAt: Time)
    requires Sound(s)
    ensures Sound(Refresh(s, now, token, userActive, expiresAt).0)
  {
  }

  datatype Op =
    | SignIn(user: nat, expiresAt: Time)
    | Exchange(token: nat, userActive: bool, newExpiry: Time)
    | SignOut(token: nat)

  datatype Call = Call(now: Time, op: Op)

  function Apply(s: seq<Session>, call: Call): seq<Session> {
    match call.op
    case SignIn(user, expiresAt) => s + [NewSession(user, expiresAt)]
    case Exchange(token, userActive, expiresAt) => Refresh(s, call.now, token, userActive, expiresAt).0
    case SignOut(token) => Logout(s, call.now, token)
  }

  function Run(s: seq<Session>, calls: seq<Call>): seq<Session> {
    if |calls| == 0 then s else Apply(Run(s, calls[..|calls| - 1]), calls[|calls| - 1])
  }

  /** A session keeps its revocation time, its compromise and its replacement; and it is replaced only while
      unrevoked. */
  predicate Ages(before: Session, after: Session) {
    && after.user == before.user && after.expiresAt == before.expiresAt
    && (before.revokedAt.Some? ==> after.revokedAt == before.revokedAt && after.replacedBy == before.replacedBy)
    && (before.compromised ==> after.compromised)
  }

  ghost predicate Aged(s: seq<Session>, s': seq<Session>) {
    |s| <= |s'| && forall i :: 0 <= i < |s| ==> Ages(s[i], s'[i])
  }

  lemma StepAges(s: seq<Session>, call: Call)
    requires Sound(s)
    ensures Sound(Apply(s, call)) && Aged(s, Apply(s, call))
  {
    match call.op
    case SignIn(user, expiresAt) =>
    case Exchange(token, userActive, expiresAt) => RefreshAges(s, call.now, token, userActive, expiresAt);
    case SignOut(token) => LogoutAges(s, call.now, token);
  }

  lemma RefreshAges(s: seq<Session>, now: Time, token: nat, userActive: bool, expiresAt: Time)
    requires Sound(s)
    ensures var s' := Refresh(s, now, token, userActive, expiresAt).0; Sound(s') && Aged(s, s')
  {
    RefreshIsSound(s, now, token, userActive, expiresAt);
  }

  lemma LogoutAges(s: seq<Session>, now: Time, token: nat)
    requires Sound(s)
    ensures Sound(Logout(s, now, token)) && Aged(s, Logout(s, now, token))
  {
    if token < |s| {
      RevokeChainIsSound(s, token, now, false);
    }
  }

  /** Over any run the chains keep their shape and no revocation is ever undone. */
  lemma {:induction false} RunsAge(s: seq<Session>, calls: seq<Call>)
    requires Sound(s)
    ensures Sound(Run(s, calls)) && Aged(s, Run(s, calls))
  {
    if |calls| > 0 {
      var before := Run(s, calls[..|calls| - 1]);
      RunsAge(s, calls[..|calls| - 1]);
      StepAges(before, calls[|calls| - 1]);
      forall i | 0 <= i < |s| ensures Ages(s[i], Run(s, calls)[i]) {
        assert Ages(s[i], before[i]) && Ages(before[i], Apply(before, calls[|calls| - 1])[i]);
      }
    }
  }

  // ---- Reuse ----

  ghost predicate AllRevoked(s: seq<Session>, i: nat)
    requires i < |s|
  {
    forall j :: j in Path(s, i) ==> s[j].revokedAt.Some?
  }

  /** A chain whose end is revoked never grows again. */
  lemma {:induction false} DeadChainIsFrozen(s: seq<Session>, s': seq<Session>, i: nat)
    requires Sound(s) && Aged(s, s') && i < |s| && AllRevoked(s, i)
    ensures Path(s', i) == Path(s, i) && AllRevoked(s', i)
    decreases |s| - i
  {
    assert i in Path(s, i) && Ages(s[i], s'[i]);
    if s[i].replacedBy.Some? {
      var next := s[i].replacedBy.value;
      forall j | j in Path(s, next) ensures s[j].revokedAt.Some? {
        assert j in Path(s, i);
      }
      DeadChainIsFrozen(s, s', next);
      forall j | j in Path(s', i) ensures s'[j].revokedAt.Some? {
        assert j == i || j in Path(s', next);
      }
    }
  }

  lemma RevokingFreezes(s: seq<Session>, root: nat, now: Time, compromised: bool)
    requires Sound(s) && root < |s|
    ensures AllRevoked(RevokeChain(s, root, now, compromised), root)
  {
    SamePath(s, RevokeChain(s, root, now, compromised), root);
  }

  lemma {:induction false} SamePath(s: seq<Session>, s': seq<Session>, i: nat)
    requires i < |s| && |s'| == |s| && forall j :: 0 <= j < |s| ==> s'[j].replacedBy == s[j].replacedBy
    ensures Path(s', i) == Path(s, i)
    decreases |s| - i
  {
    if s[i].replacedBy.Some? && i < s[i].replacedBy.value < |s| {
      SamePath(s, s', s[i].replacedBy.value);
    }
  }

  /** Presenting a token that was already replaced fails, and from then on, whatever is called, no session of its chain
      is live: neither the sessions it leads to nor those that led to it. */
  lemma ReuseKillsTheChain(
      s: seq<Session>, now: Time, token: nat, userActive: bool, expiresAt: Time, calls: seq<Call>, j: nat, later: Time)
    requires Sound(s) && token < |s| && (s[token].replacedBy.Some? || s[token].compromised)
    requires var s' := Run(Refresh(s, now, token, userActive, expiresAt).0, calls);
      token < |s'| && j < |s'| && (j in Path(s', token) || token in Path(s', j))
    ensures Refresh(s, now, token, userActive, expiresAt).1 == Err(TokenReuseDetected)
    ensures !Live(Run(Refresh(s, now, token, userActive, expiresAt).0, calls)[j], later)
  {
    var r := Refresh(s, now, token, userActive, expiresAt).0;
    var s' := Run(r, calls);
    RevokeChainIsSound(s, token, now, true);
    RevokingFreezes(s, token, now, true);
    RunsAge(r, calls);
    DeadChainIsFrozen(r, s', token);
    if token in Path(s', j) {
      assert token in Path(s', token);
      PathIsAChain(s', j);
    }
  }

  /** Signing out with any token of a chain, even a replaced one, ends the whole chain for good. */
  lemma SignOutEndsTheChain(s: seq<Session>, now: Time, token: nat, calls: seq<Call>, j: nat, later: Time)
    requires Sound(s) && token < |s|
    requires var s' := Run(Logout(s, now, token), calls);
      token < |s'| && j < |s'| && (j in Path(s', token) || token in Path(s', j))
    ensures !Live(Run(Logout(s, now, token), calls)[j], later)
  {
    var r := Logout(s, now, token);
    var s' := Run(r, calls);
    RevokeChainIsSound(s, token, now, false);
    RevokingFreezes(s, token, now, false);
    RunsAge(r, calls);
    DeadChainIsFrozen(r, s', token);
    if token in Path(s', j) {
      assert token in Path(s', token);
      PathIsAChain(s', j);
    }
  }

  /** An access token is accepted exactly for the live end of a chain that belongs to its active user. */
  lemma AcceptedOnlyAtTheEnd(s: seq<Session>, now: Time, session: nat, user: nat, userActive: bool)
    requires Sound(s)
    ensures Authenticate(s, now, session, user, userActive).Ok? <==>
      session < |s| && s[session].user == user && userActive && Live(s[session], now) && Path(s, session) == [session]
  {
  }

  /** A token is exchanged exactly when it belongs to the live end of a chain of an active user. */
  lemma ExchangedOnlyAtTheEnd(s: seq<Session>, now: Time, token: nat, userActive: bool, expiresAt: Time)
    requires Sound(s)
    ensures Refresh(s, now, token, userActive, expiresAt).1.Ok? <==>
      token < |s| && userActive && Live(s[token], now) && Path(s, token) == [token]
  {
  }

  /** A successful exchange lengthens the chain by exactly the new session, which is now its only live one, belongs to
      the same user and expires when the new token does. */
  lemma ExchangeMovesTheEnd(s: seq<Session>, now: Time, token: nat, userActive: bool, expiresAt: Time)
    requires Sound(s) && Refresh(s, now, token, userActive, expiresAt).1.Ok? && expiresAt > now
    ensures var (s', r) := Refresh(s, now, token, userActive, expiresAt);
      && Live(s[token], now) && Path(s, token) == [token]
      && Path(s', token) == [token, r.value] && !Live(s'[token], now) && Live(s'[r.value], now)
      && |s'| == |s| + 1 && r.value == |s|
      && s'[r.value].user == s[token].user && s'[r.value].expiresAt == expiresAt
      && s'[token].user == s[token].user
      && forall j :: 0 <= j < |s| && j != token ==> s'[j] == s[j]
  {
  }

  // ---- Whose session it is ----

  /** A replacement belongs to the user of the session that it replaces. */
  ghost predicate OneUser(s: seq<Session>) {
    forall i :: 0 <= i < |s| && s[i].replacedBy.Some? && s[i].replacedBy.value < |s| ==>
      s[s[i].replacedBy.value].user == s[i].user
  }

  lemma {:induction false} PathHasOneUser(s: seq<Session>, i: nat, j: nat)
    requires OneUser(s) && i < |s| && j in Path(s, i)
    ensures s[j].user == s[i].user
    decreases |s| - i
  {
    if j != i {
      PathHasOneUser(s, s[i].replacedBy.value, j);
    }
  }

  lemma StepKeepsUsers(s: seq<Session>, call: Call)
    requires Sound(s) && OneUser(s)
    ensures OneUser(Apply(s, call))
  {
    match call.op
    case SignIn(_, _) =>
    case Exchange(token, userActive, expiresAt) =>
      StepAges(s, call);
    case SignOut(token) =>
      StepAges(s, call);
  }

  lemma {:induction false} RunsKeepUsers(calls: seq<Call>)
    ensures Sound(Run([], calls)) && OneUser(Run([], calls))
  {
    RunsAge([], calls);
    if |calls| > 0 {
      RunsKeepUsers(calls[..|calls| - 1]);
      StepKeepsUsers(Run([], calls[..|calls| - 1]), calls[|calls| - 1]);
    }
  }

  /** The `k`-th call is a sign-in of the user, and its session is row `login`. */
  ghost predicate SignedIn(calls: seq<Call>, k: nat, user: nat, login: nat) {
    k < |calls| && calls[k].op.SignIn? && calls[k].op.user == user && login == |Run([], calls[..k])|
  }

  /** Replacements are never undone, so what heads a chain now has always headed one. */
  lemma LoginsStayLogins(s: seq<Session>, call: Call, i: nat)
    requires Sound(s) && i < |s| && IsLogin(Apply(s, call), i)
    ensures IsLogin(s, i)
  {
    StepAges(s, call);
    forall j | 0 <= j < |s| ensures s[j].replacedBy != Some(i) {
      assert Ages(s[j], Apply(s, call)[j]);
    }
  }

  lemma ReplacementsAreNoLogins(s: seq<Session>, call: Call, i: nat)
    requires call.op.Exchange? && |s| <= i < |Apply(s, call)|
    ensures !IsLogin(Apply(s, call), i)
  {
    assert Apply(s, call)[call.op.token].replacedBy == Some(i);
  }

  /** Only a sign-in starts a chain. */
  lemma NewLoginsAreSignIns(s: seq<Session>, call: Call, i: nat)
    requires Sound(s) && |s| <= i && IsLogin(Apply(s, call), i)
    ensures call.op.SignIn? && i == |s| && Apply(s, call)[i].user == call.op.user
  {
    if call.op.Exchange? {
      ReplacementsAreNoLogins(s, call, i);
    }
  }

  /** Every chain of a reachable table was started by a sign-in of its user. */
  lemma {:induction false} LoginsAreSignIns(calls: seq<Call>, i: nat) returns (k: nat)
    requires IsLogin(Run([], calls), i)
    ensures SignedIn(calls, k, Run([], calls)[i].user, i)
  {
    var front, call := calls[..|calls| - 1], calls[|calls| - 1];
    var before := Run([], front);
    RunsAge([], front);
    if i < |before| {
      LoginsStayLogins(before, call, i);
      k := LoginsAreSignIns(front, i);
      StepAges(before, call);
      assert Ages(before[i], Run([], calls)[i]);
      assert calls[..k] == front[..k];
    } else {
      NewLoginsAreSignIns(before, call, i);
      k := |calls| - 1;
    }
  }

  /** After any run from the empty table an access token is accepted only for the user who signed in at the head of the
      chain of its session. */
  lemma AcceptedOnlyForItsLogin(calls: seq<Call>, now: Time, session: nat, user: nat, userActive: bool)
      returns (k: nat, login: nat)
    requires Authenticate(Run([], calls), now, session, user, userActive).Ok?
    ensures login < |Run([], calls)| && session in Path(Run([], calls), login)
    ensures SignedIn(calls, k, user, login)
  {
    var s := Run([], calls);
    RunsKeepUsers(calls);
    login := EverySessionHasALogin(s, session);
    PathHasOneUser(s, login, session);
    k := LoginsAreSignIns(calls, login);
  }

  // ---- What reuse and signing out touch ----

  /** Reuse marks the presented session and all that replaced it as compromised and revoked; signing out revokes the
      same sessions without the mark. Earlier revocation times stay, and so does every session that is not on that
      path. */
  lemma ReuseMarksExactlyTheRest(s: seq<Session>, now: Time, token: nat, userActive: bool, expiresAt: Time, j: nat)
    requires Sound(s) && token < |s| && j < |s| && (s[token].replacedBy.Some? || s[token].compromised)
    ensures var s' := Refresh(s, now, token, userActive, expiresAt).0;
      && |s'| == |s| && (j !in Path(s, token) ==> s'[j] == s[j])
      && (j in Path(s, token) ==> s'[j].compromised && s'[j].revokedAt
                                  == if s[j].revokedAt.Some? then s[j].revokedAt else Some(now))
  {
  }

  /** A token that is refused without having been replaced is revoked by the refusal, and nothing else changes. */
  lemma RefusedTokensAreRevoked(s: seq<Session>, now: Time, token: nat, userActive: bool, expiresAt: Time, j: nat)
    requires token < |s| && j < |s| && !s[token].replacedBy.Some? && !s[token].compromised
    requires Refresh(s, now, token, userActive, expiresAt).1.Err?
    ensures var s' := Refresh(s, now, token, userActive, expiresAt).0;
      && Refresh(s, now, token, userActive, expiresAt).1 == Err(InvalidRefreshToken)
      && |s'| == |s| && (j != token ==> s'[j] == s[j])
      && s'[token].revokedAt.Some? && !s'[token].compromised && s'[token].replacedBy.None?
      && s'[token].user == s[token].user
  {
  }

  lemma SigningOutRevokesExactlyTheRest(s: seq<Session>, now: Time, token: nat, j: nat)
    requires Sound(s) && token < |s| && j < |s|
    ensures var s' := Logout(s, now, token);
      && |s'| == |s| && s'[j].compromised == s[j].compromised
      && (j !in Path(s, token) ==> s'[j] == s[j])
      && (j in Path(s, token) ==> s'[j].revokedAt == if s[j].revokedAt.Some? then s[j].revokedAt else Some(now))
  {
  }

  /** Whatever one login presents, the sessions of every other login stay as they are. */
  lemma OtherLoginsAreUntouched(s: seq<Session>, call: Call, token: nat, a: nat, b: nat, j: nat)
    requires Sound(s) && (call.op.Exchange? || call.op.SignOut?) && token == call.op.token && token < |s|
    requires IsLogin(s, a) && IsLogin(s, b) && a != b && token in Path(s, a) && j in Path(s, b)
    ensures j < |Apply(s, call)| && Apply(s, call)[j] == s[j]
  {
    if j in Path(s, token) {
      PathJoins(s, a, token, j);
      ChainsAreDisjoint(s, a, b, j);
      assert false;
    }
    assert token in Path(s, token);
  }

  lemma {:induction false} PathJoins(s: seq<Session>, i: nat, token: nat, j: nat)
    requires i < |s| && token in Path(s, i) && token < |s| && j in Path(s, token)
    ensures j in Path(s, i)
    decreases |s| - i
  {
    if token != i {
      PathJoins(s, s[i].replacedBy.value, token, j);
    }
  }
}
