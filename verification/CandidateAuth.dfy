/**
 Candidate sign-in: one-time links, password resets and sessions. A candidate is named by the
 hash of the email address, which is unique; a token by its own hash. Each call is atomic.
 */
module CandidateAuth {
  import opened Wrappers

  type Email = nat
  type TokenId = nat
  type Password = nat

  datatype Candidate = Candidate(password: Option<Password>, version: nat, verified: bool)
  datatype Token = Token(email: Email, expiresAt: int, consumed: bool)

  type Tokens = map<TokenId, Token>

  datatype Purpose = SignIn | PasswordReset

  /** What a session was given for. */
  datatype How = ByPassword | ByRegistration | ByToken(purpose: Purpose, token: TokenId)

  datatype Session = Session(email: Email, version: nat, how: How)

  datatype Refusal = NotFound | AlreadyUsed | Expired | Unauthorized | PasswordAlreadySet

  /** `sessions` holds every session ever issued, oldest first. */
  datatype State = State(candidates: map<Email, Candidate>, links: Tokens, resets: Tokens, nextToken: TokenId,
                         sessions: seq<Session>)

  const TOKEN_TTL := 15 * 60 * 1000

  const NEWCOMER := Candidate(None, 0, false)

  // ---- tokens ----

  /** Only the most recently requested token stays valid. */
  function Superseded(tokens: Tokens, email: Email): Tokens {
    map t | t in tokens :: if tokens[t].email == email then tokens[t].(consumed := true) else tokens[t]
  }

  function Issued(tokens: Tokens, t: TokenId, email: Email, now: int): Tokens {
    Superseded(tokens, email)[t := Token(email, now + TOKEN_TTL, false)]
  }

  function Consumed(tokens: Tokens, t: TokenId): Tokens
    requires t in tokens
  {
    tokens[t := tokens[t].(consumed := true)]
  }

  function TokenRefusal(tokens: Tokens, t: TokenId, now: int): Option<Refusal> {
    if t !in tokens then Some(NotFound)
    else if tokens[t].consumed then Some(AlreadyUsed)
    else if tokens[t].expiresAt < now then Some(Expired)
    else None
  }

  // ---- calls ----

  /** In `Register`, `mailed` says whether the confirmation link was issued: its failure is ignored. */
  datatype Call =
    | RequestLink(email: Email, now: int)
    | Register(email: Email, password: Password, mailed: bool, now: int)
    | Login(email: Email, password: Password)
    | Verify(token: TokenId, now: int)
    | RequestPasswordReset(email: Email, now: int)
    | ConfirmPasswordReset(token: TokenId, password: Password, now: int)

  function Known(s: State, email: Email): Candidate {
    if email in s.candidates then s.candidates[email] else NEWCOMER
  }

  function WithLink(s: State, email: Email, now: int): State {
    s.(links := Issued(s.links, s.nextToken, email, now), nextToken := s.nextToken + 1)
  }

  function WithSession(s: State, email: Email, c: Candidate, how: How): State {
    s.(candidates := s.candidates[email := c], sessions := s.sessions + [Session(email, c.version, how)])
  }

  function RefusalOf(s: State, c: Call): Option<Refusal> {
    match c
    case Register(email, _, _, _) => if Known(s, email).password.Some? then Some(PasswordAlreadySet) else None
    case Login(email, password) => if Known(s, email).password == Some(password) then None else Some(Unauthorized)
    case Verify(t, now) => TokenRefusal(s.links, t, now)
    case ConfirmPasswordReset(t, _, now) => TokenRefusal(s.resets, t, now)
    case _ => None
  }

  /** Every token belongs to a candidate on file. */
  predicate OwnersExist(s: State) {
    && (forall t :: t in s.links ==> s.links[t].email in s.candidates)
    && (forall t :: t in s.resets ==> s.resets[t].email in s.candidates)
  }

  function Do(s: State, c: Call): (s': State)
    requires OwnersExist(s)
    ensures OwnersExist(s')
  {
    if RefusalOf(s, c).Some? then s else
    match c
    case RequestLink(email, now) => WithLink(s.(candidates := s.candidates[email := Known(s, email)]), email, now)
    case Register(email, password, mailed, now) =>
      var s' := WithSession(s, email, Known(s, email).(password := Some(password)), ByRegistration);
      if mailed then WithLink(s', email, now) else s'
    case Login(email, _) => WithSession(s, email, Known(s, email), ByPassword)
    case Verify(t, _) =>
      WithSession(s.(links := Consumed(s.links, t)), s.links[t].email,
                  s.candidates[s.links[t].email].(verified := true), ByToken(SignIn, t))
    case RequestPasswordReset(email, now) =>
      if email !in s.candidates then s else
      s.(resets := Issued(s.resets, s.nextToken, email, now), nextToken := s.nextToken + 1)
    case ConfirmPasswordReset(t, password, _) =>
      var candidate := s.candidates[s.resets[t].email];
      WithSession(s.(resets := Consumed(s.resets, t)), s.resets[t].email,
                  candidate.(password := Some(password), version := candidate.version + 1), ByToken(PasswordReset, t))
  }

  /** `validate`: the session's version must still be the candidate's. */
  predicate Validates(s: State, session: Session) {
    session.email in s.candidates && s.candidates[session.email].version == session.version
  }

  class CandidateAuthService {
    var candidates: map<Email, Candidate>
    var links: Tokens
    var resets: Tokens
    var nextToken: TokenId
    ghost var sessions: seq<Session>

    ghost function Now(): State
      reads this
    {
      State(candidates, links, resets, nextToken, sessions)
    }

    constructor ()
      ensures Now() == Nobody
    {
      candidates, links, resets, nextToken, sessions := map[], map[], map[], 0, [];
    }

    method IssueAndSendVerificationEmail(email: Email, now: int)
      modifies this`links, this`nextToken
      ensures links == Issued(old(links), old(nextToken), email, now) && nextToken == old(nextToken) + 1
    {
      links := map t | t in links :: if links[t].email == email then links[t].(consumed := true) else links[t];
      links := links[nextToken := Token(email, now + TOKEN_TTL, false)];
      nextToken := nextToken + 1;
    }

    method RequestLink(email: Email, now: int)
      requires OwnersExist(Now())
      modifies this
      ensures Now() == Do(old(Now()), Call.RequestLink(email, now))
    {
      if email !in candidates {
        candidates := candidates[email := NEWCOMER];
      }
      assert candidates == old(candidates)[email := Known(old(Now()), email)];
      IssueAndSendVerificationEmail(email, now);
    }

    method Register(email: Email, password: Password, mailed: bool, now: int) returns (r: Result<Session, Refusal>)
      requires OwnersExist(Now())
      modifies this
      ensures Now() == Do(old(Now()), Call.Register(email, password, mailed, now))
      ensures r == Answer(old(Now()), Call.Register(email, password, mailed, now))
    {
      if email in candidates && candidates[email].password.Some? {
        return Err(PasswordAlreadySet);
      }
      var found := if email in candidates then candidates[email] else NEWCOMER;
      candidates := candidates[email := found.(password := Some(password))];
      if mailed {
        IssueAndSendVerificationEmail(email, now);
      }
      r := Ok(Session(email, found.version, ByRegistration));
      sessions := sessions + [r.value];
    }

    method Login(email: Email, password: Password) returns (r: Result<Session, Refusal>)
      requires OwnersExist(Now())
      modifies this
      ensures Now() == Do(old(Now()), Call.Login(email, password))
      ensures r == Answer(old(Now()), Call.Login(email, password))
    {
      if email !in candidates || candidates[email].password != Some(password) {
        return Err(Unauthorized);
      }
      r := Ok(Session(email, candidates[email].version, ByPassword));
      sessions := sessions + [r.value];
    }

    method Verify(t: TokenId, now: int) returns (r: Result<Session, Refusal>)
      requires OwnersExist(Now())
      modifies this
      ensures Now() == Do(old(Now()), Call.Verify(t, now))
      ensures r == Answer(old(Now()), Call.Verify(t, now))
    {
      if t !in links {
        return Err(NotFound);
      }
      var record := links[t];
      if record.consumed {
        return Err(AlreadyUsed);
      }
      if record.expiresAt < now {
        return Err(Expired);
      }
      links := links[t := record.(consumed := true)];
      var existing := candidates[record.email];
      if !existing.verified {
        candidates := candidates[record.email := existing.(verified := true)];
      }
      assert candidates == old(candidates)[record.email := existing.(verified := true)];
      r := Ok(Session(record.email, existing.version, ByToken(SignIn, t)));
      sessions := sessions + [r.value];
    }

    method RequestPasswordReset(email: Email, now: int)
      requires OwnersExist(Now())
      modifies this
      ensures Now() == Do(old(Now()), Call.RequestPasswordReset(email, now))
    {
      if email !in candidates {
        return;
      }
      resets := map t | t in resets :: if resets[t].email == email then resets[t].(consumed := true) else resets[t];
      resets := resets[nextToken := Token(email, now + TOKEN_TTL, false)];
      nextToken := nextToken + 1;
    }

    method ConfirmPasswordReset(t: TokenId, password: Password, now: int) returns (r: Result<Session, Refusal>)
      requires OwnersExist(Now())
      modifies this
      ensures Now() == Do(old(Now()), Call.ConfirmPasswordReset(t, password, now))
      ensures r == Answer(old(Now()), Call.ConfirmPasswordReset(t, password, now))
    {
      if t !in resets {
        return Err(NotFound);
      }
      var record := resets[t];
      if record.consumed {
        return Err(AlreadyUsed);
      }
      if record.expiresAt < now {
        return Err(Expired);
      }
      resets := resets[t := record.(consumed := true)];
      var candidate := candidates[record.email];
      candidates := candidates[record.email :=
        candidate.(password := Some(password), version := candidate.version + 1)];
      r := Ok(Session(record.email, candidate.version + 1, ByToken(PasswordReset, t)));
      sessions := sessions + [r.value];
    }
  }

  /** What a call that gives out sessions answers. */
  function Answer(s: State, c: Call): Result<Session, Refusal>
    requires OwnersExist(s) && !c.RequestLink? && !c.RequestPasswordReset?
  {
    if RefusalOf(s, c).Some? then Err(RefusalOf(s, c).value)
    else Ok(Do(s, c).sessions[|s.sessions|])
  }

  // ---- runs ----

  const Nobody := State(map[], map[], map[], 0, [])

  function Run(calls: seq<Call>): (s: State)
    ensures OwnersExist(s)
  {
    if calls == [] then Nobody else Do(Run(calls[..|calls| - 1]), calls[|calls| - 1])
  }

  // ---- tokens are good once, and only the newest ----

  predicate Used(sessions: seq<Session>, how: How) {
    exists k :: 0 <= k < |sessions| && sessions[k].how == how
  }

  predicate NewestOf(tokens: Tokens, t: TokenId) {
    t in tokens && forall u :: u in tokens && tokens[u].email == tokens[t].email ==> u <= t
  }

  /** A token is open exactly while it is the candidate's newest and has given no session. */
  ghost predicate TableOk(tokens: Tokens, purpose: Purpose, next: TokenId, sessions: seq<Session>) {
    && (forall t :: t in tokens ==>
          && t < next
          && (!tokens[t].consumed <==> NewestOf(tokens, t) && !Used(sessions, ByToken(purpose, t))))
    && (forall k :: 0 <= k < |sessions| && sessions[k].how.ByToken? && sessions[k].how.purpose == purpose ==>
          sessions[k].how.token in tokens && tokens[sessions[k].how.token].email == sessions[k].email)
  }

  /** No token gives two sessions. */
  ghost predicate OncePerToken(sessions: seq<Session>) {
    forall i, j :: 0 <= i < j < |sessions| && sessions[i].how.ByToken? ==> sessions[i].how != sessions[j].how
  }

  ghost predicate TokensOk(s: State) {
    && TableOk(s.links, SignIn, s.nextToken, s.sessions)
    && TableOk(s.resets, PasswordReset, s.nextToken, s.sessions)
    && OncePerToken(s.sessions)
  }

  lemma UsedSnoc(sessions: seq<Session>, n: Session, how: How)
    ensures Used(sessions + [n], how) <==> Used(sessions, how) || n.how == how
  {
    var l := sessions + [n];
    if Used(sessions, how) {
      var k :| 0 <= k < |sessions| && sessions[k].how == how;
      assert l[k].how == how;
    }
    if n.how == how { assert l[|sessions|].how == how; }
  }

  lemma IssueNewest(tokens: Tokens, next: TokenId, email: Email, now: int, t: TokenId)
    requires t in tokens && forall u :: u in tokens ==> u < next
    ensures NewestOf(Issued(tokens, next, email, now), t) <==> NewestOf(tokens, t) && tokens[t].email != email
  {
    var tokens' := Issued(tokens, next, email, now);
    assert forall u :: u in tokens ==> u in tokens' && tokens'[u].email == tokens[u].email;
    assert next in tokens' && tokens'[next].email == email;
    assert forall u :: u in tokens' ==> u == next || u in tokens;
  }

  lemma IssueTable(tokens: Tokens, purpose: Purpose, next: TokenId, sessions: seq<Session>, email: Email, now: int)
    requires TableOk(tokens, purpose, next, sessions)
    ensures TableOk(Issued(tokens, next, email, now), purpose, next + 1, sessions)
  {
    hide NewestOf, Used;
    var tokens' := Issued(tokens, next, email, now);
    IssuedIsNewest(tokens, purpose, next, sessions, email, now);
    forall t | t in tokens' ensures !tokens'[t].consumed
        <==> NewestOf(tokens', t) && !Used(sessions, ByToken(purpose, t)) {
      if t in tokens { IssueNewest(tokens, next, email, now, t); }
    }
  }

  lemma IssuedIsNewest(tokens: Tokens, purpose: Purpose, next: TokenId, sessions: seq<Session>, email: Email, now: int)
    requires TableOk(tokens, purpose, next, sessions)
    ensures next !in tokens && NewestOf(Issued(tokens, next, email, now), next)
        && !Used(sessions, ByToken(purpose, next))
  {
  }

  lemma ConsumeNewest(tokens: Tokens, t: TokenId, u: TokenId)
    requires t in tokens
    ensures NewestOf(Consumed(tokens, t), u) <==> NewestOf(tokens, u)
  {
    assert forall v :: v in tokens ==> Consumed(tokens, t)[v].email == tokens[v].email;
    assert forall v :: v in Consumed(tokens, t) <==> v in tokens;
  }

  lemma ConsumeTable(tokens: Tokens, purpose: Purpose, next: TokenId, sessions: seq<Session>, t: TokenId, n: Session)
    requires TableOk(tokens, purpose, next, sessions)
    requires t in tokens && n.how == ByToken(purpose, t) && n.email == tokens[t].email
    ensures TableOk(Consumed(tokens, t), purpose, next, sessions + [n])
  {
    hide NewestOf, Used;
    var tokens' := Consumed(tokens, t);
    forall u | u in tokens'
      ensures !tokens'[u].consumed <==> NewestOf(tokens', u) && !Used(sessions + [n], ByToken(purpose, u))
    {
      UsedSnoc(sessions, n, ByToken(purpose, u));
      ConsumeNewest(tokens, t, u);
    }
  }

  lemma OtherTable(tokens: Tokens, purpose: Purpose, next: TokenId, next': TokenId, sessions: seq<Session>,
        more: seq<Session>)
    requires TableOk(tokens, purpose, next, sessions) && next <= next'
    requires |more| <= 1 && (more != [] && more[0].how.ByToken? ==> more[0].how.purpose != purpose)
    ensures TableOk(tokens, purpose, next', sessions + more)
  {
    if more == [] {
      assert sessions + more == sessions;
    } else {
      assert more == [more[0]];
      forall t ensures Used(sessions + more, ByToken(purpose, t)) <==> Used(sessions, ByToken(purpose, t)) {
        UsedSnoc(sessions, more[0], ByToken(purpose, t));
      }
    }
  }

  lemma OnceSnoc(sessions: seq<Session>, n: Session)
    requires OncePerToken(sessions) && (n.how.ByToken? ==> !Used(sessions, n.how))
    ensures OncePerToken(sessions + [n])
  {
  }

  lemma DoTokens(s: State, c: Call)
    requires OwnersExist(s) && TokensOk(s)
    ensures TokensOk(Do(s, c))
  {
    hide TableOk, OncePerToken, Issued, Consumed, OwnersExist;
    if RefusalOf(s, c).None? {
      match c
      case RequestLink(email, now) =>
        IssueTable(s.links, SignIn, s.nextToken, s.sessions, email, now);
        OtherTable(s.resets, PasswordReset, s.nextToken, s.nextToken + 1, s.sessions, []);
        assert s.sessions + [] == s.sessions;
      case Register(email, _, mailed, now) =>
        var more := [Session(email, Known(s, email).version, ByRegistration)];
        NewSession(s, more[0]);
        if mailed {
          IssueTable(s.links, SignIn, s.nextToken, s.sessions + more, email, now);
          OtherTable(s.resets, PasswordReset, s.nextToken, s.nextToken + 1, s.sessions, more);
        }
      case Login(email, _) =>
        NewSession(s, Session(email, Known(s, email).version, ByPassword));
      case Verify(t, _) => VerifyTokens(s, c);
      case RequestPasswordReset(email, now) =>
        IssueTable(s.resets, PasswordReset, s.nextToken, s.sessions, email, now);
        OtherTable(s.links, SignIn, s.nextToken, s.nextToken + 1, s.sessions, []);
        assert s.sessions + [] == s.sessions;
      case ConfirmPasswordReset(t, _, _) => ResetTokens(s, c);
    }
  }

  lemma NewSession(s: State, n: Session)
    requires TokensOk(s) && !n.how.ByToken?
    ensures TableOk(s.links, SignIn, s.nextToken, s.sessions + [n])
    ensures TableOk(s.resets, PasswordReset, s.nextToken, s.sessions + [n])
    ensures OncePerToken(s.sessions + [n])
  {
    hide TableOk;
    OtherTable(s.links, SignIn, s.nextToken, s.nextToken, s.sessions, [n]);
    OtherTable(s.resets, PasswordReset, s.nextToken, s.nextToken, s.sessions, [n]);
  }

  lemma NotUsedYet(tokens: Tokens, purpose: Purpose, next: TokenId, sessions: seq<Session>, t: TokenId, now: int)
    requires TableOk(tokens, purpose, next, sessions) && TokenRefusal(tokens, t, now).None?
    ensures !Used(sessions, ByToken(purpose, t))
  {
  }

  lemma VerifyTokens(s: State, c: Call)
    requires OwnersExist(s) && TokensOk(s) && c.Verify? && RefusalOf(s, c).None?
    ensures TokensOk(Do(s, c))
  {
    hide TableOk, OncePerToken, Consumed, Used;
    var n := Do(s, c).sessions[|s.sessions|];
    NotUsedYet(s.links, SignIn, s.nextToken, s.sessions, c.token, c.now);
    ConsumeTable(s.links, SignIn, s.nextToken, s.sessions, c.token, n);
    OtherTable(s.resets, PasswordReset, s.nextToken, s.nextToken, s.sessions, [n]);
    OnceSnoc(s.sessions, n);
  }

  lemma ResetTokens(s: State, c: Call)
    requires OwnersExist(s) && TokensOk(s) && c.ConfirmPasswordReset? && RefusalOf(s, c).None?
    ensures TokensOk(Do(s, c))
  {
    hide TableOk, OncePerToken, Consumed, Used;
    var n := Do(s, c).sessions[|s.sessions|];
    NotUsedYet(s.resets, PasswordReset, s.nextToken, s.sessions, c.token, c.now);
    ConsumeTable(s.resets, PasswordReset, s.nextToken, s.sessions, c.token, n);
    OtherTable(s.links, SignIn, s.nextToken, s.nextToken, s.sessions, [n]);
    OnceSnoc(s.sessions, n);
  }

  lemma {:induction false} RunTokens(calls: seq<Call>)
    ensures TokensOk(Run(calls))
  {
    if calls != [] {
      RunTokens(calls[..|calls| - 1]);
      DoTokens(Run(calls[..|calls| - 1]), calls[|calls| - 1]);
    }
  }

  ghost predicate OneOpenEach(tokens: Tokens) {
    forall t, u ::
      t in tokens && u in tokens && tokens[t].email == tokens[u].email && !tokens[t].consumed && !tokens[u].consumed ==>
          t == u
  }

  /** In every run: at most one open link and one open reset per candidate, and no token, of
      either kind, ever gives a second session. */
  lemma {:induction false} OneOpenTokenEach(calls: seq<Call>)
    ensures OneOpenEach(Run(calls).links) && OneOpenEach(Run(calls).resets)
    ensures forall i, j :: 0 <= i < j < |Run(calls).sessions| && Run(calls).sessions[i].how.ByToken? ==>
      Run(calls).sessions[i].how != Run(calls).sessions[j].how
  {
    RunTokens(calls);
  }

  // ---- who a token was issued to, and when ----

  /** The token a call issues, if it issues one of this kind: to whom and when. */
  function IssuedBy(calls: seq<Call>, c: Call, purpose: Purpose): Option<(Email, int)> {
    match c
    case RequestLink(email, now) => if purpose.SignIn? then Some((email, now)) else None
    case Register(email, _, mailed, now) =>
      if purpose.SignIn? && mailed && PasswordSet(calls, email).None? then Some((email, now)) else None
    case RequestPasswordReset(email, now) =>
      if purpose.PasswordReset? && email in Run(calls).candidates then Some((email, now)) else None
    case _ => None
  }

  /** Tokens are numbered in the order they are issued. */
  function IssueOf(calls: seq<Call>, purpose: Purpose, t: TokenId): Option<(Email, int)> {
    if calls == [] then None else
    var before, last := calls[..|calls| - 1], calls[|calls| - 1];
    if t == Run(before).nextToken && IssuedBy(before, last, purpose).Some? then IssuedBy(before, last, purpose)
    else IssueOf(before, purpose, t)
  }

  /** The password a candidate set last: by registering, which takes a candidate without one, or
      by a reset that was not refused. */
  function PasswordSet(calls: seq<Call>, email: Email): Option<Password> {
    if calls == [] then None else
    var before, last := calls[..|calls| - 1], calls[|calls| - 1];
    match last
    case Register(who, password, _, _) =>
      if who == email && PasswordSet(before, email).None? then Some(password) else PasswordSet(before, email)
    case ConfirmPasswordReset(t, password, now) =>
      if TokenRefusal(Run(before).resets, t, now).None? && Run(before).resets[t].email == email
      then Some(password) else PasswordSet(before, email)
    case _ => PasswordSet(before, email)
  }

  lemma DoPassword(s: State, c: Call, email: Email)
    requires OwnersExist(s)
    ensures Known(Do(s, c), email).password ==
      match c
      case Register(who, password, _, _) =>
        if who == email && Known(s, email).password.None? then Some(password) else Known(s, email).password
      case ConfirmPasswordReset(t, password, now) =>
        if TokenRefusal(s.resets, t, now).None? && s.resets[t].email == email then Some(password)
        else Known(s, email).password
      case _ => Known(s, email).password
  {
    hide Issued, Consumed;
  }

  lemma {:induction false} PasswordKept(calls: seq<Call>, email: Email)
    ensures Known(Run(calls), email).password == PasswordSet(calls, email)
  {
    if calls != [] {
      var before, last := calls[..|calls| - 1], calls[|calls| - 1];
      PasswordKept(before, email);
      DoPassword(Run(before), last, email);
      hide Do, OwnersExist, TokenRefusal, Known;
    }
  }

  /** A sign-in by password gives a session, to that candidate, exactly for the password set last. */
  lemma {:induction false} LoginIff(calls: seq<Call>, email: Email, password: Password)
    ensures var sessions, sessions' := Run(calls).sessions, Run(calls + [Login(email, password)]).sessions;
      if PasswordSet(calls, email) == Some(password)
      then sessions' == sessions + [Session(email, Known(Run(calls), email).version, ByPassword)]
      else sessions' == sessions
  {
    PasswordKept(calls, email);
    assert (calls + [Login(email, password)])[..|calls|] == calls;
  }

  /** The candidate has signed in with a link. */
  ghost predicate FollowedLink(sessions: seq<Session>, email: Email) {
    exists k :: 0 <= k < |sessions| && IsLinkFor(sessions[k], email)
  }

  lemma LinkSnoc(sessions: seq<Session>, n: Session, email: Email)
    ensures FollowedLink(sessions + [n], email)
            <==> FollowedLink(sessions, email) || IsLinkFor(n, email)
  {
    var all := sessions + [n];
    assert all[|sessions|] == n && forall k :: 0 <= k < |sessions| ==> all[k] == sessions[k];
  }

  predicate IsLinkFor(n: Session, email: Email) {
    n.email == email && n.how.ByToken? && n.how.purpose.SignIn?
  }

  lemma DoVerifies(s: State, c: Call, email: Email)
    requires OwnersExist(s)
    ensures var s' := Do(s, c); var was, now := Known(s, email).verified, Known(s', email).verified;
      || (s'.sessions == s.sessions && now == was)
      || (|s'.sessions| == |s.sessions| + 1 && s'.sessions == s.sessions + [s'.sessions[|s.sessions|]]
          && now == (was || IsLinkFor(s'.sessions[|s.sessions|], email)))
  {
    hide Issued, Consumed;
  }

  /** An address counts as verified exactly once a link sent to it was followed. */
  lemma {:induction false} VerifiedIffFollowed(calls: seq<Call>, email: Email)
    ensures Known(Run(calls), email).verified <==> FollowedLink(Run(calls).sessions, email)
  {
    if calls != [] {
      var before, last := calls[..|calls| - 1], calls[|calls| - 1];
      VerifiedIffFollowed(before, email);
      var s, s' := Run(before), Run(calls);
      DoVerifies(s, last, email);
      hide Do, OwnersExist, FollowedLink, Known, IsLinkFor;
      if s'.sessions != s.sessions { LinkSnoc(s.sessions, s'.sessions[|s.sessions|], email); }
    }
  }

  function TokensOf(s: State, purpose: Purpose): Tokens {
    if purpose.SignIn? then s.links else s.resets
  }

  lemma DoIssues(s: State, c: Call, purpose: Purpose, t: TokenId)
    requires OwnersExist(s)
    ensures var tokens, tokens' := TokensOf(s, purpose), TokensOf(Do(s, c), purpose);
      var issue: Option<(Email, int)> :=
        match c
        case RequestLink(email, now) => if purpose.SignIn? then Some((email, now)) else None
        case Register(email, _, mailed, now) =>
          if purpose.SignIn? && mailed && Known(s, email).password.None? then Some((email, now)) else None
        case RequestPasswordReset(email, now) =>
          if purpose.PasswordReset? && email in s.candidates then Some((email, now)) else None
        case _ => None;
      if t == s.nextToken && issue.Some?
      then t in tokens' && tokens'[t].email == issue.value.0 && tokens'[t].expiresAt == issue.value.1 + 900_000
      else (t in tokens' <==> t in tokens)
           && (t in tokens ==> tokens'[t].email == tokens[t].email && tokens'[t].expiresAt == tokens[t].expiresAt)
  {
    hide OwnersExist;
  }

  /** In every run the tokens on file are those issued, each to its candidate and good for
      fifteen minutes. */
  lemma {:induction false} TokensAreAsIssued(calls: seq<Call>, purpose: Purpose, t: TokenId)
    ensures var tokens, issue := TokensOf(Run(calls), purpose), IssueOf(calls, purpose, t);
      && (t in tokens <==> issue.Some?)
      && (t in tokens ==> tokens[t].email == issue.value.0 && tokens[t].expiresAt == issue.value.1 + 900_000)
  {
    if calls != [] {
      var before, last := calls[..|calls| - 1], calls[|calls| - 1];
      TokensAreAsIssued(before, purpose, t);
      if last.Register? { PasswordKept(before, last.email); }
      DoIssues(Run(before), last, purpose, t);
      hide Do, OwnersExist, TokensOf, PasswordSet;
    }
  }

  /** A link signs its candidate in exactly when it is the last one requested for them, has not
      been used, and is at most fifteen minutes old. */
  lemma {:induction false} LinkWorksIff(calls: seq<Call>, t: TokenId, now: int)
    requires t in Run(calls).links
    ensures var s, issue := Run(calls), IssueOf(calls, SignIn, t);
      && issue.Some?
      && (RefusalOf(s, Verify(t, now)) == None
          <==> NewestOf(s.links, t) && !Used(s.sessions, ByToken(SignIn, t)) && now <= issue.value.1 + 900_000)
      && (RefusalOf(s, Verify(t, now)).None? ==>
            Run(calls + [Verify(t, now)]).sessions[|s.sessions|].email == issue.value.0)
  {
    RunTokens(calls);
    TokensAreAsIssued(calls, SignIn, t);
    assert (calls + [Verify(t, now)])[..|calls|] == calls;
  }

  /** The same for a password reset. */
  lemma {:induction false} ResetWorksIff(calls: seq<Call>, t: TokenId, password: Password, now: int)
    requires t in Run(calls).resets
    ensures var s, issue := Run(calls), IssueOf(calls, PasswordReset, t);
      && issue.Some?
      && (RefusalOf(s, ConfirmPasswordReset(t, password, now)) == None
          <==> NewestOf(s.resets, t) && !Used(s.sessions, ByToken(PasswordReset, t)) && now <= issue.value.1 + 900_000)
      && (RefusalOf(s, ConfirmPasswordReset(t, password, now)).None? ==>
            Run(calls + [ConfirmPasswordReset(t, password, now)]).sessions[|s.sessions|].email == issue.value.0)
  {
    RunTokens(calls);
    TokensAreAsIssued(calls, PasswordReset, t);
    assert (calls + [ConfirmPasswordReset(t, password, now)])[..|calls|] == calls;
  }

  // ---- sessions and resets ----

  function ResetsOf(sessions: seq<Session>, email: Email): nat {
    if sessions == [] then 0 else
    var last := sessions[|sessions| - 1];
    ResetsOf(sessions[..|sessions| - 1], email) + if last.email == email && IsReset(last) then 1 else 0
  }

  predicate IsReset(session: Session) {
    session.how.ByToken? && session.how.purpose.PasswordReset?
  }

  /** Versions count the password resets a candidate has completed. */
  ghost predicate VersionsOk(s: State) {
    && (forall email :: email in s.candidates ==> s.candidates[email].version == ResetsOf(s.sessions, email))
    && (forall email :: email !in s.candidates ==> ResetsOf(s.sessions, email) == 0)
    && (forall k :: 0 <= k < |s.sessions| ==>
          && s.sessions[k].email in s.candidates
          && s.sessions[k].version == ResetsOf(s.sessions[..k + 1], s.sessions[k].email))
  }

  lemma ResetsSnoc(sessions: seq<Session>, n: Session)
    ensures forall email :: ResetsOf(sessions + [n], email)
                            == ResetsOf(sessions, email) + if n.email == email && IsReset(n) then 1 else 0
  {
  }

  lemma SessionVersions(s: State, s': State, n: Session)
    requires VersionsOk(s) && s'.sessions == s.sessions + [n]
    requires n.email in s'.candidates && n.version == s'.candidates[n.email].version
    requires s'.candidates == s.candidates[n.email := s'.candidates[n.email]]
    requires n.version
             == (if n.email in s.candidates then s.candidates[n.email].version else 0) + if IsReset(n) then 1 else 0
    ensures VersionsOk(s')
  {
    hide IsReset, ResetsOf;
    ResetsSnoc(s.sessions, n);
    forall k | 0 <= k < |s'.sessions|
      ensures s'.sessions[k].version == ResetsOf(s'.sessions[..k + 1], s'.sessions[k].email)
    {
      assert s'.sessions[..k + 1] == if k < |s.sessions| then s.sessions[..k + 1] else s'.sessions;
    }
  }

  lemma DoVersions(s: State, c: Call)
    requires OwnersExist(s) && VersionsOk(s)
    ensures VersionsOk(Do(s, c))
  {
    var s' := Do(s, c);
    hide ResetsOf;
    if s'.sessions != s.sessions {
      hide VersionsOk;
      SessionVersions(s, s', s'.sessions[|s.sessions|]);
    }
  }

  lemma {:induction false} RunVersions(calls: seq<Call>)
    ensures VersionsOk(Run(calls))
  {
    if calls != [] {
      RunVersions(calls[..|calls| - 1]);
      DoVersions(Run(calls[..|calls| - 1]), calls[|calls| - 1]);
    }
  }

  lemma {:induction false} ResetsBetween(sessions: seq<Session>, i: nat, email: Email)
    requires i <= |sessions|
    ensures ResetsOf(sessions[..i], email) <= ResetsOf(sessions, email)
    ensures ResetsOf(sessions[..i], email) == ResetsOf(sessions, email)
            <==> forall j :: i <= j < |sessions| && sessions[j].email == email ==> !IsReset(sessions[j])
  {
    if i == |sessions| {
      assert sessions[..i] == sessions;
    } else {
      assert sessions[..|sessions| - 1][..i] == sessions[..i];
      ResetsBetween(sessions[..|sessions| - 1], i, email);
    }
  }

  /** A session validates exactly until its candidate next completes a password reset. */
  lemma {:induction false} SessionValidIff(calls: seq<Call>, i: nat)
    requires i < |Run(calls).sessions|
    ensures var s := Run(calls);
      Validates(s, s.sessions[i])
      <==> forall j :: i < j < |s.sessions| && s.sessions[j].email == s.sessions[i].email ==> !IsReset(s.sessions[j])
  {
    RunVersions(calls);
    ResetsBetween(Run(calls).sessions, i + 1, Run(calls).sessions[i].email);
  }

  lemma DoAccumulates(s: State, c: Call)
    requires OwnersExist(s)
    ensures s.sessions <= Do(s, c).sessions
  {
  }

  lemma {:induction false} SessionsAccumulate(calls: seq<Call>, n: nat)
    requires n <= |calls|
    ensures Run(calls[..n]).sessions <= Run(calls).sessions
  {
    hide Do;
    if n == |calls| {
      assert calls[..n] == calls;
    } else {
      assert calls[..|calls| - 1][..n] == calls[..n];
      SessionsAccumulate(calls[..|calls| - 1], n);
      DoAccumulates(Run(calls[..|calls| - 1]), calls[|calls| - 1]);
    }
  }

  /** After a reset completes, no earlier session of that candidate validates again, whatever
      calls follow. */
  lemma {:induction false} ResetEndsEarlierSessions(calls: seq<Call>, n: nat, i: nat)
    requires n < |calls| && calls[n].ConfirmPasswordReset? && RefusalOf(Run(calls[..n]), calls[n]).None?
    requires i < |Run(calls[..n]).sessions|
    requires Run(calls[..n]).sessions[i].email == Run(calls[..n]).resets[calls[n].token].email
    ensures !Validates(Run(calls), Run(calls[..n]).sessions[i])
  {
    var before, after, all := Run(calls[..n]).sessions, Run(calls[..n + 1]).sessions, Run(calls).sessions;
    assert calls[..n + 1][..n] == calls[..n];
    SessionsAccumulate(calls, n);
    SessionsAccumulate(calls, n + 1);
    var j := |before|;
    assert after[j].email == before[i].email && IsReset(after[j]);
    assert all[j] == after[j] && all[i] == before[i];
    SessionValidIff(calls, i);
  }
}
