/** The auth calls, each as one unit of work: what they do to the refresh-token table, and that a
    family once dead stays dead. */
module Sessions {
  import opened Wrappers
  import opened Fingerprint
  import opened Rotation

  type Tokens = map<Jti, Token>

  // A validated refresh token is its claims.
  datatype Validation = Genuine(jti: Jti, user: Uuid) | OutOfDate | Forged

  datatype AuthError =
    | InvalidCredentials | InvalidRefreshToken | RefreshTokenExpired | RefreshTokenReuse
    | Trouble

  // ------------------------------------------------------------------ what each call does

  function LoginResult(tokens: Tokens, account: Option<Uuid>, family: Uuid, jti: Jti, expires: int)
    : (Tokens, Result<Jti, AuthError>)
  {
    if account.None? then (tokens, Err(InvalidCredentials))
    else if jti in tokens then (tokens, Err(Trouble))
    else (tokens[jti := Token(account.value, family, false, expires)], Ok(jti))
  }

  function RefreshResult(tokens: Tokens, v: Validation, now: int, jti: Jti, expires: int)
    : (Tokens, Result<Jti, AuthError>)
  {
    match v
    case OutOfDate => (tokens, Err(RefreshTokenExpired))
    case Forged => (tokens, Err(InvalidRefreshToken))
    case Genuine(j, user) =>
      if j !in tokens || tokens[j].user != user then (tokens, Err(InvalidRefreshToken))
      else if tokens[j].revoked then
        (RevokeRows(tokens, Selected(tokens, OfFamily(tokens[j].family))), Err(RefreshTokenReuse))
      else if now >= tokens[j].expires then (RevokeRows(tokens, {j}), Err(RefreshTokenExpired))
      else if jti in tokens then (tokens, Err(Trouble))
      else (RevokeRows(tokens, {j})[jti := Token(user, tokens[j].family, false, expires)], Ok(jti))
  }

  function LogoutResult(tokens: Tokens, v: Validation): Tokens {
    if v.Genuine? && v.jti in tokens && tokens[v.jti].user == v.user && !tokens[v.jti].revoked
    then RevokeRows(tokens, {v.jti})
    else tokens
  }

  function LogoutAllResult(tokens: Tokens, user: Uuid): Tokens {
    RevokeRows(tokens, Selected(tokens, OfUser(user)))
  }

  // ------------------------------------------------------------------ what the rows then say

  // A new token is live, of the account that logged in, and no other row changes. Presented before
  // it expires it is exchanged, under a free successor id, and afterwards it has expired.
  lemma LoginYieldsAToken(tokens: Tokens, account: Option<Uuid>, family: Uuid, jti: Jti, expires: int,
                          now: int, next: Jti, later: int)
    requires LoginResult(tokens, account, family, jti, expires).1.Ok?
    ensures var after := LoginResult(tokens, account, family, jti, expires).0;
      && account.Some? && jti !in tokens && after.Keys == tokens.Keys + {jti}
      && after[jti].user == account.value && after[jti].family == family
      && !after[jti].revoked && after[jti].expires == expires
      && (forall j :: j in tokens ==> after[j] == tokens[j])
      && (next !in after ==>
            RefreshResult(after, Genuine(jti, account.value), now, next, later).1 ==
            if now < expires then Ok(next) else Err(RefreshTokenExpired))
  {
  }

  // Each answer of a refresh, the token it takes, and all it changes: nothing for an invalid token;
  // every row of the family for a revoked one; the token itself for one that has run out, from the
  // second of its expiry on; and for a live one also the successor, live, of the same user and
  // family. A successor id that is taken changes nothing.
  lemma RefreshAnswers(tokens: Tokens, v: Validation, now: int, jti: Jti, expires: int)
    ensures var (after, answer) := RefreshResult(tokens, v, now, jti, expires);
      if v.OutOfDate? then answer == Err(RefreshTokenExpired) && after == tokens
      else if v.Forged? || v.jti !in tokens || tokens[v.jti].user != v.user then
        answer == Err(InvalidRefreshToken) && after == tokens
      else if tokens[v.jti].revoked then
        answer == Err(RefreshTokenReuse) && after.Keys == tokens.Keys &&
        forall j :: j in tokens ==>
          after[j] == if tokens[j].family == tokens[v.jti].family then tokens[j].(revoked := true) else tokens[j]
      else if tokens[v.jti].expires <= now then
        answer == Err(RefreshTokenExpired) && after == tokens[v.jti := tokens[v.jti].(revoked := true)]
      else if jti in tokens then
        answer == Err(Trouble) && after == tokens
      else
        answer == Ok(jti) && after.Keys == tokens.Keys + {jti} &&
        after[jti].user == v.user && after[jti].family == tokens[v.jti].family &&
        !after[jti].revoked && after[jti].expires == expires &&
        forall j :: j in tokens ==> after[j] == if j == v.jti then tokens[j].(revoked := true) else tokens[j]
  {
  }

  // A logout revokes the presented token of its own user and touches no other row.
  lemma LogoutRevokesOne(tokens: Tokens, v: Validation)
    ensures LogoutResult(tokens, v).Keys == tokens.Keys
    ensures forall j :: j in tokens ==>
      LogoutResult(tokens, v)[j] ==
      if v.Genuine? && j == v.jti && tokens[j].user == v.user then tokens[j].(revoked := true) else tokens[j]
  {
  }

  // A logout from everywhere revokes the tokens of its user and touches no other row.
  lemma LogoutAllRevokesUser(tokens: Tokens, user: Uuid)
    ensures LogoutAllResult(tokens, user).Keys == tokens.Keys
    ensures forall j :: j in tokens ==>
      LogoutAllResult(tokens, user)[j] ==
      if tokens[j].user == user then tokens[j].(revoked := true) else tokens[j]
  {
  }

  // ------------------------------------------------------------------ the service

  class AuthService {
    // Committed rows, and the rows the open unit of work sees.
    var tokens: Tokens
    var work: Tokens
    // Which of the coming statements the database fails; what is beyond the list succeeds.
    var faults: seq<bool>

    constructor (faults: seq<bool>)
      ensures tokens == map[] && this.faults == faults
    {
      tokens, work := map[], map[];
      this.faults := faults;
    }

    method Statement() returns (ok: bool)
      modifies this`faults
      ensures old(faults) == [] ==> ok && faults == []
    {
      if faults == [] {
        return true;
      }
      ok := !faults[0];
      faults := faults[1..];
    }

    method NewTX() returns (ok: bool)
      modifies this`faults, this`work
      ensures ok ==> work == tokens
      ensures old(faults) == [] ==> ok && faults == []
    {
      work := tokens;
      ok := Statement();
    }

    // A commit may fail and undo everything, or take effect although its reply is an error.
    method Commit() returns (ok: bool)
      modifies this`faults, this`tokens
      ensures ok ==> tokens == old(work)
      ensures !ok ==> tokens == old(tokens) || tokens == old(work)
      ensures old(faults) == [] ==> ok && faults == []
    {
      ok := Statement();
      if ok {
        tokens := work;
        ok := Statement();
      }
    }

    method GetRefreshToken(jti: Jti) returns (ok: bool, session: Option<Token>)
      modifies this`faults
      ensures session == if jti in work then Some(work[jti]) else None
      ensures old(faults) == [] ==> ok && faults == []
    {
      session := if jti in work then Some(work[jti]) else None;
      ok := Statement();
    }

    // Revokes the token if it is live; the answer counts the rows.
    method RevokeRefreshToken(jti: Jti) returns (ok: bool, rows: nat)
      modifies this`faults, this`work
      ensures ok ==> rows == (if Live(old(work), jti) then 1 else 0)
      ensures ok ==> work == (if rows == 1 then RevokeRows(old(work), {jti}) else old(work))
      ensures old(faults) == [] ==> ok && faults == []
    {
      ok := Statement();
      if jti in work && !work[jti].revoked {
        work := RevokeRows(work, {jti});
        rows := 1;
      } else {
        rows := 0;
      }
    }

    // Revokes every live token in scope; the answer counts the rows.
    method RevokeWhere(scope: Scope) returns (ok: bool, rows: nat)
      modifies this`faults, this`work
      ensures ok && scope.OfFamily? ==>
        rows == |set j | j in old(work) && !old(work)[j].revoked && old(work)[j].family == scope.family|
      ensures ok && scope.OfUser? ==>
        rows == |set j | j in old(work) && !old(work)[j].revoked && old(work)[j].user == scope.user|
      ensures ok ==> work.Keys == old(work).Keys
      ensures ok && scope.OfFamily? ==> forall j :: j in work ==>
        work[j] == if old(work)[j].family == scope.family then old(work)[j].(revoked := true) else old(work)[j]
      ensures ok && scope.OfUser? ==> forall j :: j in work ==>
        work[j] == if old(work)[j].user == scope.user then old(work)[j].(revoked := true) else old(work)[j]
      ensures old(faults) == [] ==> ok && faults == []
    {
      ok := Statement();
      rows := |Selected(work, scope)|;
      assert scope.OfFamily? ==>
        Selected(work, scope) == set j | j in work && !work[j].revoked && work[j].family == scope.family;
      assert scope.OfUser? ==>
        Selected(work, scope) == set j | j in work && !work[j].revoked && work[j].user == scope.user;
      work := RevokeRows(work, Selected(work, scope));
    }

    method SaveRefreshToken(jti: Jti, t: Token) returns (ok: bool)
      modifies this`faults, this`work
      ensures ok ==> jti !in old(work) && work == old(work)[jti := t]
      ensures old(faults) == [] ==> ok == (jti !in old(work)) && faults == []
    {
      ok := Statement();
      if jti in work {
        return false;
      }
      work := work[jti := t];
    }

    // The call had the stated effect, or the database failed it: then nothing changed, or the
    // commit took effect and only its reply was lost.
    twostate predicate Effect(after: Tokens, answered: bool)
      reads this
    {
      if answered then tokens == after else tokens == old(tokens) || tokens == after
    }

    method Login(account: Option<Uuid>, family: Uuid, jti: Jti, expires: int)
      returns (r: Result<Jti, AuthError>)
      modifies this
      ensures var (after, answer) := LoginResult(old(tokens), account, family, jti, expires);
        (r == answer || r == Err(Trouble)) && Effect(after, r != Err(Trouble))
        && (old(faults) == [] ==> r == answer && tokens == after)
      ensures r.Ok? ==>
        && r.value == jti && jti !in old(tokens) && tokens.Keys == old(tokens).Keys + {jti}
        && account.Some? && tokens[jti].user == account.value && tokens[jti].family == family
        && !tokens[jti].revoked && tokens[jti].expires == expires
        && forall j :: j in old(tokens) ==> tokens[j] == old(tokens)[j]
    {
      if account.None? {
        return Err(InvalidCredentials);
      }
      var ok := NewTX();
      if !ok {
        return Err(Trouble);
      }
      ok := SaveRefreshToken(jti, Token(account.value, family, false, expires));
      if !ok {
        return Err(Trouble);
      }
      ok := Commit();
      return if ok then Ok(jti) else Err(Trouble);
    }

    method Refresh(v: Validation, now: int, jti: Jti, expires: int) returns (r: Result<Jti, AuthError>)
      modifies this
      ensures var (after, answer) := RefreshResult(old(tokens), v, now, jti, expires);
        (r == answer || r == Err(Trouble)) && Effect(after, r != Err(Trouble))
        && (old(faults) == [] ==> r == answer && tokens == after)
    {
      if v.OutOfDate? {
        return Err(RefreshTokenExpired);
      }
      if v.Forged? {
        return Err(InvalidRefreshToken);
      }
      var ok := NewTX();
      if !ok {
        return Err(Trouble);
      }
      var session;
      ok, session := GetRefreshToken(v.jti);
      if !ok {
        return Err(Trouble);
      }
      if session.None? || session.value.user != v.user {
        return Err(InvalidRefreshToken);
      }
      if session.value.revoked {
        r := RevokeFamilyAfterReuse(session.value.family);
        return;
      }
      var rows;
      if now >= session.value.expires {
        ok, rows := RevokeRefreshToken(v.jti);
        if ok {
          ok := Commit();
        }
        return Err(if ok then RefreshTokenExpired else Trouble);
      }
      ok, rows := RevokeRefreshToken(v.jti);
      if !ok {
        return Err(Trouble);
      }
      if rows == 0 {
        // Only a transaction running beside this one can have revoked the token since it was
        // read; module Rotation takes that branch.
        assert false;
      }
      // The account of the token exists, by the foreign key, so reading it can only fail.
      ok := Statement();
      if !ok {
        return Err(Trouble);
      }
      ok := SaveRefreshToken(jti, Token(session.value.user, session.value.family, false, expires));
      if !ok {
        return Err(Trouble);
      }
      ok := Commit();
      return if ok then Ok(jti) else Err(Trouble);
    }

    method RevokeFamilyAfterReuse(family: Uuid) returns (r: Result<Jti, AuthError>)
      modifies this
      ensures r == Err(RefreshTokenReuse) || r == Err(Trouble)
      ensures old(faults) == [] ==> r == Err(RefreshTokenReuse)
      ensures
        || (r == Err(Trouble) && tokens == old(tokens))
        || (tokens.Keys == old(work).Keys &&
            forall j :: j in tokens ==>
              tokens[j] == if old(work)[j].family == family then old(work)[j].(revoked := true) else old(work)[j])
    {
      var ok, _ := RevokeWhere(OfFamily(family));
      if !ok {
        return Err(Trouble);
      }
      ok := Commit();
      return Err(if ok then RefreshTokenReuse else Trouble);
    }

    // True for the answer nil, false for an error.
    method Logout(v: Validation) returns (done: bool)
      modifies this
      ensures Effect(LogoutResult(old(tokens), v), done) && (old(faults) == [] ==> done)
    {
      if !v.Genuine? {
        return true;
      }
      var ok := NewTX();
      if !ok {
        return false;
      }
      var session;
      ok, session := GetRefreshToken(v.jti);
      if !ok {
        return false;
      }
      if session.None? || session.value.user != v.user || session.value.revoked {
        return true;
      }
      var rows;
      ok, rows := RevokeRefreshToken(v.jti);
      if !ok {
        return false;
      }
      if rows == 0 {
        return true;
      }
      done := Commit();
    }

    method LogoutAll(user: Uuid) returns (done: bool)
      modifies this
      ensures Effect(LogoutAllResult(old(tokens), user), done) && (old(faults) == [] ==> done)
      ensures tokens.Keys == old(tokens).Keys
      ensures done ==> forall j :: j in tokens ==>
        tokens[j] == if old(tokens)[j].user == user then old(tokens)[j].(revoked := true) else old(tokens)[j]
      ensures !done ==> forall j :: j in tokens && old(tokens)[j].user != user ==> tokens[j] == old(tokens)[j]
    {
      var ok := NewTX();
      if !ok {
        return false;
      }
      var rows;
      ok, rows := RevokeWhere(OfUser(user));
      if !ok {
        return false;
      }
      // No row to revoke reads as an unknown user, which this call does not mind.
      done := Commit();
    }
  }

  // ------------------------------------------------------------------ death is permanent

  datatype Op =
    | DoLogin(account: Option<Uuid>, family: Uuid, jti: Jti, expires: int)
    | DoRefresh(v: Validation, now: int, jti: Jti, expires: int)
    | DoLogout(v: Validation)
    | DoLogoutAll(user: Uuid)

  function After(tokens: Tokens, op: Op): Tokens {
    match op
    case DoLogin(account, family, jti, expires) => LoginResult(tokens, account, family, jti, expires).0
    case DoRefresh(v, now, jti, expires) => RefreshResult(tokens, v, now, jti, expires).0
    case DoLogout(v) => LogoutResult(tokens, v)
    case DoLogoutAll(user) => LogoutAllResult(tokens, user)
  }

  // A call, and whether its unit of work took effect.
  datatype Turn = Turn(op: Op, effective: bool)

  // Calls one after the other; a login's family id is one that was never used.
  function Play(tokens: Tokens, turns: seq<Turn>): Tokens {
    if turns == [] then tokens
    else
      var before := Play(tokens, turns[..|turns| - 1]);
      var turn := turns[|turns| - 1];
      if !turn.effective || (turn.op.DoLogin? && FamilyUsed(before, turn.op.family)) then before
      else After(before, turn.op)
  }

  // A refresh answers reuse exactly for a genuine, known and revoked token, and then the whole
  // family is dead.
  lemma ReuseKillsFamily(tokens: Tokens, v: Validation, now: int, jti: Jti, expires: int)
    ensures RefreshResult(tokens, v, now, jti, expires).1 == Err(RefreshTokenReuse) <==>
      v.Genuine? && v.jti in tokens && tokens[v.jti].user == v.user && tokens[v.jti].revoked
    ensures RefreshResult(tokens, v, now, jti, expires).1 == Err(RefreshTokenReuse) ==>
      Dead(RefreshResult(tokens, v, now, jti, expires).0, tokens[v.jti].family)
  {
    if v.Genuine? && v.jti in tokens && tokens[v.jti].user == v.user && tokens[v.jti].revoked {
      var after := RefreshResult(tokens, v, now, jti, expires).0;
      assert v.jti in after && after[v.jti].family == tokens[v.jti].family;
    }
  }

  // A dead family never yields a token pair again, whichever of its tokens is presented.
  lemma DeadRefused(tokens: Tokens, v: Validation, now: int, jti: Jti, expires: int)
    requires v.Genuine? && v.jti in tokens && Dead(tokens, tokens[v.jti].family)
    ensures RefreshResult(tokens, v, now, jti, expires).1 ==
      Err(if tokens[v.jti].user == v.user then RefreshTokenReuse else InvalidRefreshToken)
    ensures RefreshResult(tokens, v, now, jti, expires).0 == tokens
  {
    assert Selected(tokens, OfFamily(tokens[v.jti].family)) == {};
    assert RevokeRows(tokens, {}) == tokens;
  }

  // One call brings no dead family back to life.
  lemma CallKeepsDead(tokens: Tokens, op: Op, f: Uuid)
    requires Dead(tokens, f) && (op.DoLogin? ==> op.family != f)
    ensures Dead(After(tokens, op), f)
  {
    var after := After(tokens, op);
    var j :| j in tokens && tokens[j].family == f;
    assert j in after && after[j].family == f;
  }

  // No later run of calls makes a dead family live again.
  lemma {:induction false} DeadForever(tokens: Tokens, turns: seq<Turn>, f: Uuid)
    requires Dead(tokens, f)
    ensures Dead(Play(tokens, turns), f)
  {
    if turns != [] {
      var front, turn := turns[..|turns| - 1], turns[|turns| - 1];
      DeadForever(tokens, front, f);
      if turn.effective && !(turn.op.DoLogin? && FamilyUsed(Play(tokens, front), turn.op.family)) {
        CallKeepsDead(Play(tokens, front), turn.op, f);
      }
    }
  }

  predicate OneUser(tokens: Tokens) {
    forall j, k :: j in tokens && k in tokens && tokens[j].family == tokens[k].family ==>
      tokens[j].user == tokens[k].user
  }

  lemma CallKeepsOneUser(tokens: Tokens, op: Op)
    requires OneUser(tokens) && (op.DoLogin? ==> !FamilyUsed(tokens, op.family))
    ensures OneUser(After(tokens, op))
  {
    var after := After(tokens, op);
    forall j, k | j in after && k in after && after[j].family == after[k].family
      ensures after[j].user == after[k].user
    {
      assert j in tokens ==> (j in after && after[j].user == tokens[j].user && after[j].family == tokens[j].family);
      assert k in tokens ==> (k in after && after[k].user == tokens[k].user && after[k].family == tokens[k].family);
    }
  }

  lemma {:induction false} PlayKeepsOneUser(turns: seq<Turn>)
    ensures OneUser(Play(map[], turns))
  {
    if turns != [] {
      var front, turn := turns[..|turns| - 1], turns[|turns| - 1];
      PlayKeepsOneUser(front);
      var before := Play(map[], front);
      if turn.effective && !(turn.op.DoLogin? && FamilyUsed(before, turn.op.family)) {
        CallKeepsOneUser(before, turn.op);
      }
    }
  }

  // After any run of calls, a logout from everywhere leaves every token of the user revoked, and
  // every family the user had by then is dead through every later run.
  lemma LogoutAllForever(turns: seq<Turn>, user: Uuid, later: seq<Turn>, j: Jti)
    requires j in Play(map[], turns) && Play(map[], turns)[j].user == user
    ensures UserSilent(LogoutAllResult(Play(map[], turns), user), user)
    ensures Dead(Play(LogoutAllResult(Play(map[], turns), user), later), Play(map[], turns)[j].family)
  {
    var tokens := Play(map[], turns);
    var after := LogoutAllResult(tokens, user);
    PlayKeepsOneUser(turns);
    assert j in after && after[j].family == tokens[j].family;
    assert Dead(after, tokens[j].family);
    DeadForever(after, later, tokens[j].family);
  }
}
