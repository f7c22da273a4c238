/** Refresh-token rotation under interleaving: every auth call is one SQL transaction, and the
    statements of any number of them mix in any order. */
module Rotation {
  import opened Wrappers
  import opened Fingerprint

  type CallId = nat
  type Jti = string

  datatype Token = Token(user: Uuid, family: Uuid, revoked: bool, expires: int)

  datatype Outcome = LoggedIn | Rotated(from: Jti, next: Jti) | Reuse | Expired | Invalid | LoggedOut | Failed

  // What a bulk revocation selects, and what the answer is once it has committed.
  datatype Scope = OfFamily(family: Uuid) | OfUser(user: Uuid)

  // Why a token is being consumed.
  datatype Purpose = ForRotation | ForExpiry | ForLogout

  // The statement an open transaction sends next.
  datatype Pc =
    | Saving(jti: Jti, token: Token)
    | Looking(jti: Jti, user: Uuid, logout: bool)
    | Consuming(jti: Jti, seen: Token, purpose: Purpose)
    | Replacing(spent: Jti, seen: Token)
    | StartingSweep(scope: Scope)
    | Sweeping(targets: set<Jti>, scope: Scope)
    | Committing(outcome: Outcome)

  datatype Insertion = Insertion(jti: Jti, token: Token, from: Option<Jti>)

  // Uncommitted changes: rows set to revoked, and therefore locked, and one inserted row.
  datatype Txn = Txn(pc: Pc, revokes: set<Jti>, insert: Option<Insertion>)

  datatype Phase = Running(txn: Txn) | Done(outcome: Outcome)

  datatype Exchange = Exchange(from: Jti, next: Jti, caller: CallId)

  // Committed tokens, calls, and as history: each family's tokens in order of creation, and the
  // committed exchanges of a token for its successor.
  datatype State = State(
    tokens: map<Jti, Token>, calls: map<CallId, Phase>,
    chains: map<Uuid, seq<Jti>>, exchanges: seq<Exchange>)

  datatype Move =
    | Login(c: CallId, user: Uuid, family: Uuid, jti: Jti, expires: int)
    | Refresh(c: CallId, jti: Jti, user: Uuid)
    | Logout(c: CallId, jti: Jti, user: Uuid)
    | LogoutAll(c: CallId, user: Uuid)
    | Go(c: CallId, now: int, jti: Jti, expires: int)
    | Abort(c: CallId)
    | LoseReply(c: CallId)

  const INIT := State(map[], map[], map[], [])

  // ------------------------------------------------------------------ rows and locks

  predicate IsOpen(s: State, c: CallId) {
    c in s.calls && s.calls[c].Running?
  }

  predicate RowFree(s: State, c: CallId, j: Jti) {
    forall d :: d in s.calls && d != c && s.calls[d].Running? ==> j !in s.calls[d].txn.revokes
  }

  predicate Inserts(txn: Txn, j: Jti) {
    txn.insert.Some? && txn.insert.value.jti == j
  }

  predicate JtiFree(s: State, c: CallId, j: Jti) {
    forall d :: d in s.calls && d != c && s.calls[d].Running? ==> !Inserts(s.calls[d].txn, j)
  }

  // The family a login is about to create.
  function NewFamily(txn: Txn): Option<Uuid> {
    if txn.pc.Saving? then Some(txn.pc.token.family)
    else if txn.insert.Some? && txn.insert.value.from.None? then Some(txn.insert.value.token.family)
    else None
  }

  // Family ids are random: a login's family was never used, committed or not.
  predicate FamilyUnused(s: State, family: Uuid) {
    && family !in s.chains
    && forall d :: d in s.calls && s.calls[d].Running? ==> NewFamily(s.calls[d].txn) != Some(family)
  }

  predicate Live(tokens: map<Jti, Token>, j: Jti) {
    j in tokens && !tokens[j].revoked
  }

  predicate InScope(t: Token, scope: Scope) {
    match scope
    case OfFamily(f) => t.family == f
    case OfUser(u) => t.user == u
  }

  predicate FamilyUsed(tokens: map<Jti, Token>, f: Uuid) {
    exists j :: j in tokens && tokens[j].family == f
  }

  // Every token of the family is revoked, and there is one.
  predicate Dead(tokens: map<Jti, Token>, f: Uuid) {
    FamilyUsed(tokens, f) && forall j :: j in tokens && tokens[j].family == f ==> tokens[j].revoked
  }

  // Every token of the user is revoked.
  predicate UserSilent(tokens: map<Jti, Token>, user: Uuid) {
    forall j :: j in tokens && tokens[j].user == user ==> tokens[j].revoked
  }

  // The rows a bulk revocation finds when it starts.
  function Selected(tokens: map<Jti, Token>, scope: Scope): set<Jti> {
    set j | j in tokens && InScope(tokens[j], scope) && !tokens[j].revoked
  }

  function RevokeRows(tokens: map<Jti, Token>, rows: set<Jti>): map<Jti, Token> {
    map j | j in tokens :: if j in rows then tokens[j].(revoked := true) else tokens[j]
  }

  // ------------------------------------------------------------------ moves

  function At(s: State, c: CallId, txn: Txn): State {
    s.(calls := s.calls[c := Running(txn)])
  }

  function End(s: State, c: CallId, o: Outcome): State {
    s.(calls := s.calls[c := Done(o)])
  }

  // GetRefreshToken and the decisions made on the session it finds.
  function LookStep(s: State, c: CallId, txn: Txn, now: int): State
    requires txn.pc.Looking?
  {
    var j, missing := txn.pc.jti, if txn.pc.logout then LoggedOut else Invalid;
    if j !in s.tokens || s.tokens[j].user != txn.pc.user then End(s, c, missing)
    else
      var session := s.tokens[j];
      if txn.pc.logout then
        if session.revoked then End(s, c, LoggedOut)
        else At(s, c, txn.(pc := Consuming(j, session, ForLogout)))
      else if session.revoked then At(s, c, txn.(pc := StartingSweep(OfFamily(session.family))))
      else At(s, c, txn.(pc := Consuming(j, session, if now >= session.expires then ForExpiry else ForRotation)))
  }

  // RevokeRefreshToken: only a live token is revoked, and what it means that there was none.
  function ConsumeStep(s: State, c: CallId, txn: Txn): Option<State>
    requires txn.pc.Consuming?
  {
    var j := txn.pc.jti;
    if !Live(s.tokens, j) then
      Some(match txn.pc.purpose
        case ForRotation => At(s, c, txn.(pc := StartingSweep(OfFamily(txn.pc.seen.family))))
        case ForExpiry => At(s, c, txn.(pc := Committing(Expired)))
        case ForLogout => End(s, c, LoggedOut))
    else if !RowFree(s, c, j) then None
    else
      var pc := match txn.pc.purpose
        case ForRotation => Replacing(j, txn.pc.seen)
        case ForExpiry => Committing(Expired)
        case ForLogout => Committing(LoggedOut);
      Some(At(s, c, Txn(pc, txn.revokes + {j}, txn.insert)))
  }

  // SaveRefreshToken under the primary key.
  function InsertStep(s: State, c: CallId, txn: Txn, ins: Insertion, o: Outcome): Option<State> {
    if ins.jti in s.tokens then Some(End(s, c, Failed))
    else if !JtiFree(s, c, ins.jti) then None
    else Some(At(s, c, Txn(Committing(o), txn.revokes, Some(ins))))
  }

  // One row of a bulk revocation, in any order; a row revoked meanwhile is skipped.
  function SweepStep(s: State, c: CallId, txn: Txn, j: Jti): Option<State>
    requires txn.pc.Sweeping?
  {
    var rest := Sweeping(txn.pc.targets - {j}, txn.pc.scope);
    if txn.pc.targets == {} then
      Some(At(s, c, txn.(pc := Committing(if txn.pc.scope.OfFamily? then Reuse else LoggedOut))))
    else if j !in txn.pc.targets then None
    else if !Live(s.tokens, j) then Some(At(s, c, txn.(pc := rest)))
    else if !RowFree(s, c, j) then None
    else Some(At(s, c, Txn(rest, txn.revokes + {j}, txn.insert)))
  }

  function Extend(chains: map<Uuid, seq<Jti>>, f: Uuid, j: Jti): map<Uuid, seq<Jti>> {
    chains[f := (if f in chains then chains[f] else []) + [j]]
  }

  function CommitStep(s: State, c: CallId, txn: Txn): State
    requires txn.pc.Committing?
  {
    var revoked := RevokeRows(s.tokens, txn.revokes);
    var calls := s.calls[c := Done(txn.pc.outcome)];
    if txn.insert.None? then State(revoked, calls, s.chains, s.exchanges)
    else
      var ins := txn.insert.value;
      State(revoked[ins.jti := ins.token], calls, Extend(s.chains, ins.token.family, ins.jti),
        if ins.from.Some? then s.exchanges + [Exchange(ins.from.value, ins.jti, c)] else s.exchanges)
  }

  function Next(s: State, m: Move): Option<State> {
    match m
    case Login(c, user, family, jti, expires) =>
      if c in s.calls || !FamilyUnused(s, family) then None
      else Some(At(s, c, Txn(Saving(jti, Token(user, family, false, expires)), {}, None)))
    case Refresh(c, jti, user) =>
      if c in s.calls then None else Some(At(s, c, Txn(Looking(jti, user, false), {}, None)))
    case Logout(c, jti, user) =>
      if c in s.calls then None else Some(At(s, c, Txn(Looking(jti, user, true), {}, None)))
    case LogoutAll(c, user) =>
      if c in s.calls then None else Some(At(s, c, Txn(StartingSweep(OfUser(user)), {}, None)))
    case Abort(c) =>
      if !IsOpen(s, c) then None else Some(End(s, c, Failed))
    // The commit takes effect, but the caller sees an error.
    case LoseReply(c) =>
      if !IsOpen(s, c) || !s.calls[c].txn.pc.Committing? then None
      else Some(End(CommitStep(s, c, s.calls[c].txn), c, Failed))
    case Go(c, now, jti, expires) =>
      if !IsOpen(s, c) then None
      else
        var txn := s.calls[c].txn;
        match txn.pc
        case Saving(j, t) => InsertStep(s, c, txn, Insertion(j, t, None), LoggedIn)
        case Looking(_, _, _) => Some(LookStep(s, c, txn, now))
        case Consuming(_, _, _) => ConsumeStep(s, c, txn)
        case Replacing(spent, seen) =>
          var ins := Insertion(jti, Token(seen.user, seen.family, false, expires), Some(spent));
          InsertStep(s, c, txn, ins, Rotated(spent, jti))
        case StartingSweep(scope) => Some(At(s, c, txn.(pc := Sweeping(Selected(s.tokens, scope), scope))))
        case Sweeping(_, _) => SweepStep(s, c, txn, jti)
        case Committing(_) => Some(CommitStep(s, c, txn))
  }

  function Step(s: State, m: Move): State {
    match Next(s, m)
    case None => s
    case Some(s') => s'
  }

  function Exec(moves: seq<Move>): State {
    if moves == [] then INIT else Step(Exec(moves[..|moves| - 1]), moves[|moves| - 1])
  }

  // ------------------------------------------------------------------ the invariant

  // Each family's tokens form one line: distinct, of one user, and all but the last revoked.
  predicate ChainOk(tokens: map<Jti, Token>, f: Uuid, chain: seq<Jti>) {
    && chain != []
    && (forall i :: 0 <= i < |chain| ==>
          chain[i] in tokens && tokens[chain[i]].family == f)
    && (forall i, k :: 0 <= i < k < |chain| ==> tokens[chain[i]].user == tokens[chain[k]].user)
    && (forall i, k :: 0 <= i < k < |chain| ==> chain[i] != chain[k])
    && (forall i :: 0 <= i < |chain| - 1 ==> tokens[chain[i]].revoked)
  }

  predicate ChainsOk(tokens: map<Jti, Token>, chains: map<Uuid, seq<Jti>>) {
    && (forall f :: f in chains ==> ChainOk(tokens, f, chains[f]))
    && (forall j :: j in tokens ==> tokens[j].family in chains && j in chains[tokens[j].family])
  }

  // a was followed by b in its family.
  ghost predicate Follows(chains: map<Uuid, seq<Jti>>, a: Jti, b: Jti) {
    exists f, i :: LinkAt(chains, f, i, a, b)
  }

  predicate LinkAt(chains: map<Uuid, seq<Jti>>, f: Uuid, i: int, a: Jti, b: Jti) {
    f in chains && 0 <= i < |chains[f]| - 1 && chains[f][i] == a && chains[f][i + 1] == b
  }

  // Exchanged tokens are spent, and no token was exchanged or handed out twice.
  predicate SpentOnce(tokens: map<Jti, Token>, exchanges: seq<Exchange>) {
    && (forall i :: 0 <= i < |exchanges| ==>
          exchanges[i].from in tokens && tokens[exchanges[i].from].revoked && exchanges[i].next in tokens)
    && (forall i, k :: 0 <= i < k < |exchanges| ==>
          exchanges[i].from != exchanges[k].from && exchanges[i].next != exchanges[k].next)
  }

  ghost predicate ExchangesOk(s: State) {
    && SpentOnce(s.tokens, s.exchanges)
    && (forall i :: 0 <= i < |s.exchanges| ==> Follows(s.chains, s.exchanges[i].from, s.exchanges[i].next))
  }

  // A call that answered with a new token made the exchange it tells of.
  predicate AnswersOk(s: State) {
    forall c :: c in s.calls && s.calls[c].Done? && s.calls[c].outcome.Rotated? ==>
      Exchange(s.calls[c].outcome.from, s.calls[c].outcome.next, c) in s.exchanges
  }

  predicate SameSession(tokens: map<Jti, Token>, j: Jti, seen: Token) {
    j in tokens && tokens[j].family == seen.family && tokens[j].user == seen.user
  }

  predicate InsertionOk(tokens: map<Jti, Token>, chains: map<Uuid, seq<Jti>>, txn: Txn, ins: Insertion) {
    && ins.jti !in tokens && !ins.token.revoked
    && match ins.from {
      case Some(spent) =>
        txn.pc == Committing(Rotated(spent, ins.jti)) && spent in txn.revokes && SameSession(tokens, spent, ins.token)
      case None => txn.pc == Committing(LoggedIn) && txn.revokes == {}
    }
  }

  predicate TxnOk(tokens: map<Jti, Token>, chains: map<Uuid, seq<Jti>>, txn: Txn) {
    && (forall j :: j in txn.revokes ==> Live(tokens, j))
    && (NewFamily(txn).Some? ==> NewFamily(txn).value !in chains)
    && (txn.insert.Some? ==> InsertionOk(tokens, chains, txn, txn.insert.value))
    && (txn.pc == Committing(LoggedIn) || (txn.pc.Committing? && txn.pc.outcome.Rotated?) ==>
          txn.insert.Some?)
    && match txn.pc {
      case Saving(_, t) => !t.revoked && txn.revokes == {}
      case Consuming(j, seen, _) => SameSession(tokens, j, seen)
      case Replacing(spent, seen) => spent in txn.revokes && SameSession(tokens, spent, seen)
      case _ => true
    }
  }

  predicate Compatible(a: Txn, b: Txn) {
    && a.revokes !! b.revokes
    && (a.insert.Some? && b.insert.Some? ==> a.insert.value.jti != b.insert.value.jti)
    && (NewFamily(a).Some? ==> NewFamily(a) != NewFamily(b))
  }

  predicate CompatibleWithOthers(s: State, c: CallId, txn: Txn) {
    forall d :: d in s.calls && d != c && s.calls[d].Running? ==>
      Compatible(txn, s.calls[d].txn) && Compatible(s.calls[d].txn, txn)
  }

  predicate CallsOk(s: State) {
    forall c :: c in s.calls && s.calls[c].Running? ==>
      TxnOk(s.tokens, s.chains, s.calls[c].txn) && CompatibleWithOthers(s, c, s.calls[c].txn)
  }

  ghost predicate Inv(s: State) {
    ChainsOk(s.tokens, s.chains) && ExchangesOk(s) && CallsOk(s) && AnswersOk(s)
  }

  // ------------------------------------------------------------------ moves that commit nothing

  lemma AtOk(s: State, c: CallId, txn: Txn)
    requires Inv(s) && TxnOk(s.tokens, s.chains, txn) && CompatibleWithOthers(s, c, txn)
    ensures Inv(At(s, c, txn))
  {
    hide TxnOk, ChainsOk, Compatible;
  }

  lemma EndOk(s: State, c: CallId, o: Outcome)
    requires Inv(s) && !o.Rotated?
    ensures Inv(End(s, c, o))
  {
    hide TxnOk, ChainsOk, Compatible;
  }

  lemma StartOk(s: State, m: Move)
    requires Inv(s) && !m.Go? && !m.Abort? && !m.LoseReply? && m.c !in s.calls && Next(s, m).Some?
    ensures Inv(Next(s, m).value)
  {
    var txn := Next(s, m).value.calls[m.c].txn;
    assert CompatibleWithOthers(s, m.c, txn);
    AtOk(s, m.c, txn);
  }

  lemma SameHoldings(s: State, c: CallId, txn: Txn, pc: Pc)
    requires CompatibleWithOthers(s, c, txn) && !txn.pc.Saving? && !pc.Saving?
    ensures CompatibleWithOthers(s, c, txn.(pc := pc))
  {
  }

  // Moving on to a statement that holds nothing new.
  lemma PcOk(s: State, c: CallId, pc: Pc)
    requires Inv(s) && IsOpen(s, c) && !s.calls[c].txn.pc.Saving? && !pc.Saving?
    requires TxnOk(s.tokens, s.chains, s.calls[c].txn.(pc := pc))
    ensures Inv(At(s, c, s.calls[c].txn.(pc := pc)))
  {
    var txn := s.calls[c].txn;
    assert CompatibleWithOthers(s, c, txn);
    hide Inv, TxnOk, CompatibleWithOthers;
    SameHoldings(s, c, txn, pc);
    AtOk(s, c, txn.(pc := pc));
  }

  // A transaction that has inserted nothing and is not about to create a family.
  predicate Plain(tokens: map<Jti, Token>, txn: Txn) {
    && txn.insert.None?
    && (forall j :: j in txn.revokes ==> Live(tokens, j))
    && match txn.pc {
      case Saving(_, _) => false
      case Consuming(j, seen, _) => SameSession(tokens, j, seen)
      case Replacing(spent, seen) => spent in txn.revokes && SameSession(tokens, spent, seen)
      case Committing(o) => o != LoggedIn && !o.Rotated?
      case _ => true
    }
  }

  lemma PlainOk(tokens: map<Jti, Token>, chains: map<Uuid, seq<Jti>>, txn: Txn)
    requires Plain(tokens, txn)
    ensures TxnOk(tokens, chains, txn) && NewFamily(txn).None?
  {
    hide SameSession, Live;
  }

  lemma OkPlain(tokens: map<Jti, Token>, chains: map<Uuid, seq<Jti>>, txn: Txn)
    requires TxnOk(tokens, chains, txn) && !txn.pc.Saving? && !txn.pc.Committing?
    ensures Plain(tokens, txn) && NewFamily(txn).None?
  {
    hide SameSession, Live;
  }

  // Moving on to a statement that needs no more than the rows already revoked.
  lemma PlainStep(s: State, c: CallId, pc: Pc)
    requires Inv(s) && IsOpen(s, c) && !s.calls[c].txn.pc.Saving? && !s.calls[c].txn.pc.Committing?
    requires Plain(s.tokens, s.calls[c].txn) ==> Plain(s.tokens, s.calls[c].txn.(pc := pc))
    ensures Inv(At(s, c, s.calls[c].txn.(pc := pc)))
  {
    var txn := s.calls[c].txn;
    assert TxnOk(s.tokens, s.chains, txn);
    OkPlain(s.tokens, s.chains, txn);
    PlainOk(s.tokens, s.chains, txn.(pc := pc));
    assert !pc.Saving?;
    hide Inv, TxnOk, Plain;
    PcOk(s, c, pc);
  }

  // Revoking one more live row that no other transaction has updated.
  lemma RevokeStep(s: State, c: CallId, j: Jti, pc: Pc)
    requires Inv(s) && IsOpen(s, c) && !s.calls[c].txn.pc.Saving? && !s.calls[c].txn.pc.Committing?
    requires Live(s.tokens, j) && RowFree(s, c, j)
    requires var txn := s.calls[c].txn;
      Plain(s.tokens, txn) ==> Plain(s.tokens, Txn(pc, txn.revokes + {j}, txn.insert))
    ensures var txn := s.calls[c].txn; Inv(At(s, c, Txn(pc, txn.revokes + {j}, txn.insert)))
  {
    var txn := s.calls[c].txn;
    var txn' := Txn(pc, txn.revokes + {j}, txn.insert);
    assert TxnOk(s.tokens, s.chains, txn) && CompatibleWithOthers(s, c, txn);
    hide Inv, CompatibleWithOthers;
    OkPlain(s.tokens, s.chains, txn);
    PlainOk(s.tokens, s.chains, txn');
    hide TxnOk, Plain;
    LockCompatible(s, c, txn, j, pc);
    AtOk(s, c, txn');
  }

  lemma LockCompatible(s: State, c: CallId, txn: Txn, j: Jti, pc: Pc)
    requires CompatibleWithOthers(s, c, txn) && RowFree(s, c, j)
    requires NewFamily(txn).None? && NewFamily(Txn(pc, txn.revokes + {j}, txn.insert)).None?
    ensures CompatibleWithOthers(s, c, Txn(pc, txn.revokes + {j}, txn.insert))
  {
    hide NewFamily;
  }

  lemma LookOk(s: State, c: CallId, now: int)
    requires Inv(s) && IsOpen(s, c) && s.calls[c].txn.pc.Looking?
    ensures Inv(LookStep(s, c, s.calls[c].txn, now))
  {
    hide Inv;
    var s' := LookStep(s, c, s.calls[c].txn, now);
    if s'.calls[c].Running? {
      PlainStep(s, c, s'.calls[c].txn.pc);
    } else {
      EndOk(s, c, s'.calls[c].outcome);
    }
  }

  lemma ConsumeOk(s: State, c: CallId)
    requires Inv(s) && IsOpen(s, c) && s.calls[c].txn.pc.Consuming?
    requires ConsumeStep(s, c, s.calls[c].txn).Some?
    ensures Inv(ConsumeStep(s, c, s.calls[c].txn).value)
  {
    hide Inv;
    var pc := s.calls[c].txn.pc;
    var s' := ConsumeStep(s, c, s.calls[c].txn).value;
    if Live(s.tokens, pc.jti) {
      RevokeStep(s, c, pc.jti, s'.calls[c].txn.pc);
    } else if pc.purpose == ForLogout {
      EndOk(s, c, LoggedOut);
    } else {
      PlainStep(s, c, s'.calls[c].txn.pc);
    }
  }

  lemma InsertOk(s: State, c: CallId, ins: Insertion, o: Outcome)
    requires Inv(s) && IsOpen(s, c)
    requires var pc := s.calls[c].txn.pc;
      || (pc.Saving? && ins == Insertion(pc.jti, pc.token, None) && o == LoggedIn)
      || (pc.Replacing? && ins.from == Some(pc.spent) && !ins.token.revoked && o == Rotated(pc.spent, ins.jti) &&
          ins.token.user == pc.seen.user && ins.token.family == pc.seen.family)
    requires InsertStep(s, c, s.calls[c].txn, ins, o).Some?
    ensures Inv(InsertStep(s, c, s.calls[c].txn, ins, o).value)
  {
    var txn := s.calls[c].txn;
    assert TxnOk(s.tokens, s.chains, txn) && CompatibleWithOthers(s, c, txn);
    hide Inv;
    if ins.jti in s.tokens {
      EndOk(s, c, Failed);
    } else {
      var txn' := Txn(Committing(o), txn.revokes, Some(ins));
      InsertedTxnOk(s.tokens, s.chains, txn, ins, o);
      hide TxnOk;
      assert NewFamily(txn') == NewFamily(txn);
      InsertCompatible(s, c, txn, ins, txn');
      AtOk(s, c, txn');
    }
  }

  lemma InsertedTxnOk(tokens: map<Jti, Token>, chains: map<Uuid, seq<Jti>>, txn: Txn, ins: Insertion, o: Outcome)
    requires TxnOk(tokens, chains, txn) && ins.jti !in tokens
    requires var pc := txn.pc;
      || (pc.Saving? && ins == Insertion(pc.jti, pc.token, None) && o == LoggedIn)
      || (pc.Replacing? && ins.from == Some(pc.spent) && !ins.token.revoked && o == Rotated(pc.spent, ins.jti) &&
          ins.token.user == pc.seen.user && ins.token.family == pc.seen.family)
    ensures TxnOk(tokens, chains, Txn(Committing(o), txn.revokes, Some(ins)))
  {
    hide Live;
  }

  lemma InsertCompatible(s: State, c: CallId, txn: Txn, ins: Insertion, txn': Txn)
    requires CompatibleWithOthers(s, c, txn) && JtiFree(s, c, ins.jti)
    requires txn'.revokes == txn.revokes && txn'.insert == Some(ins) && NewFamily(txn') == NewFamily(txn)
    ensures CompatibleWithOthers(s, c, txn')
  {
    hide NewFamily;
  }

  lemma SweepOk(s: State, c: CallId, j: Jti)
    requires Inv(s) && IsOpen(s, c) && s.calls[c].txn.pc.Sweeping?
    requires SweepStep(s, c, s.calls[c].txn, j).Some?
    ensures Inv(SweepStep(s, c, s.calls[c].txn, j).value)
  {
    hide Inv;
    var txn := s.calls[c].txn;
    var s' := SweepStep(s, c, txn, j).value;
    if txn.pc.targets != {} && Live(s.tokens, j) {
      RevokeStep(s, c, j, s'.calls[c].txn.pc);
    } else {
      PlainStep(s, c, s'.calls[c].txn.pc);
    }
  }

  // ------------------------------------------------------------------ commits

  // Revoking rows keeps every chain a chain.
  lemma RevokeKeepsChains(tokens: map<Jti, Token>, chains: map<Uuid, seq<Jti>>, rows: set<Jti>)
    requires ChainsOk(tokens, chains)
    ensures ChainsOk(RevokeRows(tokens, rows), chains)
  {
    var tokens' := RevokeRows(tokens, rows);
    forall f | f in chains
      ensures ChainOk(tokens', f, chains[f])
    {
      assert ChainOk(tokens, f, chains[f]);
    }
  }

  // In a chain only the last token can be live.
  lemma LiveIsLast(tokens: map<Jti, Token>, chains: map<Uuid, seq<Jti>>, j: Jti)
    requires ChainsOk(tokens, chains) && Live(tokens, j)
    ensures var chain := chains[tokens[j].family]; chain != [] && chain[|chain| - 1] == j
  {
    var chain := chains[tokens[j].family];
    assert ChainOk(tokens, tokens[j].family, chain);
    var i :| 0 <= i < |chain| && chain[i] == j;
  }

  // A new token may join the end of a family whose tokens are all revoked.
  lemma ExtendKeepsChains(tokens: map<Jti, Token>, chains: map<Uuid, seq<Jti>>, j: Jti, t: Token)
    requires ChainsOk(tokens, chains) && j !in tokens
    requires t.family in chains ==>
      forall i :: 0 <= i < |chains[t.family]| ==>
        tokens[chains[t.family][i]].revoked && tokens[chains[t.family][i]].user == t.user
    ensures ChainsOk(tokens[j := t], Extend(chains, t.family, j))
  {
    var tokens', chains' := tokens[j := t], Extend(chains, t.family, j);
    forall f | f in chains'
      ensures ChainOk(tokens', f, chains'[f])
    {
      if f in chains {
        assert ChainOk(tokens, f, chains[f]);
      }
    }
    forall k | k in tokens'
      ensures tokens'[k].family in chains' && k in chains'[tokens'[k].family]
    {
      if k != j {
        assert k in chains[tokens[k].family];
      }
    }
  }

  lemma InsertedChains(s: State, txn: Txn)
    requires ChainsOk(s.tokens, s.chains) && TxnOk(s.tokens, s.chains, txn) && txn.insert.Some?
    ensures var ins := txn.insert.value;
      ChainsOk(RevokeRows(s.tokens, txn.revokes)[ins.jti := ins.token],
        Extend(s.chains, ins.token.family, ins.jti))
  {
    hide ChainsOk, ChainOk, Live, SameSession, Extend;
    var ins := txn.insert.value;
    RevokeKeepsChains(s.tokens, s.chains, txn.revokes);
    if ins.from.Some? {
      RotationEndsChain(s, txn);
    } else {
      NewFamilyUnused(s.tokens, s.chains, txn);
    }
    hide NewFamily;
    ExtendKeepsChains(RevokeRows(s.tokens, txn.revokes), s.chains, ins.jti, ins.token);
  }

  lemma NewFamilyUnused(tokens: map<Jti, Token>, chains: map<Uuid, seq<Jti>>, txn: Txn)
    requires TxnOk(tokens, chains, txn) && txn.insert.Some? && txn.insert.value.from.None?
    ensures txn.insert.value.token.family !in chains
  {
    hide Live, SameSession;
  }

  // The committed tokens and chains after a commit.
  lemma CommitChains(s: State, c: CallId)
    requires Inv(s) && IsOpen(s, c) && s.calls[c].txn.pc.Committing?
    ensures var s' := CommitStep(s, c, s.calls[c].txn); ChainsOk(s'.tokens, s'.chains)
  {
    var txn := s.calls[c].txn;
    assert TxnOk(s.tokens, s.chains, txn) && ChainsOk(s.tokens, s.chains);
    hide Inv, ChainsOk, TxnOk, RevokeRows, Extend;
    if txn.insert.Some? {
      InsertedChains(s, txn);
    } else {
      RevokeKeepsChains(s.tokens, s.chains, txn.revokes);
    }
  }

  // The token a rotation consumes is the last of its family, so all of them are revoked then.
  lemma RotationEndsChain(s: State, txn: Txn)
    requires ChainsOk(s.tokens, s.chains) && TxnOk(s.tokens, s.chains, txn)
    requires txn.insert.Some? && txn.insert.value.from.Some?
    ensures var ins := txn.insert.value;
      var chain := if ins.token.family in s.chains then s.chains[ins.token.family] else [];
      && chain != [] && chain[|chain| - 1] == ins.from.value
      && forall i :: 0 <= i < |chain| ==>
        chain[i] in s.tokens && RevokeRows(s.tokens, txn.revokes)[chain[i]].revoked &&
        s.tokens[chain[i]].user == ins.token.user
  {
    var ins := txn.insert.value;
    LiveIsLast(s.tokens, s.chains, ins.from.value);
    assert ChainOk(s.tokens, ins.token.family, s.chains[ins.token.family]);
  }

  lemma FollowsStays(chains: map<Uuid, seq<Jti>>, f: Uuid, j: Jti, a: Jti, b: Jti)
    requires Follows(chains, a, b)
    ensures Follows(Extend(chains, f, j), a, b)
  {
    var g, i :| LinkAt(chains, g, i, a, b);
    assert LinkAt(Extend(chains, f, j), g, i, a, b);
  }

  // The new token follows the consumed one.
  lemma RotationLinks(s: State, txn: Txn)
    requires ChainsOk(s.tokens, s.chains) && TxnOk(s.tokens, s.chains, txn)
    requires txn.insert.Some? && txn.insert.value.from.Some?
    ensures var ins := txn.insert.value;
      Follows(Extend(s.chains, ins.token.family, ins.jti), ins.from.value, ins.jti)
  {
    var ins := txn.insert.value;
    RotationEndsChain(s, txn);
    hide TxnOk, ChainsOk, ChainOk;
    var chain := s.chains[ins.token.family];
    assert LinkAt(Extend(s.chains, ins.token.family, ins.jti), ins.token.family, |chain| - 1, ins.from.value, ins.jti);
  }

  lemma AllFollowStay(chains: map<Uuid, seq<Jti>>, f: Uuid, j: Jti, exchanges: seq<Exchange>)
    requires forall i :: 0 <= i < |exchanges| ==> Follows(chains, exchanges[i].from, exchanges[i].next)
    ensures forall i :: 0 <= i < |exchanges| ==> Follows(Extend(chains, f, j), exchanges[i].from, exchanges[i].next)
  {
    hide Follows, Extend;
    forall i | 0 <= i < |exchanges|
      ensures Follows(Extend(chains, f, j), exchanges[i].from, exchanges[i].next)
    {
      FollowsStays(chains, f, j, exchanges[i].from, exchanges[i].next);
    }
  }

  lemma CommitFollows(s: State, c: CallId)
    requires Inv(s) && IsOpen(s, c) && s.calls[c].txn.pc.Committing?
    ensures var s' := CommitStep(s, c, s.calls[c].txn);
      forall i :: 0 <= i < |s'.exchanges| ==> Follows(s'.chains, s'.exchanges[i].from, s'.exchanges[i].next)
  {
    var txn := s.calls[c].txn;
    assert TxnOk(s.tokens, s.chains, txn);
    assert ExchangesOk(s) && ChainsOk(s.tokens, s.chains);
    hide Inv, TxnOk, ChainsOk, Follows, Extend, RevokeRows, SpentOnce;
    if txn.insert.Some? {
      AllFollowStay(s.chains, txn.insert.value.token.family, txn.insert.value.jti, s.exchanges);
      if txn.insert.value.from.Some? {
        RotationLinks(s, txn);
      }
    }
  }

  lemma CommitSpends(s: State, c: CallId, txn: Txn)
    requires SpentOnce(s.tokens, s.exchanges) && txn.pc.Committing?
    requires txn.insert.Some? ==>
      txn.insert.value.jti !in s.tokens &&
      (txn.insert.value.from.Some? ==>
         txn.insert.value.from.value in txn.revokes && Live(s.tokens, txn.insert.value.from.value))
    ensures var s' := CommitStep(s, c, txn); SpentOnce(s'.tokens, s'.exchanges)
  {
    hide Extend;
    var s' := CommitStep(s, c, txn);
    forall i | 0 <= i < |s.exchanges|
      ensures s'.exchanges[i] == s.exchanges[i]
      ensures s.exchanges[i].from in s'.tokens && s'.tokens[s.exchanges[i].from].revoked
      ensures s.exchanges[i].next in s'.tokens
    {
    }
  }

  lemma CommitExchanges(s: State, c: CallId)
    requires Inv(s) && IsOpen(s, c) && s.calls[c].txn.pc.Committing?
    ensures ExchangesOk(CommitStep(s, c, s.calls[c].txn))
  {
    CommitFollows(s, c);
    assert TxnOk(s.tokens, s.chains, s.calls[c].txn);
    CommitSpends(s, c, s.calls[c].txn);
    hide Follows, ChainsOk, CallsOk, AnswersOk, Extend, SpentOnce, CommitStep;
  }

  lemma CommitAnswers(s: State, c: CallId)
    requires Inv(s) && IsOpen(s, c) && s.calls[c].txn.pc.Committing?
    ensures AnswersOk(CommitStep(s, c, s.calls[c].txn))
  {
    var txn := s.calls[c].txn;
    assert TxnOk(s.tokens, s.chains, txn);
    hide Follows, ChainsOk, CallsOk, ExchangesOk, Extend, RevokeRows;
    var s' := CommitStep(s, c, txn);
    if txn.insert.Some? && txn.insert.value.from.Some? {
      assert s'.exchanges[|s.exchanges|] == Exchange(txn.insert.value.from.value, txn.insert.value.jti, c);
    }
  }

  // Another transaction's commit revokes rows, adds one token and touches nothing else that an
  // open transaction depends on.
  lemma CommitKeepsOther(s: State, txn: Txn, other: Txn)
    requires TxnOk(s.tokens, s.chains, txn) && TxnOk(s.tokens, s.chains, other)
    requires ChainsOk(s.tokens, s.chains)
    requires Compatible(txn, other) && Compatible(other, txn) && txn.pc.Committing?
    ensures forall c :: var s' := CommitStep(s, c, txn); TxnOk(s'.tokens, s'.chains, other)
  {
    hide ChainsOk, ChainOk, Extend;
    var revoked := RevokeRows(s.tokens, txn.revokes);
    RevokeKeepsTxn(s.tokens, s.chains, txn.revokes, other);
    if txn.insert.Some? {
      var ins := txn.insert.value;
      if ins.from.Some? {
        RotationEndsChain(s, txn);
      }
      var chains := Extend(s.chains, ins.token.family, ins.jti);
      ChainsGrow(s.chains, ins.token.family, ins.jti);
      assert chains.Keys == s.chains.Keys + {ins.token.family};
      NewFamilyApart(s, txn, other);
      hide RevokeRows;
      InsertKeepsTxn(revoked, s.chains, ins, chains, other);
    }
    hide TxnOk;
  }

  lemma ChainsGrow(chains: map<Uuid, seq<Jti>>, f: Uuid, j: Jti)
    ensures Extend(chains, f, j).Keys == chains.Keys + {f}
  {
  }

  lemma RevokeKeepsTxn(tokens: map<Jti, Token>, chains: map<Uuid, seq<Jti>>, rows: set<Jti>, txn: Txn)
    requires TxnOk(tokens, chains, txn) && rows !! txn.revokes
    ensures TxnOk(RevokeRows(tokens, rows), chains, txn)
  {
    hide NewFamily;
  }

  // A login in progress creates another family than the one that is joined or created.
  lemma NewFamilyApart(s: State, txn: Txn, other: Txn)
    requires TxnOk(s.tokens, s.chains, txn) && TxnOk(s.tokens, s.chains, other) && Compatible(txn, other)
    requires txn.insert.Some? && txn.pc.Committing?
    requires txn.insert.value.from.Some? ==> txn.insert.value.token.family in s.chains
    ensures NewFamily(other) != Some(txn.insert.value.token.family)
  {
    hide Live, SameSession, InsertionOk;
  }

  lemma InsertKeepsTxn(tokens: map<Jti, Token>, chains: map<Uuid, seq<Jti>>, ins: Insertion,
                       chains': map<Uuid, seq<Jti>>, txn: Txn)
    requires TxnOk(tokens, chains, txn) && ins.jti !in tokens && chains'.Keys == chains.Keys + {ins.token.family}
    requires NewFamily(txn) != Some(ins.token.family)
    requires txn.insert.Some? ==> txn.insert.value.jti != ins.jti
    ensures TxnOk(tokens[ins.jti := ins.token], chains', txn)
  {
    hide NewFamily;
  }

  lemma CommitKeepsCalls(s: State, c: CallId)
    requires CallsOk(s) && ChainsOk(s.tokens, s.chains) && IsOpen(s, c) && s.calls[c].txn.pc.Committing?
    ensures CallsOk(CommitStep(s, c, s.calls[c].txn))
  {
    hide TxnOk, ChainsOk, Compatible, RevokeRows, Extend;
    var txn := s.calls[c].txn;
    var s' := CommitStep(s, c, txn);
    forall d | d in s'.calls && s'.calls[d].Running?
      ensures TxnOk(s'.tokens, s'.chains, s'.calls[d].txn) && CompatibleWithOthers(s', d, s'.calls[d].txn)
    {
      assert d != c && s'.calls[d] == s.calls[d];
      assert CompatibleWithOthers(s, d, s.calls[d].txn);
      CommitKeepsOther(s, txn, s.calls[d].txn);
    }
  }

  lemma CommitOk(s: State, c: CallId)
    requires Inv(s) && IsOpen(s, c) && s.calls[c].txn.pc.Committing?
    ensures Inv(CommitStep(s, c, s.calls[c].txn))
  {
    CommitChains(s, c);
    CommitExchanges(s, c);
    CommitAnswers(s, c);
    CommitKeepsCalls(s, c);
    hide CommitStep, ChainsOk, ExchangesOk, CallsOk, AnswersOk;
  }

  // ------------------------------------------------------------------ every run

  lemma GoOk(s: State, m: Move)
    requires Inv(s) && m.Go? && Next(s, m).Some?
    ensures Inv(Next(s, m).value)
  {
    hide Inv, LookStep, ConsumeStep, InsertStep, SweepStep, CommitStep;
    var txn := s.calls[m.c].txn;
    match txn.pc
    case Saving(j, t) => InsertOk(s, m.c, Insertion(j, t, None), LoggedIn);
    case Looking(_, _, _) => LookOk(s, m.c, m.now);
    case Consuming(_, _, _) => ConsumeOk(s, m.c);
    case Replacing(spent, seen) =>
      var ins := Insertion(m.jti, Token(seen.user, seen.family, false, m.expires), Some(spent));
      InsertOk(s, m.c, ins, Rotated(spent, m.jti));
    case StartingSweep(scope) => StartSweepOk(s, m.c, scope);
    case Sweeping(_, _) => SweepOk(s, m.c, m.jti);
    case Committing(_) => CommitOk(s, m.c);
  }

  lemma StartSweepOk(s: State, c: CallId, scope: Scope)
    requires Inv(s) && IsOpen(s, c) && s.calls[c].txn.pc == StartingSweep(scope)
    ensures Inv(At(s, c, s.calls[c].txn.(pc := Sweeping(Selected(s.tokens, scope), scope))))
  {
    PlainStep(s, c, Sweeping(Selected(s.tokens, scope), scope));
  }

  lemma {:induction false} RunInvariant(moves: seq<Move>)
    ensures Inv(Exec(moves))
  {
    if moves != [] {
      var front, m := moves[..|moves| - 1], moves[|moves| - 1];
      RunInvariant(front);
      var s := Exec(front);
      hide Inv;
      if Next(s, m).Some? {
        if m.Go? {
          GoOk(s, m);
        } else if m.Abort? {
          EndOk(s, m.c, Failed);
        } else if m.LoseReply? {
          CommitOk(s, m.c);
          EndOk(CommitStep(s, m.c, s.calls[m.c].txn), m.c, Failed);
        } else {
          StartOk(s, m);
        }
      }
    }
  }

  // ------------------------------------------------------------------ every link is an exchange

  ghost predicate ExchangedFor(exchanges: seq<Exchange>, a: Jti, b: Jti) {
    exists k :: 0 <= k < |exchanges| && exchanges[k].from == a && exchanges[k].next == b
  }

  ghost predicate LinksExchanged(s: State) {
    forall f, i :: f in s.chains && 0 <= i < |s.chains[f]| - 1 ==>
      ExchangedFor(s.exchanges, s.chains[f][i], s.chains[f][i + 1])
  }

  predicate EndsWith(chain: seq<Jti>, j: Jti) {
    chain != [] && chain[|chain| - 1] == j
  }

  // One more token in a family, after an exchange of the family's last one unless it is the first.
  lemma LinkAdded(s: State, ins: Insertion, exchanges: seq<Exchange>, s': State)
    requires LinksExchanged(s) && s.exchanges <= exchanges
    requires ins.token.family in s.chains ==>
      ins.from.Some? && EndsWith(s.chains[ins.token.family], ins.from.value) &&
      ExchangedFor(exchanges, ins.from.value, ins.jti)
    requires s'.chains == Extend(s.chains, ins.token.family, ins.jti) && s'.exchanges == exchanges
    ensures LinksExchanged(s')
  {
    hide ExchangedFor;
    forall f, i | f in s'.chains && 0 <= i < |s'.chains[f]| - 1
      ensures ExchangedFor(s'.exchanges, s'.chains[f][i], s'.chains[f][i + 1])
    {
      if f in s.chains && i < |s.chains[f]| - 1 {
        ExchangeStays(s.exchanges, s'.exchanges, s'.chains[f][i], s'.chains[f][i + 1]);
      }
    }
  }

  lemma CommitLinks(s: State, c: CallId)
    requires Inv(s) && LinksExchanged(s) && IsOpen(s, c) && s.calls[c].txn.pc.Committing?
    ensures LinksExchanged(CommitStep(s, c, s.calls[c].txn))
  {
    var txn := s.calls[c].txn;
    assert TxnOk(s.tokens, s.chains, txn) && ChainsOk(s.tokens, s.chains);
    var s' := CommitStep(s, c, txn);
    hide Inv, ChainsOk, TxnOk, RevokeRows, Extend, LinksExchanged;
    if txn.insert.Some? {
      var ins := txn.insert.value;
      if ins.from.Some? {
        RotationEndsChain(s, txn);
        assert s'.exchanges[|s.exchanges|] == Exchange(ins.from.value, ins.jti, c);
        assert ExchangedFor(s'.exchanges, ins.from.value, ins.jti);
      } else {
        NewFamilyUnused(s.tokens, s.chains, txn);
      }
      LinkAdded(s, ins, s'.exchanges, s');
    } else {
      SameLinks(s, s');
    }
  }

  lemma SameLinks(s: State, s': State)
    requires LinksExchanged(s) && s'.chains == s.chains && s'.exchanges == s.exchanges
    ensures LinksExchanged(s')
  {
  }

  lemma ExchangeStays(before: seq<Exchange>, after: seq<Exchange>, a: Jti, b: Jti)
    requires ExchangedFor(before, a, b) && before <= after
    ensures ExchangedFor(after, a, b)
  {
    var k :| 0 <= k < |before| && before[k].from == a && before[k].next == b;
    assert after[k] == before[k];
  }

  predicate Commits(s: State, m: Move) {
    (m.Go? || m.LoseReply?) && IsOpen(s, m.c) && s.calls[m.c].txn.pc.Committing?
  }

  lemma QuietMove(s: State, m: Move)
    requires !Commits(s, m)
    ensures Step(s, m).tokens == s.tokens
    ensures Step(s, m).chains == s.chains && Step(s, m).exchanges == s.exchanges
  {
    hide RowFree, JtiFree, FamilyUnused, Live, Selected, CommitStep;
  }

  lemma {:induction false} RunLinks(moves: seq<Move>)
    ensures LinksExchanged(Exec(moves))
  {
    if moves != [] {
      var front, m := moves[..|moves| - 1], moves[|moves| - 1];
      RunLinks(front);
      RunInvariant(front);
      hide Inv;
      if Commits(Exec(front), m) {
        hide CommitStep;
        CommitLinks(Exec(front), m.c);
      } else {
        QuietMove(Exec(front), m);
      }
    }
  }

  // In every reachable committed state a family has at most one unrevoked token.
  lemma OneLiveTokenPerFamily(moves: seq<Move>, j: Jti, k: Jti)
    requires var s := Exec(moves);
      Live(s.tokens, j) && Live(s.tokens, k) && s.tokens[j].family == s.tokens[k].family
    ensures j == k
  {
    RunInvariant(moves);
    var s := Exec(moves);
    LiveIsLast(s.tokens, s.chains, j);
    LiveIsLast(s.tokens, s.chains, k);
  }

  // The tokens of a family are one line of distinct tokens of one user, all but the last revoked,
  // and each was exchanged for the next.
  lemma FamilyIsOneLine(moves: seq<Move>, f: Uuid)
    requires f in Exec(moves).chains
    ensures var s := Exec(moves);
      ChainOk(s.tokens, f, s.chains[f]) &&
      (forall j :: j in s.chains[f] <==> j in s.tokens && s.tokens[j].family == f) &&
      forall i :: 0 <= i < |s.chains[f]| - 1 ==> ExchangedFor(s.exchanges, s.chains[f][i], s.chains[f][i + 1])
  {
    RunInvariant(moves);
    RunLinks(moves);
  }

  // No token is ever exchanged for two successors, and every exchange follows the line.
  lemma ExchangedOnce(moves: seq<Move>, i: int, k: int)
    requires var s := Exec(moves); 0 <= i < |s.exchanges| && 0 <= k < |s.exchanges|
    ensures var s := Exec(moves);
      && (s.exchanges[i].from == s.exchanges[k].from ==> i == k)
      && (s.exchanges[i].next == s.exchanges[k].next ==> i == k)
      && Follows(s.chains, s.exchanges[i].from, s.exchanges[i].next)
  {
    RunInvariant(moves);
  }

  // Racing refreshes of one token: only one of them can answer with a successor.
  lemma OneRefreshWins(moves: seq<Move>, c: CallId, d: CallId)
    requires var s := Exec(moves);
      c in s.calls && d in s.calls && s.calls[c].Done? && s.calls[d].Done? &&
      s.calls[c].outcome.Rotated? && s.calls[d].outcome.Rotated? &&
      s.calls[c].outcome.from == s.calls[d].outcome.from
    ensures c == d
  {
    RunInvariant(moves);
  }
}
