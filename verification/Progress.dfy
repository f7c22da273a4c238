/** Every call comes to an end: its moves are bounded, and while one is unanswered some move is
    possible, as long as the accounts opened meanwhile do no harm. */
module Progress {
  import opened Wrappers
  import opened Fingerprint
  import opened Ledger
  import Reconciliation
  import opened TransferMachine
  import opened TransferInvariant
  import opened TransferTheorems
  import opened Deadlock

  const ATTEMPT_WORK: nat := 15
  const CALL_WORK: nat := 45

  // How much is left of an attempt.
  function PcWork(pc: Pc): nat {
    match pc
    case Locking(todo) => 10 + |todo|
    case Reserving => 9
    case Reading => 8
    case Limiting => 8
    case Debiting => 7
    case Crediting => 6
    case Inserting => 5
    case Marking(_) => 4
    case Completing(_) => 3
    case Committing(_) => 2
  }

  // How many moves a call can still make at most.
  function Work(call: Call): nat {
    var attempts := if call.attempt < MAX_ATTEMPTS then (MAX_ATTEMPTS - call.attempt) * ATTEMPT_WORK else 0;
    match call.phase
    case Beginning => attempts + 14
    case Running(txn) => attempts + PcWork(txn.pc)
    case Backoff => attempts + 1
    case Done(_) => 0
  }

  predicate Descends(call: Call, e: Effect) {
    match e
    case Blocked => true
    case Continue(next) => next.attempt == call.attempt && Work(next) < Work(call)
    case Ended(next) => next.attempt == call.attempt && Work(next) < Work(call)
  }

  lemma EarlyDescends(s: State, c: CallId, allowed: bool, t: Uuid)
    requires c in s.calls && s.calls[c].phase.Running? && !Debited(s.calls[c].phase.txn.pc)
    requires s.calls[c].phase.txn.pc != Debiting
    ensures Descends(s.calls[c], StatementEffect(s, c, allowed, t))
  {
    hide Payload, Amount, Limit, RowFree, KeyFree;
    hide DebitEffect, CreditEffect, InsertEffect, MarkEffect, CompleteEffect;
  }

  lemma LateDescends(s: State, c: CallId, allowed: bool, t: Uuid)
    requires c in s.calls && s.calls[c].phase.Running? && !s.calls[c].phase.txn.pc.Committing?
    requires Debited(s.calls[c].phase.txn.pc) || s.calls[c].phase.txn.pc == Debiting
    ensures Descends(s.calls[c], StatementEffect(s, c, allowed, t))
  {
    hide Payload, Amount, Limit, RowFree, TxidFree, TxidRecorded;
    hide LockEffect, ReserveEffect, ReadEffect, LimitEffect;
  }

  lemma StatementMoveDescends(s: State, m: Move)
    requires Next(s, m).Some? && m.Statement? && !s.calls[m.c].phase.txn.pc.Committing?
    ensures var s' := Step(s, m);
      m.c in s'.calls && s'.calls[m.c].attempt == s.calls[m.c].attempt && Work(s'.calls[m.c]) < Work(s.calls[m.c])
  {
    hide StatementEffect, Work;
    if Debited(s.calls[m.c].phase.txn.pc) || s.calls[m.c].phase.txn.pc == Debiting {
      LateDescends(s, m.c, m.allowed, m.txid);
    } else {
      EarlyDescends(s, m.c, m.allowed, m.txid);
    }
  }

  // Each move of a call takes one from its work.
  lemma MoveDescends(s: State, m: Move)
    requires Next(s, m).Some? && !m.OpenAccount? && !m.Start? && m.c in s.calls
    requires 1 <= s.calls[m.c].attempt <= MAX_ATTEMPTS
    requires s.calls[m.c].phase.Backoff? ==> s.calls[m.c].attempt < MAX_ATTEMPTS
    ensures var s' := Step(s, m);
      m.c in s'.calls && s'.calls[m.c].attempt <= MAX_ATTEMPTS && Work(s'.calls[m.c]) < Work(s.calls[m.c])
  {
    hide StatementEffect, Merge;
    if m.Statement? && !s.calls[m.c].phase.txn.pc.Committing? {
      StatementMoveDescends(s, m);
      hide Step, Work;
    }
  }

  // A move of the call that is possible where it is tried.
  predicate Takes(s: State, m: Move, c: CallId) {
    ClientOf(m) == Some(c) && Next(s, m).Some?
  }

  // How many moves of the call took place in a run.
  function Taken(db0: Tables, moves: seq<Move>, c: CallId): nat {
    if moves == [] then 0
    else
      var front := moves[..|moves| - 1];
      Taken(db0, front, c) + if Takes(Run(db0, front), moves[|moves| - 1], c) then 1 else 0
  }

  // A call makes at most forty-five moves, in any run, whatever the others do.
  lemma {:induction false} CallWorkBounded(db0: Tables, moves: seq<Move>, c: CallId)
    requires Fresh(db0)
    ensures var s := Run(db0, moves);
      if c in s.calls then s.calls[c].attempt <= MAX_ATTEMPTS && Taken(db0, moves, c) + Work(s.calls[c]) <= CALL_WORK
      else Taken(db0, moves, c) == 0
  {
    if moves != [] {
      var front, m := moves[..|moves| - 1], moves[|moves| - 1];
      CallWorkBounded(db0, front, c);
      var s := Run(db0, front);
      if c in s.calls {
        CallBounds(db0, front, c);
      }
      hide Exec, Step, Next, Work;
      assert Run(db0, moves) == Step(s, m) by { RunStep(db0, moves); }
      if Takes(s, m, c) {
        OwnMoveBound(s, m, c);
      } else {
        NoMoveKeeps(s, m, c);
      }
    }
  }

  lemma RunStep(db0: Tables, moves: seq<Move>)
    requires moves != []
    ensures Run(db0, moves) == Step(Run(db0, moves[..|moves| - 1]), moves[|moves| - 1])
  {
  }

  lemma OwnMoveBound(s: State, m: Move, c: CallId)
    requires Takes(s, m, c)
    requires c in s.calls ==>
      1 <= s.calls[c].attempt <= MAX_ATTEMPTS &&
      (s.calls[c].phase.Backoff? ==> s.calls[c].attempt < MAX_ATTEMPTS)
    ensures var s' := Step(s, m);
      c in s'.calls && s'.calls[c].attempt <= MAX_ATTEMPTS &&
      Work(s'.calls[c]) < if c in s.calls then Work(s.calls[c]) else CALL_WORK
  {
    if c in s.calls {
      assert !m.Start?;
      MoveDescends(s, m);
    } else {
      hide StatementEffect, ParsedAmount, ValidKey;
    }
  }

  lemma NoMoveKeeps(s: State, m: Move, c: CallId)
    requires !Takes(s, m, c)
    ensures c in s.calls <==> c in Step(s, m).calls
    ensures c in s.calls ==> Step(s, m).calls[c] == s.calls[c]
  {
    if ClientOf(m) != Some(c) {
      OthersKeepCall(s, m, c);
      hide Step;
    } else {
      hide Next;
    }
  }

  // ------------------------------------------------------------------ every call can be answered

  predicate AllDone(s: State) {
    forall c :: c in s.calls ==> s.calls[c].phase.Done?
  }

  // A move the system makes by itself: no account opened, no call started, nothing fails.
  predicate Ordinary(m: Move) {
    m.Begin? || m.Statement? || m.Wake?
  }

  // While some call is unanswered, an ordinary move is possible.
  lemma SomeOrdinaryMove(db0: Tables, moves: seq<Move>, c: CallId) returns (m: Move)
    requires Fresh(db0) && OpensHarmlessly(db0, moves)
    requires c in Run(db0, moves).calls && !Run(db0, moves).calls[c].phase.Done?
    ensures Ordinary(m) && Next(Run(db0, moves), m).Some? && m.c in Run(db0, moves).calls
  {
    var s := Run(db0, moves);
    if s.calls[c].phase.Beginning? {
      m := Begin(c);
    } else if s.calls[c].phase.Backoff? {
      m := Wake(c);
    } else {
      hide StatementEffect;
      SomeoneSteps(db0, moves, c);
      var d, t :| IsOpen(s, d) && Next(s, Statement(d, true, t)).Some?;
      m := Statement(d, true, t);
    }
  }

  function WorkOf(): Call -> int {
    (call: Call) => Work(call)
  }

  ghost function TotalWork(s: State): int {
    Reconciliation.Sum(s.calls, WorkOf())
  }

  lemma {:induction false} TotalWorkNonnegative(calls: map<CallId, Call>)
    ensures 0 <= Reconciliation.Sum(calls, WorkOf())
    decreases |calls|
  {
    if calls != map[] {
      var c :| c in calls;
      Reconciliation.SumSplit(calls, WorkOf(), c);
      TotalWorkNonnegative(calls - {c});
    }
  }

  lemma OneCallChanges(s: State, m: Move)
    requires !m.OpenAccount? && m.c in s.calls && m.c in Step(s, m).calls
    ensures Step(s, m).calls == s.calls[m.c := Step(s, m).calls[m.c]]
  {
    hide Step;
    forall d | d != m.c
      ensures (d in s.calls <==> d in Step(s, m).calls) && (d in s.calls ==> Step(s, m).calls[d] == s.calls[d])
    {
      OthersKeepCall(s, m, d);
    }
  }

  lemma TotalDescends(db0: Tables, moves: seq<Move>, m: Move)
    requires Fresh(db0) && Ordinary(m) && Next(Run(db0, moves), m).Some? && m.c in Run(db0, moves).calls
    ensures TotalWork(Run(db0, moves + [m])) < TotalWork(Run(db0, moves))
  {
    var s := Run(db0, moves);
    CallBounds(db0, moves, m.c);
    hide Exec, Next, Work;
    MoveDescends(s, m);
    hide Step;
    OneCallChanges(s, m);
    Reconciliation.SumReplace(s.calls, WorkOf(), m.c, Step(s, m).calls[m.c]);
    assert (moves + [m])[..|moves|] == moves;
    RunStep(db0, moves + [m]);
  }

  lemma StillHarmless(db0: Tables, moves: seq<Move>, m: Move)
    requires OpensHarmlessly(db0, moves) && Ordinary(m)
    ensures OpensHarmlessly(db0, moves + [m])
  {
    hide Exec, HarmlessToOpen;
    var all := moves + [m];
    forall i | 0 <= i < |all| && all[i].OpenAccount?
      ensures HarmlessToOpen(Exec(Init(db0), all[..i]), all[i].id)
    {
      assert i < |moves| && all[i] == moves[i] && all[..i] == moves[..i];
    }
  }

  // Every move of the run is an ordinary one that is possible where it stands.
  ghost predicate OrdinaryRun(db0: Tables, moves: seq<Move>, more: seq<Move>) {
    forall i :: 0 <= i < |more| ==> Ordinary(more[i]) && Next(Run(db0, moves + more[..i]), more[i]).Some?
  }

  // From a reachable state, every run of possible ordinary moves is bounded by the work left there.
  lemma {:induction false} OrdinaryRunsEnd(db0: Tables, moves: seq<Move>, more: seq<Move>)
    requires Fresh(db0) && OrdinaryRun(db0, moves, more)
    ensures |more| + TotalWork(Run(db0, moves + more)) <= TotalWork(Run(db0, moves))
    ensures |more| <= TotalWork(Run(db0, moves))
  {
    hide Exec, TotalWork, Next;
    TotalWorkBounded(Run(db0, moves + more));
    if more == [] {
      assert moves + more == moves;
    } else {
      var front, m := more[..|more| - 1], more[|more| - 1];
      assert Ordinary(m) && Next(Run(db0, moves + front), m).Some?;
      forall i | 0 <= i < |front|
        ensures Ordinary(front[i]) && Next(Run(db0, moves + front[..i]), front[i]).Some?
      {
        assert front[..i] == more[..i] && front[i] == more[i];
      }
      OrdinaryRunsEnd(db0, moves, front);
      OrdinaryHasCall(Run(db0, moves + front), m);
      TotalDescends(db0, moves + front, m);
      assert moves + front + [m] == moves + more;
    }
  }

  lemma OrdinaryHasCall(s: State, m: Move)
    requires Ordinary(m) && Next(s, m).Some?
    ensures m.c in s.calls && !s.calls[m.c].phase.Done?
  {
  }

  // Such a run can only end where every call is answered.
  lemma StopsOnlyWhenDone(db0: Tables, moves: seq<Move>)
    requires Fresh(db0) && OpensHarmlessly(db0, moves)
    ensures AllDone(Run(db0, moves)) <==> forall m :: Ordinary(m) ==> Next(Run(db0, moves), m).None?
  {
    hide Exec, OpensHarmlessly, Next;
    var s := Run(db0, moves);
    if AllDone(s) {
      forall m | Ordinary(m) ensures Next(s, m).None? {
        if Next(s, m).Some? {
          OrdinaryHasCall(s, m);
        }
      }
    } else {
      var c :| c in s.calls && !s.calls[c].phase.Done?;
      var m := SomeOrdinaryMove(db0, moves, c);
    }
  }

  // From every reachable state a run of ordinary moves answers every call: none is ever stuck.
  lemma {:induction false} EveryCallCanFinish(db0: Tables, moves: seq<Move>) returns (more: seq<Move>)
    requires Fresh(db0) && OpensHarmlessly(db0, moves)
    ensures forall i :: 0 <= i < |more| ==> Ordinary(more[i])
    ensures AllDone(Run(db0, moves + more))
    decreases TotalWork(Run(db0, moves))
  {
    hide Exec, OpensHarmlessly, TotalWork, Ordinary;
    var s := Run(db0, moves);
    if AllDone(s) {
      more := [];
      assert moves + [] == moves;
    } else {
      var c :| c in s.calls && !s.calls[c].phase.Done?;
      var m := SomeOrdinaryMove(db0, moves, c);
      TotalDescends(db0, moves, m);
      StillHarmless(db0, moves, m);
      TotalWorkBounded(s);
      var rest := EveryCallCanFinish(db0, moves + [m]);
      more := [m] + rest;
      assert moves + [m] + rest == moves + more;
    }
  }

  lemma TotalWorkBounded(s: State)
    ensures 0 <= TotalWork(s)
  {
    TotalWorkNonnegative(s.calls);
  }
}
