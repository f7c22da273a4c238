/** The transfers behind the limiter: what a sender can commit within a window. */
module Throttled {
  import opened Wrappers
  import opened Fingerprint
  import opened Ledger
  import opened TransferMachine
  import opened TransferInvariant
  import opened TransferTheorems
  import Limiter

  // The statement asks the limiter for the call and is let through.
  predicate LetThrough(s: State, m: Move) {
    m.Statement? && m.allowed && m.c in s.calls && s.calls[m.c].phase.Running? &&
    s.calls[m.c].phase.txn.pc == Limiting && !s.calls[m.c].limited
  }

  // The limiter accepted the call, checking the sender as its identity. A call asks once at most, so
  // its number can stand for its check.
  predicate AcceptedFor(history: seq<Limiter.Event>, c: CallId, sender: Uuid) {
    exists d :: d in history && d.call == c && d.span == Limiter.Day && d.id == UuidText(sender)
  }

  // Calls are let through by this limiter only.
  ghost predicate Guards(history: seq<Limiter.Event>, db0: Tables, moves: seq<Move>) {
    forall i :: 0 <= i < |moves| && LetThrough(Run(db0, moves[..i]), moves[i]) ==>
      AcceptedFor(history, moves[i].c, Run(db0, moves[..i]).calls[moves[i].c].cmd.sender)
  }

  // What a statement may do to the flag, and that it commits nothing.
  predicate FlagKept(call: Call, next: Call, letThrough: bool) {
    next.commits == call.commits && (call.limited ==> next.limited) &&
    (next.limited && !call.limited ==> letThrough)
  }

  predicate FlagEffect(call: Call, e: Effect, letThrough: bool) {
    match e
    case Blocked => true
    case Continue(next) => FlagKept(call, next, letThrough)
    case Ended(next) => FlagKept(call, next, letThrough)
  }

  lemma EarlyFlag(s: State, c: CallId, allowed: bool, t: Uuid)
    requires c in s.calls && s.calls[c].phase.Running? && !Debited(s.calls[c].phase.txn.pc)
    requires s.calls[c].phase.txn.pc != Debiting
    ensures FlagEffect(s.calls[c], StatementEffect(s, c, allowed, t), LetThrough(s, Statement(c, allowed, t)))
  {
    hide Payload, Amount, Limit, RowFree, KeyFree;
    hide DebitEffect, CreditEffect, InsertEffect, MarkEffect, CompleteEffect;
  }

  lemma LateFlag(s: State, c: CallId, allowed: bool, t: Uuid)
    requires c in s.calls && s.calls[c].phase.Running? && !s.calls[c].phase.txn.pc.Committing?
    requires Debited(s.calls[c].phase.txn.pc) || s.calls[c].phase.txn.pc == Debiting
    ensures FlagEffect(s.calls[c], StatementEffect(s, c, allowed, t), LetThrough(s, Statement(c, allowed, t)))
  {
    hide Payload, Amount, Limit, RowFree, TxidFree, TxidRecorded;
    hide LockEffect, ReserveEffect, ReadEffect, LimitEffect;
  }

  predicate Flags(call: Call, next: Call, letThrough: bool) {
    (call.limited ==> next.limited) && (next.limited && !call.limited ==> letThrough) &&
    (next.commits > call.commits ==> call.limited)
  }

  lemma StatementFlag(s: State, m: Move)
    requires m.Statement? && m.c in s.calls && s.calls[m.c].phase.Running?
    requires !s.calls[m.c].phase.txn.pc.Committing?
    ensures m.c in Step(s, m).calls && Flags(s.calls[m.c], Step(s, m).calls[m.c], LetThrough(s, m))
  {
    hide StatementEffect, LetThrough;
    if Debited(s.calls[m.c].phase.txn.pc) || s.calls[m.c].phase.txn.pc == Debiting {
      LateFlag(s, m.c, m.allowed, m.txid);
    } else {
      EarlyFlag(s, m.c, m.allowed, m.txid);
    }
  }

  lemma OtherFlag(s: State, m: Move)
    requires !m.OpenAccount? && m.c in s.calls && CallOk(s.db, s.calls[m.c])
    requires !(m.Statement? && s.calls[m.c].phase.Running? && !s.calls[m.c].phase.txn.pc.Committing?)
    ensures m.c in Step(s, m).calls && Flags(s.calls[m.c], Step(s, m).calls[m.c], LetThrough(s, m))
  {
    hide StatementEffect, Merge, Payload, TxnOk, ResultOk;
  }

  // The flag is set only by being let through, and a commit needs the flag.
  lemma FlagStep(db0: Tables, s: State, m: Move)
    requires Inv(db0, s) && !m.OpenAccount? && m.c in s.calls
    ensures m.c in Step(s, m).calls && Flags(s.calls[m.c], Step(s, m).calls[m.c], LetThrough(s, m))
  {
    assert CallOk(s.db, s.calls[m.c]);
    hide Step, CallOk, Inv;
    if m.Statement? && s.calls[m.c].phase.Running? && !s.calls[m.c].phase.txn.pc.Committing? {
      StatementFlag(s, m);
    } else {
      OtherFlag(s, m);
    }
  }

  // A call that committed, or has its flag set, was accepted by the limiter for its sender.
  predicate Vetted(history: seq<Limiter.Event>, s: State) {
    forall c :: c in s.calls && (s.calls[c].limited || s.calls[c].commits > 0) ==>
      s.calls[c].limited && AcceptedFor(history, c, s.calls[c].cmd.sender)
  }

  lemma VettedStep(history: seq<Limiter.Event>, db0: Tables, s: State, m: Move)
    requires Inv(db0, s) && Vetted(history, s)
    requires LetThrough(s, m) ==> AcceptedFor(history, m.c, s.calls[m.c].cmd.sender)
    ensures Vetted(history, Step(s, m))
  {
    var s' := Step(s, m);
    hide Step, Inv, AcceptedFor, LetThrough;
    forall c | c in s'.calls && (s'.calls[c].limited || s'.calls[c].commits > 0)
      ensures s'.calls[c].limited && AcceptedFor(history, c, s'.calls[c].cmd.sender)
    {
      if ClientOf(m) != Some(c) {
        OthersKeepCall(s, m, c);
      } else if c in s.calls {
        FlagStep(db0, s, m);
        SameCommand(s, m, c);
      } else {
        FirstSight(s, m, c);
      }
    }
  }

  lemma {:induction false} RunVetted(history: seq<Limiter.Event>, db0: Tables, moves: seq<Move>)
    requires Fresh(db0) && Guards(history, db0, moves)
    ensures Vetted(history, Run(db0, moves))
  {
    if moves != [] {
      var front, m := moves[..|moves| - 1], moves[|moves| - 1];
      forall i | 0 <= i < |front| && LetThrough(Run(db0, front[..i]), front[i])
        ensures AcceptedFor(history, front[i].c, Run(db0, front[..i]).calls[front[i].c].cmd.sender)
      {
        assert front[..i] == moves[..i] && front[i] == moves[i];
      }
      RunVetted(history, db0, front);
      RunInvariant(db0, front);
      hide Inv, Vetted, AcceptedFor, Step;
      assert moves[..|moves| - 1] == front;
      VettedStep(history, db0, Run(db0, front), m);
    }
  }

  // The calls of a sender that committed a transfer and whose check of this window has a score in
  // (low, high].
  function CommittedIn(s: State, history: seq<Limiter.Event>, sender: Uuid, span: Limiter.Span, low: int, high: int)
    : set<CallId>
  {
    set c | c in s.calls && s.calls[c].commits > 0 && s.calls[c].cmd.sender == sender &&
      CheckedIn(history, UuidText(sender), span, low, high, c)
  }

  predicate CheckedIn(history: seq<Limiter.Event>, id: string, span: Limiter.Span, low: int, high: int, c: CallId) {
    exists e :: e in history && e.id == id && e.span == span && low < e.at <= high && e.call == c
  }

  lemma CommittedAreAccepted(history: seq<Limiter.Event>, db0: Tables, moves: seq<Move>,
                             sender: Uuid, span: Limiter.Span, low: int, high: int)
    requires Fresh(db0) && Guards(history, db0, moves)
    ensures |CommittedIn(Run(db0, moves), history, sender, span, low, high)| <=
      |Limiter.AcceptedIn(history, UuidText(sender), span, low, high)|
  {
    var s := Run(db0, moves);
    RunVetted(history, db0, moves);
    hide Exec, UuidText;
    var committed := CommittedIn(s, history, sender, span, low, high);
    var accepted := Limiter.AcceptedIn(history, UuidText(sender), span, low, high);
    forall c | c in committed ensures c in accepted {
      assert AcceptedFor(history, c, s.calls[c].cmd.sender);
      assert Limiter.Accepted(history, c);
    }
    Limiter.SubsetSize(committed, accepted);
  }

  // Whatever calls interleave and whatever fails, the transfers a sender commits stay within the
  // minute, the hour and the day limit, by the time of their checks, wherever the window ends.
  lemma TransfersWithinBounds(limits: Limiter.Limits, events: seq<Limiter.Event>, db0: Tables, moves: seq<Move>,
                              sender: Uuid, t: int)
    requires Fresh(db0) && Limiter.Nondecreasing(events)
    requires Guards(Limiter.Admitted(limits, events), db0, moves)
    ensures var s, history := Run(db0, moves), Limiter.Admitted(limits, events);
      && |CommittedIn(s, history, sender, Limiter.Minute, t - 60, t)| <= Limiter.Max(0, limits.minute)
      && |CommittedIn(s, history, sender, Limiter.Hour, t - 3600, t)| <= Limiter.Max(0, limits.hour)
      && |CommittedIn(s, history, sender, Limiter.Day, t - 86400, t)| <= Limiter.Max(0, limits.day)
  {
    hide Run, Guards, Limiter.Admitted, Limiter.AcceptedIn, CommittedIn, UuidText;
    var history := Limiter.Admitted(limits, events);
    CommittedAreAccepted(history, db0, moves, sender, Limiter.Minute, t - 60, t);
    CommittedAreAccepted(history, db0, moves, sender, Limiter.Hour, t - 3600, t);
    CommittedAreAccepted(history, db0, moves, sender, Limiter.Day, t - 86400, t);
    Limiter.AcceptedWithinBounds(limits, events, UuidText(sender), t);
  }

  // None escapes the count: every committed transfer has its check in each of the three windows.
  lemma CommittedIsChecked(limits: Limiter.Limits, events: seq<Limiter.Event>, db0: Tables, moves: seq<Move>,
                           c: CallId, span: Limiter.Span) returns (e: Limiter.Event)
    requires Fresh(db0) && Limiter.Nondecreasing(events) && Limiter.InOrder(limits, events)
    requires Guards(Limiter.Admitted(limits, events), db0, moves)
    requires c in Run(db0, moves).calls && Run(db0, moves).calls[c].commits > 0
    ensures e in Limiter.Admitted(limits, events) && e.call == c && e.span == span
    ensures e.id == UuidText(Run(db0, moves).calls[c].cmd.sender)
    ensures forall low, high :: low < e.at <= high ==>
      c in CommittedIn(Run(db0, moves), Limiter.Admitted(limits, events),
                       Run(db0, moves).calls[c].cmd.sender, span, low, high)
  {
    var history := Limiter.Admitted(limits, events);
    var s := Run(db0, moves);
    RunVetted(history, db0, moves);
    hide Exec, Limiter.Admitted, UuidText, Limiter.InOrder;
    assert AcceptedFor(history, c, s.calls[c].cmd.sender);
    var d :| d in history && d.call == c && d.span == Limiter.Day && d.id == UuidText(s.calls[c].cmd.sender);
    var m, h := Limiter.AcceptedUsesAllWindows(limits, events, d);
    e := match span case Minute => m case Hour => h case Day => d;
    forall low, high | low < e.at <= high ensures CheckedIn(history, e.id, span, low, high, c) {
    }
  }
}
