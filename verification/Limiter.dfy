/** The sliding-window limiter: sorted sets that are pruned and expire, against the full history of
    admissions, and the three windows one call goes through. */
module Limiter {
  datatype Span = Minute | Hour | Day

  datatype Limits = Limits(minute: int, hour: int, day: int)

  function Seconds(span: Span): int {
    match span
    case Minute => 60
    case Hour => 3600
    case Day => 86400
  }

  function LimitOf(limits: Limits, span: Span): int {
    match span
    case Minute => limits.minute
    case Hour => limits.hour
    case Day => limits.day
  }

  function Max(a: int, b: int): int {
    if a < b then b else a
  }

  // What a limit allows: a negative one allows nothing.
  function Allowance(limits: Limits, span: Span): nat {
    Max(0, LimitOf(limits, span))
  }

  function Suffix(span: Span): string {
    match span
    case Minute => "min"
    case Hour => "hour"
    case Day => "day"
  }

  function Key(id: string, span: Span): string {
    "ratelimit:" + id + ":" + Suffix(span)
  }

  // Identities may hold colons, yet no two (identity, window) pairs share a sorted set.
  lemma KeysApart(id: string, span: Span, id': string, span': Span)
    ensures Key(id, span) == Key(id', span') <==> id == id' && span == span'
  {
    var a, b := Key(id, span), Key(id', span');
    if a == b {
      assert a[|a| - 1] == Suffix(span)[|Suffix(span)| - 1];
      assert b[|b| - 1] == Suffix(span')[|Suffix(span')| - 1];
      assert span == span';
      assert id == a[10..10 + |id|] == b[10..10 + |id'|] == id';
    }
  }

  // ------------------------------------------------------------------ the store

  // A sorted set, and when Redis drops it, by its own clock.
  datatype SortedSet = SortedSet(scores: map<string, int>, expireAt: int)

  type Store = map<string, SortedSet>

  // What ZREMRANGEBYSCORE leaves of a set that has not expired.
  function Pruned(store: Store, key: string, minTime: int, server: int): (scores: map<string, int>)
    ensures scores != map[] ==> key in store
  {
    if key in store && server < store[key].expireAt
    then map m | m in store[key].scores && minTime < store[key].scores[m] :: store[key].scores[m]
    else map[]
  }

  // The store when these scores are what is left of the set.
  function Without(store: Store, key: string, scores: map<string, int>): Store
    requires scores != map[] ==> key in store
  {
    if scores == map[] then store - {key} else store[key := SortedSet(scores, store[key].expireAt)]
  }

  // The Lua script, run as one step: the new store, and whether the request was admitted.
  function Script(store: Store, key: string, now: int, window: int, limit: int, request: string, server: int)
    : (Store, bool)
  {
    var scores := Pruned(store, key, now - window, server);
    if |scores| >= limit then (Without(store, key, scores), false)
    else (store[key := SortedSet(scores[request := now], server + window + 10)], true)
  }

  // ------------------------------------------------------------------ the history

  // One run of the script: for which call, when by the caller's clock and by Redis's.
  datatype Event = Event(call: nat, id: string, span: Span, at: int, server: int, request: string)

  // The events of one set with a score in (t - window, t].
  function Recent(history: seq<Event>, id: string, span: Span, t: int): seq<Event> {
    if history == [] then []
    else
      var e := history[|history| - 1];
      var earlier := Recent(history[..|history| - 1], id, span, t);
      if e.id == id && e.span == span && t - Seconds(span) < e.at <= t then earlier + [e] else earlier
  }

  // How many events of one set have a score in (low, high].
  function CountIn(history: seq<Event>, id: string, span: Span, low: int, high: int): nat {
    if history == [] then 0
    else
      var e := history[|history| - 1];
      CountIn(history[..|history| - 1], id, span, low, high) +
      if e.id == id && e.span == span && low < e.at <= high then 1 else 0
  }

  // A check is admitted when the admissions of its own identity and window, among those of the
  // last minute, hour or day, are fewer than that window's limit.
  predicate Admits(limits: Limits, history: seq<Event>, e: Event) {
    match e.span
    case Minute => CountIn(history, e.id, Minute, e.at - 60, e.at) < limits.minute
    case Hour => CountIn(history, e.id, Hour, e.at - 3600, e.at) < limits.hour
    case Day => CountIn(history, e.id, Day, e.at - 86400, e.at) < limits.day
  }

  // Every admission so far, each decided from the full history before it.
  function Admitted(limits: Limits, events: seq<Event>): seq<Event> {
    if events == [] then []
    else
      var history := Admitted(limits, events[..|events| - 1]);
      var e := events[|events| - 1];
      if Admits(limits, history, e) then history + [e] else history
  }

  function ScriptOf(store: Store, limits: Limits, e: Event): (Store, bool) {
    Script(store, Key(e.id, e.span), e.at, Seconds(e.span), LimitOf(limits, e.span), e.request, e.server)
  }

  function Stored(limits: Limits, events: seq<Event>): Store {
    if events == [] then map[]
    else ScriptOf(Stored(limits, events[..|events| - 1]), limits, events[|events| - 1]).0
  }

  predicate SameSet(e: Event, f: Event) {
    e.id == f.id && e.span == f.span
  }

  // Neither clock goes back, and between two events of one set within one window Redis's clock
  // gains at most ten seconds on the callers'.
  predicate ClocksSteady(e: Event, later: Event) {
    e.at <= later.at && e.server <= later.server &&
    (SameSet(e, later) && later.at - e.at < Seconds(e.span) ==>
       later.server - e.server <= later.at - e.at + 10)
  }

  // The callers' clock does not go back.
  predicate Nondecreasing(events: seq<Event>) {
    forall i, j :: 0 <= i < j < |events| ==> events[i].at <= events[j].at
  }

  // Steady clocks, and request ids that differ within each set.
  predicate Regular(events: seq<Event>) {
    forall i, j :: 0 <= i < j < |events| ==>
      ClocksSteady(events[i], events[j]) &&
      (SameSet(events[i], events[j]) ==> events[i].request != events[j].request)
  }

  // ------------------------------------------------------------------ about the history

  lemma {:induction false} RecentIn(history: seq<Event>, id: string, span: Span, t: int, e: Event)
    ensures e in Recent(history, id, span, t) <==>
      e in history && e.id == id && e.span == span && t - Seconds(span) < e.at <= t
  {
    if history != [] {
      var front, last := history[..|history| - 1], history[|history| - 1];
      RecentIn(front, id, span, t, e);
      assert history == front + [last];
    }
  }

  lemma {:induction false} RecentIsCount(history: seq<Event>, id: string, span: Span, t: int)
    ensures |Recent(history, id, span, t)| == CountIn(history, id, span, t - Seconds(span), t)
  {
    if history != [] {
      RecentIsCount(history[..|history| - 1], id, span, t);
    }
  }

  // The window and the limit the script is given are those of the decision.
  lemma AdmitsByRecent(limits: Limits, history: seq<Event>, e: Event)
    ensures Admits(limits, history, e) <==> |Recent(history, e.id, e.span, e.at)| < LimitOf(limits, e.span)
  {
    RecentIsCount(history, e.id, e.span, e.at);
    hide Recent, CountIn;
  }

  function Requests(s: seq<Event>): set<string> {
    set e | e in s :: e.request
  }

  // Within one set, distinct request ids make the number of ids the number of admissions.
  lemma {:induction false} RecentCount(history: seq<Event>, id: string, span: Span, t: int)
    requires Regular(history)
    ensures |Requests(Recent(history, id, span, t))| == |Recent(history, id, span, t)|
  {
    if history != [] {
      var front, last := history[..|history| - 1], history[|history| - 1];
      RecentCount(front, id, span, t);
      var earlier, all := Recent(front, id, span, t), Recent(history, id, span, t);
      if all != earlier {
        forall e | e in earlier ensures e.request != last.request {
          RecentIn(front, id, span, t, e);
          var i :| 0 <= i < |front| && front[i] == e;
          assert SameSet(history[i], history[|history| - 1]);
        }
        assert Requests(all) == Requests(earlier) + {last.request};
      }
    }
  }

  // A later position holds no more of a history that ended by t.
  lemma {:induction false} RecentShrinks(history: seq<Event>, id: string, span: Span, t: int, t': int)
    requires t <= t' && forall e :: e in history ==> e.at <= t
    ensures |Recent(history, id, span, t')| <= |Recent(history, id, span, t)|
  {
    if history != [] {
      var front, last := history[..|history| - 1], history[|history| - 1];
      assert history == front + [last];
      RecentShrinks(front, id, span, t, t');
    }
  }

  lemma {:induction false} AdmittedIn(limits: Limits, events: seq<Event>, e: Event)
    requires e in Admitted(limits, events)
    ensures e in events
  {
    var front, last := events[..|events| - 1], events[|events| - 1];
    if e in Admitted(limits, front) {
      AdmittedIn(limits, front, e);
    }
  }

  lemma {:induction false} AdmittedRegular(limits: Limits, events: seq<Event>)
    requires Regular(events)
    ensures Regular(Admitted(limits, events))
  {
    if events != [] {
      var front, last := events[..|events| - 1], events[|events| - 1];
      AdmittedRegular(limits, front);
      hide Admits;
      var history := Admitted(limits, front);
      forall e | e in history
        ensures ClocksSteady(e, last) && (SameSet(e, last) ==> e.request != last.request)
      {
        AdmittedIn(limits, front, e);
        var i :| 0 <= i < |front| && front[i] == e;
        assert ClocksSteady(events[i], events[|events| - 1]);
      }
    }
  }

  lemma {:induction false} AdmittedKept(limits: Limits, events: seq<Event>, k: nat, e: Event)
    requires k <= |events| && e in Admitted(limits, events[..k])
    ensures e in Admitted(limits, events)
    decreases |events|
  {
    if k < |events| {
      var front := events[..|events| - 1];
      assert front[..k] == events[..k];
      AdmittedKept(limits, front, k, e);
    } else {
      assert events[..k] == events;
    }
  }

  lemma RecentAdd(history: seq<Event>, e: Event, id: string, span: Span, t: int)
    ensures Recent(history + [e], id, span, t) ==
      if e.id == id && e.span == span && t - Seconds(span) < e.at <= t then Recent(history, id, span, t) + [e]
      else Recent(history, id, span, t)
  {
    assert (history + [e])[..|history|] == history;
  }

  lemma AdmittedBefore(limits: Limits, events: seq<Event>, e: Event)
    requires Nondecreasing(events) && events != [] && e in Admitted(limits, events[..|events| - 1])
    ensures e.at <= events[|events| - 1].at
  {
    var front := events[..|events| - 1];
    AdmittedIn(limits, front, e);
    var i :| 0 <= i < |front| && front[i] == e;
    assert events[i].at <= events[|events| - 1].at;
  }

  lemma {:induction false} WindowBound(limits: Limits, events: seq<Event>, id: string, span: Span, t: int)
    requires Nondecreasing(events)
    ensures |Recent(Admitted(limits, events), id, span, t)| <= Allowance(limits, span)
  {
    if events != [] {
      var front, last := events[..|events| - 1], events[|events| - 1];
      WindowBound(limits, front, id, span, t);
      var history := Admitted(limits, front);
      AdmitsByRecent(limits, history, last);
      hide Recent, Admits;
      if Admits(limits, history, last) {
        RecentAdd(history, last, id, span, t);
        if last.at <= t {
          forall e | e in history ensures e.at <= last.at {
            AdmittedBefore(limits, events, e);
          }
          RecentShrinks(history, id, span, last.at, t);
        }
      }
    } else {
      assert Recent([], id, span, t) == [];
    }
  }

  // Wherever a minute, an hour or a day ends, the limiter admitted in it at most so many checks of
  // one identity as that window's limit allows.
  lemma AdmissionsBounded(limits: Limits, events: seq<Event>, id: string, t: int)
    requires Nondecreasing(events)
    ensures CountIn(Admitted(limits, events), id, Minute, t - 60, t) <= Max(0, limits.minute)
    ensures CountIn(Admitted(limits, events), id, Hour, t - 3600, t) <= Max(0, limits.hour)
    ensures CountIn(Admitted(limits, events), id, Day, t - 86400, t) <= Max(0, limits.day)
  {
    var history := Admitted(limits, events);
    forall span ensures CountIn(history, id, span, t - Seconds(span), t) <= Allowance(limits, span) {
      WindowBound(limits, events, id, span, t);
      RecentIsCount(history, id, span, t);
    }
    assert Seconds(Minute) == 60 && Seconds(Hour) == 3600 && Seconds(Day) == 86400;
    hide Admitted, CountIn, Seconds;
  }

  // ------------------------------------------------------------------ pruning and expiry

  // The admission can still count at this time.
  predicate Alive(e: Event, now: int) {
    now - Seconds(e.span) < e.at
  }

  // Each stored member is an admission of that set with its own score.
  predicate Sound(store: Store, history: seq<Event>) {
    forall key, m :: key in store && m in store[key].scores ==>
      exists e :: e in history && Key(e.id, e.span) == key && e.request == m && e.at == store[key].scores[m]
  }

  // The admission is stored, in a set that lives long enough.
  predicate Held(store: Store, e: Event) {
    var key := Key(e.id, e.span);
    key in store && e.request in store[key].scores && store[key].scores[e.request] == e.at &&
    e.server + Seconds(e.span) + 10 <= store[key].expireAt
  }

  predicate Agrees(store: Store, history: seq<Event>, now: int) {
    Sound(store, history) && forall e :: e in history && Alive(e, now) ==> Held(store, e)
  }

  predicate Follows(history: seq<Event>, f: Event) {
    forall e :: e in history ==> ClocksSteady(e, f) && (SameSet(e, f) ==> e.request != f.request)
  }

  // The pruned set holds exactly the admissions in the window that ends now.
  lemma PrunedIsRecent(store: Store, history: seq<Event>, now: int, f: Event)
    requires Agrees(store, history, now) && now <= f.at && Follows(history, f)
    ensures Pruned(store, Key(f.id, f.span), f.at - Seconds(f.span), f.server).Keys ==
      Requests(Recent(history, f.id, f.span, f.at))
  {
    var key := Key(f.id, f.span);
    var pruned := Pruned(store, key, f.at - Seconds(f.span), f.server);
    var recent := Recent(history, f.id, f.span, f.at);
    forall m | m in pruned ensures m in Requests(recent) {
      var e :| e in history && Key(e.id, e.span) == key && e.request == m && e.at == store[key].scores[m];
      KeysApart(e.id, e.span, f.id, f.span);
      RecentIn(history, f.id, f.span, f.at, e);
    }
    forall m | m in Requests(recent) ensures m in pruned {
      var e :| e in recent && e.request == m;
      RecentIn(history, f.id, f.span, f.at, e);
      assert Alive(e, now) && Held(store, e) && ClocksSteady(e, f);
    }
  }

  // The script decides from its pruned set as the full history would.
  lemma SameDecision(store: Store, history: seq<Event>, now: int, limits: Limits, f: Event)
    requires Agrees(store, history, now) && now <= f.at && Follows(history, f) && Regular(history)
    ensures ScriptOf(store, limits, f).1 == Admits(limits, history, f)
  {
    hide Key, Agrees, Follows, Regular, Recent, Pruned, Requests, Admits;
    AdmitsByRecent(limits, history, f);
    PrunedIsRecent(store, history, now, f);
    RecentCount(history, f.id, f.span, f.at);
    var pruned := Pruned(store, Key(f.id, f.span), f.at - Seconds(f.span), f.server);
    assert |pruned| == |pruned.Keys| == |Recent(history, f.id, f.span, f.at)|;
  }

  lemma HeldAfter(store: Store, limits: Limits, f: Event, e: Event)
    requires Held(store, e) && Alive(e, f.at) && ClocksSteady(e, f)
    requires SameSet(e, f) ==> e.request != f.request
    ensures Held(ScriptOf(store, limits, f).0, e)
  {
    KeysApart(e.id, e.span, f.id, f.span);
    hide Key;
    if SameSet(e, f) {
      assert e.request in Pruned(store, Key(f.id, f.span), f.at - Seconds(f.span), f.server);
    }
  }

  lemma SoundAfter(store: Store, history: seq<Event>, limits: Limits, f: Event)
    requires Sound(store, history)
    ensures Sound(ScriptOf(store, limits, f).0, if ScriptOf(store, limits, f).1 then history + [f] else history)
  {
    hide Key;
    var (after, admitted) := ScriptOf(store, limits, f);
    var history' := if admitted then history + [f] else history;
    forall key, m | key in after && m in after[key].scores
      ensures exists e ::
        e in history' && Key(e.id, e.span) == key && e.request == m && e.at == after[key].scores[m]
    {
      if admitted && key == Key(f.id, f.span) && m == f.request {
        assert f in history';
      } else {
        assert key in store && m in store[key].scores && after[key].scores[m] == store[key].scores[m];
        var e :| e in history && Key(e.id, e.span) == key && e.request == m && e.at == store[key].scores[m];
        assert e in history';
      }
    }
  }

  lemma StepAgrees(store: Store, history: seq<Event>, now: int, limits: Limits, f: Event)
    requires Agrees(store, history, now) && now <= f.at && Follows(history, f) && Regular(history)
    ensures ScriptOf(store, limits, f).1 == Admits(limits, history, f)
    ensures Agrees(ScriptOf(store, limits, f).0,
      if Admits(limits, history, f) then history + [f] else history, f.at)
  {
    SameDecision(store, history, now, limits, f);
    SoundAfter(store, history, limits, f);
    forall e | e in history && Alive(e, f.at) ensures Held(ScriptOf(store, limits, f).0, e) {
      assert Alive(e, now) && Held(store, e) && ClocksSteady(e, f);
      HeldAfter(store, limits, f, e);
    }
  }

  lemma LastFollows(limits: Limits, events: seq<Event>)
    requires events != [] && Regular(events)
    ensures Follows(Admitted(limits, events[..|events| - 1]), events[|events| - 1])
  {
    var front, last := events[..|events| - 1], events[|events| - 1];
    forall e | e in Admitted(limits, front)
      ensures ClocksSteady(e, last) && (SameSet(e, last) ==> e.request != last.request)
    {
      AdmittedIn(limits, front, e);
      var i :| 0 <= i < |front| && front[i] == e;
      assert ClocksSteady(events[i], events[|events| - 1]);
    }
  }

  lemma {:induction false} StoredAgrees(limits: Limits, events: seq<Event>, now: int)
    requires Regular(events) && (events != [] ==> events[|events| - 1].at == now)
    ensures Agrees(Stored(limits, events), Admitted(limits, events), now)
  {
    if events != [] {
      var front, last := events[..|events| - 1], events[|events| - 1];
      var before := if front == [] then now else front[|front| - 1].at;
      assert front != [] ==> ClocksSteady(events[|front| - 1], events[|front|]);
      StoredAgrees(limits, front, before);
      LastFollows(limits, events);
      AdmittedRegular(limits, front);
      StepAgrees(Stored(limits, front), Admitted(limits, front), before, limits, last);
    }
  }

  // Pruning and expiry are invisible: after any run, the next decision made from what Redis still
  // holds is the one the full history of admissions would give.
  lemma PruningInvisible(limits: Limits, events: seq<Event>, f: Event)
    requires Regular(events + [f])
    ensures ScriptOf(Stored(limits, events), limits, f).1 == Admits(limits, Admitted(limits, events), f)
  {
    var all := events + [f];
    assert all[..|events|] == events;
    assert Regular(events) by {
      forall i, j | 0 <= i < j < |events|
        ensures ClocksSteady(events[i], events[j]) &&
          (SameSet(events[i], events[j]) ==> events[i].request != events[j].request)
      {
        assert all[i] == events[i] && all[j] == events[j];
      }
    }
    var now := if events == [] then f.at else events[|events| - 1].at;
    assert events != [] ==> ClocksSteady(all[|events| - 1], all[|events|]);
    StoredAgrees(limits, events, now);
    LastFollows(limits, all);
    AdmittedRegular(limits, events);
    SameDecision(Stored(limits, events), Admitted(limits, events), now, limits, f);
  }

  // Requests of one identity in the same second, with different ids.
  function Burst(id: string, span: Span, n: nat): seq<Event> {
    seq(n, k requires 0 <= k < n => Event(k, id, span, 0, 0, seq(k, _ => 'x')))
  }

  lemma BurstGrows(id: string, span: Span, n: nat)
    requires n > 0
    ensures Burst(id, span, n)[..n - 1] == Burst(id, span, n - 1)
    ensures Burst(id, span, n)[n - 1] == Event(n - 1, id, span, 0, 0, seq(n - 1, _ => 'x'))
  {
  }

  lemma BurstSize(id: string, span: Span, n: nat)
    ensures |Burst(id, span, n)| == n
  {
  }

  lemma BurstMembers(id: string, span: Span, n: nat, e: Event)
    requires e in Burst(id, span, n)
    ensures e.id == id && e.span == span && e.at == 0 && e.server == 0 && |e.request| < n
  {
  }

  lemma ExpiredLetsThrough(store: Store, limits: Limits, f: Event)
    requires LimitOf(limits, f.span) > 0
    requires Key(f.id, f.span) in store ==> store[Key(f.id, f.span)].expireAt <= f.server
    ensures ScriptOf(store, limits, f).1
  {
    hide Key;
  }

  lemma {:induction false} BurstRecent(id: string, span: Span, n: nat, t: int)
    requires 0 <= t < Seconds(span)
    ensures Recent(Burst(id, span, n), id, span, t) == Burst(id, span, n)
  {
    if n > 0 {
      BurstGrows(id, span, n);
      BurstRecent(id, span, n - 1, t);
    }
  }

  lemma AdmittedNext(limits: Limits, events: seq<Event>, e: Event)
    requires Admits(limits, Admitted(limits, events), e)
    ensures Admitted(limits, events + [e]) == Admitted(limits, events) + [e]
  {
    assert (events + [e])[..|events|] == events;
  }

  lemma BurstSplits(id: string, span: Span, n: nat)
    requires n > 0
    ensures var e := Event(n - 1, id, span, 0, 0, seq(n - 1, _ => 'x'));
      Burst(id, span, n) == Burst(id, span, n - 1) + [e]
  {
  }

  lemma {:induction false} BurstAdmitted(limits: Limits, id: string, span: Span, n: nat)
    requires n <= LimitOf(limits, span)
    ensures Admitted(limits, Burst(id, span, n)) == Burst(id, span, n)
  {
    if n > 0 {
      BurstSplits(id, span, n);
      BurstSize(id, span, n - 1);
      var e := Event(n - 1, id, span, 0, 0, seq(n - 1, _ => 'x'));
      AdmitsByRecent(limits, Burst(id, span, n - 1), e);
      hide Burst, Recent, Admitted, Admits, LimitOf;
      BurstAdmitted(limits, id, span, n - 1);
      BurstRecent(id, span, n - 1, 0);
      AdmittedNext(limits, Burst(id, span, n - 1), e);
    } else {
      assert Burst(id, span, 0) == [];
    }
  }

  lemma {:induction false} BurstExpires(limits: Limits, id: string, span: Span, n: nat)
    ensures var store, key := Stored(limits, Burst(id, span, n)), Key(id, span);
      key in store ==> store[key].expireAt == Seconds(span) + 10
  {
    hide Key;
    if n > 0 {
      BurstGrows(id, span, n);
      hide Burst, Script;
      BurstExpires(limits, id, span, n - 1);
      var front := Burst(id, span, n)[..n - 1];
      ExpiryKept(Stored(limits, front), limits, Burst(id, span, n)[n - 1]);
    }
  }

  lemma ExpiryKept(store: Store, limits: Limits, e: Event)
    requires e.server == 0
    requires Key(e.id, e.span) in store ==> store[Key(e.id, e.span)].expireAt == Seconds(e.span) + 10
    ensures var after, key := ScriptOf(store, limits, e).0, Key(e.id, e.span);
      key in after ==> after[key].expireAt == Seconds(e.span) + 10
  {
    hide Key, LimitOf;
  }

  lemma BurstRegular(id: string, span: Span, n: nat)
    ensures Regular(Burst(id, span, n))
  {
    var s := Burst(id, span, n);
    forall i, j | 0 <= i < j < n
      ensures ClocksSteady(s[i], s[j]) && (SameSet(s[i], s[j]) ==> s[i].request != s[j].request)
    {
      assert |s[i].request| == i && |s[j].request| == j;
    }
  }

  // The ten spare seconds are all the drift there is room for, whatever the window and its limit:
  // one second more, and an expired set lets through a request that the full history rejects.
  lemma OneSecondMoreBreaks(limits: Limits, id: string, span: Span) returns (events: seq<Event>, f: Event)
    requires LimitOf(limits, span) > 0
    ensures Regular(events)
    ensures forall e :: e in events ==>
      SameSet(e, f) && e.request != f.request && f.server - e.server == f.at - e.at + 11
    ensures ScriptOf(Stored(limits, events), limits, f).1 && !Admits(limits, Admitted(limits, events), f)
  {
    var n := LimitOf(limits, span);
    events := Burst(id, span, n);
    f := Event(n, id, span, Seconds(span) - 1, Seconds(span) + 10, seq(n, _ => 'x'));
    AdmitsByRecent(limits, events, f);
    hide Burst, Recent, Admitted, Admits, Stored, ScriptOf, Regular, Key;
    BurstRegular(id, span, n);
    BurstSize(id, span, n);
    forall e | e in events
      ensures SameSet(e, f) && e.request != f.request && f.server - e.server == f.at - e.at + 11
    {
      BurstMembers(id, span, n, e);
      assert |f.request| == n;
    }
    BurstAdmitted(limits, id, span, n);
    BurstRecent(id, span, n, f.at);
    BurstExpires(limits, id, span, n);
    ExpiredLetsThrough(Stored(limits, events), limits, f);
  }

  // ------------------------------------------------------------------ whole calls

  function Narrower(span: Span): Span
    requires span != Minute
  {
    if span == Day then Hour else Minute
  }

  // The order of the checks, whoever else runs in between: a call consults the hour window only
  // after the minute window admitted it, and the day window only after the hour window did.
  predicate InOrder(limits: Limits, events: seq<Event>) {
    forall k :: 0 <= k < |events| && events[k].span != Minute ==>
      AdmittedNarrower(Admitted(limits, events[..k]), events[k])
  }

  // The scripts other callers run next keep that order, and none of them is of this call.
  predicate Behaves(limits: Limits, events: seq<Event>, others: seq<Event>, call: nat) {
    forall k :: 0 <= k < |others| ==>
      others[k].call != call &&
      (others[k].span != Minute ==> AdmittedNarrower(Admitted(limits, events + others[..k]), others[k]))
  }

  predicate AdmittedNarrower(history: seq<Event>, e: Event)
    requires e.span != Minute
  {
    exists n :: n in history && n.call == e.call && n.id == e.id && n.span == Narrower(e.span)
  }

  // Its check of the widest window was admitted, so the call was accepted.
  predicate Accepted(history: seq<Event>, call: nat) {
    exists d :: d in history && d.call == call && d.span == Day
  }

  lemma {:induction false} AdmittedAt(limits: Limits, events: seq<Event>, e: Event) returns (k: nat)
    requires e in Admitted(limits, events)
    ensures k < |events| && events[k] == e && Admits(limits, Admitted(limits, events[..k]), e)
  {
    var front, last := events[..|events| - 1], events[|events| - 1];
    if e in Admitted(limits, front) {
      k := AdmittedAt(limits, front, e);
      assert events[..k] == front[..k];
    } else {
      k := |events| - 1;
    }
  }

  // A call that consulted a wider window has used its narrower one, even when the wider rejects it.
  lemma RejectedStillCounts(limits: Limits, events: seq<Event>, k: nat) returns (n: Event)
    requires InOrder(limits, events) && Nondecreasing(events) && k < |events| && events[k].span != Minute
    ensures n in Admitted(limits, events) && n.call == events[k].call && n.id == events[k].id
    ensures n.span == Narrower(events[k].span) && n.at <= events[k].at
  {
    var before := events[..k];
    assert AdmittedNarrower(Admitted(limits, before), events[k]);
    n :| n in Admitted(limits, before) && n.call == events[k].call && n.id == events[k].id &&
         n.span == Narrower(events[k].span);
    AdmittedKept(limits, events, k, n);
    AdmittedIn(limits, before, n);
    var i :| 0 <= i < |before| && before[i] == n;
    assert events[i].at <= events[k].at;
  }

  // An accepted call holds one admission in each of the three windows, taken in this order.
  lemma AcceptedUsesAllWindows(limits: Limits, events: seq<Event>, d: Event) returns (m: Event, h: Event)
    requires InOrder(limits, events) && Nondecreasing(events) && d in Admitted(limits, events) && d.span == Day
    ensures m in Admitted(limits, events) && m.call == d.call && m.id == d.id && m.span == Minute
    ensures h in Admitted(limits, events) && h.call == d.call && h.id == d.id && h.span == Hour
    ensures m.at <= h.at <= d.at
  {
    var k := AdmittedAt(limits, events, d);
    h := RejectedStillCounts(limits, events, k);
    var i := AdmittedAt(limits, events, h);
    m := RejectedStillCounts(limits, events, i);
  }

  // The accepted calls of an identity whose check of this window has a score in (low, high].
  function AcceptedIn(history: seq<Event>, id: string, span: Span, low: int, high: int): set<nat> {
    set e | e in history && e.id == id && e.span == span && low < e.at <= high && Accepted(history, e.call) :: e.call
  }

  lemma {:induction false} AtMostOneCallEach(s: seq<Event>)
    ensures |set e | e in s :: e.call| <= |s|
  {
    if s != [] {
      var front, last := s[..|s| - 1], s[|s| - 1];
      AtMostOneCallEach(front);
      assert s == front + [last];
      assert (set e | e in s :: e.call) == (set e | e in front :: e.call) + {last.call};
    }
  }

  lemma SubsetSize<T>(a: set<T>, b: set<T>)
    requires a <= b
    ensures |a| <= |b|
  {
    assert b == a + (b - a);
  }

  lemma AcceptedBound(limits: Limits, events: seq<Event>, id: string, span: Span, t: int)
    requires Nondecreasing(events)
    ensures |AcceptedIn(Admitted(limits, events), id, span, t - Seconds(span), t)| <= Allowance(limits, span)
  {
    var history := Admitted(limits, events);
    var recent := Recent(history, id, span, t);
    WindowBound(limits, events, id, span, t);
    AtMostOneCallEach(recent);
    forall e ensures e in recent <==>
      e in history && e.id == id && e.span == span && t - Seconds(span) < e.at <= t
    {
      RecentIn(history, id, span, t, e);
    }
    hide Recent, Admitted, Seconds, Accepted;
    SubsetSize(AcceptedIn(history, id, span, t - Seconds(span), t), set e | e in recent :: e.call);
  }

  // The accepted calls of an identity respect the minute, the hour and the day limit at once,
  // wherever a minute, an hour or a day ends.
  lemma AcceptedWithinBounds(limits: Limits, events: seq<Event>, id: string, t: int)
    requires Nondecreasing(events)
    ensures |AcceptedIn(Admitted(limits, events), id, Minute, t - 60, t)| <= Max(0, limits.minute)
    ensures |AcceptedIn(Admitted(limits, events), id, Hour, t - 3600, t)| <= Max(0, limits.hour)
    ensures |AcceptedIn(Admitted(limits, events), id, Day, t - 86400, t)| <= Max(0, limits.day)
  {
    forall span { AcceptedBound(limits, events, id, span, t); }
    assert Seconds(Minute) == 60 && Seconds(Hour) == 3600 && Seconds(Day) == 86400;
    hide Admitted, AcceptedIn, Seconds;
  }

  // ------------------------------------------------------------------ the client

  datatype Tick = Tick(at: int, server: int, request: string)

  datatype Fault = Fine | NotSent | ReplyLost

  datatype Verdict = Allowed | Limited | Failed

  // The checks one call makes, if none rejects it.
  function Checks(call: nat, id: string, minute: Tick, hour: Tick, day: Tick): seq<Event> {
    [Event(call, id, Minute, minute.at, minute.server, minute.request),
     Event(call, id, Hour, hour.at, hour.server, hour.request),
     Event(call, id, Day, day.at, day.server, day.request)]
  }

  class Redis {
    const limits: Limits
    var sets: Store
    // What happens to the coming exchanges with the server; beyond the list all is well.
    var faults: seq<Fault>
    // How many calls there were; this numbers them.
    var calls: nat
    // Every run of the script so far.
    ghost var past: seq<Event>

    ghost predicate Valid()
      reads this
    {
      Regular(past) && InOrder(limits, past) && sets == Stored(limits, past) &&
      forall e :: e in past ==> e.call < calls
    }

    constructor (limits: Limits, faults: seq<Fault>)
      ensures Valid() && past == [] && this.limits == limits && this.faults == faults
    {
      this.limits, this.faults, calls := limits, faults, 0;
      sets, past := map[], [];
    }

    // ZREMRANGEBYSCORE: an expired set is gone, and an emptied one is removed.
    method RemoveByScore(key: string, minTime: int, server: int)
      modifies this`sets
      ensures sets == Without(old(sets), key, Pruned(old(sets), key, minTime, server))
    {
      if key !in sets {
        assert sets == sets - {key};
      } else if sets[key].expireAt <= server {
        sets := sets - {key};
      } else {
        var set0 := sets[key];
        var scores := map m | m in set0.scores && minTime < set0.scores[m] :: set0.scores[m];
        sets := if scores == map[] then sets - {key} else sets[key := SortedSet(scores, set0.expireAt)];
      }
    }

    // The Lua script, command by command.
    method RunScript(key: string, now: int, window: int, limit: int, request: string, server: int)
      returns (allowed: bool)
      modifies this`sets
      ensures (sets, allowed) == Script(old(sets), key, now, window, limit, request, server)
    {
      hide Pruned;
      RemoveByScore(key, now - window, server);
      var scores := if key in sets then sets[key].scores else map[];
      if |scores| >= limit {
        return false;
      }
      sets := sets[key := SortedSet(scores[request := now], server + window + 10)];
      assert sets == old(sets)[key := sets[key]];
      return true;
    }

    method CheckWindow(e: Event) returns (r: Verdict)
      requires Valid() && Regular(past + [e]) && e.call < calls
      requires e.span != Minute ==> AdmittedNarrower(Admitted(limits, past), e)
      modifies this`sets, this`faults, this`past
      ensures Valid()
      ensures past == old(past) || past == old(past) + [e]
      ensures r != Failed ==> past == old(past) + [e]
      ensures r != Failed && e.span == Minute ==>
        (r == Allowed <==> CountIn(Admitted(limits, old(past)), e.id, Minute, e.at - 60, e.at) < limits.minute)
      ensures r != Failed && e.span == Hour ==>
        (r == Allowed <==> CountIn(Admitted(limits, old(past)), e.id, Hour, e.at - 3600, e.at) < limits.hour)
      ensures r != Failed && e.span == Day ==>
        (r == Allowed <==> CountIn(Admitted(limits, old(past)), e.id, Day, e.at - 86400, e.at) < limits.day)
      ensures old(faults) == [] ==> r != Failed && faults == []
    {
      hide Regular, InOrder, CountIn, Admitted, Key, Script, AdmittedNarrower;
      var fault := Fine;
      if faults != [] {
        fault, faults := faults[0], faults[1..];
      }
      if fault == NotSent {
        return Failed;
      }
      PruningInvisible(limits, past, e);
      InOrderExtends(limits, past, e);
      assert (past + [e])[..|past|] == past;
      var allowed := RunScript(Key(e.id, e.span), e.at, Seconds(e.span), LimitOf(limits, e.span), e.request, e.server);
      past := past + [e];
      if fault == ReplyLost {
        return Failed;
      }
      return if allowed then Allowed else Limited;
    }

    // One script of another caller.
    method Serve(e: Event)
      requires Valid() && Regular(past + [e])
      requires e.span != Minute ==> AdmittedNarrower(Admitted(limits, past), e)
      modifies this`sets, this`past, this`calls
      ensures Valid() && past == old(past) + [e] && old(calls) <= calls
    {
      hide Regular, InOrder, Recent, Admitted, Admits, Key, Script, AdmittedNarrower;
      InOrderExtends(limits, past, e);
      assert (past + [e])[..|past|] == past;
      var allowed :=
        RunScript(Key(e.id, e.span), e.at, Seconds(e.span), LimitOf(limits, e.span), e.request, e.server);
      past := past + [e];
      calls := if e.call < calls then calls else e.call + 1;
    }

    // The scripts of other callers that reach the server meanwhile.
    method LetOthers(others: seq<Event>, ghost call: nat)
      requires Valid() && Regular(past + others) && Behaves(limits, past, others, call) && call < calls
      modifies this`sets, this`past, this`calls
      ensures Valid() && past == old(past) + others && old(calls) <= calls
    {
      hide Regular, InOrder, Recent, Admitted, Admits, Key, Script, AdmittedNarrower;
      ghost var before := past;
      assert before + others[..0] == before;
      for k := 0 to |others|
        invariant Valid() && past == before + others[..k] && old(calls) <= calls
      {
        assert others[..k + 1] == others[..k] + [others[k]] && before + others[..k + 1] == past + [others[k]];
        RegularPrefix(before, others, k + 1);
        Serve(others[k]);
      }
      assert others[..|others|] == others;
    }

    // Other callers' scripts, and then this call's own check.
    method NextCheck(others: seq<Event>, e: Event) returns (r: Verdict)
      requires Valid() && e.call < calls && Regular(past + others + [e])
      requires Behaves(limits, past, others, e.call)
      requires e.span != Minute ==> AdmittedNarrower(Admitted(limits, past + others), e)
      modifies this
      ensures Valid() && old(calls) <= calls
      ensures past == old(past) + others + [e] || (r == Failed && past == old(past) + others)
      ensures r != Failed ==> (r == Allowed <==> Admits(limits, Admitted(limits, old(past) + others), e))
      ensures old(faults) == [] ==> r != Failed && faults == []
    {
      hide Regular, InOrder, CountIn, Admitted, Key, Script, AdmittedNarrower;
      RegularPrefix(past + others, [e], 0);
      assert past + others + [e][..0] == past + others;
      LetOthers(others, e.call);
      r := CheckWindow(e);
    }

    // Other callers' scripts run before each of the three checks. A verdict of Allowed takes one
    // admission in each window; a verdict of Limited comes from the first window that was full,
    // after one admission in every narrower one.
    method CheckRateLimit(id: string, minute: Tick, hour: Tick, day: Tick,
        first: seq<Event>, second: seq<Event>, third: seq<Event>)
      returns (r: Verdict)
      requires Valid()
      requires var checks, gaps := Checks(calls, id, minute, hour, day), [first, second, third];
        Regular(past + Ran(checks, gaps, 3)) &&
        forall k :: 0 <= k < 3 ==> Behaves(limits, past + Ran(checks, gaps, k), gaps[k], calls)
      modifies this
      ensures Valid() && old(calls) < calls
      ensures exists n: nat ::
        n <= 3 &&
        var checks, gaps := Checks(old(calls), id, minute, hour, day), [first, second, third];
        Outcome(limits, old(past), checks, gaps, n, r) &&
        (past == old(past) + Ran(checks, gaps, n) ||
         (r == Failed && n < 3 && past == old(past) + Ran(checks, gaps, n) + gaps[n]))
      ensures r == Allowed ==> Accepted(Admitted(limits, past), old(calls))
      ensures old(faults) == [] ==> r != Failed
    {
      hide Regular, InOrder, Stored, Recent, Admitted, Admits, Behaves, Ran;
      var checks := Checks(calls, id, minute, hour, day);
      ghost var gaps := [first, second, third];
      calls := calls + 1;
      ghost var before := past;
      assert before + Ran(checks, gaps, 0) == before by {
        NothingRan(checks, gaps);
      }
      CheckReady(limits, before, checks, gaps, 0);
      r := NextCheck(first, checks[0]);
      if r != Allowed {
        assert r == Failed ==> Outcome(limits, before, checks, gaps, 0, r);
        assert Outcome(limits, before, checks, gaps, 1, r);
        return;
      }
      CheckReady(limits, before, checks, gaps, 1);
      r := NextCheck(second, checks[1]);
      if r != Allowed {
        assert r == Failed ==> Outcome(limits, before, checks, gaps, 1, r);
        assert Outcome(limits, before, checks, gaps, 2, r);
        return;
      }
      CheckReady(limits, before, checks, gaps, 2);
      r := NextCheck(third, checks[2]);
      assert r == Failed ==> Outcome(limits, before, checks, gaps, 2, r);
      assert Outcome(limits, before, checks, gaps, 3, r);
      if r == Allowed {
        AdmittedNow(limits, before + Ran(checks, gaps, 2) + third, checks[2]);
      }
    }
  }

  // What reached the server up to a call's n-th check: before each check, others' scripts.
  function Ran(checks: seq<Event>, gaps: seq<seq<Event>>, n: nat): seq<Event>
    requires n <= |checks| == |gaps|
  {
    if n == 0 then [] else Ran(checks, gaps, n - 1) + gaps[n - 1] + [checks[n - 1]]
  }

  // Check k is admitted by the history before it.
  predicate CheckAdmitted(limits: Limits, before: seq<Event>, checks: seq<Event>, gaps: seq<seq<Event>>, k: nat)
    requires k < |checks| == |gaps|
  {
    Admits(limits, Admitted(limits, before + Ran(checks, gaps, k) + gaps[k]), checks[k])
  }

  lemma {:induction false} RanPrefix(checks: seq<Event>, gaps: seq<seq<Event>>, n: nat, m: nat)
    requires n <= m <= |checks| == |gaps|
    ensures Ran(checks, gaps, n) <= Ran(checks, gaps, m)
    decreases m
  {
    if n < m {
      RanPrefix(checks, gaps, n, m - 1);
    }
  }

  predicate Passed(limits: Limits, before: seq<Event>, checks: seq<Event>, gaps: seq<seq<Event>>, n: nat)
    requires n <= |checks| == |gaps|
  {
    forall k :: 0 <= k < n ==> CheckAdmitted(limits, before, checks, gaps, k)
  }

  lemma NothingRan(checks: seq<Event>, gaps: seq<seq<Event>>)
    requires |checks| == |gaps|
    ensures Ran(checks, gaps, 0) == []
  {
  }

  // What NextCheck asks for holds once the checks before it passed.
  lemma CheckReady(limits: Limits, before: seq<Event>, checks: seq<Event>, gaps: seq<seq<Event>>, n: nat)
    requires n < |checks| == |gaps| && Regular(before + Ran(checks, gaps, |checks|))
    requires Passed(limits, before, checks, gaps, n)
    requires n > 0 && checks[n].span != Minute ==>
      checks[n - 1].call == checks[n].call && checks[n - 1].id == checks[n].id &&
      checks[n - 1].span == Narrower(checks[n].span)
    ensures before + Ran(checks, gaps, n) + gaps[n] + [checks[n]] == before + Ran(checks, gaps, n + 1)
    ensures Regular(before + Ran(checks, gaps, n) + gaps[n] + [checks[n]])
    ensures n > 0 && checks[n].span != Minute ==>
      AdmittedNarrower(Admitted(limits, before + Ran(checks, gaps, n) + gaps[n]), checks[n])
  {
    hide Regular, Admits, Admitted, AdmittedNarrower;
    var all, reached := Ran(checks, gaps, |checks|), before + Ran(checks, gaps, n);
    RanPrefix(checks, gaps, n + 1, |checks|);
    assert Ran(checks, gaps, n + 1) == all[..|Ran(checks, gaps, n + 1)|];
    RegularPrefix(before, all, |Ran(checks, gaps, n + 1)|);
    assert reached + gaps[n] + [checks[n]] == before + Ran(checks, gaps, n + 1);
    if n > 0 && checks[n].span != Minute {
      var earlier := before + Ran(checks, gaps, n - 1) + gaps[n - 1];
      assert CheckAdmitted(limits, before, checks, gaps, n - 1);
      assert reached == earlier + [checks[n - 1]];
      NarrowerAdmitted(limits, earlier, checks[n - 1], gaps[n], checks[n]);
    }
  }

  lemma NarrowerAdmitted(limits: Limits, earlier: seq<Event>, narrow: Event, others: seq<Event>, e: Event)
    requires Admits(limits, Admitted(limits, earlier), narrow)
    requires e.span != Minute && narrow.call == e.call && narrow.id == e.id && narrow.span == Narrower(e.span)
    ensures AdmittedNarrower(Admitted(limits, earlier + [narrow] + others), e)
  {
    hide Admits, Admitted;
    AdmittedNow(limits, earlier, narrow);
    var reached := earlier + [narrow];
    assert (reached + others)[..|reached|] == reached;
    AdmittedKept(limits, reached + others, |reached|, narrow);
  }

  // A call ran its first n checks: all but the last admitted, and the verdict is the last one's,
  // unless an exchange with the server failed.
  predicate Outcome(limits: Limits, before: seq<Event>, checks: seq<Event>, gaps: seq<seq<Event>>, n: nat, r: Verdict)
    requires n <= |checks| == |gaps|
  {
    (n > 0 ==> Passed(limits, before, checks, gaps, n - 1)) &&
    (r == Allowed ==> n == |checks| && n > 0 && CheckAdmitted(limits, before, checks, gaps, n - 1)) &&
    (r == Limited ==> n > 0 && !CheckAdmitted(limits, before, checks, gaps, n - 1))
  }

  lemma AdmittedNow(limits: Limits, events: seq<Event>, e: Event)
    requires Admits(limits, Admitted(limits, events), e)
    ensures e in Admitted(limits, events + [e])
  {
    assert (events + [e])[..|events|] == events;
  }

  lemma RegularPrefix(before: seq<Event>, more: seq<Event>, n: nat)
    requires Regular(before + more) && n <= |more|
    ensures Regular(before + more[..n])
  {
    var all, some := before + more, before + more[..n];
    forall i, j | 0 <= i < j < |some|
      ensures ClocksSteady(some[i], some[j]) && (SameSet(some[i], some[j]) ==> some[i].request != some[j].request)
    {
      assert some[i] == all[i] && some[j] == all[j];
    }
  }

  lemma InOrderExtends(limits: Limits, events: seq<Event>, e: Event)
    requires InOrder(limits, events)
    requires e.span != Minute ==> AdmittedNarrower(Admitted(limits, events), e)
    ensures InOrder(limits, events + [e])
  {
    var all := events + [e];
    forall k | 0 <= k < |all| && all[k].span != Minute
      ensures AdmittedNarrower(Admitted(limits, all[..k]), all[k])
    {
      assert all[..k] == if k < |events| then events[..k] else events;
    }
  }
}
