/** How many No Heartbeat windows make a package Dead. */
module HeartbeatStreaks {
  import opened PointerModel
  import opened QueueLemmas
  import opened PointerInvariants
  import opened RecoveryQueue
  import opened CheckingModel
  import opened CheckingProofs
  import opened CheckingSession

  /** How many No Heartbeat results were counted for `p` since the last reset. */
  function Tally(start: nat, ops: seq<Op>, p: Package): nat {
    if ops == [] then start
    else
      var n := Tally(start, ops[..|ops| - 1], p);
      match ops[|ops| - 1]
      case OnRow(q, Counted) => if q == p then n + 1 else n
      case OnRow(q, Uncounted) => if q == p then 0 else n
      case _ => n
  }

  /** No step but the counting and the reset themselves touches the counter; not even a new Start. */
  lemma {:induction false} CounterIsTheTally(c: Core, ops: seq<Op>, p: Package)
    ensures RowOf(Run(c, ops), p).noHeartbeat == Tally(RowOf(c, p).noHeartbeat, ops, p)
  {
    if ops != [] {
      CounterIsTheTally(c, ops[..|ops| - 1], p);
      StepOnCounter(Run(c, ops[..|ops| - 1]), ops[|ops| - 1], p);
    }
  }

  lemma StepOnCounter(c: Core, op: Op, p: Package)
    ensures var n, d := RowOf(c, p).noHeartbeat, Step(c, op);
            RowOf(d, p).noHeartbeat ==
              if op == OnRow(p, Counted) then n + 1 else if op == OnRow(p, Uncounted) then 0 else n
  {
    StepOnRow(c, op, p);
    RowCounter(c, op, p);
  }

  lemma RowCounter(c: Core, op: Op, p: Package)
    ensures var n := RowOf(c, p).noHeartbeat;
            RowAfter(c, op, p).noHeartbeat ==
              if op == OnRow(p, Counted) then n + 1 else if op == OnRow(p, Uncounted) then 0 else n
  {
    match op
    case OnRow(q, r) => OnRowCounter(RowOf(c, p), r);
    case EndRecovery(failed, reason, _) => SettledCounter(RowOf(c, p), failed, reason);
    case _ =>
  }

  lemma OnRowCounter(row: Row, r: RowOp)
    ensures RowStep(row, r).noHeartbeat ==
              if r == Counted then row.noHeartbeat + 1 else if r == Uncounted then 0 else row.noHeartbeat
  {
  }

  lemma SettledCounter(row: Row, failed: bool, reason: Reason)
    ensures Unfocused(Settled(row, failed, reason)).noHeartbeat == row.noHeartbeat
  {
  }

  lemma {:induction false} TallyAppend(n: nat, a: seq<Op>, b: seq<Op>, p: Package)
    ensures Tally(n, a + b, p) == Tally(Tally(n, a, p), b, p)
  {
    if b == [] {
      assert a + b == a;
    } else {
      TallyAppend(n, a, b[..|b| - 1], p);
      assert (a + b)[..|a + b| - 1] == a + b[..|b| - 1];
    }
  }

  /** Steps that neither count nor reset. */
  predicate Quiet(ops: seq<Op>) {
    forall i :: 0 <= i < |ops| ==> !(ops[i].OnRow? && (ops[i].r.Counted? || ops[i].r.Uncounted?))
  }

  lemma {:induction false} QuietTally(n: nat, ops: seq<Op>, p: Package)
    requires Quiet(ops)
    ensures Tally(n, ops, p) == n
  {
    if ops != [] { QuietTally(n, ops[..|ops| - 1], p); }
  }

  /** Quiet steps around others make no difference. */
  lemma AroundTally(n: nat, before: seq<Op>, ops: seq<Op>, after: seq<Op>, p: Package)
    requires Quiet(before) && Quiet(after)
    ensures Tally(n, before + ops + after, p) == Tally(n, ops, p)
  {
    TallyAppend(n, before + ops, after, p);
    TallyAppend(n, before, ops, p);
    QuietTally(n, before, p);
    QuietTally(Tally(n, before + ops, p), after, p);
  }

  lemma TriedTally(n: nat, o: Handling, after: seq<Op>, p: Package)
    requires Quiet(after)
    ensures Tally(n, Tried(o) + after, p) == Tally(n, o.ops, p)
  {
    AroundTally(n, [Dequeue, SetPause(true), Screen(Touch)], o.ops, after, p);
  }

  /** In a round of recovery only the steps made while handlers ran count. */
  ghost predicate OnlyHandlersCount(r: Round) {
    forall n: nat, q: Package :: Tally(n, r.ops, q) == Tally(n, r.handled, q)
  }

  lemma FailureTally(o: Handling, undo: seq<Op>, rest: Round, calls: seq<Package>)
    requires Quiet(undo) && OnlyHandlersCount(rest)
    ensures OnlyHandlersCount(Round(Tried(o) + undo + rest.ops, calls, o.ops + rest.handled))
  {
    forall n: nat, q: Package ensures Tally(n, Tried(o) + undo + rest.ops, q) == Tally(n, o.ops + rest.handled, q) {
      TriedTally(n, o, undo, q);
      TallyAppend(n, Tried(o) + undo, rest.ops, q);
      TallyAppend(n, o.ops, rest.handled, q);
    }
  }

  lemma SuccessTally(o: Handling, after: seq<Op>, calls: seq<Package>)
    requires Quiet(after)
    ensures OnlyHandlersCount(Round(Tried(o) + after, calls, o.ops))
  {
    forall n: nat, q: Package ensures Tally(n, Tried(o) + after, q) == Tally(n, o.ops, q) {
      TriedTally(n, o, after, q);
    }
  }

  lemma NothingTally(ops: seq<Op>)
    requires Quiet(ops)
    ensures OnlyHandlersCount(Round(ops, [], []))
  {
    forall n: nat, q: Package ensures Tally(n, ops, q) == n { QuietTally(n, ops, q); }
  }

  lemma QuietParts(c: Core, p: Package, reason: Reason)
    ensures Quiet(GiveUp(p, reason)) && Quiet(Proceed(c)) && Quiet(LimitOps(p))
  {
  }

  lemma FailedTally(c: Core, h: Handler, k: nat)
    requires WellFormed(c) && HandlerOk(h) && !c.inProgress && DequeueCore(c).1 != Nobody && Fails(c, h, k)
    requires WellFormed(NextTry(c, h, k)) && OnlyHandlersCount(ProcessNext(NextTry(c, h, k), h, k + 1))
    ensures OnlyHandlersCount(ProcessNext(c, h, k))
  {
    var p := DequeueCore(c).1;
    var o := h.answer(k, p);
    var c1, rest := Run(c, Tried(o)), ProcessNext(NextTry(c, h, k), h, k + 1);
    FailureSteps(c, h, k);
    QuietParts(c, p, FailReason(c1, o));
    FailureTally(o, GiveUp(p, FailReason(c1, o)), rest, [p] + rest.calls);
  }

  lemma SucceededTally(c: Core, h: Handler, k: nat)
    requires WellFormed(c) && HandlerOk(h) && !c.inProgress && DequeueCore(c).1 != Nobody && !Fails(c, h, k)
    ensures OnlyHandlersCount(ProcessNext(c, h, k))
  {
    var p := DequeueCore(c).1;
    var o := h.answer(k, p);
    SuccessSteps(c, h, k);
    QuietParts(Run(c, Tried(o)), p, NoReason);
    SuccessTally(o, Proceed(Run(c, Tried(o))), [p]);
  }

  lemma {:induction false} RecoveryTally(c: Core, h: Handler, k: nat)
    requires WellFormed(c) && HandlerOk(h)
    ensures OnlyHandlersCount(ProcessNext(c, h, k))
    decreases |Hopeful(c, h.known)|
  {
    if c.inProgress {
      NothingTally([]);
    } else if DequeueCore(c).1 == Nobody {
      NothingTally([Dequeue, SetPause(false)]);
    } else if Fails(c, h, k) {
      AfterFailure(c, h, k);
      RecoveryTally(NextTry(c, h, k), h, k + 1);
      FailedTally(c, h, k);
    } else {
      SucceededTally(c, h, k);
    }
  }

  /** What a window does to the tally of the package in focus. */
  function WindowTally(n: nat, e: Ending): nat {
    match e
    case EarlyOnline => 0
    case Silent => n + 1
    case LimitDead => n + 1
    case _ => n
  }

  /** Steps, then a verdict, then recovery: only the first and the handlers count. */
  lemma RecoveringTally(c: Core, n: nat, counted: seq<Op>, quiet: seq<Op>, h: Handler, q: Package)
    requires WellFormed(c) && HandlerOk(h) && Quiet(quiet)
    ensures var r := AndRecover(c, counted + quiet, h);
            Tally(n, r.ops, q) == Tally(Tally(n, counted, q), r.handled, q)
  {
    RunKeepsWellFormed(c, counted + quiet);
    var rest := ProcessNext(Run(c, counted + quiet), h, 0).ops;
    TallyAppend(n, counted + quiet, rest, q);
    TallyAppend(n, counted, quiet, q);
    QuietTally(Tally(n, counted, q), quiet, q);
    RecoveryTally(Run(c, counted + quiet), h, 0);
  }

  lemma OneTally(n: nat, op: Op, q: Package)
    ensures Tally(n, [op], q) ==
      if op == OnRow(q, Counted) then n + 1 else if op == OnRow(q, Uncounted) then 0 else n
  {
    assert [op][..0] == [];
  }

  lemma OnlineTally(n: nat, watched: seq<Op>, p: Package, q: Package)
    requires Quiet(watched)
    ensures Tally(n, watched + OnlineOps(p), q) == if q == p then 0 else n
  {
    var after := [OnRow(p, Committed(Online)), Screen(SetText(OnlineText)), EndFocus(p)];
    assert watched + OnlineOps(p) == watched + [OnRow(p, Touched)] + [OnRow(p, Uncounted)] + after;
    AroundTally(n, watched + [OnRow(p, Touched)], [OnRow(p, Uncounted)], after, q);
    OneTally(n, OnRow(p, Uncounted), q);
  }

  lemma TimeoutTally(n: nat, watched: seq<Op>, p: Package, state: Presence, q: Package)
    requires Quiet(watched)
    ensures Tally(n, watched + TimeoutOps(p, state), q) == if q == p && state == NoHeartbeat then n + 1 else n
  {
    var before := watched + [OnRow(p, Committed(state)), EndFocus(p)];
    if state == NoHeartbeat {
      assert watched + TimeoutOps(p, state) == before + [OnRow(p, Counted)] + [];
      AroundTally(n, before, [OnRow(p, Counted)], [], q);
      OneTally(n, OnRow(p, Counted), q);
    } else {
      assert watched + TimeoutOps(p, state) == before;
      QuietTally(n, before, q);
    }
  }

  ghost predicate WindowOk(c: Core, f: (Round, Ending), p: Package, limit: int, q: Package) {
    var n, own := RowOf(c, q).noHeartbeat, RowOf(c, p).noHeartbeat + 1;
    && Tally(n, f.0.ops, q) == Tally(if q == p then WindowTally(n, f.1) else n, f.0.handled, q)
    && (f.1 == LimitDead ==> own >= limit)
    && (f.1 == Silent ==> own < limit)
  }

  lemma SilentCount(c: Core, watched: seq<Op>, p: Package)
    requires Quiet(watched)
    ensures RowOf(Run(c, watched + TimeoutOps(p, NoHeartbeat)), p).noHeartbeat == RowOf(c, p).noHeartbeat + 1
  {
    CounterIsTheTally(c, watched + TimeoutOps(p, NoHeartbeat), p);
    TimeoutTally(RowOf(c, p).noHeartbeat, watched, p, NoHeartbeat, p);
  }

  lemma LateOnlineTally(c: Core, watched: seq<Op>, p: Package, limit: int, h: Handler, q: Package)
    requires WellFormed(c) && HandlerOk(h) && Quiet(watched)
    ensures WindowOk(c, TimedOutRound(c, watched, p, true, limit, h), p, limit, q)
  {
    TimeoutTally(RowOf(c, q).noHeartbeat, watched, p, Online, q);
  }

  /** What a silent window consists of. */
  lemma SilentSteps(c: Core, watched: seq<Op>, p: Package, limit: int, h: Handler)
    requires WellFormed(c) && HandlerOk(h) && Quiet(watched)
    ensures var quiet := watched + TimeoutOps(p, NoHeartbeat);
            TimedOutRound(c, watched, p, false, limit, h)
            == if RowOf(c, p).noHeartbeat + 1 >= limit then (AndRecover(c, quiet + LimitOps(p), h), LimitDead)
               else (Round(quiet, [], []), Silent)
  {
    SilentCount(c, watched, p);
  }

  lemma LimitTally(c: Core, quiet: seq<Op>, p: Package, limit: int, h: Handler, q: Package)
    requires WellFormed(c) && HandlerOk(h) && RowOf(c, p).noHeartbeat + 1 >= limit
    requires Tally(RowOf(c, q).noHeartbeat, quiet, q) == RowOf(c, q).noHeartbeat + if q == p then 1 else 0
    ensures WindowOk(c, (AndRecover(c, quiet + LimitOps(p), h), LimitDead), p, limit, q)
  {
    var n, r := RowOf(c, q).noHeartbeat, AndRecover(c, quiet + LimitOps(p), h);
    assert Tally(n, r.ops, q) == Tally(Tally(n, quiet, q), r.handled, q) by {
      QuietParts(c, p, NoReason);
      RecoveringTally(c, n, quiet, LimitOps(p), h, q);
    }
    assert Tally(n, quiet, q) == if q == p then WindowTally(n, LimitDead) else n;
  }

  lemma SilentTally(c: Core, watched: seq<Op>, p: Package, limit: int, h: Handler, q: Package)
    requires WellFormed(c) && HandlerOk(h) && Quiet(watched)
    ensures WindowOk(c, TimedOutRound(c, watched, p, false, limit, h), p, limit, q)
  {
    SilentSteps(c, watched, p, limit, h);
    TimeoutTally(RowOf(c, q).noHeartbeat, watched, p, NoHeartbeat, q);
    if RowOf(c, p).noHeartbeat + 1 >= limit {
      LimitTally(c, watched + TimeoutOps(p, NoHeartbeat), p, limit, h, q);
    }
  }

  lemma TimedOutTally(c: Core, watched: seq<Op>, p: Package, online: bool, limit: int, h: Handler, q: Package)
    requires WellFormed(c) && HandlerOk(h) && Quiet(watched)
    ensures WindowOk(c, TimedOutRound(c, watched, p, online, limit, h), p, limit, q)
  {
    if online { LateOnlineTally(c, watched, p, limit, h, q); } else { SilentTally(c, watched, p, limit, h, q); }
  }

  lemma DeclaredTally(c: Core, n: nat, watched: seq<Op>, p: Package, h: Handler, q: Package)
    requires WellFormed(c) && HandlerOk(h) && Quiet(watched)
    ensures var r := AndRecover(c, watched + [DeadDetected(p), SetPause(true)], h);
            Tally(n, r.ops, q) == Tally(n, r.handled, q)
  {
    RecoveringTally(c, n, watched, [DeadDetected(p), SetPause(true)], h, q);
    QuietTally(n, watched, q);
  }

  /** A window that gets to look at its package. */
  lemma LookTally(c: Core, p: Package, w: Window, m: Limits, h: Handler, q: Package)
    requires WellFormed(c) && HandlerOk(h) && !c.paused && !c.inProgress && p !in c.unrecoverable
    requires !w.preDead && !(p in c.rows && c.rows[p].rawDead)
    ensures WindowOk(c, Focus(c, p, w, m.noHeartbeat, m.deadline, h), p, m.noHeartbeat, q)
  {
    var watch := Watch(w.polls, -1, m.deadline);
    var watched := [BeginChecking(p, m.deadline)] + watch.0;
    match watch.1
    case DeadSeen => DeclaredTally(c, RowOf(c, q).noHeartbeat, watched, p, h, q);
    case OnlineSeen => OnlineTally(RowOf(c, q).noHeartbeat, watched, p, q);
    case ProbeRaised => QuietTally(RowOf(c, q).noHeartbeat, watched, q);
    case TimedOut =>
      QuietTally(RowOf(c, q).noHeartbeat, watched, q);
      TimedOutTally(c, watched, p, w.lateOnline, m.noHeartbeat, h, q);
  }

  lemma WindowTallyIs(c: Core, p: Package, w: Window, m: Limits, h: Handler, q: Package)
    requires WellFormed(c) && HandlerOk(h)
    ensures WindowOk(c, Focus(c, p, w, m.noHeartbeat, m.deadline, h), p, m.noHeartbeat, q)
  {
    var n := RowOf(c, q).noHeartbeat;
    if c.paused || c.inProgress {
    } else if p in c.unrecoverable {
      QuietTally(n, [EndFocus(p)], q);
    } else if w.preDead || (p in c.rows && c.rows[p].rawDead) {
      DeclaredTally(c, n, [], p, h, q);
      assert [] + [DeadDetected(p), SetPause(true)] == [DeadDetected(p), SetPause(true)];
    } else {
      LookTally(c, p, w, m, h, q);
    }
  }

  // ---------------------------------------------------------------- whole sessions

  /** How the last window of a session ended. */
  ghost function LastEnding(es: seq<Event>, m: Limits): Ending
    requires EventsOk(es) && es != [] && es[|es| - 1].FocusOn?
  {
    var e := es[|es| - 1];
    Focus(Session(es[..|es| - 1], m), e.p, e.w, m.noHeartbeat, m.deadline, e.h).1
  }

  /** The steps of an event that the checking system did not make itself. */
  ghost function Foreign(c: Core, e: Event, m: Limits): seq<Op>
    requires WellFormed(c) && EventOk(e)
  {
    match e
    case RoundStart(h) => Tick(c, h).handled
    case FocusOn(p, w, h) => Focus(c, p, w, m.noHeartbeat, m.deadline, h).0.handled
    case FoundDead(p, h) => FocusDead(c, p, h).handled
    case Call(op) => [op]
  }

  /** The No Heartbeat windows of `p` since its last early-Online one, corrected by what handlers and calls from
      elsewhere counted or reset themselves. */
  ghost function Streak(es: seq<Event>, m: Limits, p: Package): nat
    requires EventsOk(es)
  {
    if es == [] then 0
    else
      var init, e := es[..|es| - 1], es[|es| - 1];
      var n := Streak(init, m, p);
      Tally(if e.FocusOn? && e.p == p then WindowTally(n, LastEnding(es, m)) else n,
            Foreign(Session(init, m), e, m), p)
  }

  lemma TickTally(c: Core, n: nat, h: Handler, q: Package)
    requires WellFormed(c) && HandlerOk(h)
    ensures Tally(n, Tick(c, h).ops, q) == Tally(n, Tick(c, h).handled, q)
  {
    var start := [Screen(Touch), Sync, SelfHeal];
    QuietTally(n, start, q);
    RecoveringTally(c, n, start, [], h, q);
    assert start + [] == start;
  }

  lemma FocusDeadTally(c: Core, n: nat, p: Package, h: Handler, q: Package)
    requires WellFormed(c) && HandlerOk(h)
    ensures Tally(n, FocusDead(c, p, h).ops, q) == Tally(n, FocusDead(c, p, h).handled, q)
  {
    QuietTally(n, FocusDeadStart(c, p), q);
    RecoveringTally(c, n, FocusDeadStart(c, p), [], h, q);
    assert FocusDeadStart(c, p) + [] == FocusDeadStart(c, p);
  }

  lemma EventTally(c: Core, e: Event, m: Limits, q: Package)
    requires WellFormed(c) && EventOk(e) && !(e.FocusOn? && e.p == q)
    ensures RowOf(Run(c, StepsOf(c, e, m)), q).noHeartbeat == Tally(RowOf(c, q).noHeartbeat, Foreign(c, e, m), q)
  {
    var n := RowOf(c, q).noHeartbeat;
    CounterIsTheTally(c, StepsOf(c, e, m), q);
    match e {
      case RoundStart(h) => TickTally(c, n, h, q);
      case FocusOn(p, w, h) => WindowTallyIs(c, p, w, m, h, q);
      case FoundDead(p, h) => FocusDeadTally(c, n, p, h, q);
      case Call(op) =>
    }
  }

  /** Over every session, whatever handlers and other callers do, the counter is that streak; a window that turns
      Online only when its time is up does not reset it. */
  lemma {:induction false} CounterIsTheStreak(es: seq<Event>, m: Limits, p: Package)
    requires EventsOk(es)
    ensures RowOf(Session(es, m), p).noHeartbeat == Streak(es, m, p)
  {
    if es != [] {
      var init, e := es[..|es| - 1], es[|es| - 1];
      CounterIsTheStreak(init, m, p);
      var c := Session(init, m);
      if e.FocusOn? && e.p == p {
        WindowTallyIs(c, p, e.w, m, e.h, p);
        CounterIsTheTally(c, StepsOf(c, e, m), p);
      } else {
        EventTally(c, e, m, p);
      }
    }
  }

  /** A silent window declares the package Dead exactly when it completes a streak of `limit`: never
      earlier, and at the `limit`-th at the latest. */
  lemma DeadExactlyAtTheLimit(es: seq<Event>, m: Limits)
    requires EventsOk(es) && es != [] && es[|es| - 1].FocusOn?
    ensures LastEnding(es, m) in {Silent, LimitDead} ==>
              (LastEnding(es, m) == LimitDead <==> Streak(es[..|es| - 1], m, es[|es| - 1].p) + 1 >= m.noHeartbeat)
  {
    var init, e := es[..|es| - 1], es[|es| - 1];
    CounterIsTheStreak(init, m, e.p);
    WindowTallyIs(Session(init, m), e.p, e.w, m, e.h, e.p);
  }

  // ---------------------------------------------------------------- after the limit

  /** The event does not reset the count of `p`: no early Online, and no reset from elsewhere. */
  ghost predicate KeepsStreak(es: seq<Event>, m: Limits, p: Package)
    requires EventsOk(es) && es != []
  {
    var init, e := es[..|es| - 1], es[|es| - 1];
    && OnRow(p, Uncounted) !in Foreign(Session(init, m), e, m)
    && (e.FocusOn? && e.p == p ==> LastEnding(es, m) != EarlyOnline)
  }

  lemma {:induction false} TallyGrows(n: nat, ops: seq<Op>, p: Package)
    requires OnRow(p, Uncounted) !in ops
    ensures Tally(n, ops, p) >= n
  {
    if ops != [] {
      assert ops == ops[..|ops| - 1] + [ops[|ops| - 1]];
      TallyGrows(n, ops[..|ops| - 1], p);
    }
  }

  lemma KeptOnce(es: seq<Event>, m: Limits, p: Package)
    requires EventsOk(es) && es != [] && KeepsStreak(es, m, p)
    ensures Streak(es, m, p) >= Streak(es[..|es| - 1], m, p)
    ensures es[|es| - 1].FocusOn? && es[|es| - 1].p == p && LastEnding(es, m) == LimitDead ==>
              Streak(es, m, p) >= Streak(es[..|es| - 1], m, p) + 1
  {
    var init, e := es[..|es| - 1], es[|es| - 1];
    var n := Streak(init, m, p);
    TallyGrows(if e.FocusOn? && e.p == p then WindowTally(n, LastEnding(es, m)) else n,
               Foreign(Session(init, m), e, m), p);
  }

  /** No event from the n-th on resets the count. */
  ghost predicate KeptFrom(es: seq<Event>, m: Limits, p: Package, n: nat)
    requires EventsOk(es)
  {
    |es| <= n || (KeepsStreak(es, m, p) && KeptFrom(es[..|es| - 1], m, p, n))
  }

  lemma KeptStep(es: seq<Event>, m: Limits, p: Package, n: nat)
    requires EventsOk(es) && n < |es| && KeptFrom(es, m, p, n)
    ensures KeepsStreak(es, m, p) && KeptFrom(es[..|es| - 1], m, p, n)
    ensures Streak(es, m, p) >= Streak(es[..|es| - 1], m, p)
  {
    KeptOnce(es, m, p);
  }

  lemma {:induction false} StreakHolds(first: seq<Event>, es: seq<Event>, m: Limits, p: Package)
    requires EventsOk(es) && EventsOk(first) && 0 < |first| <= |es| && first == es[..|first|]
    requires KeptFrom(es, m, p, |first| - 1)
    ensures KeepsStreak(first, m, p) && Streak(es, m, p) >= Streak(first, m, p)
  {
    KeptStep(es, m, p, |first| - 1);
    if first != es {
      StreakHolds(first, es[..|es| - 1], m, p);
    }
  }

  /** Recovery does not start the count again: once a package was declared Dead at the limit, its very next
      silent window declares it Dead once more and never ends as merely silent, unless something reset the count
      in between. */
  lemma LimitDeadRepeats(es: seq<Event>, m: Limits, n: nat)
    requires EventsOk(es) && n + 1 < |es| && es[n].FocusOn? && LastEnding(es[..n + 1], m) == LimitDead
    requires KeptFrom(es[..|es| - 1], m, es[n].p, n)
    requires es[|es| - 1].FocusOn? && es[|es| - 1].p == es[n].p
    ensures LastEnding(es, m) != Silent
  {
    var p, first := es[n].p, es[..n + 1];
    StreakHolds(first, es[..|es| - 1], m, p);
    DeadExactlyAtTheLimit(first, m);
    KeptOnce(first, m, p);
    DeadExactlyAtTheLimit(es, m);
  }
}
