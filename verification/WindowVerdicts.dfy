/** What a focus window decides, and what the package shows when it is over. */
module WindowVerdicts {
  import opened Common
  import opened PointerModel
  import opened QueueLemmas
  import opened PointerInvariants
  import opened RecoveryQueue
  import opened CheckingModel
  import opened CheckingProofs
  import opened CheckingSession
  import opened Resting
  import opened Attention
  import opened HeartbeatStreaks

  // ---------------------------------------------------------------- what is on screen afterwards

  /** Steps after which what is committed for `p`, and whether `p` has lost the focus, stays as it is. */
  predicate Closing(op: Op, p: Package) {
    || op.Screen? || op.EndFocus?
    || (op.OnRow? && op.p == p && (op.r.Touched? || op.r.Counted? || op.r.Uncounted?))
  }

  predicate AllClosing(ops: seq<Op>, p: Package) { forall i :: 0 <= i < |ops| ==> Closing(ops[i], p) }

  /** The package shows what was committed for it and is no longer in focus. */
  predicate Decided(c: Core, p: Package, v: Presence) {
    DisplayState(c, p) == Shown(v) && (p != Nobody ==> c.checking != p)
  }

  lemma ClosingStep(c: Core, op: Op, p: Package)
    requires Closing(op, p) && p in c.rows
    ensures var d := Step(c, op);
            && p in d.rows && d.rows[p].committed == c.rows[p].committed
            && (op == EndFocus(p) || c.checking != p ==> p == Nobody || d.checking != p)
  {
    StepOnRow(c, op, p);
    StepOnFocus(c, op);
  }

  lemma {:induction false} ClosingRun(c: Core, ops: seq<Op>, p: Package)
    requires AllClosing(ops, p) && p in c.rows
    ensures var d := Run(c, ops);
            && p in d.rows && d.rows[p].committed == c.rows[p].committed
            && (EndFocus(p) in ops ==> p == Nobody || d.checking != p)
  {
    if ops != [] {
      var init, op := ops[..|ops| - 1], ops[|ops| - 1];
      ClosingRun(c, init, p);
      assert ops == init + [op];
      ClosingStep(Run(c, init), op, p);
    }
  }

  lemma CommitIs(c: Core, p: Package, v: Presence)
    ensures var d := Step(c, OnRow(p, Committed(v))); p in d.rows && d.rows[p].committed == v
  {
  }

  lemma CommittedIsShown(c: Core, p: Package, v: Presence)
    requires p in c.rows && c.rows[p].committed == v && v != Unset
    ensures DisplayState(c, p) == Shown(v)
  {
  }

  /** Steps that commit `v` for `p` and then only close the window. */
  lemma CommitThenClose(c: Core, before: seq<Op>, after: seq<Op>, p: Package, v: Presence)
    requires v != Unset && AllClosing(after, p) && EndFocus(p) in after
    ensures Decided(Run(c, before + [OnRow(p, Committed(v))] + after), p, v)
  {
    var c1 := Run(c, before + [OnRow(p, Committed(v))]);
    RunSnoc(c, before, OnRow(p, Committed(v)));
    CommitIs(Run(c, before), p, v);
    RunAppend(c, before + [OnRow(p, Committed(v))], after);
    ClosingRun(c1, after, p);
    CommittedIsShown(Run(c1, after), p, v);
  }

  lemma OnlineDecides(c: Core, watched: seq<Op>, p: Package)
    ensures Decided(Run(c, watched + OnlineOps(p)), p, Online)
  {
    var before := watched + [OnRow(p, Touched), OnRow(p, Uncounted)];
    var after := [Screen(SetText(OnlineText)), EndFocus(p)];
    assert watched + OnlineOps(p) == before + [OnRow(p, Committed(Online))] + after;
    assert after[1] == EndFocus(p);
    CommitThenClose(c, before, after, p, Online);
  }

  lemma TimeoutDecides(c: Core, watched: seq<Op>, p: Package, v: Presence)
    requires v != Unset
    ensures Decided(Run(c, watched + TimeoutOps(p, v)), p, v)
  {
    var after := [EndFocus(p)] + (if v == NoHeartbeat then [OnRow(p, Counted)] else []);
    assert watched + TimeoutOps(p, v) == watched + [OnRow(p, Committed(v))] + after;
    assert after[0] == EndFocus(p);
    CommitThenClose(c, watched, after, p, v);
  }

  /** Steps that leave the focus alone. */
  lemma {:induction false} ScreenRun(c: Core, ops: seq<Op>)
    requires forall i :: 0 <= i < |ops| ==> ops[i].Screen?
    ensures Run(c, ops) == c
  {
    if ops != [] { ScreenRun(c, ops[..|ops| - 1]); }
  }

  /** A window that is broken off keeps the package in focus. */
  lemma WatchingKeepsFocus(c: Core, p: Package, w: Window, m: Limits)
    ensures Run(c, [BeginChecking(p, m.deadline)] + Watch(w.polls, -1, m.deadline).0)
            == Step(c, BeginChecking(p, m.deadline))
  {
    RunOne(c, BeginChecking(p, m.deadline));
    RunAppend(c, [BeginChecking(p, m.deadline)], Watch(w.polls, -1, m.deadline).0);
    ScreenRun(Step(c, BeginChecking(p, m.deadline)), Watch(w.polls, -1, m.deadline).0);
  }

  lemma EndFocusLeaves(c: Core, p: Package)
    requires p != Nobody
    ensures Run(c, [EndFocus(p)]).checking != p
  {
    RunOne(c, EndFocus(p));
  }

  /** What is on screen after a window, by the way it ended. */
  ghost predicate ShownAfter(d: Core, p: Package, e: Ending) {
    match e
    case EarlyOnline => Decided(d, p, Online)
    case LateOnline => Decided(d, p, Online)
    case Silent => Decided(d, p, NoHeartbeat)
    case GivenUp => p != Nobody ==> d.checking != p
    case Broken => d.checking == p
    case _ => true
  }

  lemma TimedOutShows(c: Core, watched: seq<Op>, p: Package, online: bool, limit: int, h: Handler)
    requires WellFormed(c) && HandlerOk(h)
    ensures var f := TimedOutRound(c, watched, p, online, limit, h); ShownAfter(Run(c, f.0.ops), p, f.1)
  {
    TimeoutDecides(c, watched, p, if online then Online else NoHeartbeat);
  }

  /** What a window that is decided before its time is up consists of; a Dead one goes on with its recovery. */
  lemma EarlyLookIs(c: Core, p: Package, w: Window, m: Limits, h: Handler)
    requires WellFormed(c) && HandlerOk(h) && AtRest(c) && p !in c.unrecoverable && !w.preDead && !RowOf(c, p).rawDead
    ensures var watched := [BeginChecking(p, m.deadline)] + Watch(w.polls, -1, m.deadline).0;
            var f := Focus(c, p, w, m.noHeartbeat, m.deadline, h);
            match Watch(w.polls, -1, m.deadline).1
            case OnlineSeen => f == (Round(watched + OnlineOps(p), [], []), EarlyOnline)
            case ProbeRaised => f == (Round(watched, [], []), Broken)
            case DeadSeen => f.1 == SawDead
            case TimedOut => true
  {
  }

  lemma LookShows(c: Core, p: Package, w: Window, m: Limits, h: Handler)
    requires WellFormed(c) && HandlerOk(h) && AtRest(c) && p !in c.unrecoverable && !w.preDead && !RowOf(c, p).rawDead
    ensures var f := Focus(c, p, w, m.noHeartbeat, m.deadline, h); ShownAfter(Run(c, f.0.ops), p, f.1)
  {
    var watch := Watch(w.polls, -1, m.deadline);
    if watch.1.TimedOut? {
      FullLookShows(c, p, w, m, h);
    } else {
      EarlyLookIs(c, p, w, m, h);
      WatchingKeepsFocus(c, p, w, m);
      OnlineDecides(c, [BeginChecking(p, m.deadline)] + watch.0, p);
    }
  }

  /** What a window that runs its full time consists of. */
  lemma FullLookIs(c: Core, p: Package, w: Window, m: Limits, h: Handler)
    requires WellFormed(c) && HandlerOk(h) && AtRest(c) && p !in c.unrecoverable && !w.preDead && !RowOf(c, p).rawDead
    requires Watch(w.polls, -1, m.deadline).1.TimedOut?
    ensures var watched := [BeginChecking(p, m.deadline)] + Watch(w.polls, -1, m.deadline).0;
            Focus(c, p, w, m.noHeartbeat, m.deadline, h) ==
              if w.lateRaised then (Round(watched, [], []), Broken)
              else TimedOutRound(c, watched, p, w.lateOnline, m.noHeartbeat, h)
  {
  }

  lemma FullLookShows(c: Core, p: Package, w: Window, m: Limits, h: Handler)
    requires WellFormed(c) && HandlerOk(h) && AtRest(c) && p !in c.unrecoverable && !w.preDead && !RowOf(c, p).rawDead
    requires Watch(w.polls, -1, m.deadline).1.TimedOut?
    ensures var f := Focus(c, p, w, m.noHeartbeat, m.deadline, h); ShownAfter(Run(c, f.0.ops), p, f.1)
  {
    var watched := [BeginChecking(p, m.deadline)] + Watch(w.polls, -1, m.deadline).0;
    FullLookIs(c, p, w, m, h);
    if w.lateRaised {
      WatchingKeepsFocus(c, p, w, m);
    } else {
      TimedOutShows(c, watched, p, w.lateOnline, m.noHeartbeat, h);
    }
  }

  /** A window that turned out Online, early or late, leaves its package showing Online; one that stayed silent
      leaves it showing No Heartbeat; either way the package is out of focus.  A window broken off by an exception
      leaves it in focus. */
  lemma WindowShows(c: Core, p: Package, w: Window, m: Limits, h: Handler)
    requires WellFormed(c) && HandlerOk(h)
    ensures var f := Focus(c, p, w, m.noHeartbeat, m.deadline, h);
            ShownAfter(Run(c, f.0.ops), p, f.1) && (f.1 == Stopped ==> f.0.ops == [])
  {
    if AtRest(c) && p in c.unrecoverable {
      if p != Nobody { EndFocusLeaves(c, p); }
    } else if AtRest(c) && !w.preDead && !RowOf(c, p).rawDead {
      LookShows(c, p, w, m, h);
    }
  }

  // ---------------------------------------------------------------- how it ends

  /** The evidence that decides the window: the first look that shows anything, or the end of its time. */
  datatype Evidence = DeadLook | OnlineLook | RaisedLook | Nothing

  function Deciding(polls: seq<Poll>, deadline: real): Evidence {
    if polls == [] then Nothing
    else
      match polls[0]
      case LookRaised => RaisedLook
      case Look(elapsed, dead, online) =>
        if dead then DeadLook else if online then OnlineLook
        else if elapsed < deadline then Deciding(polls[1..], deadline) else Nothing
  }

  /** The ending, said of the evidence, the state before the window and the count of silent windows. */
  function EndingBy(c: Core, p: Package, w: Window, m: Limits): Ending {
    if c.paused || c.inProgress then Stopped
    else if p in c.unrecoverable then GivenUp
    else if w.preDead || RowOf(c, p).rawDead then SawDead
    else
      match Deciding(w.polls, m.deadline)
      case DeadLook => SawDead
      case OnlineLook => EarlyOnline
      case RaisedLook => Broken
      case Nothing =>
        if w.lateRaised then Broken
        else if w.lateOnline then LateOnline
        else if RowOf(c, p).noHeartbeat + 1 >= m.noHeartbeat then LimitDead
        else Silent
  }

  lemma {:induction false} WatchSees(polls: seq<Poll>, lastTick: int, deadline: real)
    ensures Watch(polls, lastTick, deadline).1 ==
      match Deciding(polls, deadline)
      case DeadLook => DeadSeen
      case OnlineLook => OnlineSeen
      case RaisedLook => ProbeRaised
      case Nothing => TimedOut
  {
    if polls != [] && polls[0].Look? { WatchSees(polls[1..], polls[0].elapsed.Floor, deadline); }
  }

  /** A window ends as its evidence says, and by the limit exactly when the count of silent windows reaches it. */
  lemma WindowEndsBy(c: Core, p: Package, w: Window, m: Limits, h: Handler)
    requires WellFormed(c) && HandlerOk(h)
    ensures Focus(c, p, w, m.noHeartbeat, m.deadline, h).1 == EndingBy(c, p, w, m)
  {
    WatchSees(w.polls, -1, m.deadline);
    var watched := [BeginChecking(p, m.deadline)] + Watch(w.polls, -1, m.deadline).0;
    SilentSteps(c, watched, p, m.noHeartbeat, h);
  }

  // ---------------------------------------------------------------- the timer

  /** How many looks pass before one decides the window; a look at the deadline still moves the timer. */
  function Undecided(polls: seq<Poll>, deadline: real): (n: nat)
    ensures n <= |polls| && forall i :: 0 <= i < n ==> polls[i].Look? && !polls[i].dead && !polls[i].online
  {
    if polls == [] || polls[0].LookRaised? || polls[0].dead || polls[0].online then 0
    else if polls[0].elapsed >= deadline then 1 else 1 + Undecided(polls[1..], deadline)
  }

  /** The second a timer step shows. */
  function TickOf(op: Op): int { if op.Screen? && op.h.UpdateTimer? then op.h.elapsed.Floor else -1 }

  /** No second is shown twice in a row. */
  lemma {:induction false} TicksOncePerSecond(polls: seq<Poll>, lastTick: int, deadline: real)
    ensures var ticks := Watch(polls, lastTick, deadline).0;
            && (forall i :: 0 <= i < |ticks| ==> ticks[i].h.UpdateTimer? && ticks[i].h.limit == deadline)
            && (ticks != [] ==> TickOf(ticks[0]) != lastTick)
            && (forall i :: 0 <= i < |ticks| - 1 ==> TickOf(ticks[i]) != TickOf(ticks[i + 1]))
  {
    if Undecided(polls, deadline) > 0 && polls[0].elapsed < deadline {
      TicksOncePerSecond(polls[1..], polls[0].elapsed.Floor, deadline);
    }
  }

  predicate SecondShown(ticks: seq<Op>, second: int) { exists i | 0 <= i < |ticks| :: TickOf(ticks[i]) == second }

  lemma ShownLater(a: seq<Op>, b: seq<Op>, second: int)
    requires SecondShown(b, second)
    ensures SecondShown(a + b, second)
  {
    var i :| 0 <= i < |b| && TickOf(b[i]) == second;
    assert (a + b)[|a| + i] == b[i];
  }

  /** And every look that does not decide the window has its second shown. */
  lemma {:induction false} EverySecondIsShown(polls: seq<Poll>, lastTick: int, deadline: real, n: nat)
    requires n < Undecided(polls, deadline)
    ensures polls[n].elapsed.Floor == lastTick
            || SecondShown(Watch(polls, lastTick, deadline).0, polls[n].elapsed.Floor)
  {
    var ticks, first := Watch(polls, lastTick, deadline).0, polls[0].elapsed.Floor;
    if first != lastTick { assert TickOf(ticks[0]) == first; }
    if n > 0 && polls[n].elapsed.Floor != first {
      var tick := if first != lastTick then [Screen(UpdateTimer(polls[0].elapsed, deadline))] else [];
      EverySecondIsShown(polls[1..], first, deadline, n - 1);
      ShownLater(tick, Watch(polls[1..], first, deadline).0, polls[n].elapsed.Floor);
    }
  }

  // ---------------------------------------------------------------- Dead windows

  /** The package is committed and shown Dead, checking is paused, and unless it was given up it waits. */
  predicate ReadyToRecover(c: Core, p: Package) {
    && CommittedDead(c, p) && DisplayState(c, p) == Shown(Dead) && c.paused
    && (p in c.unrecoverable || p in c.queue || c.active == p)
  }

  lemma DeadDetectedReady(c: Core, p: Package)
    requires p != Nobody
    ensures ReadyToRecover(Run(c, [DeadDetected(p), SetPause(true)]), p)
  {
    DeadRun(c, p);
    DeadDetectedOnRow(c, p, p);
    DeadJoins(c, p);
    StepOnActive(c, DeadDetected(p));
    MarksOnlyGrow(c, DeadDetected(p));
  }

  lemma LimitReady(c: Core, p: Package)
    requires p != Nobody
    ensures ReadyToRecover(Run(c, LimitOps(p)), p)
  {
    var c1 := RowCore(c, p, Committed(Dead));
    LimitRun(c, p);
    EnqueueOnRow(c1, p, p);
    JoinedIs(c1, p);
    StepOnActive(c1, Enqueue(p));
    MarksOnlyGrow(c1, Enqueue(p));
  }

  lemma DeclaredReady(c: Core, watched: seq<Op>, p: Package)
    requires p != Nobody
    ensures ReadyToRecover(Run(c, watched + [DeadDetected(p), SetPause(true)]), p)
    ensures ReadyToRecover(Run(c, watched + LimitOps(p)), p)
  {
    RunAppend(c, watched, [DeadDetected(p), SetPause(true)]);
    RunAppend(c, watched, LimitOps(p));
    DeadDetectedReady(Run(c, watched), p);
    LimitReady(Run(c, watched), p);
  }

  lemma StartReady(c: Core, p: Package, w: Window, m: Limits)
    requires p != Nobody && FocusStart(c, p, w, m).Some?
    ensures ReadyToRecover(Run(c, FocusStart(c, p, w, m).value), p)
  {
    var watched := [BeginChecking(p, m.deadline)] + Watch(w.polls, -1, m.deadline).0;
    DeadDetectedReady(c, p);
    DeclaredReady(c, watched, p);
    DeclaredReady(c, watched + TimeoutOps(p, NoHeartbeat), p);
  }

  /** A window that ends Dead runs the recovery from a state in which its package is declared so, and only such a
      window does. */
  lemma WindowDeclares(c: Core, p: Package, w: Window, m: Limits, h: Handler)
    requires WellFormed(c) && HandlerOk(h) && p != Nobody
    ensures var f, start := Focus(c, p, w, m.noHeartbeat, m.deadline, h), FocusStart(c, p, w, m);
            if f.1 == SawDead || f.1 == LimitDead
            then start.Some? && f.0 == AndRecover(c, start.value, h) && ReadyToRecover(Run(c, start.value), p)
            else start.None? && f.0.calls == []
  {
    var start := FocusStart(c, p, w, m);
    if start.Some? {
      FocusRecovers(c, p, w, m, h);
      StartReady(c, p, w, m);
    }
  }
}
