/** Nobody who needs recovery is overlooked. */
module Attention {
  import opened PointerModel
  import opened QueueLemmas
  import opened PointerInvariants
  import opened RecoveryQueue
  import opened CheckingModel
  import opened CheckingProofs
  import opened CheckingSession
  import opened Resting

  // ---------------------------------------------------------------- nobody forgotten

  /** Every Dead package but `p` is looked after, and nobody but `p` is being recovered. */
  ghost predicate AttendedBut(c: Core, p: Package) {
    && WellFormed(c) && BusyMatchesActive(c)
    && (c.active == Nobody || c.active == p)
    && (forall q :: q != p && CommittedDead(c, q) ==> Attended(c, q))
  }

  lemma HandlerStepForgetsNobody(c: Core, op: Op, p: Package)
    requires AttendedBut(c, p) && p != Nobody && OwnStep(op, p)
    ensures AttendedBut(Step(c, op), p)
  {
    var d := Step(c, op);
    StepKeepsWellFormed(c, op);
    BusyBreaksOnlyOnEmptyName(c, op);
    StepOnActive(c, op);
    MarksOnlyGrow(c, op);
    forall q | q != p && CommittedDead(d, q) ensures Attended(d, q) {
      OthersKeepTheirRow(c, op, p, q);
      if q in c.queue { LeavesExactlyWhenTaken(c, op, q); }
    }
  }

  lemma OthersKeepTheirRow(c: Core, op: Op, p: Package, q: Package)
    requires OwnStep(op, p) && q != p && (c.active == Nobody || c.active == p)
    requires CommittedDead(Step(c, op), q)
    ensures CommittedDead(c, q)
  {
    StepOnRow(c, op, q);
  }

  lemma {:induction false} HandlerForgetsNobody(c: Core, ops: seq<Op>, p: Package)
    requires AttendedBut(c, p) && p != Nobody && OwnSteps(ops, p)
    ensures AttendedBut(Run(c, ops), p)
  {
    if ops != [] {
      HandlerForgetsNobody(c, ops[..|ops| - 1], p);
      HandlerStepForgetsNobody(Run(c, ops[..|ops| - 1]), ops[|ops| - 1], p);
    }
  }

  /** Every Dead package is looked after. */
  ghost predicate AllAttended(c: Core) {
    forall q :: CommittedDead(c, q) ==> Attended(c, q)
  }

  /** The last package the handler was called for, if any. */
  function LastCall(calls: seq<Package>): Package {
    if calls == [] then Nobody else calls[|calls| - 1]
  }

  lemma HandedOutForgetsNobody(c: Core)
    requires WellFormed(c) && BusyMatchesActive(c) && !c.inProgress && AllAttended(c) && c.queue != []
    ensures AttendedBut(HandedOut(c), c.queue[0])
  {
    HandedOutWellFormed(c);
    assert c.queue == [c.queue[0]] + c.queue[1..];
    forall q | q != c.queue[0] && CommittedDead(c, q) ensures Attended(HandedOut(c), q) {
      assert Attended(c, q);
    }
  }

  lemma TryForgetsNobody(c: Core, o: Handling, p: Package)
    requires WellFormed(c) && BusyMatchesActive(c) && !c.inProgress && AllAttended(c)
    requires p == DequeueCore(c).1 && p != Nobody && OwnSteps(o.ops, p)
    ensures AttendedBut(Run(c, Tried(o)), p)
  {
    DequeueTakesFirst(c);
    HandedOutForgetsNobody(c);
    TriedIs(c, o);
    HandlerForgetsNobody(HandedOut(c), o.ops, p);
  }

  lemma GiveUpAdoptsAll(c: Core, p: Package, reason: Reason)
    requires WellFormed(c)
    ensures AllAttended(Run(c, GiveUp(p, reason)))
  {
    var init := [MarkUnrecoverable(p), EndRecovery(true, reason, true), SetPause(false)];
    RunKeepsWellFormed(c, init);
    RunSnoc(c, init, Sync);
    assert init + [Sync] == GiveUp(p, reason);
    SyncAdoptsEveryDead(Run(c, init));
  }

  /** After the handler calls `calls`, a Dead package nobody looks after can only be the last one
      the handler was called for (or the empty name). */
  ghost predicate NobodyLost(d: Core, calls: seq<Package>) {
    forall q :: CommittedDead(d, q) ==> Attended(d, q) || q == LastCall(calls) || q == Nobody
  }

  lemma PassingNobody(c: Core)
    requires WellFormed(c) && AllAttended(c) && DequeueCore(c).1 == Nobody
    ensures NobodyLost(Step(c, Dequeue).(paused := false), [])
  {
    DequeueTakesFirst(c);
    var d := Step(c, Dequeue).(paused := false);
    forall q | CommittedDead(d, q) && q != Nobody ensures Attended(d, q) {
      assert Attended(c, q) && CommittedDead(c, q);
      if q in c.queue { LeavesExactlyWhenTaken(c, Dequeue, q); }
    }
  }

  lemma SuccessLosesNobody(c: Core, p: Package)
    requires AttendedBut(c, p)
    ensures NobodyLost(c.(paused := false), [p])
  {
    var d := c.(paused := false);
    forall q | CommittedDead(d, q) && q != p ensures Attended(d, q) {
      assert CommittedDead(c, q);
    }
  }

  /** Recovery loses nobody, however often it fails. */
  lemma {:induction false} RecoveryForgetsNobody(c: Core, h: Handler, k: nat)
    requires WellFormed(c) && HandlerOk(h) && OwnHandler(h) && BusyMatchesActive(c) && AllAttended(c)
    ensures NobodyLost(Run(c, ProcessNext(c, h, k).ops), ProcessNext(c, h, k).calls)
    decreases |Hopeful(c, h.known)|
  {
    var p := DequeueCore(c).1;
    if c.inProgress || p == Nobody {
      NobodyWaiting(c, h, k);
      if !c.inProgress { PassingNobody(c); }
    } else if Fails(c, h, k) {
      AfterFailure(c, h, k);
      var c1 := Run(c, Tried(h.answer(k, p)));
      AttemptKeeps(c, h.answer(k, p), p, h.known);
      GiveUpAdoptsAll(c1, p, FailReason(c1, h.answer(k, p)));
      RecoveryForgetsNobody(NextTry(c, h, k), h, k + 1);
    } else {
      AfterSuccess(c, h, k);
      TryForgetsNobody(c, h.answer(k, p), p);
      SuccessLosesNobody(Run(c, Tried(h.answer(k, p))), p);
    }
  }

  /** A round loses nobody, whatever it starts from: the sync at its start adopts the stray ones. */
  lemma TickForgetsNobody(c: Core, h: Handler)
    requires WellFormed(c) && HandlerOk(h) && OwnHandler(h) && BusyMatchesActive(c)
    ensures NobodyLost(Run(c, Tick(c, h).ops), Tick(c, h).calls)
  {
    var start := [Screen(Touch), Sync, SelfHeal];
    var c1 := Run(c, start);
    RunKeepsWellFormed(c, start);
    StartAdoptsAll(c);
    assert NobodyLost(c1, []);
    RecoveryForgetsNobody(c1, h, 0);
    RunAppend(c, start, ProcessNext(c1, h, 0).ops);
  }

  lemma StartAdoptsAll(c: Core)
    requires WellFormed(c) && BusyMatchesActive(c)
    ensures var d := Run(c, [Screen(Touch), Sync, SelfHeal]); BusyMatchesActive(d) && AllAttended(d)
  {
    assert [Screen(Touch), Sync, SelfHeal] == [Screen(Touch), Sync] + [SelfHeal];
    RunAppend(c, [Screen(Touch), Sync], [SelfHeal]);
    RunTwo(c, Screen(Touch), Sync);
    RunOne(SyncCore(c), SelfHeal);
    HealAfterSyncOnlyStamps(c);
    BusyBreaksOnlyOnEmptyName(c, Sync);
    BusyBreaksOnlyOnEmptyName(SyncCore(c), SelfHeal);
  }

  // ---------------------------------------------------------------- Dead means recovery

  /** The front of the queue is served first. */
  lemma FrontIsServed(c: Core, h: Handler, k: nat)
    requires WellFormed(c) && HandlerOk(h) && !c.inProgress && c.queue != [] && c.queue[0] != Nobody
    ensures ProcessNext(c, h, k).calls != [] && ProcessNext(c, h, k).calls[0] == c.queue[0]
  {
    DequeueTakesFirst(c);
    if Fails(c, h, k) { AfterFailure(c, h, k); } else { AfterSuccess(c, h, k); }
  }

  /** What the start of a round finds: the old queue with the adopted packages behind it. */
  lemma RoundStartIs(c: Core)
    requires WellFormed(c)
    ensures var d := Run(c, ROUND_START);
            && d.queue == SyncCore(c).queue && d.paused == c.paused && d.inProgress == c.inProgress
            && d.rows.Keys == c.rows.Keys
  {
    assert ROUND_START == [Screen(Touch), Sync] + [SelfHeal];
    RunAppend(c, [Screen(Touch), Sync], [SelfHeal]);
    RunTwo(c, Screen(Touch), Sync);
    RunOne(SyncCore(c), SelfHeal);
    HealAfterSyncOnlyStamps(c);
    HealKeepsOthers(SyncCore(c));
  }

  /** A round start recovers exactly when checking is at rest and somebody waits or is Dead with nobody looking after
      it; the first to be recovered is whoever has waited longest. */
  lemma TickRecoversExactly(c: Core, h: Handler)
    requires WellFormed(c) && HandlerOk(h) && Nobody !in c.rows
    ensures var calls := Tick(c, h).calls;
            && (calls != [] <==>
                  AtRest(c) && (c.queue != [] || exists p :: CommittedDead(c, p) && !Attended(c, p)))
            && (calls != [] && c.queue != [] ==> calls[0] == c.queue[0])
  {
    var d := Run(c, ROUND_START);
    RunKeepsWellFormed(c, ROUND_START);
    RoundStartIs(c);
    var newcomers := SyncAdoptsInOrder(c);
    HasMember(newcomers);
    if AtRest(d) && d.queue != [] {
      assert d.queue[0] in d.queue;
      FrontIsServed(d, h, 0);
    }
  }

  /** Steps that leave the recovery state and the queue alone. */
  predicate Calm(op: Op) { op.Screen? || op.OnRow? || op.BeginChecking? || op.EndFocus? }

  /** The parts of a state that decide whom recovery takes next. */
  predicate SameRecovery(c: Core, d: Core) {
    d.queue == c.queue && d.unrecoverable == c.unrecoverable && d.inProgress == c.inProgress && d.active == c.active
  }

  lemma {:induction false} CalmRun(c: Core, ops: seq<Op>)
    requires forall i :: 0 <= i < |ops| ==> Calm(ops[i])
    ensures SameRecovery(c, Run(c, ops))
  {
    if ops != [] { CalmRun(c, ops[..|ops| - 1]); }
  }

  /** The package to be recovered is known Dead and waits, in a queue of named packages. */
  ghost predicate Declared(c: Core, p: Package) {
    !c.inProgress && CommittedDead(c, p) && p in c.queue && Nobody !in c.queue
  }

  ghost predicate Idles(c: Core, p: Package) {
    WellFormed(c) && !c.inProgress && c.active == Nobody && p != Nobody && p !in c.unrecoverable && Nobody !in c.queue
  }

  lemma DeadIsDeclared(c: Core, p: Package)
    requires Idles(c, p)
    ensures Declared(Run(c, [DeadDetected(p), SetPause(true)]), p)
  {
    CommitThenEnqueue(c, p);
    DeadRun(c, p);
  }

  lemma DeadRun(c: Core, p: Package)
    ensures Run(c, [DeadDetected(p), SetPause(true)]) == DeadDetectedCore(c, p).(paused := true)
  {
    RunTwo(c, DeadDetected(p), SetPause(true));
  }

  lemma CommitThenEnqueue(c: Core, p: Package)
    requires Idles(c, p)
    ensures Declared(EnqueueCore(RowCore(c, p, Committed(Dead)), p).(paused := true), p)
  {
    CommitKeepsIdle(c, p);
    EnqueueIsDeclared(RowCore(c, p, Committed(Dead)), p);
  }

  lemma CommitKeepsIdle(c: Core, p: Package)
    requires Idles(c, p)
    ensures Idles(RowCore(c, p, Committed(Dead)), p) && CommittedDead(RowCore(c, p, Committed(Dead)), p)
  {
    var row := RowStep(RowOf(c, p), Committed(Dead));
    assert RowCore(c, p, Committed(Dead)) == Put(c, p, row);
    PutKeepsWellFormed(c, p, row);
    PutFrame(c, p, row);
  }

  lemma LimitIsDeclared(c: Core, p: Package)
    requires Idles(c, p)
    ensures Declared(Run(c, LimitOps(p)), p)
  {
    CommitThenEnqueue(c, p);
    LimitRun(c, p);
  }

  lemma LimitRun(c: Core, p: Package)
    ensures Run(c, LimitOps(p)) == EnqueueCore(RowCore(c, p, Committed(Dead)), p).(paused := true)
  {
    var most := [OnRow(p, Committed(Dead)), Enqueue(p)];
    assert LimitOps(p)[..2] == most;
    RunTwo(c, OnRow(p, Committed(Dead)), Enqueue(p));
  }

  lemma EnqueueIsDeclared(c: Core, p: Package)
    requires Idles(c, p) && CommittedDead(c, p)
    ensures Declared(EnqueueCore(c, p).(paused := true), p)
  {
    JoinedIs(c, p);
    EnqueueOnRow(c, p, p);
    StepOnBusy(c, Enqueue(p));
  }

  lemma StepOnBusy(c: Core, op: Op)
    requires op.DeadDetected? || op.Enqueue?
    ensures Step(c, op).inProgress == c.inProgress
  {
  }

  /** Recovery after the declaration runs the handler, first for the front of the queue. */
  lemma DeclaredIsServed(c: Core, before: seq<Op>, verdict: seq<Op>, p: Package, h: Handler)
    requires WellFormed(c) && HandlerOk(h) && Declared(Run(Run(c, before), verdict), p)
    ensures AndRecover(c, before + verdict, h).calls != []
  {
    RunAppend(c, before, verdict);
    RunKeepsWellFormed(c, before + verdict);
    FrontIsServed(Run(c, before + verdict), h, 0);
  }

  lemma LimitIsServed(c: Core, watched: seq<Op>, p: Package, online: bool, limit: int, h: Handler)
    requires HandlerOk(h) && Idles(c, p) && forall i :: 0 <= i < |watched| ==> Calm(watched[i])
    ensures var f := TimedOutRound(c, watched, p, online, limit, h);
            (f.0.calls != [] <==> f.1 == LimitDead) && f.1 != SawDead
  {
    if !online {
      var quiet := watched + TimeoutOps(p, NoHeartbeat);
      CalmRun(c, quiet);
      RunKeepsWellFormed(c, quiet);
      LimitIsDeclared(Run(c, quiet), p);
      DeclaredIsServed(c, quiet, LimitOps(p), p, h);
    }
  }

  lemma DeadIsServed(c: Core, watched: seq<Op>, p: Package, h: Handler)
    requires HandlerOk(h) && Idles(c, p) && forall i :: 0 <= i < |watched| ==> Calm(watched[i])
    ensures AndRecover(c, watched + [DeadDetected(p), SetPause(true)], h).calls != []
  {
    CalmRun(c, watched);
    RunKeepsWellFormed(c, watched);
    DeadIsDeclared(Run(c, watched), p);
    DeclaredIsServed(c, watched, [DeadDetected(p), SetPause(true)], p, h);
  }

  /** A window that declares its package Dead never passes without a recovery, and no other window
      runs one. */
  lemma DeadWindowRecovers(c: Core, p: Package, w: Window, m: Limits, h: Handler)
    requires HandlerOk(h) && Idles(c, p)
    ensures var f := Focus(c, p, w, m.noHeartbeat, m.deadline, h);
            f.0.calls != [] <==> f.1 == SawDead || f.1 == LimitDead
  {
    if !c.paused {
      if w.preDead || (p in c.rows && c.rows[p].rawDead) {
        assert [] + [DeadDetected(p), SetPause(true)] == [DeadDetected(p), SetPause(true)];
        DeadIsServed(c, [], p, h);
      } else {
        var watch := Watch(w.polls, -1, m.deadline);
        var watched := [BeginChecking(p, m.deadline)] + watch.0;
        match watch.1
        case DeadSeen => DeadIsServed(c, watched, p, h);
        case OnlineSeen =>
        case ProbeRaised =>
        case TimedOut => LimitIsServed(c, watched, p, w.lateOnline, m.noHeartbeat, h);
      }
    }
  }

  // ---------------------------------------------------------------- after a Dead window

  lemma DeclarationIs(c: Core, p: Package)
    requires p != Nobody
    ensures var d := Run(c, Declaration(c, p));
            && CommittedDead(d, p) && d.queue == (if CommittedDead(c, p) then c.queue else Joined(c, p))
            && d.unrecoverable == c.unrecoverable && d.active == c.active && d.inProgress == c.inProgress
  {
    if !CommittedDead(c, p) {
      RunOne(c, DeadDetected(p));
      DeadJoins(c, p);
      DeadDetectedOnRow(c, p, p);
      MarksOnlyGrow(c, DeadDetected(p));
      StepOnActive(c, DeadDetected(p));
      StepOnBusy(c, DeadDetected(p));
    }
  }

  lemma QueueingIs(c: Core, p: Package)
    requires CommittedDead(c, p) && !c.inProgress
    ensures var d := Run(c, Queueing(c, p));
            CommittedDead(d, p) && d.queue == (if p in c.queue then c.queue else Joined(c, p)) && !d.inProgress
  {
    if p !in c.queue {
      RunOne(c, Enqueue(p));
      JoinedIs(c, p);
      EnqueueOnRow(c, p, p);
      StepOnBusy(c, Enqueue(p));
    }
  }

  lemma PausingIs(c: Core, p: Package)
    requires CommittedDead(c, p) && !c.inProgress
    ensures var d := Run(c, [SetPause(true), Screen(ReadHeader)]);
            CommittedDead(d, p) && d.queue == c.queue && !d.inProgress
  {
    RunTwo(c, SetPause(true), Screen(ReadHeader));
  }

  lemma StartSplits(c: Core, p: Package)
    ensures var c1 := Run(c, Declaration(c, p));
            Run(c, FocusDeadStart(c, p)) == Run(Run(c1, Queueing(c1, p)), [SetPause(true), Screen(ReadHeader)])
  {
    var c1 := Run(c, Declaration(c, p));
    RunAppend(c, Declaration(c, p), Queueing(c1, p));
    RunAppend(c, Declaration(c, p) + Queueing(c1, p), [SetPause(true), Screen(ReadHeader)]);
  }

  /** Whatever the state, `handle_focus_dead` has the package declared Dead and, unless it was given up, waiting
      before it recovers: also a package that was recovered only just now. */
  lemma FocusDeadDeclares(c: Core, p: Package)
    requires p != Nobody && !c.inProgress && c.active == Nobody
    ensures var d := Run(c, FocusDeadStart(c, p));
            CommittedDead(d, p) && d.queue == Joined(c, p) && !d.inProgress
  {
    var c1 := Run(c, Declaration(c, p));
    StartSplits(c, p);
    DeclarationIs(c, p);
    QueueingIs(c1, p);
    PausingIs(Run(c1, Queueing(c1, p)), p);
  }

  /** So after a Dead window, from a state at rest, the handler is called once more exactly when the package was not
      given up meanwhile or somebody else waits; also when its recovery has just succeeded. */
  lemma SecondCallExactly(c: Core, p: Package, h: Handler)
    requires WellFormed(c) && HandlerOk(h) && p != Nobody && !c.inProgress && c.active == Nobody && Nobody !in c.queue
    ensures FocusDead(c, p, h).calls != [] <==> p !in c.unrecoverable || c.queue != []
  {
    var d := Run(c, FocusDeadStart(c, p));
    FocusDeadDeclares(c, p);
    RunKeepsWellFormed(c, FocusDeadStart(c, p));
    if d.queue != [] {
      FrontIsServed(d, h, 0);
    } else {
      DequeueTakesFirst(d);
      NobodyWaiting(d, h, 0);
    }
  }

  // ---------------------------------------------------------------- served in turn, by rounds

  /** The steps of further events, from any state. */
  ghost function StepsFrom(c: Core, es: seq<Event>, m: Limits): (ops: seq<Op>)
    requires WellFormed(c) && EventsOk(es)
    ensures WellFormed(Run(c, ops))
  {
    if es == [] then []
    else
      var ops := StepsFrom(c, es[..|es| - 1], m);
      var last := StepsOf(Run(c, ops), es[|es| - 1], m);
      RunAppend(c, ops, last);
      ops + last
  }

  /** How many of the events are round starts that find checking neither paused nor recovering. */
  ghost function Turns(c: Core, es: seq<Event>, m: Limits): nat
    requires WellFormed(c) && EventsOk(es)
  {
    if es == [] then 0
    else
      var c1 := Run(c, StepsFrom(c, es[..|es| - 1], m));
      Turns(c, es[..|es| - 1], m) + (if es[|es| - 1].RoundStart? && AtRest(c1) then 1 else 0)
  }

  lemma {:induction false} DequeuesAdd(a: seq<Op>, b: seq<Op>)
    ensures Dequeues(a + b) == Dequeues(a) + Dequeues(b)
  {
    if b == [] {
      assert a + b == a;
    } else {
      DequeuesAdd(a, b[..|b| - 1]);
      assert (a + b)[..|a + b| - 1] == a + b[..|b| - 1];
    }
  }

  lemma HasDequeue(ops: seq<Op>, i: nat)
    requires i < |ops| && ops[i] == Dequeue
    ensures Dequeues(ops) > 0
  {
    DequeuesAdd(ops[..i + 1], ops[i + 1..]);
    assert ops[..i + 1][..i] == ops[..i] && ops[..i + 1] + ops[i + 1..] == ops;
  }

  /** The steps at the start of a round neither pause nor recover, and take nobody out of the queue. */
  lemma RoundStartKeeps(c: Core)
    requires WellFormed(c) && AtRest(c)
    ensures var d := Run(c, [Screen(Touch), Sync, SelfHeal]); AtRest(d) && c.queue <= d.queue
  {
    RunStaysIdle(c, [Screen(Touch), Sync, SelfHeal]);
    assert [Screen(Touch), Sync, SelfHeal] == [Screen(Touch), Sync] + [SelfHeal];
    RunAppend(c, [Screen(Touch), Sync], [SelfHeal]);
    RunTwo(c, Screen(Touch), Sync);
    RunOne(SyncCore(c), SelfHeal);
    HealAfterSyncOnlyStamps(c);
    SyncAdoptsEveryDead(c);
  }

  lemma TurnDequeues(c: Core, h: Handler)
    requires WellFormed(c) && HandlerOk(h) && AtRest(c) && c.queue != []
    ensures Dequeues(Tick(c, h).ops) > 0
  {
    var start := [Screen(Touch), Sync, SelfHeal];
    RunKeepsWellFormed(c, start);
    RoundStartKeeps(c);
    var c1 := Run(c, start);
    var ops := ProcessNext(c1, h, 0).ops;
    assert ops[0] == Dequeue;
    assert (start + ops)[3] == Dequeue;
    HasDequeue(start + ops, 3);
  }

  lemma TurnStep(c: Core, e: Event, m: Limits)
    requires WellFormed(c) && EventOk(e) && c.queue != []
    ensures Dequeues(StepsOf(c, e, m)) >= if e.RoundStart? && AtRest(c) then 1 else 0
  {
    if e.RoundStart? && AtRest(c) { TurnDequeues(c, e.h); }
  }

  /** No step takes the package out of the queue. */
  ghost predicate NeverTaken(c: Core, ops: seq<Op>, p: Package) {
    forall i :: 0 <= i < |ops| ==> !TakesOut(Run(c, ops[..i]), ops[i], p)
  }

  lemma TakenLater(c: Core, a: seq<Op>, b: seq<Op>, p: Package)
    requires NeverTaken(c, a + b, p)
    ensures NeverTaken(c, a, p)
  {
    forall i | 0 <= i < |a| ensures !TakesOut(Run(c, a[..i]), a[i], p) {
      assert (a + b)[..i] == a[..i] && (a + b)[i] == a[i];
    }
  }

  lemma StillWaiting(c: Core, ops: seq<Op>, p: Package)
    requires WellFormed(c) && p in c.queue && NeverTaken(c, ops, p)
    ensures p in Run(c, ops).queue
  {
    StaysUntilTaken(c, ops, p, |ops|);
    assert ops[..|ops|] == ops;
  }

  lemma {:induction false} TurnsDequeue(c: Core, es: seq<Event>, m: Limits, p: Package)
    requires WellFormed(c) && EventsOk(es) && p in c.queue && NeverTaken(c, StepsFrom(c, es, m), p)
    ensures Dequeues(StepsFrom(c, es, m)) >= Turns(c, es, m)
  {
    if es != [] {
      var init, e := es[..|es| - 1], es[|es| - 1];
      var before := StepsFrom(c, init, m);
      var c1 := Run(c, before);
      TakenLater(c, before, StepsOf(c1, e, m), p);
      TurnsDequeue(c, init, m, p);
      StillWaiting(c, before, p);
      TurnStep(c1, e, m);
      DequeuesAdd(before, StepsOf(c1, e, m));
    }
  }

  /** A package waiting at place k is handed to the handler, given up or otherwise taken out before k + 1
      round starts have found checking idle, whatever else happens in between. */
  lemma ServedByRounds(c: Core, es: seq<Event>, m: Limits, p: Package)
    requires WellFormed(c) && EventsOk(es) && p in c.queue && Turns(c, es, m) > Place(c.queue, p)
    ensures !NeverTaken(c, StepsFrom(c, es, m), p)
  {
    if NeverTaken(c, StepsFrom(c, es, m), p) {
      TurnsDequeue(c, es, m, p);
      ServedInTurn(c, StepsFrom(c, es, m), p);
    }
  }
}
