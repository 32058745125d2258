/** Sessions of the checking system, from a fresh pointer, that end where its promises fail. */
module DriverSessions {
  import opened Common
  import opened PointerModel
  import opened QueueLemmas
  import opened PointerInvariants
  import opened RecoveryQueue
  import opened PresenceRelay
  import opened HeaderLine
  import opened CheckingModel
  import opened CheckingProofs
  import opened CheckingSession
  import opened Resting
  import opened Attention
  import opened HeartbeatStreaks
  import opened StaleFailures

  // ---------------------------------------------------------------- handlers and windows

  /** Recovers every package at the first attempt. */
  function Reviver(): Handler {
    Handler((k: nat, p: Package) => Handling([BeginRecovery(p), EndRecovery(false, NoReason, true)], false, NoReason, false), {})
  }

  /** Does nothing, as when the supervisor throttles a recovery. */
  function Idler(): Handler {
    Handler((k: nat, p: Package) => Handling([], false, NoReason, false), {})
  }

  function Raiser(reason: Reason): Handler {
    Handler((k: nat, p: Package) => Handling([], true, reason, false), {})
  }

  /** Begins a recovery and forgets to end it. */
  function Leaker(): Handler {
    Handler((k: nat, p: Package) => Handling([BeginRecovery(p)], false, NoReason, false), {})
  }

  /** Windows that find the package Dead at once, see nothing at all, or break at the first look. */
  const DEAD := Window(true, [], false, false)
  const NOTHING := Window(false, [], false, false)
  const BREAKS := Window(false, [LookRaised], false, false)

  // ---------------------------------------------------------------- one package alone

  /** The row of a package that was found Dead. */
  function Died(row: Row): Row { RowStep(row, Committed(Dead)).(recoveryRequested := true) }

  function Revived(row: Row): Row { Settled(row, false, NoReason) }

  lemma AloneDies(p: Package, row: Row)
    requires p != Nobody
    ensures DeadDetectedCore(Alone(p, row, false, false), p) == Alone(p, Died(row), true, false)
  {
    var c := Alone(p, row, false, false);
    assert c.rows[p := RowStep(row, Committed(Dead))] == map[p := RowStep(row, Committed(Dead))];
    assert RowCore(c, p, Committed(Dead)) == Alone(p, RowStep(row, Committed(Dead)), false, false);
    AloneQueues(p, RowStep(row, Committed(Dead)));
  }

  lemma AloneQueues(p: Package, row: Row)
    requires p != Nobody
    ensures EnqueueCore(Alone(p, row, false, false), p) == Alone(p, row.(recoveryRequested := true), true, false)
  {
    var now := row.(recoveryRequested := true);
    assert Alone(p, row, false, false).rows[p := now] == map[p := now];
    assert [] + [p] == [p];
    NobodyUnattended(Alone(p, now, true, false), [p]);
  }

  lemma FreshDies(p: Package)
    requires p != Nobody
    ensures DeadDetectedCore(InitCore, p) == Alone(p, Died(FreshRow), true, false)
  {
    var dead := RowStep(FreshRow, Committed(Dead));
    assert InitCore.order + [p] == [p] && InitCore.rows[p := dead] == map[p := dead];
    assert RowCore(InitCore, p, Committed(Dead)) == Alone(p, dead, false, false);
    AloneQueues(p, dead);
  }

  lemma AloneIsWellFormed(p: Package, row: Row, queued: bool)
    requires p != Nobody
    ensures WellFormed(Alone(p, row, queued, false))
  {
    assert [p][..0] == [] && forall q :: q in [p] <==> q == p;
    var c := Alone(p, row, queued, false);
    assert NoDup(c.order) && NoDup(c.queue);
  }

  /** The state in which the handler is called for a package alone. */
  function AloneInHand(p: Package, row: Row): Core { Alone(p, row, false, false).(paused := true) }

  lemma AloneHandedOut(p: Package, row: Row)
    requires p != Nobody
    ensures var c := Alone(p, row, true, false).(paused := true);
            WellFormed(c) && DequeueCore(c).1 == p && HandedOut(c) == AloneInHand(p, row)
  {
    AloneIsWellFormed(p, row, true);
    DequeueTakesFirst(Alone(p, row, true, false).(paused := true));
    assert [p][1..] == [];
  }

  lemma ReleaseKeepsPause(c: Core)
    ensures ReleaseCore(c.(paused := true), false, NoReason) == ReleaseCore(c, false, NoReason).(paused := true)
  {
  }

  lemma EndFocusKeepsPause(c: Core, p: Package)
    ensures EndFocusCore(c.(paused := true), p).(paused := false) == EndFocusCore(c, p).(paused := false)
  {
  }

  lemma EndingUnpauses(c: Core)
    ensures EndRecoveryCore(c.(paused := true), false, NoReason, true) == EndRecoveryCore(c, false, NoReason, true)
  {
    ReleaseKeepsPause(c);
    EndFocusKeepsPause(ReleaseCore(c, false, NoReason), c.active);
  }

  lemma AloneRevives(p: Package, row: Row)
    requires p != Nobody && row.recoveryRequested
    ensures Run(AloneInHand(p, row), [BeginRecovery(p), EndRecovery(false, NoReason, true)])
            == Alone(p, Revived(row), false, false)
  {
    RunTwo(AloneInHand(p, row), BeginRecovery(p), EndRecovery(false, NoReason, true));
    CleanStart(p, row);
    assert Step(AloneInHand(p, row), BeginRecovery(p)) == Alone(p, row, false, true).(paused := true);
    EndingUnpauses(Alone(p, row, false, true));
    CleanEnd(p, row);
  }

  lemma ReviverIsOk()
    ensures HandlerOk(Reviver()) && HandlerOk(Idler()) && HandlerOk(Leaker()) && forall r: Reason :: HandlerOk(Raiser(r))
    ensures OwnHandler(Idler()) && Settles(Reviver())
  {
  }

  /** Recovery of a package alone by the reviving handler. */
  lemma RevivingAlone(p: Package, row: Row)
    requires p != Nobody && row.recoveryRequested
    ensures HandlerOk(Reviver())
    ensures var c := Alone(p, row, true, false).(paused := true);
            && WellFormed(c) && ProcessNext(c, Reviver(), 0).calls == [p]
            && Run(c, ProcessNext(c, Reviver(), 0).ops) == Alone(p, Revived(row), false, false)
  {
    var c := Alone(p, row, true, false).(paused := true);
    var o := Reviver().answer(0, p);
    ReviverIsOk();
    AloneHandedOut(p, row);
    TriedIs(c, o);
    AloneRevives(p, row);
    AfterSuccess(c, Reviver(), 0);
  }

  /** Recovery of a package alone by a handler that does nothing. */
  lemma IdlingAlone(p: Package, row: Row)
    requires p != Nobody
    ensures HandlerOk(Idler())
    ensures var c := Alone(p, row, true, false).(paused := true);
            && WellFormed(c) && ProcessNext(c, Idler(), 0).calls == [p]
            && Run(c, ProcessNext(c, Idler(), 0).ops) == Alone(p, row, false, false)
  {
    var c := Alone(p, row, true, false).(paused := true);
    ReviverIsOk();
    AloneHandedOut(p, row);
    TriedIs(c, Idler().answer(0, p));
    AfterSuccess(c, Idler(), 0);
  }

  // ---------------------------------------------------------------- rounds on a package alone

  /** A fresh pointer, or one that knows only `p`, which nobody is recovering. */
  predicate Starts(c: Core, p: Package, row: Row) {
    (c == InitCore && row == FreshRow) || c == Alone(p, row, false, false)
  }

  lemma StartsDies(c: Core, p: Package, row: Row)
    requires p != Nobody && Starts(c, p, row)
    ensures DeadDetectedCore(c, p) == Alone(p, Died(row), true, false)
    ensures WellFormed(c) && AtRest(c)
  {
    if c == InitCore { FreshDies(p); } else { AloneDies(p, row); AloneIsWellFormed(p, row, false); }
  }

  lemma PausedAlone(d: Core)
    ensures Run(d, [SetPause(true), Screen(ReadHeader)]) == d.(paused := true)
  {
    RunTwo(d, SetPause(true), Screen(ReadHeader));
  }

  lemma DeclaredAlone(c: Core, p: Package, row: Row)
    requires p != Nobody && Starts(c, p, row)
    ensures Run(c, [DeadDetected(p)]) == Alone(p, Died(row), true, false)
  {
    StartsDies(c, p, row);
    RunOne(c, DeadDetected(p));
  }

  lemma ThenPauses(c: Core, ops: seq<Op>, d: Core)
    requires Run(c, ops) == d
    ensures Run(c, ops + [SetPause(true)]) == d.(paused := true)
  {
    RunSnoc(c, ops, SetPause(true));
  }

  lemma DeadStart(c: Core, p: Package, row: Row)
    requires p != Nobody && Starts(c, p, row)
    ensures Run(c, [DeadDetected(p)] + [SetPause(true)]) == Alone(p, Died(row), true, false).(paused := true)
  {
    DeclaredAlone(c, p, row);
    ThenPauses(c, [DeadDetected(p)], Alone(p, Died(row), true, false));
  }

  lemma StartsUnmarked(c: Core, p: Package, row: Row)
    requires p != Nobody && Starts(c, p, row)
    ensures WellFormed(c) && AtRest(c) && p !in c.unrecoverable
  {
    StartsDies(c, p, row);
  }

  /** A window that finds the package Dead, with a handler that revives it. */
  lemma DeadWindowRevives(c: Core, p: Package, row: Row, m: Limits)
    requires p != Nobody && Starts(c, p, row)
    ensures HandlerOk(Reviver()) && WellFormed(c)
    ensures var f := Focus(c, p, DEAD, m.noHeartbeat, m.deadline, Reviver());
            f.0.calls == [p] && Run(c, f.0.ops) == Alone(p, Revived(Died(row)), false, false)
  {
    ReviverIsOk();
    StartsUnmarked(c, p, row);
    DeadStart(c, p, row);
    assert [DeadDetected(p), SetPause(true)] == [DeadDetected(p)] + [SetPause(true)];
    RevivingAlone(p, Died(row));
    AndRecoverFrom(c, [DeadDetected(p), SetPause(true)], Alone(p, Died(row), true, false).(paused := true), Reviver());
    FocusRecovers(c, p, DEAD, m, Reviver());
  }

  lemma FoundDeadStartIs(c: Core, p: Package, row: Row)
    requires p != Nobody && Starts(c, p, row) && row.committed != Dead
    ensures Run(c, FocusDeadStart(c, p)) == Alone(p, Died(row), true, false).(paused := true)
  {
    var d := Alone(p, Died(row), true, false);
    assert Declaration(c, p) == [DeadDetected(p)];
    DeclaredAlone(c, p, row);
    assert Queueing(d, p) == [] && Run(d, []) == d;
    StartSplits(c, p);
    PausedAlone(d);
  }

  lemma FoundDeadRevives(c: Core, p: Package, row: Row)
    requires p != Nobody && Starts(c, p, row) && row.committed != Dead
    ensures HandlerOk(Reviver()) && WellFormed(c)
    ensures var r := FocusDead(c, p, Reviver());
            r.calls == [p] && Run(c, r.ops) == Alone(p, Revived(Died(row)), false, false)
  {
    ReviverIsOk();
    StartsUnmarked(c, p, row);
    FoundDeadStartIs(c, p, row);
    RevivingAlone(p, Died(row));
    AndRecoverFrom(c, FocusDeadStart(c, p), Alone(p, Died(row), true, false).(paused := true), Reviver());
  }

  lemma FoundDeadIdles(c: Core, p: Package, row: Row)
    requires p != Nobody && Starts(c, p, row) && row.committed != Dead
    ensures HandlerOk(Idler()) && WellFormed(c)
    ensures var r := FocusDead(c, p, Idler());
            r.calls == [p] && Run(c, r.ops) == Alone(p, Died(row), false, false)
  {
    ReviverIsOk();
    StartsUnmarked(c, p, row);
    FoundDeadStartIs(c, p, row);
    IdlingAlone(p, Died(row));
    AndRecoverFrom(c, FocusDeadStart(c, p), Alone(p, Died(row), true, false).(paused := true), Idler());
  }

  // ---------------------------------------------------------------- sessions, event by event

  lemma SessionSnoc(es: seq<Event>, e: Event, m: Limits)
    requires EventsOk(es) && EventOk(e)
    ensures EventsOk(es + [e])
    ensures Session(es + [e], m) == Run(Session(es, m), StepsOf(Session(es, m), e, m))
  {
    assert (es + [e])[..|es|] == es;
  }

  // ---------------------------------------------------------------- a recovery left in progress

  lemma LeakingAlone(p: Package, row: Row)
    requires p != Nobody
    ensures HandlerOk(Leaker())
    ensures var c := Alone(p, row, true, false).(paused := true);
            WellFormed(c) && Run(c, ProcessNext(c, Leaker(), 0).ops).inProgress
  {
    var c := Alone(p, row, true, false).(paused := true);
    var o := Leaker().answer(0, p);
    ReviverIsOk();
    AloneHandedOut(p, row);
    TriedIs(c, o);
    RunOne(AloneInHand(p, row), BeginRecovery(p));
    assert !Fails(c, Leaker(), 0);
    AfterSuccess(c, Leaker(), 0);
  }

  /** A handler that begins a recovery and returns without ending it: one round, and checking is blocked. */
  lemma LeakIsReachable(p: Package, m: Limits)
    requires p != Nobody
    ensures EventsOk([FoundDead(p, Leaker())]) && Session([FoundDead(p, Leaker())], m).inProgress
  {
    ReviverIsOk();
    assert [] + [FoundDead(p, Leaker())] == [FoundDead(p, Leaker())];
    SessionSnoc([], FoundDead(p, Leaker()), m);
    FoundDeadStartIs(InitCore, p, FreshRow);
    LeakingAlone(p, Died(FreshRow));
    AndRecoverFrom(InitCore, FocusDeadStart(InitCore, p), Alone(p, Died(FreshRow), true, false).(paused := true), Leaker());
  }

  // ---------------------------------------------------------------- one death, two recoveries

  lemma SessionOfOne(e: Event, m: Limits)
    requires EventOk(e)
    ensures EventsOk([e]) && Session([e], m) == Run(InitCore, StepsOf(InitCore, e, m))
  {
    assert [] + [e] == [e];
    SessionSnoc([], e, m);
  }

  lemma AfterOneDeath(p: Package, m: Limits)
    requires p != Nobody
    ensures EventsOk([FocusOn(p, DEAD, Reviver())])
    ensures Session([FocusOn(p, DEAD, Reviver())], m) == Alone(p, Revived(Died(FreshRow)), false, false)
  {
    ReviverIsOk();
    SessionOfOne(FocusOn(p, DEAD, Reviver()), m);
    DeadWindowRevives(InitCore, p, FreshRow, m);
  }

  /** The death of a package that was recovered, with the driver's second call throttled. */
  function Throttled(p: Package): seq<Event> { [FocusOn(p, DEAD, Reviver())] + [FoundDead(p, Idler())] }

  lemma AloneIsForgotten(c: Core, p: Package, row: Row)
    requires p != Nobody && c == Alone(p, row, false, false)
    ensures (CommittedDead(c, p) <==> row.committed == Dead) && AtRest(c) && !Attended(c, p)
  {
  }

  /** A window finds a package Dead and recovery succeeds. */
  lemma DeathIsRecovered(p: Package, m: Limits)
    requires p != Nobody
    ensures HandlerOk(Reviver()) && EventsOk([FocusOn(p, DEAD, Reviver())])
    ensures Focus(InitCore, p, DEAD, m.noHeartbeat, m.deadline, Reviver()).0.calls == [p]
    ensures var c := Session([FocusOn(p, DEAD, Reviver())], m); !CommittedDead(c, p) && AtRest(c)
  {
    DeadWindowRevives(InitCore, p, FreshRow, m);
    AfterOneDeath(p, m);
    AloneIsForgotten(Session([FocusOn(p, DEAD, Reviver())], m), p, Revived(Died(FreshRow)));
  }

  /** The driver then calls `handle_focus_dead` for it, which calls the handler once more all the same. */
  lemma OneDeathTwoCalls(p: Package, m: Limits)
    requires p != Nobody
    ensures HandlerOk(Idler()) && EventsOk([FocusOn(p, DEAD, Reviver())])
    ensures FocusDead(Session([FocusOn(p, DEAD, Reviver())], m), p, Idler()).calls == [p]
  {
    AfterOneDeath(p, m);
    FoundDeadIdles(Alone(p, Revived(Died(FreshRow)), false, false), p, Revived(Died(FreshRow)));
  }

  /** When that second call is throttled, the recovered package is left committed Dead with nobody looking after
      it. */
  lemma SecondCallForgets(p: Package, m: Limits)
    requires p != Nobody
    ensures EventsOk(Throttled(p))
    ensures var d := Session(Throttled(p), m); CommittedDead(d, p) && !Attended(d, p)
  {
    ReviverIsOk();
    AfterOneDeath(p, m);
    SessionSnoc([FocusOn(p, DEAD, Reviver())], FoundDead(p, Idler()), m);
    IdlingForgets(Session([FocusOn(p, DEAD, Reviver())], m), p, Revived(Died(FreshRow)));
  }

  lemma IdlingForgets(c: Core, p: Package, row: Row)
    requires p != Nobody && c == Alone(p, row, false, false) && row.committed != Dead
    ensures WellFormed(c)
    ensures var d := Run(c, FocusDead(c, p, Idler()).ops); CommittedDead(d, p) && !Attended(d, p)
  {
    FoundDeadIdles(c, p, row);
    AloneIsForgotten(Run(c, FocusDead(c, p, Idler()).ops), p, Died(row));
  }

  // ---------------------------------------------------------------- one failure, two packages given up

  lemma RaisingAlone(p: Package, row: Row, reason: Reason)
    requires p != Nobody
    ensures HandlerOk(Raiser(reason))
    ensures var c := Alone(p, row, true, false).(paused := true);
            WellFormed(c) && StaleFailure(Run(c, ProcessNext(c, Raiser(reason), 0).ops))
            && Run(c, ProcessNext(c, Raiser(reason), 0).ops).unrecoverable == {p}
            && Run(c, ProcessNext(c, Raiser(reason), 0).ops).queue == []
            && AtRest(Run(c, ProcessNext(c, Raiser(reason), 0).ops))
  {
    var c := Alone(p, row, true, false).(paused := true);
    var h := Raiser(reason);
    ReviverIsOk();
    AloneHandedOut(p, row);
    TriedIs(c, h.answer(0, p));
    AfterFailure(c, h, 0);
    var d := NextTry(c, h, 0);
    GivingUpAlone(p, row, FailReason(AloneInHand(p, row), h.answer(0, p)));
    assert d == Run(AloneInHand(p, row), GiveUp(p, FailReason(AloneInHand(p, row), h.answer(0, p))));
    EmptyQueueEnds(d, h, 1);
  }

  /** Giving up a package alone. */
  lemma GivingUpAlone(p: Package, row: Row, reason: Reason)
    requires p != Nobody
    ensures var d := Run(AloneInHand(p, row), GiveUp(p, reason));
            StaleFailure(d) && d.unrecoverable == {p} && d.queue == []
  {
    var c := AloneInHand(p, row);
    AloneIsWellFormed(p, row, false);
    assert WellFormed(c);
    RunKeepsWellFormed(c, GiveUp(p, reason));
    GiveUpRun(c, p, reason);
    var marked := MarkUnrecoverableCore(c, p);
    FailedEnding(marked, reason);
    FailedEndingKeepsRows(marked, reason);
    SyncOnlyAppends(Abandoned(c, p, reason));
    var d := Run(c, GiveUp(p, reason));
    assert d.rows.Keys == {p} && d.unrecoverable == {p};
    forall x ensures x !in d.queue { }
    NoMembers(d.queue);
  }

  /** The handler raises for `p`; then a window finds `q` Dead and its handler does nothing. */
  function FailThenThrottle(p: Package, q: Package, reason: Reason): seq<Event> {
    [FoundDead(p, Raiser(reason)), FocusOn(q, DEAD, Idler())]
  }

  lemma AfterOneFailure(p: Package, reason: Reason, m: Limits)
    requires p != Nobody
    ensures EventsOk([FoundDead(p, Raiser(reason))])
    ensures var c := Session([FoundDead(p, Raiser(reason))], m);
            StaleFailure(c) && c.unrecoverable == {p} && c.queue == [] && AtRest(c)
  {
    ReviverIsOk();
    SessionOfOne(FoundDead(p, Raiser(reason)), m);
    FoundDeadStartIs(InitCore, p, FreshRow);
    RaisingAlone(p, Died(FreshRow), reason);
    AndRecoverFrom(InitCore, FocusDeadStart(InitCore, p), Alone(p, Died(FreshRow), true, false).(paused := true), Raiser(reason));
  }

  /** A stale failure with `q` waiting is given to a handler that does nothing, which loses `q`. */
  lemma ThrottledAfterFailure(c: Core, q: Package, m: Limits)
    requires StaleFailure(c) && AtRest(c) && c.queue == [] && q != Nobody && q !in c.unrecoverable
    ensures HandlerOk(Idler())
    ensures var f := Focus(c, q, DEAD, m.noHeartbeat, m.deadline, Idler());
            q in f.0.calls && q in Run(c, f.0.ops).unrecoverable
  {
    var start := [DeadDetected(q), SetPause(true)];
    var d := Run(c, start);
    ReviverIsOk();
    FoundDeadStale(c, q);
    StaleFailureCascades(d, Idler(), 0, 1);
    assert d.queue[..1] == [q];
    AndRecoverFrom(c, start, d, Idler());
    FocusRecovers(c, q, DEAD, m, Idler());
  }

  lemma DyingStaysStale(c: Core, q: Package)
    requires StaleFailure(c) && q != Nobody
    ensures StaleFailure(Step(c, DeadDetected(q)))
  {
    StepKeepsWellFormed(c, DeadDetected(q));
    StageStep(c, DeadDetected(q));
    StepOnActive(c, DeadDetected(q));
    StepOnBusy(c, DeadDetected(q));
    StepOnRow(c, DeadDetected(q), Nobody);
  }

  lemma DyingWaits(c: Core, q: Package)
    requires StaleFailure(c) && c.queue == [] && q != Nobody && q !in c.unrecoverable
    ensures Step(c, DeadDetected(q)).queue == [q]
  {
    JoiningStepOnQueue(c, DeadDetected(q));
    assert [] + [q] == [q];
  }

  lemma DeadThenPaused(c: Core, q: Package)
    ensures Run(c, [DeadDetected(q), SetPause(true)]) == Step(c, DeadDetected(q)).(paused := true)
  {
    RunTwo(c, DeadDetected(q), SetPause(true));
  }

  lemma FoundDeadStale(c: Core, q: Package)
    requires StaleFailure(c) && c.queue == [] && q != Nobody && q !in c.unrecoverable
    ensures var d := Run(c, [DeadDetected(q), SetPause(true)]); StaleFailure(d) && d.queue == [q]
  {
    DyingStaysStale(c, q);
    DyingWaits(c, q);
    DeadThenPaused(c, q);
    PausingStaysStale(Step(c, DeadDetected(q)));
  }

  lemma PausingStaysStale(c: Core)
    requires StaleFailure(c)
    ensures StaleFailure(c.(paused := true))
  {
  }

  /** So `q` is given up for the failure of `p`: its own handler did nothing at all. */
  lemma FailureOfAnother(p: Package, q: Package, reason: Reason, m: Limits)
    requires p != Nobody && q != Nobody && p != q
    ensures EventsOk(FailThenThrottle(p, q, reason)) && EventsOk([FoundDead(p, Raiser(reason))])
    ensures StaleFailure(Session([FoundDead(p, Raiser(reason))], m))
    ensures q in Session(FailThenThrottle(p, q, reason), m).unrecoverable
  {
    ReviverIsOk();
    AfterOneFailure(p, reason, m);
    assert FailThenThrottle(p, q, reason) == [FoundDead(p, Raiser(reason))] + [FocusOn(q, DEAD, Idler())];
    SessionSnoc([FoundDead(p, Raiser(reason))], FocusOn(q, DEAD, Idler()), m);
    ThrottledAfterFailure(Session([FoundDead(p, Raiser(reason))], m), q, m);
  }

  // ---------------------------------------------------------------- a stale Dead

  lemma BreakingWindow(c: Core, p: Package, m: Limits)
    requires WellFormed(c) && AtRest(c) && p !in c.unrecoverable && !(p in c.rows && c.rows[p].rawDead)
    ensures HandlerOk(Idler())
    ensures var f := Focus(c, p, BREAKS, m.noHeartbeat, m.deadline, Idler());
            f.1 == Broken && Run(c, f.0.ops) == Step(c, BeginChecking(p, m.deadline))
  {
    ReviverIsOk();
    assert [BeginChecking(p, m.deadline)] + [] == [BeginChecking(p, m.deadline)];
    RunOne(c, BeginChecking(p, m.deadline));
  }

  /** A window on `p` breaks; after a new Start another package takes the focus. */
  function Restarted(c: Core, p: Package, q: Package, deadline: real): Core {
    Step(Step(Step(c, BeginChecking(p, deadline)), NewStart), BeginChecking(q, deadline))
  }

  lemma BrokenThenRestarted(c: Core, p: Package, q: Package, deadline: real)
    requires OnceDead(c, p) && p != q
    ensures StaleDead(Restarted(c, p, q, deadline), p)
  {
    var c1 := Step(c, BeginChecking(p, deadline));
    var c2 := Step(c1, NewStart);
    StepOnRow(c, BeginChecking(p, deadline), p);
    StepOnRow(c1, NewStart, p);
    StepOnRow(c2, BeginChecking(q, deadline), p);
    StepOnFocus(c2, BeginChecking(q, deadline));
  }

  /** The package dies and is recovered, twice over as `handle_focus_dead` has it. */
  function DiesAndRecovers(p: Package): seq<Event> { [FocusOn(p, DEAD, Reviver())] + [FoundDead(p, Reviver())] }

  lemma AfterRecovering(p: Package, m: Limits)
    requires p != Nobody
    ensures EventsOk(DiesAndRecovers(p))
    ensures Session(DiesAndRecovers(p), m) == Alone(p, Revived(Died(Revived(Died(FreshRow)))), false, false)
  {
    ReviverIsOk();
    AfterOneDeath(p, m);
    SessionSnoc([FocusOn(p, DEAD, Reviver())], FoundDead(p, Reviver()), m);
    FoundDeadRevives(Alone(p, Revived(Died(FreshRow)), false, false), p, Revived(Died(FreshRow)));
  }

  /** Its next window breaks, and a new Start begins with `q`. */
  function Story(es: seq<Event>, p: Package, q: Package): seq<Event> {
    es + [FocusOn(p, BREAKS, Idler())] + [Call(NewStart)] + [FocusOn(q, BREAKS, Idler())]
  }

  lemma StoryGoesOn(es: seq<Event>, p: Package, q: Package, m: Limits)
    requires EventsOk(es)
    requires var c := Session(es, m);
             && AtRest(c) && OnceDead(c, p) && p !in c.unrecoverable && !c.rows[p].rawDead
             && q !in c.rows && p != q
    ensures EventsOk(Story(es, p, q)) && Session(Story(es, p, q), m) == Restarted(Session(es, m), p, q, m.deadline)
  {
    ReviverIsOk();
    var c := Session(es, m);
    var c1 := Step(c, BeginChecking(p, m.deadline));
    var es1 := es + [FocusOn(p, BREAKS, Idler())];
    SessionSnoc(es, FocusOn(p, BREAKS, Idler()), m);
    BreakingWindow(c, p, m);
    SessionSnoc(es1, Call(NewStart), m);
    RunOne(c1, NewStart);
    FreshAfterNewStart(c, p, q, m.deadline);
    SessionSnoc(es1 + [Call(NewStart)], FocusOn(q, BREAKS, Idler()), m);
    BreakingWindow(Step(c1, NewStart), q, m);
  }

  lemma FreshAfterNewStart(c: Core, p: Package, q: Package, deadline: real)
    requires WellFormed(c) && p != q && q !in c.rows
    ensures var d := Step(Step(c, BeginChecking(p, deadline)), NewStart);
            WellFormed(d) && AtRest(d) && q !in d.unrecoverable && q !in d.rows
  {
    var c1 := Step(c, BeginChecking(p, deadline));
    StepKeepsWellFormed(c, BeginChecking(p, deadline));
    StepKeepsWellFormed(c1, NewStart);
    StepOnRow(c, BeginChecking(p, deadline), q);
    StepOnRow(c1, NewStart, q);
  }

  lemma AloneOnceDead(c: Core, p: Package, q: Package, row: Row)
    requires p != Nobody && p != q && row.committed == Unset && row.lastReal == Dead && !row.rawDead
    requires c == Alone(p, row, false, false)
    ensures AtRest(c) && OnceDead(c, p) && p !in c.unrecoverable && !c.rows[p].rawDead && q !in c.rows
  {
  }

  lemma StoryEndsStale(es: seq<Event>, p: Package, q: Package, m: Limits)
    requires EventsOk(es)
    requires var c := Session(es, m);
             && AtRest(c) && OnceDead(c, p) && p !in c.unrecoverable && !c.rows[p].rawDead
             && q !in c.rows && p != q
    ensures EventsOk(Story(es, p, q)) && StaleDead(Session(Story(es, p, q), m), p)
  {
    StoryGoesOn(es, p, q, m);
    BrokenThenRestarted(Session(es, m), p, q, m.deadline);
  }

  lemma RevivedRow(row: Row)
    ensures var now := Revived(Died(row)); now.committed == Unset && now.lastReal == Dead && !now.rawDead
  {
  }

  lemma RecoveredFacts(p: Package, q: Package, m: Limits)
    requires p != Nobody && p != q
    ensures EventsOk(DiesAndRecovers(p))
    ensures var c := Session(DiesAndRecovers(p), m);
            AtRest(c) && OnceDead(c, p) && p !in c.unrecoverable && !c.rows[p].rawDead && q !in c.rows
  {
    AfterRecovering(p, m);
    RevivedRow(Revived(Died(FreshRow)));
    AloneOnceDead(Session(DiesAndRecovers(p), m), p, q, Revived(Died(Revived(Died(FreshRow)))));
  }

  /** At the end `p`, which was recovered, reads Dead, though nobody found it so since. */
  lemma StaleDeadIsReachable(p: Package, q: Package, m: Limits)
    requires p != Nobody && p != q
    ensures EventsOk(DiesAndRecovers(p)) && EventsOk(Story(DiesAndRecovers(p), p, q))
    ensures OnceDead(Session(DiesAndRecovers(p), m), p)
    ensures StaleDead(Session(Story(DiesAndRecovers(p), p, q), m), p)
  {
    RecoveredFacts(p, q, m);
    StoryEndsStale(DiesAndRecovers(p), p, q, m);
  }

  // ---------------------------------------------------------------- Dead again and again

  /** Steps that give nobody up, report nobody Dead, and begin recoveries of named packages only. */
  predicate Harmless(op: Op) {
    && !op.MarkUnrecoverable? && !op.NewStart? && op != BeginRecovery(Nobody)
    && !(op.OnRow? && op.r.DeadCached?)
  }

  predicate AllHarmless(ops: seq<Op>) { forall i :: 0 <= i < |ops| ==> Harmless(ops[i]) }

  /** The checker may look at `p`: it is at rest, `p` was not given up, and nobody reported it Dead. */
  ghost predicate MayLook(c: Core, p: Package) {
    && WellFormed(c) && AtRest(c) && BusyMatchesActive(c)
    && p !in c.unrecoverable && !RowOf(c, p).rawDead
  }

  lemma HarmlessStep(c: Core, op: Op, p: Package)
    requires Harmless(op) && BusyMatchesActive(c) && p !in c.unrecoverable && !RowOf(c, p).rawDead
    requires !(op.MarkUnrecoverable? && op.p == p)
    ensures var d := Step(c, op); BusyMatchesActive(d) && p !in d.unrecoverable && !RowOf(d, p).rawDead
  {
    BusyBreaksOnlyOnEmptyName(c, op);
    MarksOnlyGrow(c, op);
    StepOnRow(c, op, p);
    HarmlessRow(c, op, p);
  }

  lemma HarmlessRow(c: Core, op: Op, p: Package)
    requires Harmless(op) && !RowOf(c, p).rawDead
    ensures !RowAfter(c, op, p).rawDead
  {
  }

  lemma {:induction false} HarmlessRun(c: Core, ops: seq<Op>, p: Package)
    requires AllHarmless(ops) && BusyMatchesActive(c) && p !in c.unrecoverable && !RowOf(c, p).rawDead
    ensures var d := Run(c, ops); BusyMatchesActive(d) && p !in d.unrecoverable && !RowOf(d, p).rawDead
  {
    if ops != [] {
      HarmlessRun(c, ops[..|ops| - 1], p);
      HarmlessStep(Run(c, ops[..|ops| - 1]), ops[|ops| - 1], p);
    }
  }

  /** A handler that recovers every package at the first attempt. */
  ghost predicate Revives(h: Handler) {
    && HandlerOk(h) && Settles(h)
    && forall k: nat, p: Package ::
         h.answer(k, p) == Handling([BeginRecovery(p), EndRecovery(false, NoReason, true)], false, NoReason, false)
  }

  /** A window that runs its full time without evidence of anything. */
  predicate SeesNothing(w: Window) { !w.preDead && w.polls == [] && !w.lateOnline && !w.lateRaised }

  lemma ReviverRevives()
    ensures Revives(Reviver()) && SeesNothing(NOTHING)
  {
    ReviverIsOk();
  }

  lemma RevivingSucceeds(c: Core, h: Handler, k: nat)
    requires WellFormed(c) && DequeueCore(c).1 != Nobody && Revives(h)
    ensures !Fails(c, h, k)
  {
    var o := h.answer(k, DequeueCore(c).1);
    assert StageOf(o.ops[1]) == Some(NoStage);
    FailsExactly(c, h, k);
  }

  lemma HarmlessJoin(a: seq<Op>, b: seq<Op>)
    requires AllHarmless(a) && AllHarmless(b)
    ensures AllHarmless(a + b)
  {
  }

  lemma HarmlessAttempt(c: Core, o: Handling, p: Package)
    requires o.ops == [BeginRecovery(p), EndRecovery(false, NoReason, true)] && p != Nobody
    ensures AllHarmless(Tried(o) + Proceed(c)) && Quiet(o.ops)
  {
    HarmlessJoin([Dequeue, SetPause(true), Screen(Touch)], o.ops);
    assert AllHarmless(Proceed(c));
    HarmlessJoin(Tried(o), Proceed(c));
  }

  lemma RevivingIsHarmless(c: Core, h: Handler)
    requires WellFormed(c) && Revives(h)
    ensures AllHarmless(ProcessNext(c, h, 0).ops) && Quiet(ProcessNext(c, h, 0).handled)
  {
    var p := DequeueCore(c).1;
    if !c.inProgress && p != Nobody {
      RevivingSucceeds(c, h, 0);
      SuccessSteps(c, h, 0);
      HarmlessAttempt(Run(c, Tried(h.answer(0, p))), h.answer(0, p), p);
    }
  }

  lemma HarmlessRecovery(c: Core, ops: seq<Op>, h: Handler)
    requires WellFormed(c) && Revives(h) && AllHarmless(ops)
    ensures AllHarmless(AndRecover(c, ops, h).ops) && Quiet(AndRecover(c, ops, h).handled)
  {
    RunKeepsWellFormed(c, ops);
    RevivingIsHarmless(Run(c, ops), h);
    HarmlessJoin(ops, ProcessNext(Run(c, ops), h, 0).ops);
  }

  /** What a window that sees nothing consists of. */
  lemma NothingIs(c: Core, p: Package, w: Window, m: Limits, h: Handler)
    requires MayLook(c, p) && SeesNothing(w) && HandlerOk(h)
    ensures var quiet := [BeginChecking(p, m.deadline)] + [] + TimeoutOps(p, NoHeartbeat);
            Focus(c, p, w, m.noHeartbeat, m.deadline, h)
            == if RowOf(c, p).noHeartbeat + 1 >= m.noHeartbeat then (AndRecover(c, quiet + LimitOps(p), h), LimitDead)
               else (Round(quiet, [], []), Silent)
  {
    SilentSteps(c, [BeginChecking(p, m.deadline)] + [], p, m.noHeartbeat, h);
  }

  lemma NothingEnds(c: Core, p: Package, w: Window, m: Limits, h: Handler)
    requires MayLook(c, p) && SeesNothing(w) && Revives(h)
    ensures var f := Focus(c, p, w, m.noHeartbeat, m.deadline, h);
            && f.1 == (if RowOf(c, p).noHeartbeat + 1 >= m.noHeartbeat then LimitDead else Silent)
            && AllHarmless(f.0.ops) && Quiet(f.0.handled)
  {
    var quiet := [BeginChecking(p, m.deadline)] + [] + TimeoutOps(p, NoHeartbeat);
    NothingIs(c, p, w, m, h);
    HarmlessWindow(p, m);
    HarmlessRecovery(c, quiet + LimitOps(p), h);
  }

  lemma HarmlessWindow(p: Package, m: Limits)
    ensures var quiet := [BeginChecking(p, m.deadline)] + [] + TimeoutOps(p, NoHeartbeat);
            AllHarmless(quiet) && AllHarmless(quiet + LimitOps(p))
  {
  }

  lemma CountsOne(c: Core, f: (Round, Ending), p: Package, limit: int)
    requires WindowOk(c, f, p, limit, p) && (f.1 == Silent || f.1 == LimitDead) && Quiet(f.0.handled)
    ensures RowOf(Run(c, f.0.ops), p).noHeartbeat == RowOf(c, p).noHeartbeat + 1
  {
    CounterIsTheTally(c, f.0.ops, p);
    QuietTally(RowOf(c, p).noHeartbeat + 1, f.0.handled, p);
  }

  lemma NothingCounts(c: Core, p: Package, w: Window, m: Limits, h: Handler)
    requires MayLook(c, p) && SeesNothing(w) && Revives(h)
    ensures var f := Focus(c, p, w, m.noHeartbeat, m.deadline, h);
            RowOf(Run(c, f.0.ops), p).noHeartbeat == RowOf(c, p).noHeartbeat + 1
  {
    NothingEnds(c, p, w, m, h);
    WindowTallyIs(c, p, w, m, h, p);
    CountsOne(c, Focus(c, p, w, m.noHeartbeat, m.deadline, h), p, m.noHeartbeat);
  }

  lemma NothingRests(c: Core, p: Package, w: Window, m: Limits, h: Handler)
    requires MayLook(c, p) && Revives(h)
    ensures AtRest(Run(c, Focus(c, p, w, m.noHeartbeat, m.deadline, h).0.ops))
  {
    SettlingEventSettles(c, FocusOn(p, w, h), m);
    FocusRestsExactly(c, p, w, m, h);
  }

  /** One more window that sees nothing. */
  lemma NothingAgain(c: Core, p: Package, w: Window, m: Limits, h: Handler)
    requires MayLook(c, p) && SeesNothing(w) && Revives(h)
    ensures var f, n := Focus(c, p, w, m.noHeartbeat, m.deadline, h), RowOf(c, p).noHeartbeat;
            && MayLook(Run(c, f.0.ops), p)
            && f.1 == (if n + 1 >= m.noHeartbeat then LimitDead else Silent)
            && RowOf(Run(c, f.0.ops), p).noHeartbeat == n + 1
  {
    NothingEnds(c, p, w, m, h);
    NothingRests(c, p, w, m, h);
    NothingCounts(c, p, w, m, h);
    HarmlessRun(c, Focus(c, p, w, m.noHeartbeat, m.deadline, h).0.ops, p);
  }

  /** Any number of windows that see nothing, one after the other. */
  function Nothings(p: Package, n: nat, w: Window, h: Handler): seq<Event> {
    if n == 0 then [] else Nothings(p, n - 1, w, h) + [FocusOn(p, w, h)]
  }

  /** One more window of a session. */
  lemma SessionLooksAgain(es: seq<Event>, p: Package, w: Window, m: Limits, h: Handler)
    requires EventsOk(es) && MayLook(Session(es, m), p) && SeesNothing(w) && Revives(h)
    ensures EventsOk(es + [FocusOn(p, w, h)])
    ensures var c, n := Session(es + [FocusOn(p, w, h)], m), RowOf(Session(es, m), p).noHeartbeat;
            && MayLook(c, p) && RowOf(c, p).noHeartbeat == n + 1
            && LastEnding(es + [FocusOn(p, w, h)], m) == if n + 1 >= m.noHeartbeat then LimitDead else Silent
  {
    SessionSnoc(es, FocusOn(p, w, h), m);
    NothingAgain(Session(es, m), p, w, m, h);
    assert (es + [FocusOn(p, w, h)])[..|es|] == es;
  }

  ghost predicate Looked(es: seq<Event>, p: Package, n: nat, m: Limits)
    requires EventsOk(es)
  {
    MayLook(Session(es, m), p) && RowOf(Session(es, m), p).noHeartbeat == n
  }

  lemma NothingYet(p: Package, m: Limits)
    ensures Looked([], p, 0, m)
  {
  }

  lemma LooksAgain(es: seq<Event>, p: Package, n: nat, w: Window, m: Limits, h: Handler)
    requires EventsOk(es) && Looked(es, p, n, m) && SeesNothing(w) && Revives(h)
    ensures EventsOk(es + [FocusOn(p, w, h)]) && Looked(es + [FocusOn(p, w, h)], p, n + 1, m)
    ensures LastEnding(es + [FocusOn(p, w, h)], m) == if n + 1 >= m.noHeartbeat then LimitDead else Silent
  {
    SessionLooksAgain(es, p, w, m, h);
  }

  lemma {:induction false} AfterNothings(es: seq<Event>, p: Package, n: nat, w: Window, m: Limits, h: Handler)
    requires SeesNothing(w) && Revives(h) && es == Nothings(p, n, w, h)
    decreases n
    ensures EventsOk(es) && Looked(es, p, n, m)
  {
    if n == 0 {
      NothingYet(p, m);
    } else {
      var before := Nothings(p, n - 1, w, h);
      AfterNothings(before, p, n - 1, w, m, h);
      LooksAgain(before, p, n - 1, w, m, h);
    }
  }

  /** Whatever the limit, from the limit-th window on every single one declares the package Dead, though each of
      the recoveries in between succeeds: none of them starts the count again.  The window is the (n+1)-th. */
  lemma DeadAgainAndAgain(p: Package, n: nat, w: Window, m: Limits, h: Handler)
    requires SeesNothing(w) && Revives(h)
    ensures var es := Nothings(p, n, w, h) + [FocusOn(p, w, h)];
            EventsOk(es) && LastEnding(es, m) == if n + 1 >= m.noHeartbeat then LimitDead else Silent
  {
    AfterNothings(Nothings(p, n, w, h), p, n, w, m, h);
    LooksAgain(Nothings(p, n, w, h), p, n, w, m, h);
  }
}
