/** When a package is given up for something its own recovery did not do. */
module StaleFailures {
  import opened Common
  import opened PointerModel
  import opened QueueLemmas
  import opened PointerInvariants
  import opened RecoveryQueue
  import opened CheckingModel
  import opened CheckingProofs
  import opened CheckingSession
  import opened Resting
  import opened Attention

  // ---------------------------------------------------------------- what decides a failure

  /** The recovery stage a step writes, if any. */
  function StageOf(op: Op): Option<Stage> {
    match op
    case BeginRecovery(_) => Some(Start)
    case EndRecovery(failed, _, _) => Some(if failed then RecoveryFailed else NoStage)
    case SetStage(stage) => Some(stage)
    case Reset => Some(NoStage)
    case NewStart => Some(NoStage)
    case _ => None
  }

  /** The launch a step records; NoLaunch if it records none. */
  function LaunchOf(op: Op): Launch {
    match op
    case RecordLaunch(p, fault) => if p == Nobody then NoLaunch else Launched(p, fault)
    case _ => NoLaunch
  }

  /** The last stage some steps write. */
  function StageWritten(ops: seq<Op>): Option<Stage> {
    if ops == [] then None
    else if StageOf(ops[|ops| - 1]).Some? then StageOf(ops[|ops| - 1])
    else StageWritten(ops[..|ops| - 1])
  }

  /** The last launch some steps record. */
  function LaunchMade(ops: seq<Op>): Launch {
    if ops == [] then NoLaunch
    else if LaunchOf(ops[|ops| - 1]) != NoLaunch then LaunchOf(ops[|ops| - 1])
    else LaunchMade(ops[..|ops| - 1])
  }

  function StageAfter(stage: Stage, ops: seq<Op>): Stage {
    if StageWritten(ops).Some? then StageWritten(ops).value else stage
  }

  function LaunchAfter(launch: Launch, ops: seq<Op>): Launch {
    if LaunchMade(ops) == NoLaunch then launch else LaunchMade(ops)
  }

  lemma StageStep(c: Core, op: Op)
    ensures Step(c, op).stage == if StageOf(op).Some? then StageOf(op).value else c.stage
  {
    match op {
      case Prepare(ps, _) => EnsureAllIs(c, ps);
      case _ =>
    }
  }

  lemma LaunchStep(c: Core, op: Op)
    ensures Step(c, op).lastLaunch == if LaunchOf(op) != NoLaunch then LaunchOf(op) else c.lastLaunch
  {
    match op {
      case Prepare(ps, _) => EnsureAllIs(c, ps);
      case _ =>
    }
  }

  lemma {:induction false} RunOnStage(c: Core, ops: seq<Op>)
    ensures Run(c, ops).stage == StageAfter(c.stage, ops)
  {
    if ops != [] {
      RunOnStage(c, ops[..|ops| - 1]);
      StageStep(Run(c, ops[..|ops| - 1]), ops[|ops| - 1]);
    }
  }

  lemma {:induction false} RunOnLaunch(c: Core, ops: seq<Op>)
    ensures Run(c, ops).lastLaunch == LaunchAfter(c.lastLaunch, ops)
  {
    if ops != [] {
      RunOnLaunch(c, ops[..|ops| - 1]);
      LaunchStep(Run(c, ops[..|ops| - 1]), ops[|ops| - 1]);
    }
  }

  /** The launch failed because its package is not installed. */
  predicate Missing(launch: Launch) { launch.Launched? && launch.error.NotInstalled? }

  /** When a handler counts as having failed, for every handler and every state: it raised, or the last stage
      written by anyone is a failure, or the last launch recorded by anyone names a missing package. */
  lemma FailsExactly(c: Core, h: Handler, k: nat)
    requires WellFormed(c) && DequeueCore(c).1 != Nobody
    ensures var o := h.answer(k, DequeueCore(c).1);
            Fails(c, h, k) <==>
              || o.raised
              || StageAfter(c.stage, o.ops) == RecoveryFailed
              || (o.traceRead && Missing(LaunchAfter(c.lastLaunch, o.ops)))
  {
    var o := h.answer(k, DequeueCore(c).1);
    DequeueTakesFirst(c);
    TriedIs(c, o);
    RunOnStage(HandedOut(c), o.ops);
    RunOnLaunch(HandedOut(c), o.ops);
  }

  /** The error on record after a package was given up: the exception's, else that of the last launch anybody
      recorded, else the one on record before, and never none unless an exception brought none. */
  lemma GivenUpBecause(c: Core, h: Handler, k: nat)
    requires WellFormed(c) && DequeueCore(c).1 != Nobody
    ensures var o := h.answer(k, DequeueCore(c).1);
            var launch, before := LaunchAfter(c.lastLaunch, o.ops), Run(c, Tried(o)).lastError;
            NextTry(c, h, k).lastError ==
              if o.raised then o.error
              else if o.traceRead && launch.Launched? && launch.error != NoError then Because(launch.error.text)
              else if before != NoReason then before else Because("relaunch_failed")
  {
    var p := DequeueCore(c).1;
    var o := h.answer(k, p);
    DequeueTakesFirst(c);
    TriedIs(c, o);
    RunOnLaunch(HandedOut(c), o.ops);
    GiveUpRun(Run(c, Tried(o)), p, FailReason(Run(c, Tried(o)), o));
    AbandonedError(Run(c, Tried(o)), p, FailReason(Run(c, Tried(o)), o));
  }

  lemma AbandonedError(c: Core, p: Package, reason: Reason)
    ensures SyncCore(Abandoned(c, p, reason)).lastError == reason
  {
  }

  // ---------------------------------------------------------------- whose failure it is

  /** Whose recovery it was when the last stage was written; Nobody if no recovery was running. */
  function WrittenFor(active: Package, ops: seq<Op>): Package {
    if ops == [] then Nobody
    else
      var init, last := ops[..|ops| - 1], ops[|ops| - 1];
      if last.BeginRecovery? then last.p
      else if StageOf(last).Some? then ActiveIn(active, init)
      else WrittenFor(active, init)
  }

  /** That is the package active in the run at the last step that wrote a stage. */
  lemma {:induction false} WrittenForMeans(c: Core, ops: seq<Op>) returns (i: nat)
    requires StageWritten(ops).Some?
    ensures i < |ops| && StageOf(ops[i]) == StageWritten(ops)
    ensures forall j :: i < j < |ops| ==> StageOf(ops[j]) == None
    ensures WrittenFor(c.active, ops) == if ops[i].BeginRecovery? then ops[i].p else Run(c, ops[..i]).active
  {
    var init, last := ops[..|ops| - 1], ops[|ops| - 1];
    if StageOf(last).Some? {
      i := |ops| - 1;
      RunOnActiveIs(c, init);
    } else {
      i := WrittenForMeans(c, init);
      assert ops[..i] == init[..i];
    }
  }

  /** The package's own recovery failed: the call raised, a failure was written while the package was being
      recovered, or it was launched in vain. */
  predicate OwnFailure(c: Core, o: Handling, p: Package) {
    || o.raised
    || (StageWritten(o.ops) == Some(RecoveryFailed) && WrittenFor(c.active, o.ops) == p)
    || (o.traceRead && Missing(LaunchMade(o.ops)) && LaunchMade(o.ops).p == p)
  }

  /** What was on record before the call, or happened meanwhile to another package or to none, looks like a
      failure. */
  predicate ForeignFailure(c: Core, o: Handling, p: Package) {
    || (StageWritten(o.ops) == None && c.stage == RecoveryFailed)
    || (StageWritten(o.ops) == Some(RecoveryFailed) && WrittenFor(c.active, o.ops) != p)
    || (o.traceRead && LaunchMade(o.ops) == NoLaunch && Missing(c.lastLaunch))
    || (o.traceRead && Missing(LaunchMade(o.ops)) && LaunchMade(o.ops).p != p)
  }

  /** A package is given up although its own recovery did not fail exactly when such a foreign failure is read as
      its own. */
  lemma GivenUpForOthersExactly(c: Core, h: Handler, k: nat)
    requires WellFormed(c) && DequeueCore(c).1 != Nobody
    ensures var p := DequeueCore(c).1;
            var o := h.answer(k, p);
            Fails(c, h, k) && !OwnFailure(c, o, p) <==> ForeignFailure(c, o, p) && !OwnFailure(c, o, p)
  {
    FailsExactly(c, h, k);
  }

  /** While the handler succeeds in recovering `p`, a recovery of `q` in another thread fails. */
  function MeanwhileFails(p: Package, q: Package, reason: Reason): seq<Op> {
    [BeginRecovery(p), EndRecovery(false, NoReason, true), BeginRecovery(q), EndRecovery(true, reason, true)]
  }

  /** Then `p` is given up for it. */
  lemma AnotherRecoveryIsBlamed(c: Core, h: Handler, k: nat, q: Package, reason: Reason)
    requires WellFormed(c) && DequeueCore(c).1 != Nobody && q != DequeueCore(c).1
    requires var o := h.answer(k, DequeueCore(c).1);
             !o.raised && o.ops == MeanwhileFails(DequeueCore(c).1, q, reason)
    ensures var p := DequeueCore(c).1;
            Fails(c, h, k) && ForeignFailure(c, h.answer(k, p), p) && !OwnFailure(c, h.answer(k, p), p)
  {
    MeanwhileWrites(c.active, DequeueCore(c).1, q, reason);
    FailsExactly(c, h, k);
  }

  lemma MeanwhileWrites(active: Package, p: Package, q: Package, reason: Reason)
    ensures var ops := MeanwhileFails(p, q, reason);
            && StageWritten(ops) == Some(RecoveryFailed) && WrittenFor(active, ops) == q && LaunchMade(ops) == NoLaunch
  {
    var ops := MeanwhileFails(p, q, reason);
    assert ops[..3][2] == BeginRecovery(q);
    assert ops[..3][..2] == ops[..2] && ops[..2][..1] == ops[..1] && ops[..1][..0] == [];
    assert LaunchMade(ops[..1]) == NoLaunch;
    assert LaunchMade(ops) == LaunchMade(ops[..3]) && LaunchMade(ops[..3]) == LaunchMade(ops[..2])
        && LaunchMade(ops[..2]) == LaunchMade(ops[..1]);
  }

  /** A handler that takes only its own steps cannot be blamed for another package's recovery or launch. */
  lemma {:induction false} OwnStepsBlameOwn(ops: seq<Op>, p: Package)
    requires OwnSteps(ops, p)
    ensures ActiveIn(Nobody, ops) in {Nobody, p} && WrittenFor(Nobody, ops) in {Nobody, p}
    ensures LaunchMade(ops).Launched? ==> LaunchMade(ops).p == p
  {
    if ops != [] {
      assert OwnStep(ops[|ops| - 1], p);
      OwnStepsBlameOwn(ops[..|ops| - 1], p);
    }
  }

  /** The handler came back without having done anything, as it does when it is throttled. */
  predicate DidNothing(o: Handling) { o.ops == [] && !o.raised }

  /** Such a handler has no failure of its own, and is blamed exactly for a stale stage or a stale launch. */
  lemma IdleHandlerBlamedExactly(c: Core, h: Handler, k: nat)
    requires WellFormed(c) && DequeueCore(c).1 != Nobody && DidNothing(h.answer(k, DequeueCore(c).1))
    ensures !OwnFailure(c, h.answer(k, DequeueCore(c).1), DequeueCore(c).1)
    ensures Fails(c, h, k) <==> c.stage == RecoveryFailed
                                || (h.answer(k, DequeueCore(c).1).traceRead && Missing(c.lastLaunch))
  {
    FailsExactly(c, h, k);
  }

  // ---------------------------------------------------------------- a stale launch is reachable

  /** A package turned out not to be installed; a new Start forgets everything but the launch trace; then `q` is
      found Dead. */
  function MissThenDie(p: Package, q: Package, text: string): seq<Op> {
    [RecordLaunch(p, NotInstalled(text)), NewStart, DeadDetected(q)]
  }

  lemma {:induction false} NamedRunKnows(c: Core, ops: seq<Op>)
    requires WellFormed(c) && Nobody !in c.rows && forall i :: 0 <= i < |ops| ==> Nobody !in Named(ops[i])
    ensures WellFormed(Run(c, ops)) && Nobody !in Run(c, ops).rows
  {
    if ops != [] {
      var init := ops[..|ops| - 1];
      NamedRunKnows(c, init);
      StepKeepsWellFormed(Run(c, init), ops[|ops| - 1]);
      StepOnRow(Run(c, init), ops[|ops| - 1], Nobody);
      NewcomersAreNamed(Run(c, init), ops[|ops| - 1]);
    }
  }

  lemma {:induction false} RunOnActive(c: Core, ops: seq<Op>)
    requires BusyMatchesActive(c) && BeginRecovery(Nobody) !in ops
    ensures BusyMatchesActive(Run(c, ops))
  {
    if ops != [] {
      assert ops == ops[..|ops| - 1] + [ops[|ops| - 1]];
      RunOnActive(c, ops[..|ops| - 1]);
      BusyBreaksOnlyOnEmptyName(Run(c, ops[..|ops| - 1]), ops[|ops| - 1]);
    }
  }

  lemma {:induction false} RunOnMarks(c: Core, ops: seq<Op>)
    requires c.unrecoverable == {} && forall i :: 0 <= i < |ops| ==> !ops[i].MarkUnrecoverable?
    ensures Run(c, ops).unrecoverable == {}
  {
    if ops != [] {
      RunOnMarks(c, ops[..|ops| - 1]);
      MarksOnlyGrow(Run(c, ops[..|ops| - 1]), ops[|ops| - 1]);
    }
  }

  /** A package found Dead waits, when nobody was given up before and nothing runs. */
  lemma FoundDeadWaits(c: Core, q: Package)
    requires q != Nobody && q !in c.unrecoverable && c.active == Nobody
    ensures q in Step(c, DeadDetected(q)).queue
  {
    DeadJoins(c, q);
    if q !in c.queue { assert (c.queue + [q])[|c.queue|] == q; }
  }

  /** The same at the end of a run from a fresh pointer. */
  lemma LastDeadWaits(ops: seq<Op>, q: Package)
    requires ops != [] && ops[|ops| - 1] == DeadDetected(q) && q != Nobody
    requires BeginRecovery(Nobody) !in ops && forall i :: 0 <= i < |ops| ==> !ops[i].MarkUnrecoverable?
    requires !BusyAfter(false, ops[..|ops| - 1])
    ensures var c := Run(InitCore, ops); q in c.queue && BusyMatchesActive(c)
  {
    var init := ops[..|ops| - 1];
    RunOnBusy(InitCore, init);
    RunOnActive(InitCore, init);
    RunOnActive(InitCore, ops);
    RunOnMarks(InitCore, init);
    FoundDeadWaits(Run(InitCore, init), q);
  }

  /** A failed recovery is still on record and nothing runs. */
  ghost predicate StaleFailure(c: Core) {
    WellFormed(c) && !c.inProgress && c.active == Nobody && c.stage == RecoveryFailed && Nobody !in c.rows
  }

  lemma MissOnRecord(p: Package, q: Package, text: string)
    requires p != Nobody
    ensures var ops := MissThenDie(p, q, text);
            && StageWritten(ops) == Some(NoStage) && LaunchMade(ops) == Launched(p, NotInstalled(text))
            && !BusyAfter(false, ops) && !BusyAfter(false, ops[..2])
  {
    var ops := MissThenDie(p, q, text);
    assert LaunchMade(ops) == LaunchMade(ops[..2]);
    assert ops[..2][..1] == ops[..1];
    assert LaunchMade(ops[..2]) == LaunchMade(ops[..1]);
  }

  /** Idle, with no failed recovery on record, but with a launch of a missing package. */
  ghost predicate StaleLaunch(c: Core) {
    WellFormed(c) && !c.inProgress && c.stage == NoStage && Missing(c.lastLaunch)
  }

  lemma RecordsStaleLaunch(ops: seq<Op>, q: Package)
    requires ops != [] && ops[|ops| - 1] == DeadDetected(q) && q != Nobody
    requires BeginRecovery(Nobody) !in ops && forall i :: 0 <= i < |ops| ==> !ops[i].MarkUnrecoverable?
    requires !BusyAfter(false, ops) && !BusyAfter(false, ops[..|ops| - 1])
    requires StageWritten(ops) == Some(NoStage) && Missing(LaunchMade(ops))
    ensures StaleLaunch(Run(InitCore, ops)) && q in Run(InitCore, ops).queue
  {
    RunKeepsWellFormed(InitCore, ops);
    RunOnStage(InitCore, ops);
    RunOnLaunch(InitCore, ops);
    RunOnBusy(InitCore, ops);
    LastDeadWaits(ops, q);
  }

  /** So does a fresh Start after a launch of a missing package, whichever it was. */
  lemma StaleLaunchIsReachable(p: Package, q: Package, text: string)
    requires p != Nobody && q != Nobody
    ensures var c := Run(InitCore, MissThenDie(p, q, text)); StaleLaunch(c) && q in c.queue
  {
    MissOnRecord(p, q, text);
    RecordsStaleLaunch(MissThenDie(p, q, text), q);
  }

  // ---------------------------------------------------------------- the cascade

  /** After the call the stage of a stale failure is still a failure. */
  predicate LeavesFailed(o: Handling) { StageAfter(RecoveryFailed, o.ops) == RecoveryFailed }

  /** The call wrote another stage, and nothing else speaks against it: it launched its package without fault. */
  predicate Recovers(o: Handling) {
    && !o.raised
    && StageAfter(RecoveryFailed, o.ops) != RecoveryFailed
    && (o.traceRead ==> LaunchMade(o.ops) != NoLaunch && !Missing(LaunchMade(o.ops)))
  }

  lemma WithoutSuffix(w: seq<Package>, q: seq<Package>, p: Package)
    requires p !in w && w <= q
    ensures w <= Without(q, p)
    decreases |q|
  {
    if w != q {
      assert w <= q[..|q| - 1];
      WithoutSuffix(w, q[..|q| - 1], p);
    } else {
      WithoutIs(q, p);
    }
  }

  /** A handler's own steps do not disturb the packages waiting in front. */
  lemma OwnStepKeepsWaiting(c: Core, op: Op, p: Package, w: seq<Package>)
    requires WellFormed(c) && OwnStep(op, p) && p !in w && w <= c.queue && (c.active == Nobody || c.active == p)
    ensures var d := Step(c, op); WellFormed(d) && w <= d.queue && (d.active == Nobody || d.active == p)
  {
    StepKeepsWellFormed(c, op);
    StepOnActive(c, op);
    StepOnQueue(c, op);
    match op {
      case MarkUnrecoverable(_) => WithoutSuffix(w, c.queue, p);
      case EndRecovery(_, _, _) => WithoutSuffix(w, c.queue, p);
      case _ =>
    }
  }

  lemma {:induction false} OwnRunKeepsWaiting(c: Core, ops: seq<Op>, p: Package, w: seq<Package>)
    requires WellFormed(c) && OwnSteps(ops, p) && p !in w && w <= c.queue && (c.active == Nobody || c.active == p)
    ensures var d := Run(c, ops); WellFormed(d) && w <= d.queue && (d.active == Nobody || d.active == p)
  {
    if ops != [] {
      OwnRunKeepsWaiting(c, ops[..|ops| - 1], p, w);
      OwnStepKeepsWaiting(Run(c, ops[..|ops| - 1]), ops[|ops| - 1], p, w);
    }
  }

  /** Giving a package up keeps the others waiting in front, and leaves its failure on record. */
  lemma GiveUpKeepsWaiting(c: Core, p: Package, reason: Reason, w: seq<Package>)
    requires WellFormed(c) && p != Nobody && p !in w && w <= c.queue
    ensures var d := Run(c, GiveUp(p, reason)); d.stage == RecoveryFailed && w <= d.queue
  {
    var m := Step(c, MarkUnrecoverable(p));
    StepOnQueue(c, MarkUnrecoverable(p));
    WithoutSuffix(w, c.queue, p);
    GiveUpRun(c, p, reason);
    EndThenSync(m, reason);
  }

  lemma EndThenSync(c: Core, reason: Reason)
    ensures var d := SyncCore(EndRecoveryCore(c, true, reason, true).(paused := false));
            d.stage == RecoveryFailed && c.queue <= d.queue
  {
    FailedEnding(c, reason);
    SyncOnlyAppends(EndRecoveryCore(c, true, reason, true).(paused := false));
  }

  /** The first waiting package and the state its handler leaves. */
  lemma FirstTried(c: Core, h: Handler, k: nat)
    requires StaleFailure(c) && OwnHandler(h) && c.queue != []
    ensures var p := c.queue[0];
            var d := Run(c, Tried(h.answer(k, p)));
            && DequeueCore(c).1 == p && p != Nobody && p !in c.queue[1..]
            && WellFormed(d) && c.queue[1..] <= d.queue
  {
    var p := c.queue[0];
    DequeueTakesFirst(c);
    DequeueTakesOne(c, p);
    HandedOutWellFormed(c);
    TriedIs(c, h.answer(k, p));
    OwnRunKeepsWaiting(HandedOut(c), h.answer(k, p).ops, p, c.queue[1..]);
  }

  lemma OwnKnowsNobody(c: Core, o: Handling, p: Package, reason: Reason)
    requires WellFormed(c) && p == DequeueCore(c).1 && p != Nobody && OwnSteps(o.ops, p) && Nobody !in c.rows
    ensures Nobody !in Run(Run(c, Tried(o)), GiveUp(p, reason)).rows
  {
    assert StepsOk(o.ops, {} + {p});
    AttemptNarrows(c, o, p, reason, {});
  }

  /** After a stale failure, a handler that leaves the stage failed costs the first package its recovery, and the
      next one finds the same situation. */
  lemma CascadeStep(c: Core, h: Handler, k: nat)
    requires StaleFailure(c) && HandlerOk(h) && OwnHandler(h) && c.queue != [] && LeavesFailed(h.answer(k, c.queue[0]))
    ensures DequeueCore(c).1 == c.queue[0] && c.queue[0] != Nobody && Fails(c, h, k)
    ensures var d := NextTry(c, h, k);
            StaleFailure(d) && AllAttended(d) && c.queue[0] in d.unrecoverable && c.queue[1..] <= d.queue
  {
    var p := c.queue[0];
    var o := h.answer(k, p);
    var a := Run(c, Tried(o));
    FirstTried(c, h, k);
    FailsExactly(c, h, k);
    AfterFailure(c, h, k);
    OwnKnowsNobody(c, o, p, FailReason(a, o));
    GiveUpKeepsWaiting(a, p, FailReason(a, o), c.queue[1..]);
    GiveUpAdoptsAll(a, p, FailReason(a, o));
  }

  /** A package once given up stays given up through a recovery. */
  lemma MarksOverRecovery(c: Core, h: Handler, k: nat)
    requires WellFormed(c) && HandlerOk(h)
    ensures c.unrecoverable <= Run(c, ProcessNext(c, h, k).ops).unrecoverable
  {
    HandlerRunsOncePerPackage(c, h, k);
  }

  /** What one call of `_process_next_recovery` does to the first `n` waiting packages, and to the rest when the
      package behind them recovers. */
  ghost predicate Cascade(queue: seq<Package>, n: nat, recovers: bool, calls: seq<Package>, d: Core)
    requires n <= |queue|
  {
    && queue[..n] <= calls
    && (forall i :: 0 <= i < n ==> queue[i] in d.unrecoverable)
    && (n < |queue| && recovers ==> calls == queue[..n + 1] && queue[n + 1..] <= d.queue)
  }

  lemma CascadeStops(c: Core, h: Handler, k: nat)
    requires StaleFailure(c) && HandlerOk(h) && OwnHandler(h)
    ensures Cascade(c.queue, 0, RecoversAt(h, k, c.queue, 0),
                    ProcessNext(c, h, k).calls, Run(c, ProcessNext(c, h, k).ops))
  {
    if RecoversAt(h, k, c.queue, 0) {
      assert h.answer(k + 0, c.queue[0]) == h.answer(k, c.queue[0]);
      FirstTried(c, h, k);
      FailsExactly(c, h, k);
      AfterSuccess(c, h, k);
    }
  }

  lemma CascadeGrows(queue: seq<Package>, rest: seq<Package>, n: nat, recovers: bool, later: bool,
                     calls: seq<Package>, d: Core)
    requires 0 < n <= |queue| && queue[1..] <= rest && queue[0] in d.unrecoverable
    requires Cascade(rest, n - 1, later, calls, d) && (recovers ==> later)
    ensures Cascade(queue, n, recovers, [queue[0]] + calls, d)
  {
    assert queue[..n] == [queue[0]] + rest[..n - 1];
    forall i | 0 <= i < n ensures queue[i] in d.unrecoverable {
      if i > 0 { assert queue[i] == rest[i - 1]; }
    }
    if n < |queue| && recovers {
      assert queue[..n + 1] == [queue[0]] + rest[..n];
      assert queue[n + 1..] <= rest[n..];
    }
  }

  predicate RecoversAt(h: Handler, k: nat, queue: seq<Package>, n: nat) {
    n < |queue| && Recovers(h.answer(k + n, queue[n]))
  }

  /** The handlers called for the first `n` waiting packages all leave the stage failed. */
  ghost predicate FailedUpTo(h: Handler, k: nat, queue: seq<Package>, n: nat)
    requires n <= |queue|
  {
    forall i :: 0 <= i < n ==> LeavesFailed(h.answer(k + i, queue[i]))
  }

  lemma FailedFurther(h: Handler, k: nat, queue: seq<Package>, rest: seq<Package>, n: nat)
    requires 0 < n <= |queue| && queue[1..] <= rest && FailedUpTo(h, k, queue, n)
    ensures LeavesFailed(h.answer(k, queue[0])) && FailedUpTo(h, k + 1, rest, n - 1)
    ensures RecoversAt(h, k, queue, n) ==> RecoversAt(h, k + 1, rest, n - 1)
  {
    assert LeavesFailed(h.answer(k + 0, queue[0]));
    forall i | 0 <= i < n - 1 ensures LeavesFailed(h.answer(k + 1 + i, rest[i])) {
      assert rest[i] == queue[i + 1] && LeavesFailed(h.answer(k + (i + 1), queue[i + 1]));
    }
    assert n < |queue| ==> rest[n - 1] == queue[n];
  }

  /** So from a stale failure one call gives up the queue, package after package, up to the first whose handler
      writes another stage: as long as the handlers leave the stage failed, whatever else they do, their packages
      are called for in order and given up; one that recovers ends the call, and the rest keeps waiting. */
  lemma {:induction false} StaleFailureCascades(c: Core, h: Handler, k: nat, n: nat)
    requires StaleFailure(c) && HandlerOk(h) && OwnHandler(h) && n <= |c.queue| && FailedUpTo(h, k, c.queue, n)
    ensures Cascade(c.queue, n, RecoversAt(h, k, c.queue, n),
                    ProcessNext(c, h, k).calls, Run(c, ProcessNext(c, h, k).ops))
    decreases n
  {
    if n == 0 {
      CascadeStops(c, h, k);
    } else {
      var d := NextTry(c, h, k);
      FirstFails(c, h, k, n);
      StaleFailureCascades(d, h, k + 1, n - 1);
      CascadeContinues(c, h, k, n);
    }
  }

  /** The first of them fails, and the next one finds the same situation. */
  lemma FirstFails(c: Core, h: Handler, k: nat, n: nat)
    requires StaleFailure(c) && HandlerOk(h) && OwnHandler(h) && 0 < n <= |c.queue| && FailedUpTo(h, k, c.queue, n)
    ensures var d := NextTry(c, h, k);
            StaleFailure(d) && c.queue[1..] <= d.queue && n - 1 <= |d.queue| && FailedUpTo(h, k + 1, d.queue, n - 1)
  {
    assert LeavesFailed(h.answer(k + 0, c.queue[0]));
    CascadeStep(c, h, k);
    FailedFurther(h, k, c.queue, NextTry(c, h, k).queue, n);
  }

  lemma CascadeContinues(c: Core, h: Handler, k: nat, n: nat)
    requires StaleFailure(c) && HandlerOk(h) && OwnHandler(h) && 0 < n <= |c.queue| && FailedUpTo(h, k, c.queue, n)
    requires var d := NextTry(c, h, k);
             && WellFormed(d) && n - 1 <= |d.queue| && c.queue[1..] <= d.queue
             && Cascade(d.queue, n - 1, RecoversAt(h, k + 1, d.queue, n - 1),
                        ProcessNext(d, h, k + 1).calls, Run(d, ProcessNext(d, h, k + 1).ops))
    ensures Cascade(c.queue, n, RecoversAt(h, k, c.queue, n),
                    ProcessNext(c, h, k).calls, Run(c, ProcessNext(c, h, k).ops))
  {
    var d := NextTry(c, h, k);
    FailedFurther(h, k, c.queue, d.queue, n);
    CascadeStep(c, h, k);
    AfterFailure(c, h, k);
    MarksOverRecovery(d, h, k + 1);
    CascadeGrows(c.queue, d.queue, n, RecoversAt(h, k, c.queue, n), RecoversAt(h, k + 1, d.queue, n - 1),
                 ProcessNext(d, h, k + 1).calls, Run(d, ProcessNext(d, h, k + 1).ops));
  }

  lemma EmptyQueueEnds(c: Core, h: Handler, k: nat)
    requires StaleFailure(c) && HandlerOk(h) && c.queue == []
    ensures var d := Run(c, ProcessNext(c, h, k).ops); d == c.(paused := false)
  {
    DequeueTakesFirst(c);
    NobodyWaiting(c, h, k);
  }

  /** When no handler writes another stage, the one call gives up every Dead package there is. */
  lemma {:induction false} NobodyRecoversNobodyLeft(c: Core, h: Handler, k: nat)
    requires StaleFailure(c) && HandlerOk(h) && OwnHandler(h) && c.queue != []
    requires forall j: nat, p: Package :: LeavesFailed(h.answer(j, p))
    ensures var d := Run(c, ProcessNext(c, h, k).ops); forall q :: CommittedDead(d, q) ==> q in d.unrecoverable
    decreases |Hopeful(c, h.known)|
  {
    var d := NextTry(c, h, k);
    CascadeStep(c, h, k);
    AfterFailure(c, h, k);
    if d.queue == [] {
      EmptyQueueEnds(d, h, k + 1);
      AttendedByGivingUp(d);
    } else {
      NobodyRecoversNobodyLeft(d, h, k + 1);
    }
  }

  /** With nothing waiting and nothing running, only the packages given up are attended. */
  lemma AttendedByGivingUp(c: Core)
    requires AllAttended(c) && c.queue == [] && !c.inProgress
    ensures var d := c.(paused := false); forall q :: CommittedDead(d, q) ==> q in d.unrecoverable
  {
    forall q | CommittedDead(c, q) ensures q in c.unrecoverable { assert Attended(c, q); }
  }
}
