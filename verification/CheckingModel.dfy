/** The rounds of agent/checking_system.py as runs of the checker pointer: what each round decides,
    given the answers of the supervisor, is a list of pointer steps.  Everything proved about runs
    of the pointer therefore holds of rounds. */
module CheckingModel {
  import opened PointerModel
  import opened QueueLemmas
  import opened PointerInvariants
  import opened RecoveryQueue

  // ---------------------------------------------------------------- the supervisor

  /** One call of the supervisor's recovery handler: the steps made meanwhile, its own and those of other
      threads, whether it raised, and whether the launch trace could be read afterwards. */
  datatype Handling = Handling(ops: seq<Op>, raised: bool, error: Reason, traceRead: bool)

  /** The supervisor: its answer to the k-th call for a package, and the packages this Start was given. */
  datatype Handler = Handler(answer: (nat, Package) -> Handling, known: set<Package>)

  /** The packages a step may create a row for. */
  function Named(op: Op): set<Package> {
    match op
    case OnRow(q, _) => {q}
    case Prepare(ps, _) => set q | q in ps
    case BeginChecking(q, _) => {q}
    case DeadDetected(q) => {q}
    case Enqueue(q) => {q}
    case BeginRecovery(q) => {q}
    case _ => {}
  }

  /** While a handler runs, any step may happen but a new Start, about any known package. */
  predicate StepsOk(ops: seq<Op>, known: set<Package>) {
    forall i :: 0 <= i < |ops| ==> !ops[i].NewStart? && Named(ops[i]) <= known
  }

  ghost predicate HandlerOk(h: Handler) {
    forall k: nat, p: Package :: StepsOk(h.answer(k, p).ops, h.known + {p})
  }

  /** A handler undisturbed by other threads: its steps are about its own package, or about the recovery in
      progress. */
  predicate OwnStep(op: Op, p: Package) {
    match op
    case NewStart => false
    case Reset => false
    case Dequeue => false
    case EndFocus(q) => q == p
    case MarkUnrecoverable(q) => q == p
    case RecordLaunch(q, _) => q == p
    case _ => Named(op) <= {p}
  }

  predicate OwnSteps(ops: seq<Op>, p: Package) {
    forall i :: 0 <= i < |ops| ==> OwnStep(ops[i], p)
  }

  ghost predicate OwnHandler(h: Handler) {
    forall k: nat, p: Package :: OwnSteps(h.answer(k, p).ops, p)
  }

  // ---------------------------------------------------------------- runs

  lemma {:induction false} RunAppend(c: Core, a: seq<Op>, b: seq<Op>)
    ensures Run(c, a + b) == Run(Run(c, a), b)
  {
    if b == [] {
      assert a + b == a;
    } else {
      RunAppend(c, a, b[..|b| - 1]);
      assert (a + b)[..|a + b| - 1] == a + b[..|b| - 1];
    }
  }

  lemma {:induction false} ApplyAllAppend(s: State, a: seq<Op>, b: seq<Op>)
    ensures ApplyAll(s, a + b) == ApplyAll(ApplyAll(s, a), b)
  {
    if b == [] {
      assert a + b == a;
    } else {
      ApplyAllAppend(s, a, b[..|b| - 1]);
      assert (a + b)[|a + b| - 1] == b[|b| - 1];
      assert (a + b)[..|a + b| - 1] == a + b[..|b| - 1];
    }
  }

  lemma RunOne(c: Core, op: Op)
    ensures Run(c, [op]) == Step(c, op)
  {
    assert [op][..0] == [];
  }

  lemma RunTwo(c: Core, a: Op, b: Op)
    ensures Run(c, [a, b]) == Step(Step(c, a), b)
  {
    assert [a, b] == [a] + [b];
    RunAppend(c, [a], [b]);
    RunOne(c, a);
    RunOne(Step(c, a), b);
  }

  // ---------------------------------------------------------------- recovery

  /** What a round did: all steps, the packages the handler was called for, and the steps made during
      those calls. */
  datatype Round = Round(ops: seq<Op>, calls: seq<Package>, handled: seq<Op>)

  /** Hand out a package and run the handler on it. */
  function Tried(o: Handling): seq<Op> {
    [Dequeue, SetPause(true), Screen(Touch)] + o.ops
  }

  /** The error of the launch the trace recorded last; none when the trace cannot be read. */
  function LaunchFault(c: Core, o: Handling): LaunchError {
    if o.traceRead && c.lastLaunch.Launched? then c.lastLaunch.error else NoError
  }

  predicate Failed(c: Core, o: Handling) {
    o.raised || c.stage == RecoveryFailed || LaunchFault(c, o).NotInstalled?
  }

  function FailReason(c: Core, o: Handling): Reason {
    if o.raised then o.error
    else if LaunchFault(c, o) != NoError then Because(LaunchFault(c, o).text)
    else if c.lastError != NoReason then c.lastError
    else Because("relaunch_failed")
  }

  function GiveUp(p: Package, reason: Reason): seq<Op> {
    [MarkUnrecoverable(p), EndRecovery(true, reason, true), SetPause(false), Sync]
  }

  function Proceed(c: Core): seq<Op> {
    [SetPause(false), Resume] + (if SafeToResume(c) then [] else [Screen(ReadHeader)])
  }

  /** The packages that could still be handed to the handler. */
  function Hopeful(c: Core, known: set<Package>): set<Package> { c.rows.Keys + known - c.unrecoverable }

  /** `_process_next_recovery`: on failure give the package up, refill the queue, and try the next. */
  ghost function ProcessNext(c: Core, h: Handler, k: nat): (r: Round)
    requires WellFormed(c) && HandlerOk(h)
    ensures WellFormed(Run(c, r.ops))
    decreases |Hopeful(c, h.known)|
  {
    if c.inProgress then Round([], [], [])
    else
      var p := DequeueCore(c).1;
      if p == Nobody then
        RunKeepsWellFormed(c, [Dequeue, SetPause(false)]);
        Round([Dequeue, SetPause(false)], [], [])
      else
        var o := h.answer(k, p);
        var c1 := Run(c, Tried(o));
        if Failed(c1, o) then
          var undo := GiveUp(p, FailReason(c1, o));
          var c2 := Run(c1, undo);
          AttemptNarrows(c, o, p, FailReason(c1, o), h.known);
          var rest := ProcessNext(c2, h, k + 1);
          RunAppend(c, Tried(o), undo);
          RunAppend(c, Tried(o) + undo, rest.ops);
          Round(Tried(o) + undo + rest.ops, [p] + rest.calls, o.ops + rest.handled)
        else
          RunKeepsWellFormed(c, Tried(o) + Proceed(c1));
          Round(Tried(o) + Proceed(c1), [p], o.ops)
  }

  /** Nobody unknown came up, no row is lost, and nobody was forgiven. */
  ghost predicate Narrower(c: Core, d: Core, known: set<Package>) {
    c.rows.Keys <= d.rows.Keys <= c.rows.Keys + known && c.unrecoverable <= d.unrecoverable
  }

  lemma StepNarrows(c: Core, op: Op, known: set<Package>)
    requires WellFormed(c) && !op.NewStart? && Named(op) <= known
    ensures Narrower(c, Step(c, op), known)
  {
    forall q ensures (q in c.rows ==> q in Step(c, op).rows) && (q in Step(c, op).rows ==> q in c.rows || q in known) {
      StepOnRow(c, op, q);
      NewcomersAreNamed(c, op);
    }
    MarksOnlyGrow(c, op);
  }

  lemma NewcomersAreNamed(c: Core, op: Op)
    requires WellFormed(c)
    ensures Newcomers(c, op) <= Named(op) + c.rows.Keys
  {
  }

  /** The packages given up after one step. */
  function MarksAfter(c: Core, op: Op): set<Package> {
    match op
    case NewStart => {}
    case MarkUnrecoverable(p) => if p == Nobody then c.unrecoverable else c.unrecoverable + {p}
    case _ => c.unrecoverable
  }

  lemma FrontStepOnMarks(c: Core, op: Op)
    requires !AboutRecovery(op)
    ensures Step(c, op).unrecoverable == MarksAfter(c, op)
  {
    match op {
      case Prepare(ps, _) => EnsureAllIs(c, ps);
      case _ =>
    }
  }

  lemma RecoveryStepOnMarks(c: Core, op: Op)
    requires AboutRecovery(op)
    ensures Step(c, op).unrecoverable == MarksAfter(c, op)
  {
  }

  /** Nobody is forgiven but by a new Start. */
  lemma MarksOnlyGrow(c: Core, op: Op)
    ensures Step(c, op).unrecoverable == MarksAfter(c, op)
  {
    if AboutRecovery(op) { RecoveryStepOnMarks(c, op); } else { FrontStepOnMarks(c, op); }
  }

  lemma {:induction false} HandlerNarrows(c: Core, ops: seq<Op>, known: set<Package>)
    requires WellFormed(c) && StepsOk(ops, known)
    ensures WellFormed(Run(c, ops)) && Narrower(c, Run(c, ops), known)
  {
    if ops != [] {
      var init := ops[..|ops| - 1];
      HandlerNarrows(c, init, known);
      StepNarrows(Run(c, init), ops[|ops| - 1], known);
      StepKeepsWellFormed(Run(c, init), ops[|ops| - 1]);
    }
  }

  lemma TriedIs(c: Core, o: Handling)
    requires WellFormed(c) && c.queue != []
    ensures Run(c, Tried(o)) == Run(HandedOut(c), o.ops)
  {
    RunAppend(c, [Dequeue, SetPause(true), Screen(Touch)], o.ops);
    HandOutRun(c);
  }

  lemma HandOutRun(c: Core)
    requires WellFormed(c) && c.queue != []
    ensures Run(c, [Dequeue, SetPause(true), Screen(Touch)]) == HandedOut(c)
  {
    var most := [Dequeue, SetPause(true)];
    assert [Dequeue, SetPause(true), Screen(Touch)][..2] == most;
    RunTwo(c, Dequeue, SetPause(true));
    DequeueTakesFirst(c);
  }

  lemma EndThenUnpause(c: Core, reason: Reason)
    ensures Step(Step(c, EndRecovery(true, reason, true)), SetPause(false))
            == EndRecoveryCore(c, true, reason, true).(paused := false)
  {
  }

  lemma MarkStep(c: Core, p: Package)
    ensures Step(c, MarkUnrecoverable(p)) == MarkUnrecoverableCore(c, p)
  {
  }

  /** Giving up is marking, ending the recovery as failed, unpausing and adopting every Dead package. */
  lemma GiveUpRun(c: Core, p: Package, reason: Reason)
    ensures Run(c, GiveUp(p, reason)) == SyncCore(Abandoned(c, p, reason))
  {
    var init := [MarkUnrecoverable(p), EndRecovery(true, reason, true), SetPause(false)];
    assert GiveUp(p, reason) == init + [Sync];
    RunSnoc(c, init, Sync);
    assert Run(c, init) == Abandoned(c, p, reason) by {
      RunOfThree(c, MarkUnrecoverable(p), EndRecovery(true, reason, true), SetPause(false));
      MarkStep(c, p);
      EndThenUnpause(MarkUnrecoverableCore(c, p), reason);
    }
  }

  function Abandoned(c: Core, p: Package, reason: Reason): Core {
    EndRecoveryCore(MarkUnrecoverableCore(c, p), true, reason, true).(paused := false)
  }

  lemma SyncOnlyAppends(c: Core)
    ensures SyncCore(c) == c.(queue := SyncCore(c).queue, orphans := SyncCore(c).orphans) && c.queue <= SyncCore(c).queue
  {
  }

  /** A failed ending keeps queue and marks, frees the recovery, and leaves its failure on record. */
  lemma FailedEnding(c: Core, reason: Reason)
    ensures var d := EndRecoveryCore(c, true, reason, true);
            && d.queue == c.queue && d.unrecoverable == c.unrecoverable
            && d.stage == RecoveryFailed && !d.inProgress && d.active == Nobody
  {
  }

  lemma FailedEndingKeepsRows(c: Core, reason: Reason)
    requires c.active != Nobody ==> c.active in c.rows
    ensures EndRecoveryCore(c, true, reason, true).rows.Keys == c.rows.Keys
  {
    forall q ensures q in EndRecoveryCore(c, true, reason, true).rows <==> q in c.rows {
      EndRecoveryOnRow(c, true, reason, true, q);
    }
  }

  lemma GiveUpNarrows(c: Core, p: Package, reason: Reason)
    requires WellFormed(c) && p in c.rows && p != Nobody
    ensures var d := Run(c, GiveUp(p, reason)); WellFormed(d) && Narrower(c, d, {}) && p in d.unrecoverable
  {
    RunKeepsWellFormed(c, GiveUp(p, reason));
    GiveUpRun(c, p, reason);
    FailedEnding(MarkUnrecoverableCore(c, p), reason);
    FailedEndingKeepsRows(MarkUnrecoverableCore(c, p), reason);
    SyncOnlyAppends(Abandoned(c, p, reason));
  }

  /** A failed attempt marks a package that was not marked before: fewer are left to try. */
  lemma AttemptNarrows(c: Core, o: Handling, p: Package, reason: Reason, known: set<Package>)
    requires WellFormed(c) && p == DequeueCore(c).1 && p != Nobody && StepsOk(o.ops, known + {p})
    ensures var d := Run(Run(c, Tried(o)), GiveUp(p, reason));
            && WellFormed(d) && Narrower(c, d, known)
            && p in c.rows && p !in c.unrecoverable && p in d.unrecoverable
            && |Hopeful(d, known)| < |Hopeful(c, known)|
  {
    AttemptKeeps(c, o, p, known);
    GiveUpNarrows(Run(c, Tried(o)), p, reason);
    var d := Run(Run(c, Tried(o)), GiveUp(p, reason));
    FewerHopeful(c, d, p, known);
  }

  lemma FewerHopeful(c: Core, d: Core, p: Package, known: set<Package>)
    requires Narrower(c, d, known) && p in c.rows && p !in c.unrecoverable && p in d.unrecoverable
    ensures |Hopeful(d, known)| < |Hopeful(c, known)|
  {
    SubsetSize(Hopeful(d, known), Hopeful(c, known) - {p});
  }

  lemma AttemptKeeps(c: Core, o: Handling, p: Package, known: set<Package>)
    requires WellFormed(c) && p == DequeueCore(c).1 && p != Nobody && StepsOk(o.ops, known + {p})
    ensures p in c.rows && p !in c.unrecoverable
    ensures WellFormed(Run(c, Tried(o))) && Narrower(c, Run(c, Tried(o)), known)
  {
    DequeueTakesFirst(c);
    TriedIs(c, o);
    HandedOutWellFormed(c);
    HandlerNarrows(HandedOut(c), o.ops, known + {p});
  }

  /** The state the handler starts from. */
  function HandedOut(c: Core): Core
    requires c.queue != []
  {
    c.(queue := c.queue[1..], paused := true)
  }

  lemma HandedOutWellFormed(c: Core)
    requires WellFormed(c) && c.queue != []
    ensures WellFormed(HandedOut(c))
  {
    NoDupSuffix(c.queue, 1);
  }

  lemma SubsetSize(a: set<Package>, b: set<Package>)
    requires a <= b
    ensures |a| <= |b|
  {
    assert b == a + (b - a);
  }

  // ---------------------------------------------------------------- focus windows

  /** One look at the package in focus; a probe for evidence may raise. */
  datatype Poll = Look(elapsed: real, dead: bool, online: bool) | LookRaised

  /** The evidence a focus window meets; its polls end when the clock does or a stop is requested, and the last
      probe, when the time is up, may raise too. */
  datatype Window = Window(preDead: bool, polls: seq<Poll>, lateOnline: bool, lateRaised: bool)

  /** How a focus window ended; Broken is an exception of a probe, which leaves the focus as it is. */
  datatype Ending = Stopped | GivenUp | SawDead | EarlyOnline | LateOnline | Silent | LimitDead | Broken

  datatype Verdict = DeadSeen | OnlineSeen | TimedOut | ProbeRaised

  /** The polling loop: the timer steps it makes, and what it saw first. */
  function Watch(polls: seq<Poll>, lastTick: int, deadline: real): (r: (seq<Op>, Verdict))
    ensures forall i :: 0 <= i < |r.0| ==> r.0[i].Screen?
    decreases |polls|
  {
    if polls == [] then ([], TimedOut)
    else
      var poll := polls[0];
      if poll.LookRaised? then ([], ProbeRaised)
      else if poll.dead then ([], DeadSeen)
      else if poll.online then ([], OnlineSeen)
      else
        var tick := if poll.elapsed.Floor != lastTick then [Screen(UpdateTimer(poll.elapsed, deadline))] else [];
        if poll.elapsed >= deadline then (tick, TimedOut)
        else
          var rest := Watch(polls[1..], poll.elapsed.Floor, deadline);
          (tick + rest.0, rest.1)
  }

  /** A look that shows neither Dead nor Online, before the deadline. */
  predicate Uneventful(poll: Poll, deadline: real) {
    poll.Look? && !poll.dead && !poll.online && poll.elapsed < deadline
  }

  /** The window is decided by the first eventful look: Dead wins over Online within one look, and a look at
      the deadline is still taken. */
  lemma {:induction false} WatchDecides(polls: seq<Poll>, lastTick: int, deadline: real, n: nat)
    requires n <= |polls| && forall i :: 0 <= i < n ==> Uneventful(polls[i], deadline)
    requires n < |polls| ==> !Uneventful(polls[n], deadline)
    ensures Watch(polls, lastTick, deadline).1 ==
      if n == |polls| then TimedOut
      else if polls[n].LookRaised? then ProbeRaised
      else if polls[n].dead then DeadSeen
      else if polls[n].online then OnlineSeen
      else TimedOut
  {
    if n > 0 { WatchDecides(polls[1..], polls[0].elapsed.Floor, deadline, n - 1); }
  }

  /** Pause checking and recover the next package. */
  ghost function AndRecover(c: Core, ops: seq<Op>, h: Handler): (r: Round)
    requires WellFormed(c) && HandlerOk(h)
    ensures ops <= r.ops
    ensures WellFormed(Run(c, r.ops))
  {
    RunKeepsWellFormed(c, ops);
    var rest := ProcessNext(Run(c, ops), h, 0);
    RunAppend(c, ops, rest.ops);
    Round(ops + rest.ops, rest.calls, rest.handled)
  }

  /** What recovery does from the state some steps lead to. */
  lemma AndRecoverFrom(c: Core, ops: seq<Op>, d: Core, h: Handler)
    requires WellFormed(c) && HandlerOk(h) && Run(c, ops) == d
    ensures WellFormed(d) && AndRecover(c, ops, h).calls == ProcessNext(d, h, 0).calls
    ensures Run(c, AndRecover(c, ops, h).ops) == Run(d, ProcessNext(d, h, 0).ops)
  {
    RunKeepsWellFormed(c, ops);
    RunAppend(c, ops, ProcessNext(d, h, 0).ops);
  }

  function OnlineOps(p: Package): seq<Op> {
    [OnRow(p, Touched), OnRow(p, Uncounted), OnRow(p, Committed(Online)), Screen(SetText(OnlineText)), EndFocus(p)]
  }

  function LimitOps(p: Package): seq<Op> {
    [OnRow(p, Committed(Dead)), Enqueue(p), SetPause(true)]
  }

  /** The steps of a window that ran its full time. */
  function TimeoutOps(p: Package, state: Presence): seq<Op> {
    [OnRow(p, Committed(state)), EndFocus(p)] + (if state == NoHeartbeat then [OnRow(p, Counted)] else [])
  }

  /** The end of a window that ran its full time after the steps `done`. */
  ghost function TimedOutRound(c: Core, done: seq<Op>, p: Package, online: bool, limit: int, h: Handler): (r: (Round, Ending))
    requires WellFormed(c) && HandlerOk(h)
    ensures WellFormed(Run(c, r.0.ops))
  {
    if online then
      RunKeepsWellFormed(c, done + TimeoutOps(p, Online));
      (Round(done + TimeoutOps(p, Online), [], []), LateOnline)
    else
      var quiet := done + TimeoutOps(p, NoHeartbeat);
      if RowOf(Run(c, quiet), p).noHeartbeat >= limit then (AndRecover(c, quiet + LimitOps(p), h), LimitDead)
      else
        RunKeepsWellFormed(c, quiet);
        (Round(quiet, [], []), Silent)
  }

  /** `focus_package`: one bounded look at one package. */
  ghost function Focus(c: Core, p: Package, w: Window, limit: int, deadline: real, h: Handler): (r: (Round, Ending))
    requires WellFormed(c) && HandlerOk(h)
    ensures WellFormed(Run(c, r.0.ops))
  {
    if c.paused || c.inProgress then (Round([], [], []), Stopped)
    else if p in c.unrecoverable then
      RunKeepsWellFormed(c, [EndFocus(p)]);
      (Round([EndFocus(p)], [], []), GivenUp)
    else if w.preDead || (p in c.rows && c.rows[p].rawDead) then
      (AndRecover(c, [DeadDetected(p), SetPause(true)], h), SawDead)
    else
      var watch := Watch(w.polls, -1, deadline);
      var ops := [BeginChecking(p, deadline)] + watch.0;
      match watch.1
      case DeadSeen => (AndRecover(c, ops + [DeadDetected(p), SetPause(true)], h), SawDead)
      case OnlineSeen =>
        RunKeepsWellFormed(c, ops + OnlineOps(p));
        (Round(ops + OnlineOps(p), [], []), EarlyOnline)
      case ProbeRaised =>
        RunKeepsWellFormed(c, ops);
        (Round(ops, [], []), Broken)
      case TimedOut =>
        RunKeepsWellFormed(c, ops);
        if w.lateRaised then (Round(ops, [], []), Broken) else TimedOutRound(c, ops, p, w.lateOnline, limit, h)
  }

  function Declaration(c: Core, p: Package): seq<Op> { if CommittedDead(c, p) then [] else [DeadDetected(p)] }

  function Queueing(c: Core, p: Package): seq<Op> { if !c.inProgress && p !in c.queue then [Enqueue(p)] else [] }

  /** What `handle_focus_dead` does before it recovers. */
  function FocusDeadStart(c: Core, p: Package): seq<Op> {
    Declaration(c, p) + Queueing(Run(c, Declaration(c, p)), p) + [SetPause(true), Screen(ReadHeader)]
  }

  /** `handle_focus_dead`. */
  ghost function FocusDead(c: Core, p: Package, h: Handler): (r: Round)
    requires WellFormed(c) && HandlerOk(h)
    ensures WellFormed(Run(c, r.ops))
  {
    AndRecover(c, FocusDeadStart(c, p), h)
  }

  /** `tick_round_start`: adopt every Dead package, then recover one if nothing is under way. */
  ghost function Tick(c: Core, h: Handler): (r: Round)
    requires WellFormed(c) && HandlerOk(h)
    ensures WellFormed(Run(c, r.ops))
  {
    var start := [Screen(Touch), Sync, SelfHeal];
    RunKeepsWellFormed(c, start);
    var c1 := Run(c, start);
    if c1.paused || c1.inProgress || c1.queue == [] then Round(start, [], [])
    else AndRecover(c, start, h)
  }
}
