/** When checking comes back to rest: neither paused nor blocked by a recovery in progress. */
module Resting {
  import opened Common
  import opened PointerModel
  import opened QueueLemmas
  import opened PointerInvariants
  import opened RecoveryQueue
  import opened CheckingModel
  import opened CheckingProofs
  import opened CheckingSession

  /** Whether a recovery is in progress after some steps. */
  function BusyAfter(busy: bool, ops: seq<Op>): bool {
    if ops == [] then busy
    else
      match ops[|ops| - 1]
      case BeginRecovery(_) => true
      case EndRecovery(_, _, _) => false
      case Reset => false
      case NewStart => false
      case _ => BusyAfter(busy, ops[..|ops| - 1])
  }

  lemma BusyStep(c: Core, op: Op)
    ensures Step(c, op).inProgress ==
      if op.BeginRecovery? then true else if op.EndRecovery? || op.Reset? || op.NewStart? then false else c.inProgress
  {
    match op {
      case Prepare(ps, _) => EnsureAllIs(c, ps);
      case _ =>
    }
  }

  lemma {:induction false} RunOnBusy(c: Core, ops: seq<Op>)
    ensures Run(c, ops).inProgress == BusyAfter(c.inProgress, ops)
  {
    if ops != [] {
      RunOnBusy(c, ops[..|ops| - 1]);
      BusyStep(Run(c, ops[..|ops| - 1]), ops[|ops| - 1]);
    }
  }

  /** No recovery begins among the steps. */
  predicate BeginsNothing(ops: seq<Op>) { forall i :: 0 <= i < |ops| ==> !ops[i].BeginRecovery? }

  lemma {:induction false} NothingBegun(c: Core, ops: seq<Op>)
    requires !c.inProgress && BeginsNothing(ops)
    ensures !Run(c, ops).inProgress
  {
    if ops != [] {
      NothingBegun(c, ops[..|ops| - 1]);
      BusyStep(Run(c, ops[..|ops| - 1]), ops[|ops| - 1]);
    }
  }

  predicate AtRest(c: Core) { !c.inProgress && !c.paused }

  /** Steps that neither pause nor begin anything. */
  lemma {:induction false} RunStaysIdle(c: Core, ops: seq<Op>)
    requires AtRest(c) && BeginsNothing(ops) && forall i :: 0 <= i < |ops| ==> !ops[i].SetPause?
    ensures AtRest(Run(c, ops))
  {
    if ops != [] {
      RunStaysIdle(c, ops[..|ops| - 1]);
      IdleBreaksExactly(Run(c, ops[..|ops| - 1]), ops[|ops| - 1]);
    }
  }

  lemma IdleBreaksExactly(c: Core, op: Op)
    requires AtRest(c)
    ensures AtRest(Step(c, op)) <==> !op.BeginRecovery? && op != SetPause(true)
  {
    BusyStep(c, op);
    PauseStep(c, op);
  }

  lemma PauseStep(c: Core, op: Op)
    requires !c.paused
    ensures Step(c, op).paused <==> op == SetPause(true)
  {
    match op {
      case Prepare(ps, _) => EnsureAllIs(c, ps);
      case _ =>
    }
  }

  // ---------------------------------------------------------------- recovery

  /** The call of the handler that ends a recovery has ended every recovery begun meanwhile: the last call, since
      a failed one is followed by another. */
  ghost predicate LastSettled(c: Core, h: Handler, k: nat)
    requires WellFormed(c) && HandlerOk(h) && !c.inProgress
    decreases |Hopeful(c, h.known)|
  {
    var p := DequeueCore(c).1;
    if p == Nobody then true
    else if Fails(c, h, k) then
      AfterFailure(c, h, k);
      LastSettled(NextTry(c, h, k), h, k + 1)
    else !BusyAfter(false, h.answer(k, p).ops)
  }

  /** Recovery leaves nothing running and nothing paused exactly when its last call of the handler settled. */
  lemma {:induction false} RecoveryRestsExactly(c: Core, h: Handler, k: nat)
    requires WellFormed(c) && HandlerOk(h) && !c.inProgress
    ensures AtRest(Run(c, ProcessNext(c, h, k).ops)) <==> LastSettled(c, h, k)
    decreases |Hopeful(c, h.known)|
  {
    var p := DequeueCore(c).1;
    if p == Nobody {
      NobodyWaiting(c, h, k);
    } else if Fails(c, h, k) {
      AfterFailure(c, h, k);
      RecoveryRestsExactly(NextTry(c, h, k), h, k + 1);
    } else {
      var o := h.answer(k, p);
      AfterSuccess(c, h, k);
      DequeueTakesFirst(c);
      TriedIs(c, o);
      RunOnBusy(HandedOut(c), o.ops);
    }
  }

  /** The same after the steps that led to the recovery. */
  ghost predicate SettledAfter(c: Core, ops: seq<Op>, h: Handler)
    requires WellFormed(c) && HandlerOk(h)
  {
    RunKeepsWellFormed(c, ops);
    !Run(c, ops).inProgress && LastSettled(Run(c, ops), h, 0)
  }

  lemma AndRecoverRestsExactly(c: Core, ops: seq<Op>, h: Handler)
    requires WellFormed(c) && HandlerOk(h) && !c.inProgress && BeginsNothing(ops)
    ensures AtRest(Run(c, AndRecover(c, ops, h).ops)) <==> SettledAfter(c, ops, h)
  {
    NothingBegun(c, ops);
    RunKeepsWellFormed(c, ops);
    RecoveryRestsExactly(Run(c, ops), h, 0);
    RunAppend(c, ops, ProcessNext(Run(c, ops), h, 0).ops);
  }

  // ---------------------------------------------------------------- rounds

  /** The steps after which a window recovers; None when it declares nobody Dead. */
  function FocusStart(c: Core, p: Package, w: Window, m: Limits): Option<seq<Op>> {
    if c.paused || c.inProgress || p in c.unrecoverable then None
    else if w.preDead || (p in c.rows && c.rows[p].rawDead) then Some([DeadDetected(p), SetPause(true)])
    else
      var watch := Watch(w.polls, -1, m.deadline);
      var watched := [BeginChecking(p, m.deadline)] + watch.0;
      var quiet := watched + TimeoutOps(p, NoHeartbeat);
      if watch.1.DeadSeen? then Some(watched + [DeadDetected(p), SetPause(true)])
      else if watch.1.TimedOut? && !w.lateRaised && !w.lateOnline && RowOf(Run(c, quiet), p).noHeartbeat >= m.noHeartbeat
      then Some(quiet + LimitOps(p))
      else None
  }

  /** A window that declares its package Dead ends as its recovery does. */
  lemma FocusRecovers(c: Core, p: Package, w: Window, m: Limits, h: Handler)
    requires WellFormed(c) && HandlerOk(h) && FocusStart(c, p, w, m).Some?
    ensures Focus(c, p, w, m.noHeartbeat, m.deadline, h).0 == AndRecover(c, FocusStart(c, p, w, m).value, h)
  {
  }

  lemma FocusStartBegins(c: Core, p: Package, w: Window, m: Limits)
    requires FocusStart(c, p, w, m).Some?
    ensures BeginsNothing(FocusStart(c, p, w, m).value)
  {
  }

  lemma QuietWindowRests(c: Core, p: Package, w: Window, m: Limits, h: Handler)
    requires WellFormed(c) && HandlerOk(h) && AtRest(c) && FocusStart(c, p, w, m).None?
    ensures AtRest(Run(c, Focus(c, p, w, m.noHeartbeat, m.deadline, h).0.ops))
  {
    if p in c.unrecoverable {
      RunStaysIdle(c, [EndFocus(p)]);
    } else {
      var watched := [BeginChecking(p, m.deadline)] + Watch(w.polls, -1, m.deadline).0;
      RunStaysIdle(c, watched);
      RunStaysIdle(c, watched + OnlineOps(p));
      RunStaysIdle(c, watched + TimeoutOps(p, Online));
      RunStaysIdle(c, watched + TimeoutOps(p, NoHeartbeat));
    }
  }

  lemma FocusRestsExactly(c: Core, p: Package, w: Window, m: Limits, h: Handler)
    requires WellFormed(c) && HandlerOk(h) && AtRest(c)
    ensures AtRest(Run(c, Focus(c, p, w, m.noHeartbeat, m.deadline, h).0.ops))
            <==> FocusStart(c, p, w, m).None? || SettledAfter(c, FocusStart(c, p, w, m).value, h)
  {
    if FocusStart(c, p, w, m).Some? {
      FocusRecovers(c, p, w, m, h);
      FocusStartBegins(c, p, w, m);
      AndRecoverRestsExactly(c, FocusStart(c, p, w, m).value, h);
    } else {
      QuietWindowRests(c, p, w, m, h);
    }
  }

  lemma FocusDeadStartBegins(c: Core, p: Package)
    ensures BeginsNothing(FocusDeadStart(c, p)) && Dequeue !in FocusDeadStart(c, p)
  {
  }

  lemma FocusDeadRestsExactly(c: Core, p: Package, h: Handler)
    requires WellFormed(c) && HandlerOk(h) && !c.inProgress
    ensures AtRest(Run(c, FocusDead(c, p, h).ops)) <==> SettledAfter(c, FocusDeadStart(c, p), h)
  {
    FocusDeadStartBegins(c, p);
    AndRecoverRestsExactly(c, FocusDeadStart(c, p), h);
  }

  /** With nobody waiting a recovery settles by itself. */
  lemma EmptyQueueSettles(c: Core, ops: seq<Op>, h: Handler)
    requires WellFormed(c) && HandlerOk(h) && Run(c, ops).queue == [] && !Run(c, ops).inProgress
    ensures SettledAfter(c, ops, h)
  {
  }

  const ROUND_START: seq<Op> := [Screen(Touch), Sync, SelfHeal]

  lemma TickRestsExactly(c: Core, h: Handler)
    requires WellFormed(c) && HandlerOk(h) && AtRest(c)
    ensures AtRest(Run(c, Tick(c, h).ops)) <==> SettledAfter(c, ROUND_START, h)
  {
    RunStaysIdle(c, ROUND_START);
    AndRecoverRestsExactly(c, ROUND_START, h);
    if Run(c, ROUND_START).queue == [] { EmptyQueueSettles(c, ROUND_START, h); }
  }

  // ---------------------------------------------------------------- sessions

  /** The event brings an idle checker back to idle: a call that neither begins a recovery nor pauses checking, or
      a round whose recovery, if it runs one, settled. */
  ghost predicate EventSettles(c: Core, e: Event, m: Limits)
    requires WellFormed(c) && EventOk(e)
  {
    match e
    case RoundStart(h) => SettledAfter(c, ROUND_START, h)
    case FocusOn(p, w, h) => FocusStart(c, p, w, m).None? || SettledAfter(c, FocusStart(c, p, w, m).value, h)
    case FoundDead(p, h) => SettledAfter(c, FocusDeadStart(c, p), h)
    case Call(op) => !op.BeginRecovery? && op != SetPause(true)
  }

  lemma EventRestsExactly(c: Core, e: Event, m: Limits)
    requires WellFormed(c) && EventOk(e) && AtRest(c)
    ensures AtRest(Run(c, StepsOf(c, e, m))) <==> EventSettles(c, e, m)
  {
    match e {
      case RoundStart(h) => TickRestsExactly(c, h);
      case FocusOn(p, w, h) => FocusRestsExactly(c, p, w, m, h);
      case FoundDead(p, h) => FocusDeadRestsExactly(c, p, h);
      case Call(op) =>
        RunOne(c, op);
        IdleBreaksExactly(c, op);
    }
  }

  /** Checking is at rest at every boundary of the session. */
  ghost predicate AlwaysAtRest(es: seq<Event>, m: Limits)
    requires EventsOk(es)
  {
    AtRest(Session(es, m)) && (es == [] || AlwaysAtRest(es[..|es| - 1], m))
  }

  /** Every event of the session settled. */
  ghost predicate AlwaysSettled(es: seq<Event>, m: Limits)
    requires EventsOk(es)
  {
    es == [] || (EventSettles(Session(es[..|es| - 1], m), es[|es| - 1], m) && AlwaysSettled(es[..|es| - 1], m))
  }

  /** At every boundary of a session checking is neither paused nor blocked by a recovery in progress exactly when
      every event of it settled. */
  lemma {:induction false} SessionRestsExactly(es: seq<Event>, m: Limits)
    requires EventsOk(es)
    ensures AlwaysAtRest(es, m) <==> AlwaysSettled(es, m)
  {
    if es != [] {
      var c := Session(es[..|es| - 1], m);
      SessionRestsExactly(es[..|es| - 1], m);
      if AtRest(c) { EventRestsExactly(c, es[|es| - 1], m); }
    }
  }

  // ---------------------------------------------------------------- settling handlers

  /** Every call that returns normally has ended the recoveries begun meanwhile. */
  ghost predicate Settles(h: Handler) {
    forall k: nat, p: Package :: h.answer(k, p).raised || !BusyAfter(false, h.answer(k, p).ops)
  }

  /** A handler that always settles does so in the end, whatever fails before. */
  lemma {:induction false} SettlingHandlerSettles(c: Core, h: Handler, k: nat)
    requires WellFormed(c) && HandlerOk(h) && !c.inProgress && Settles(h)
    ensures LastSettled(c, h, k)
    decreases |Hopeful(c, h.known)|
  {
    if DequeueCore(c).1 != Nobody && Fails(c, h, k) {
      AfterFailure(c, h, k);
      SettlingHandlerSettles(NextTry(c, h, k), h, k + 1);
    }
  }

  lemma SettlingEventSettles(c: Core, e: Event, m: Limits)
    requires WellFormed(c) && EventOk(e) && AtRest(c) && !e.Call? && Settles(e.h)
    ensures EventSettles(c, e, m)
  {
    var ops := match e
      case RoundStart(_) => ROUND_START
      case FocusOn(p, w, _) => if FocusStart(c, p, w, m).Some? then FocusStart(c, p, w, m).value else []
      case FoundDead(p, _) => FocusDeadStart(c, p)
      case Call(_) => [];
    if e.FoundDead? { FocusDeadStartBegins(c, e.p); }
    RunKeepsWellFormed(c, ops);
    NothingBegun(c, ops);
    SettlingHandlerSettles(Run(c, ops), e.h, 0);
  }

  /** With settling handlers, and calls that neither begin a recovery nor pause, a session is always at rest. */
  lemma {:induction false} SettlingSessionRests(es: seq<Event>, m: Limits)
    requires EventsOk(es)
    requires forall n :: 0 <= n < |es| ==>
               if es[n].Call? then !es[n].op.BeginRecovery? && es[n].op != SetPause(true) else Settles(es[n].h)
    ensures AtRest(Session(es, m))
  {
    if es != [] {
      var init, e := es[..|es| - 1], es[|es| - 1];
      SettlingSessionRests(init, m);
      if !e.Call? { SettlingEventSettles(Session(init, m), e, m); }
      EventRestsExactly(Session(init, m), e, m);
    }
  }

  // ---------------------------------------------------------------- a recovery left in progress

  lemma AndRecoverBlocked(c: Core, ops: seq<Op>, h: Handler)
    requires WellFormed(c) && HandlerOk(h) && Run(c, ops).inProgress
    ensures AndRecover(c, ops, h).ops == ops
  {
    RunKeepsWellFormed(c, ops);
    assert ops + [] == ops;
  }

  lemma {:induction false} StillBusy(c: Core, ops: seq<Op>)
    requires c.inProgress && forall i :: 0 <= i < |ops| ==> !ops[i].EndRecovery? && !ops[i].Reset? && !ops[i].NewStart?
    ensures Run(c, ops).inProgress
  {
    if ops != [] {
      StillBusy(c, ops[..|ops| - 1]);
      BusyStep(Run(c, ops[..|ops| - 1]), ops[|ops| - 1]);
    }
  }

  /** A recovery left in progress blocks every later round for good. */
  lemma LeakedRecoveryBlocks(c: Core, e: Event, m: Limits)
    requires WellFormed(c) && EventOk(e) && c.inProgress && !e.Call?
    ensures Run(c, StepsOf(c, e, m)).inProgress
    ensures BeginsNothing(StepsOf(c, e, m)) && Dequeue !in StepsOf(c, e, m)
  {
    match e {
      case RoundStart(h) => StillBusy(c, [Screen(Touch), Sync, SelfHeal]);
      case FocusOn(p, w, h) =>
      case FoundDead(p, h) =>
        StillBusy(c, FocusDeadStart(c, p));
        FocusDeadStartBegins(c, p);
        AndRecoverBlocked(c, FocusDeadStart(c, p), h);
    }
  }
}
