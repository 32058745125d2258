/** Theorems about rounds of checking and recovery. */
module CheckingProofs {
  import opened PointerModel
  import opened QueueLemmas
  import opened PointerInvariants
  import opened RecoveryQueue
  import opened CheckingModel

  // ---------------------------------------------------------------- the failure recursion

  /** The packages handled on the way from `c` to `d`: none twice, none given up before, and all of
      them given up now except perhaps the last. */
  ghost predicate HandledOnce(c: Core, d: Core, calls: seq<Package>, known: set<Package>) {
    && NoDup(calls) && |calls| <= |Hopeful(c, known)|
    && (forall p :: p in calls ==> p in Hopeful(c, known) && p != Nobody)
    && (forall i :: 0 <= i < |calls| - 1 ==> calls[i] in d.unrecoverable)
    && Narrower(c, d, known)
  }

  lemma HandledLast(c: Core, d: Core, p: Package, known: set<Package>)
    requires p in Hopeful(c, known) && p != Nobody && Narrower(c, d, known)
    ensures HandledOnce(c, d, [p], known)
  {
    assert [p][..0] == [];
    assert |Hopeful(c, known)| == |Hopeful(c, known) - {p}| + 1;
  }

  lemma HandledNext(c: Core, mid: Core, d: Core, p: Package, calls: seq<Package>, known: set<Package>)
    requires p in Hopeful(c, known) && p != Nobody && Narrower(c, mid, known) && p in mid.unrecoverable
    requires |Hopeful(mid, known)| < |Hopeful(c, known)| && HandledOnce(mid, d, calls, known)
    ensures HandledOnce(c, d, [p] + calls, known)
  {
    NoDupCons(p, calls);
    LessHope(c, mid, known);
    GivenUpBehind(p, calls, d.unrecoverable);
  }

  lemma LessHope(c: Core, d: Core, known: set<Package>)
    requires Narrower(c, d, known)
    ensures Hopeful(d, known) <= Hopeful(c, known)
  {
  }

  lemma GivenUpBehind(p: Package, calls: seq<Package>, marked: set<Package>)
    requires p in marked && forall i :: 0 <= i < |calls| - 1 ==> calls[i] in marked
    ensures forall i :: 0 <= i < |[p] + calls| - 1 ==> ([p] + calls)[i] in marked
  {
    forall i | 0 <= i < |[p] + calls| - 1 ensures ([p] + calls)[i] in marked {
      if i > 0 { assert ([p] + calls)[i] == calls[i - 1]; }
    }
  }

  /** The state in which the next package is tried, after the handler failed on the first one. */
  ghost function NextTry(c: Core, h: Handler, k: nat): Core {
    var p := DequeueCore(c).1;
    var c1 := Run(c, Tried(h.answer(k, p)));
    Run(c1, GiveUp(p, FailReason(c1, h.answer(k, p))))
  }

  ghost predicate Fails(c: Core, h: Handler, k: nat) {
    Failed(Run(c, Tried(h.answer(k, DequeueCore(c).1))), h.answer(k, DequeueCore(c).1))
  }

  /** The round after a failure is the round from the next try. */
  lemma AfterFailure(c: Core, h: Handler, k: nat)
    requires WellFormed(c) && HandlerOk(h) && !c.inProgress && DequeueCore(c).1 != Nobody && Fails(c, h, k)
    ensures var p, d := DequeueCore(c).1, NextTry(c, h, k);
            && WellFormed(d) && Narrower(c, d, h.known) && |Hopeful(d, h.known)| < |Hopeful(c, h.known)|
            && p in Hopeful(c, h.known) && p in d.unrecoverable
            && !d.inProgress && !d.paused && d.active == Nobody
            && Run(c, ProcessNext(c, h, k).ops) == Run(d, ProcessNext(d, h, k + 1).ops)
            && ProcessNext(c, h, k).calls == [p] + ProcessNext(d, h, k + 1).calls
  {
    var p := DequeueCore(c).1;
    var o := h.answer(k, p);
    var c1 := Run(c, Tried(o));
    var undo := GiveUp(p, FailReason(c1, o));
    AttemptNarrows(c, o, p, FailReason(c1, o), h.known);
    GiveUpFrees(c1, p, FailReason(c1, o));
    RunAppend(c, Tried(o), undo);
    RunAppend(c, Tried(o) + undo, ProcessNext(Run(c1, undo), h, k + 1).ops);
  }

  /** What the round after a failure consists of. */
  lemma FailureSteps(c: Core, h: Handler, k: nat)
    requires WellFormed(c) && HandlerOk(h) && !c.inProgress && DequeueCore(c).1 != Nobody && Fails(c, h, k)
    ensures WellFormed(NextTry(c, h, k))
    ensures var p := DequeueCore(c).1;
            var o, rest := h.answer(k, p), ProcessNext(NextTry(c, h, k), h, k + 1);
            ProcessNext(c, h, k) == Round(Tried(o) + GiveUp(p, FailReason(Run(c, Tried(o)), o)) + rest.ops,
                                          [p] + rest.calls, o.ops + rest.handled)
  {
    AfterFailure(c, h, k);
  }

  lemma SuccessSteps(c: Core, h: Handler, k: nat)
    requires WellFormed(c) && HandlerOk(h) && !c.inProgress && DequeueCore(c).1 != Nobody && !Fails(c, h, k)
    ensures var o := h.answer(k, DequeueCore(c).1);
            ProcessNext(c, h, k) == Round(Tried(o) + Proceed(Run(c, Tried(o))), [DequeueCore(c).1], o.ops)
  {
  }

  /** The round after a success ends where the handler ended, with checking resumed. */
  lemma AfterSuccess(c: Core, h: Handler, k: nat)
    requires WellFormed(c) && HandlerOk(h) && !c.inProgress && DequeueCore(c).1 != Nobody && !Fails(c, h, k)
    ensures var p := DequeueCore(c).1;
            && p in Hopeful(c, h.known) && ProcessNext(c, h, k).calls == [p]
            && Narrower(c, Run(c, Tried(h.answer(k, p))), h.known)
            && Run(c, ProcessNext(c, h, k).ops) == Run(c, Tried(h.answer(k, p))).(paused := false)
  {
    var p := DequeueCore(c).1;
    var o := h.answer(k, p);
    var c1 := Run(c, Tried(o));
    AttemptKeeps(c, o, p, h.known);
    RunAppend(c, Tried(o), Proceed(c1));
    ProceedIs(c1);
  }

  lemma NobodyWaiting(c: Core, h: Handler, k: nat)
    requires WellFormed(c) && HandlerOk(h) && (c.inProgress || DequeueCore(c).1 == Nobody)
    ensures ProcessNext(c, h, k).calls == []
    ensures Run(c, ProcessNext(c, h, k).ops) == if c.inProgress then c else Step(c, Dequeue).(paused := false)
  {
    RunTwo(c, Dequeue, SetPause(false));
  }

  /** Nothing was handled. */
  lemma HandledNobody(c: Core, d: Core, known: set<Package>)
    requires d.rows == c.rows && d.unrecoverable == c.unrecoverable
    ensures HandledOnce(c, d, [], known)
  {
  }

  /** However the handler behaves, one call of `_process_next_recovery` runs it at most once per
      package, only on packages not given up before, and gives up every package but perhaps the last. */
  lemma {:induction false} HandlerRunsOncePerPackage(c: Core, h: Handler, k: nat)
    requires WellFormed(c) && HandlerOk(h)
    ensures HandledOnce(c, Run(c, ProcessNext(c, h, k).ops), ProcessNext(c, h, k).calls, h.known)
    decreases |Hopeful(c, h.known)|
  {
    var p := DequeueCore(c).1;
    if c.inProgress || p == Nobody {
      NobodyWaiting(c, h, k);
      HandledNobody(c, Run(c, ProcessNext(c, h, k).ops), h.known);
    } else if Fails(c, h, k) {
      AfterFailure(c, h, k);
      var d := NextTry(c, h, k);
      HandlerRunsOncePerPackage(d, h, k + 1);
      HandledNext(c, d, Run(c, ProcessNext(c, h, k).ops), p, ProcessNext(d, h, k + 1).calls, h.known);
    } else {
      AfterSuccess(c, h, k);
      HandledLast(c, Run(c, ProcessNext(c, h, k).ops), p, h.known);
    }
  }

  lemma NoDupCons(p: Package, s: seq<Package>)
    requires NoDup(s) && p !in s
    ensures NoDup([p] + s)
  {
    assert [p][..0] == [];
    NoDupAppend([p], s);
  }

  lemma ProceedIs(c: Core)
    ensures Run(c, Proceed(c)) == c.(paused := false)
  {
    RunTwo(c, SetPause(false), Resume);
    if SafeToResume(c) {
      assert [SetPause(false), Resume] + [] == [SetPause(false), Resume];
    } else {
      RunAppend(c, [SetPause(false), Resume], [Screen(ReadHeader)]);
      RunOne(c.(paused := false), Screen(ReadHeader));
    }
  }

  // ---------------------------------------------------------------- never stuck paused

  /** Whatever the handler did, recovery hands checking back unpaused. */
  lemma {:induction false} RecoveryEndsUnpaused(c: Core, h: Handler, k: nat)
    requires WellFormed(c) && HandlerOk(h)
    ensures var d := Run(c, ProcessNext(c, h, k).ops); if c.inProgress then d == c else !d.paused
    decreases |Hopeful(c, h.known)|
  {
    if c.inProgress {
    } else if DequeueCore(c).1 == Nobody {
      NobodyWaiting(c, h, k);
    } else if Fails(c, h, k) {
      AfterFailure(c, h, k);
      RecoveryEndsUnpaused(NextTry(c, h, k), h, k + 1);
    } else {
      AfterSuccess(c, h, k);
    }
  }

  /** Giving a package up always ends its recovery and the pause, and adopts every Dead package. */
  lemma GiveUpFrees(c: Core, p: Package, reason: Reason)
    ensures var d := Run(c, GiveUp(p, reason)); !d.inProgress && !d.paused && d.active == Nobody
  {
    GiveUpRun(c, p, reason);
    FailedEnding(MarkUnrecoverableCore(c, p), reason);
    SyncOnlyAppends(Abandoned(c, p, reason));
  }

  /** A pause followed by recovery is over, or a recovery explains it; from any state whatever. */
  lemma AndRecoverPauseOk(c: Core, ops: seq<Op>, h: Handler)
    requires WellFormed(c) && HandlerOk(h)
    ensures PauseOk(Run(c, AndRecover(c, ops, h).ops))
  {
    RunKeepsWellFormed(c, ops);
    RecoveryEndsUnpaused(Run(c, ops), h, 0);
    RunAppend(c, ops, ProcessNext(Run(c, ops), h, 0).ops);
  }

  /** Steps that never strand checking, in a row. */
  lemma {:induction false} RunPauseOk(c: Core, ops: seq<Op>)
    requires PauseOk(c) && forall i :: 0 <= i < |ops| ==> !ops[i].Reset? && !ops[i].EndRecovery? && !ops[i].SetPause?
    ensures PauseOk(Run(c, ops))
  {
    if ops != [] {
      RunPauseOk(c, ops[..|ops| - 1]);
      PauseStrandsExactly(Run(c, ops[..|ops| - 1]), ops[|ops| - 1]);
    }
  }

  lemma TickKeepsPauseOk(c: Core, h: Handler)
    requires WellFormed(c) && HandlerOk(h) && PauseOk(c)
    ensures PauseOk(Run(c, Tick(c, h).ops))
  {
    RunPauseOk(c, [Screen(Touch), Sync, SelfHeal]);
    AndRecoverPauseOk(c, [Screen(Touch), Sync, SelfHeal], h);
  }

  lemma TimeoutKeepsPauseOk(c: Core, watched: seq<Op>, p: Package, online: bool, limit: int, h: Handler)
    requires WellFormed(c) && HandlerOk(h) && PauseOk(c)
    requires forall i :: 0 <= i < |watched| ==> !watched[i].Reset? && !watched[i].EndRecovery? && !watched[i].SetPause?
    ensures PauseOk(Run(c, TimedOutRound(c, watched, p, online, limit, h).0.ops))
  {
    var quiet := watched + TimeoutOps(p, if online then Online else NoHeartbeat);
    RunPauseOk(c, quiet);
    AndRecoverPauseOk(c, quiet + LimitOps(p), h);
  }

  lemma FocusKeepsPauseOk(c: Core, p: Package, w: Window, limit: int, deadline: real, h: Handler)
    requires WellFormed(c) && HandlerOk(h) && PauseOk(c)
    ensures PauseOk(Run(c, Focus(c, p, w, limit, deadline, h).0.ops))
  {
    var declare := [DeadDetected(p), SetPause(true)];
    if c.paused || c.inProgress {
    } else if p in c.unrecoverable {
      RunPauseOk(c, [EndFocus(p)]);
    } else if w.preDead || (p in c.rows && c.rows[p].rawDead) {
      AndRecoverPauseOk(c, declare, h);
    } else {
      var watch := Watch(w.polls, -1, deadline);
      var watched := [BeginChecking(p, deadline)] + watch.0;
      match watch.1
      case DeadSeen => AndRecoverPauseOk(c, watched + declare, h);
      case OnlineSeen => RunPauseOk(c, watched + OnlineOps(p));
      case ProbeRaised => RunPauseOk(c, watched);
      case TimedOut =>
        RunPauseOk(c, watched);
        TimeoutKeepsPauseOk(c, watched, p, w.lateOnline, limit, h);
    }
  }

  /** No assumption on the state it starts from: even a stranded pause is cleared or explained. */
  lemma FocusDeadEndsPauseOk(c: Core, p: Package, h: Handler)
    requires WellFormed(c) && HandlerOk(h)
    ensures PauseOk(Run(c, FocusDead(c, p, h).ops))
  {
    AndRecoverPauseOk(c, FocusDeadStart(c, p), h);
  }
}
