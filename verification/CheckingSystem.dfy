/** The relay that drives the checker pointer: `CheckingSystem` of agent/checking_system.py.

    Each method is proved to make exactly the pointer steps its specification in `CheckingModel`
    lists, so that the theorems about rounds are theorems about this code. */
module CheckingSystem {
  import opened PointerModel
  import opened QueueLemmas
  import opened PointerInvariants
  import opened RecoveryQueue
  import opened CheckingModel
  import CP = CheckerPointer

  /** Steps made one after the other. */
  lemma Then(s: State, a: seq<Op>, b: seq<Op>)
    ensures ApplyAll(s, a + b) == ApplyAll(ApplyAll(s, a), b)
    ensures ApplyAll(s, a).core == Run(s.core, a) && ApplyAll(s, a + b).core == Run(Run(s.core, a), b)
  {
    ApplyAllAppend(s, a, b);
    RunIsTheCore(s, a);
    RunIsTheCore(ApplyAll(s, a), b);
  }

  lemma ThenOne(s: State, a: seq<Op>, op: Op)
    ensures ApplyAll(s, a + [op]) == Apply(ApplyAll(s, a), op)
  {
    assert (a + [op])[..|a|] == a;
  }

  lemma ThenTwo(s: State, a: Op, b: Op)
    ensures ApplyAll(s, [a, b]) == Apply(Apply(s, a), b)
  {
    assert [a] == [] + [a] && [a, b] == [a] + [b];
    ThenOne(s, [], a);
    ThenOne(s, [a], b);
  }

  /** One turn of the polling loop, after the steps `made`. */
  lemma WatchStep(polls: seq<Poll>, i: nat, lastTick: int, deadline: real, made: seq<Op>)
    requires i < |polls|
    ensures var (poll, r) := (polls[i], Watch(polls[i..], lastTick, deadline));
            if poll.LookRaised? then made + r.0 == made && r.1 == ProbeRaised
            else if poll.dead then made + r.0 == made && r.1 == DeadSeen
            else if poll.online then made + r.0 == made && r.1 == OnlineSeen
            else
              var rest := Watch(polls[i + 1..], poll.elapsed.Floor, deadline);
              var tick := if poll.elapsed.Floor != lastTick then [Screen(UpdateTimer(poll.elapsed, deadline))] else [];
              if poll.elapsed >= deadline then made + r.0 == made + tick && r.1 == TimedOut
              else made + r.0 == made + tick + rest.0 && r.1 == rest.1
  {
    assert polls[i..][0] == polls[i] && polls[i..][1..] == polls[i + 1..];
  }

  class CheckingSystem {
    const ptr: CP.CheckerPointer
    const noHeartbeatLimit: int
    const deadline: real

    constructor (ptr: CP.CheckerPointer, noHeartbeatLimit: int, deadline: real)
      ensures this.ptr == ptr && this.noHeartbeatLimit == noHeartbeatLimit && this.deadline == deadline
    {
      this.ptr, this.noHeartbeatLimit, this.deadline := ptr, noHeartbeatLimit, deadline;
    }

    ghost predicate Valid()
      reads ptr
    {
      WellFormed(ptr.CoreNow())
    }

    /** One pointer call. */
    method DoOne(op: Op)
      requires Valid()
      modifies ptr
      ensures Valid() && ptr.Now() == Apply(old(ptr.Now()), op)
    {
      ptr.Perform(op);
      StepIsTheCore(old(ptr.Now()), op);
      StepKeepsWellFormed(old(ptr.CoreNow()), op);
    }

    /** A few pointer calls in a row. */
    method Do(ops: seq<Op>)
      requires Valid()
      modifies ptr
      ensures Valid() && ptr.Now() == ApplyAll(old(ptr.Now()), ops)
    {
      var i := 0;
      while i < |ops|
        invariant i <= |ops| && Valid() && ptr.Now() == ApplyAll(old(ptr.Now()), ops[..i])
      {
        DoOne(ops[i]);
        ThenOne(old(ptr.Now()), ops[..i], ops[i]);
        assert ops[..i + 1] == ops[..i] + [ops[i]];
        i := i + 1;
      }
      assert ops[..i] == ops;
    }

    /** Hands the next waiting package to the recovery handler; on failure gives it up and goes on. */
    method ProcessNextRecovery(h: Handler, k: nat) returns (calls: seq<Package>)
      requires Valid() && HandlerOk(h)
      modifies ptr
      ensures Valid()
      ensures ptr.Now() == ApplyAll(old(ptr.Now()), ProcessNext(old(ptr.CoreNow()), h, k).ops)
      ensures calls == ProcessNext(old(ptr.CoreNow()), h, k).calls
      decreases |Hopeful(ptr.CoreNow(), h.known)|
    {
      ghost var s := ptr.Now();
      if ptr.recoveryInProgress { return []; }
      var p := HandOut();
      if p == Nobody {
        Do([SetPause(false)]);
        Then(s, [Dequeue], [SetPause(false)]);
        assert [Dequeue, SetPause(false)] == [Dequeue] + [SetPause(false)];
        return [];
      }
      var o := h.answer(k, p);
      RunHandler(s, o);
      ghost var c1 := ptr.CoreNow();
      RunIsTheCore(s, Tried(o));
      var failed, reason := Judge(o);
      if failed {
        AttemptNarrows(s.core, o, p, reason, h.known);
        Do(GiveUp(p, reason));
        Then(s, Tried(o), GiveUp(p, reason));
        var rest := ProcessNextRecovery(h, k + 1);
        calls := [p] + rest;
        Then(s, Tried(o) + GiveUp(p, reason), ProcessNext(Run(c1, GiveUp(p, reason)), h, k + 1).ops);
      } else {
        calls := [p];
        ResumeOrRefresh();
        Then(s, Tried(o), Proceed(c1));
      }
    }

    /** Whether the attempt counts as failed, and what for. */
    method Judge(o: Handling) returns (failed: bool, reason: Reason)
      ensures failed == Failed(ptr.CoreNow(), o) && reason == FailReason(ptr.CoreNow(), o)
    {
      if o.raised { return true, o.error; }
      var fault := if o.traceRead && ptr.lastLaunch.Launched? then ptr.lastLaunch.error else NoError;
      failed := ptr.recoveryStage == RecoveryFailed || fault.NotInstalled?;
      if fault != NoError {
        reason := Because(fault.text);
      } else if ptr.recoveryLastError != NoReason {
        reason := ptr.recoveryLastError;
      } else {
        reason := Because("relaunch_failed");
      }
    }

    /** A package handed out is never one that was given up: the dequeue loop skipped those. */
    method HandOut() returns (p: Package)
      requires Valid()
      modifies ptr
      ensures Valid() && ptr.Now() == ApplyAll(old(ptr.Now()), [Dequeue])
      ensures p == DequeueCore(old(ptr.CoreNow())).1 && (p != Nobody ==> p !in ptr.unrecoverable)
    {
      p := ptr.DequeueRecovery();
      StepKeepsWellFormed(old(ptr.CoreNow()), Dequeue);
      ThenOne(old(ptr.Now()), [], Dequeue);
      assert [] + [Dequeue] == [Dequeue];
    }

    method RunHandler(ghost s: State, o: Handling)
      requires Valid() && ptr.Now() == ApplyAll(s, [Dequeue])
      modifies ptr
      ensures Valid() && ptr.Now() == ApplyAll(s, Tried(o))
    {
      Do([SetPause(true), Screen(Touch)]);
      Then(s, [Dequeue], [SetPause(true), Screen(Touch)]);
      assert [Dequeue] + [SetPause(true), Screen(Touch)] == [Dequeue, SetPause(true), Screen(Touch)];
      Do(o.ops);
      Then(s, [Dequeue, SetPause(true), Screen(Touch)], o.ops);
    }

    method Resume() returns (safe: bool)
      requires Valid()
      modifies ptr
      ensures Valid() && ptr.Now() == Apply(old(ptr.Now()), PointerModel.Resume)
      ensures safe == SafeToResume(old(ptr.CoreNow()))
    {
      safe := ptr.ResumeCheckingIfSafe();
      StepKeepsWellFormed(old(ptr.CoreNow()), PointerModel.Resume);
      SameCount(old(ptr.CoreNow()), old(ptr.CoreNow()).(paused := false), old(ptr.order));
    }

    method ResumeOrRefresh()
      requires Valid()
      modifies ptr
      ensures Valid() && ptr.Now() == ApplyAll(old(ptr.Now()), Proceed(old(ptr.CoreNow())))
    {
      ghost var s := ptr.Now();
      DoOne(SetPause(false));
      StepIsTheCore(s, SetPause(false));
      SameCount(s.core, s.core.(paused := false), s.core.order);
      var safe := Resume();
      ThenTwo(s, SetPause(false), PointerModel.Resume);
      if !safe {
        DoOne(Screen(ReadHeader));
        ThenOne(s, [SetPause(false), PointerModel.Resume], Screen(ReadHeader));
      } else {
        assert [SetPause(false), PointerModel.Resume] + [] == [SetPause(false), PointerModel.Resume];
      }
    }

    /** The polling loop of a focus window. */
    method WatchPackage(polls: seq<Poll>) returns (verdict: Verdict)
      requires Valid()
      modifies ptr
      ensures Valid() && ptr.Now() == ApplyAll(old(ptr.Now()), Watch(polls, -1, deadline).0)
      ensures verdict == Watch(polls, -1, deadline).1
    {
      ghost var s := ptr.Now();
      ghost var all := Watch(polls, -1, deadline);
      ghost var made: seq<Op> := [];
      var lastTick := -1;
      var i := 0;
      assert polls[0..] == polls && made + all.0 == all.0;
      while i < |polls|
        invariant i <= |polls| && Valid() && ptr.Now() == ApplyAll(s, made)
        invariant all == (made + Watch(polls[i..], lastTick, deadline).0, Watch(polls[i..], lastTick, deadline).1)
      {
        var poll := polls[i];
        WatchStep(polls, i, lastTick, deadline, made);
        if poll.LookRaised? { return ProbeRaised; }
        if poll.dead { return DeadSeen; }
        if poll.online { return OnlineSeen; }
        var tick := if poll.elapsed.Floor != lastTick then [Screen(UpdateTimer(poll.elapsed, deadline))] else [];
        Do(tick);
        Then(s, made, tick);
        made, lastTick := made + tick, poll.elapsed.Floor;
        if poll.elapsed >= deadline { return TimedOut; }
        i := i + 1;
      }
      assert polls[i..] == [] && made + [] == made;
      return TimedOut;
    }

    /** Recovers after the steps `done`, which declared a package Dead. */
    method RecoverAfter(ghost s: State, ghost done: seq<Op>, h: Handler) returns (calls: seq<Package>)
      requires WellFormed(s.core) && ptr.Now() == ApplyAll(s, done) && Valid() && HandlerOk(h)
      modifies ptr
      ensures Valid() && ptr.Now() == ApplyAll(s, AndRecover(s.core, done, h).ops)
      ensures calls == AndRecover(s.core, done, h).calls
    {
      RunIsTheCore(s, done);
      calls := ProcessNextRecovery(h, 0);
      Then(s, done, ProcessNext(Run(s.core, done), h, 0).ops);
    }

    /** One bounded look at one package. */
    method FocusPackage(p: Package, w: Window, h: Handler) returns (ending: Ending, calls: seq<Package>)
      requires Valid() && HandlerOk(h)
      modifies ptr
      ensures Valid()
      ensures ptr.Now() == ApplyAll(old(ptr.Now()),
                                    Focus(old(ptr.CoreNow()), p, w, noHeartbeatLimit, deadline, h).0.ops)
      ensures calls == Focus(old(ptr.CoreNow()), p, w, noHeartbeatLimit, deadline, h).0.calls
      ensures ending == Focus(old(ptr.CoreNow()), p, w, noHeartbeatLimit, deadline, h).1
    {
      ghost var s := ptr.Now();
      if ptr.pauseChecking || ptr.recoveryInProgress { return Stopped, []; }
      if p in ptr.unrecoverable {
        Do([EndFocus(p)]);
        return GivenUp, [];
      }
      if w.preDead || (p in ptr.rows && ptr.rows[p].rawDead) {
        assert [] + [DeadDetected(p), SetPause(true)] == [DeadDetected(p), SetPause(true)];
        calls := AfterDead(s, [], p, h);
        return SawDead, calls;
      }
      Do([BeginChecking(p, deadline)]);
      var verdict := WatchPackage(w.polls);
      ghost var ops := [BeginChecking(p, deadline)] + Watch(w.polls, -1, deadline).0;
      Then(s, [BeginChecking(p, deadline)], Watch(w.polls, -1, deadline).0);
      if verdict == DeadSeen {
        calls := AfterDead(s, ops, p, h);
        return SawDead, calls;
      }
      if verdict == OnlineSeen {
        Do(OnlineOps(p));
        Then(s, ops, OnlineOps(p));
        return EarlyOnline, [];
      }
      if verdict == ProbeRaised || w.lateRaised { return Broken, []; }
      ending, calls := AfterTimeout(s, ops, p, w.lateOnline, h);
    }

    /** The decision of a window that saw the package Dead. */
    method AfterDead(ghost s: State, ghost done: seq<Op>, p: Package, h: Handler) returns (calls: seq<Package>)
      requires WellFormed(s.core) && ptr.Now() == ApplyAll(s, done) && Valid() && HandlerOk(h)
      modifies ptr
      ensures Valid()
      ensures ptr.Now() == ApplyAll(s, AndRecover(s.core, done + [DeadDetected(p), SetPause(true)], h).ops)
      ensures calls == AndRecover(s.core, done + [DeadDetected(p), SetPause(true)], h).calls
    {
      Do([DeadDetected(p), SetPause(true)]);
      Then(s, done, [DeadDetected(p), SetPause(true)]);
      calls := RecoverAfter(s, done + [DeadDetected(p), SetPause(true)], h);
    }

    /** The decision of a window that ran its full time. */
    method AfterTimeout(ghost s: State, ghost done: seq<Op>, p: Package, online: bool, h: Handler)
      returns (ending: Ending, calls: seq<Package>)
      requires WellFormed(s.core) && ptr.Now() == ApplyAll(s, done) && Valid() && HandlerOk(h)
      modifies ptr
      ensures Valid()
      ensures ptr.Now() == ApplyAll(s, TimedOutRound(s.core, done, p, online, noHeartbeatLimit, h).0.ops)
      ensures calls == TimedOutRound(s.core, done, p, online, noHeartbeatLimit, h).0.calls
      ensures ending == TimedOutRound(s.core, done, p, online, noHeartbeatLimit, h).1
    {
      var state := if online then Online else NoHeartbeat;
      Do(TimeoutOps(p, state));
      Then(s, done, TimeoutOps(p, state));
      ghost var quiet := done + TimeoutOps(p, state);
      RunIsTheCore(s, quiet);
      if online { return LateOnline, []; }
      if RowOf(ptr.CoreNow(), p).noHeartbeat >= noHeartbeatLimit {
        Do(LimitOps(p));
        Then(s, quiet, LimitOps(p));
        calls := RecoverAfter(s, quiet + LimitOps(p), h);
        return LimitDead, calls;
      }
      return Silent, [];
    }

    /** A package found Dead by the caller of the focus window. */
    method HandleFocusDead(p: Package, h: Handler) returns (calls: seq<Package>)
      requires Valid() && HandlerOk(h)
      modifies ptr
      ensures Valid() && ptr.Now() == ApplyAll(old(ptr.Now()), FocusDead(old(ptr.CoreNow()), p, h).ops)
      ensures calls == FocusDead(old(ptr.CoreNow()), p, h).calls
    {
      ghost var s := ptr.Now();
      var declare := if p in ptr.rows && ptr.rows[p].committed == Dead then [] else [DeadDetected(p)];
      Do(declare);
      RunIsTheCore(s, declare);
      var enqueue := if !ptr.recoveryInProgress && p !in ptr.recoveryQueue then [Enqueue(p)] else [];
      Do(enqueue);
      Then(s, declare, enqueue);
      Do([SetPause(true), Screen(ReadHeader)]);
      Then(s, declare + enqueue, [SetPause(true), Screen(ReadHeader)]);
      calls := RecoverAfter(s, declare + enqueue + [SetPause(true), Screen(ReadHeader)], h);
    }

    /** The start of a round. */
    method TickRoundStart(h: Handler) returns (busy: bool, calls: seq<Package>)
      requires Valid() && HandlerOk(h)
      modifies ptr
      ensures Valid() && ptr.Now() == ApplyAll(old(ptr.Now()), Tick(old(ptr.CoreNow()), h).ops)
      ensures calls == Tick(old(ptr.CoreNow()), h).calls
      ensures busy == (ptr.pauseChecking || ptr.recoveryInProgress)
    {
      ghost var s := ptr.Now();
      Do([Screen(Touch), Sync, SelfHeal]);
      RunIsTheCore(s, [Screen(Touch), Sync, SelfHeal]);
      calls := [];
      if !(ptr.pauseChecking || ptr.recoveryInProgress) && ptr.recoveryQueue != [] {
        calls := RecoverAfter(s, [Screen(Touch), Sync, SelfHeal], h);
      }
      busy := ptr.pauseChecking || ptr.recoveryInProgress;
    }
  }
}
