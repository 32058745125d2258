/** What a row remembers of the recoveries of its package, and what the header makes of it. */
module RecoveryRecord {
  import opened Common
  import opened PointerModel
  import opened QueueLemmas
  import opened PointerInvariants
  import opened RecoveryQueue
  import opened CheckingModel
  import opened CheckingProofs

  /** How one recovery of a package ended. */
  datatype Ended = Ended(failed: bool, reason: Reason)

  /** The endings of the recoveries of `p`, in their order. */
  function Endings(c: Core, ops: seq<Op>, p: Package): seq<Ended> {
    if ops == [] then []
    else
      var before, last := Endings(c, ops[..|ops| - 1], p), ops[|ops| - 1];
      if last.EndRecovery? && Run(c, ops[..|ops| - 1]).active == p
      then before + [Ended(last.failed, last.reason)] else before
  }

  /** The error that stands: that of the last failure which had one, unless a recovery succeeded since. */
  function Standing(es: seq<Ended>): Reason {
    if es == [] then NoReason
    else
      var last := es[|es| - 1];
      if !last.failed then NoReason else if last.reason == NoReason then Standing(es[..|es| - 1]) else last.reason
  }

  lemma {:induction false} NothingStands(es: seq<Ended>)
    ensures Standing(es) == NoReason <==>
              forall i :: 0 <= i < |es| && es[i].failed && es[i].reason != NoReason ==>
                exists j :: i < j < |es| && !es[j].failed
  {
    if es != [] {
      var init, last, n := es[..|es| - 1], es[|es| - 1], |es| - 1;
      NothingStands(init);
      if !last.failed {
        forall i | 0 <= i < |es| && es[i].failed && es[i].reason != NoReason
          ensures exists j :: i < j < |es| && !es[j].failed
        {
          assert i < n && !es[n].failed;
        }
      } else if last.reason == NoReason {
        forall i | 0 <= i < n && es[i].failed && es[i].reason != NoReason
          ensures (exists j :: i < j < n && !init[j].failed) <==> (exists j :: i < j < |es| && !es[j].failed)
        {
          if j :| i < j < n && !init[j].failed { assert !es[j].failed; }
          if j :| i < j < |es| && !es[j].failed { assert !init[j].failed; }
        }
        assert forall i :: 0 <= i < n ==> init[i] == es[i];
      } else {
        assert es[n].failed && es[n].reason != NoReason;
      }
    }
  }

  // ---------------------------------------------------------------- the record of a row

  /** What a step leaves of the two fields. */
  lemma StepOnRecord(c: Core, op: Op, p: Package)
    requires p != Nobody
    ensures var row, now := RowOf(c, p), RowOf(Step(c, op), p);
            if op.EndRecovery? && c.active == p
            then now.recoveryFinished
                 && now.recoveryError ==
                    (if !op.failed then NoReason else if op.reason == NoReason then row.recoveryError else op.reason)
            else now.recoveryFinished == row.recoveryFinished && now.recoveryError == row.recoveryError
  {
    StepOnRow(c, op, p);
    RowAfterOnRecord(c, op, p);
  }

  lemma RowAfterOnRecord(c: Core, op: Op, p: Package)
    requires p != Nobody
    ensures var row, now := RowOf(c, p), RowAfter(c, op, p);
            if op.EndRecovery? && c.active == p
            then now.recoveryFinished
                 && now.recoveryError ==
                    (if !op.failed then NoReason else if op.reason == NoReason then row.recoveryError else op.reason)
            else now.recoveryFinished == row.recoveryFinished && now.recoveryError == row.recoveryError
  {
    match op {
      case OnRow(_, r) => RowOpKeepsRecord(RowOf(c, p), r);
      case DeadDetected(_) => RowOpKeepsRecord(RowOf(c, p), Committed(Dead));
      case EndRecovery(failed, reason, _) => SettledRecord(RowOf(c, p), failed, reason);
      case _ =>
    }
  }

  lemma RowOpKeepsRecord(row: Row, r: RowOp)
    ensures RowStep(row, r).recoveryFinished == row.recoveryFinished
    ensures RowStep(row, r).recoveryError == row.recoveryError
  {
  }

  lemma SettledRecord(row: Row, failed: bool, reason: Reason)
    ensures var now := Unfocused(Settled(row, failed, reason));
            now.recoveryFinished
            && now.recoveryError ==
               if !failed then NoReason else if reason == NoReason then row.recoveryError else reason
  {
  }

  lemma {:induction false} RecordIs(ops: seq<Op>, p: Package)
    requires p != Nobody
    ensures var row, es := RowOf(Run(InitCore, ops), p), Endings(InitCore, ops, p);
            (row.recoveryFinished <==> es != []) && row.recoveryError == Standing(es)
  {
    if ops != [] {
      var init, op := ops[..|ops| - 1], ops[|ops| - 1];
      RecordIs(init, p);
      StepOnRecord(Run(InitCore, init), op, p);
      var es := Endings(InitCore, init, p);
      if op.EndRecovery? { assert (es + [Ended(op.failed, op.reason)])[..|es|] == es; }
    }
  }

  /** Over every run, a row reads as cleanly recovered exactly when some recovery of its package ended, and every
      failure with an error was followed by a success.  Only such a Dead package does the header overlook. */
  lemma CleanRecordExactly(ops: seq<Op>, p: Package)
    requires p != Nobody
    ensures var row, es := RowOf(Run(InitCore, ops), p), Endings(InitCore, ops, p);
            row.recoveryFinished && row.recoveryError == NoReason <==>
              es != [] && forall i :: 0 <= i < |es| && es[i].failed && es[i].reason != NoReason ==>
                            exists j :: i < j < |es| && !es[j].failed
  {
    RecordIs(ops, p);
    NothingStands(Endings(InitCore, ops, p));
  }

  /** The i-th recovery failed with that error, and all later ones failed with none. */
  predicate FailedLast(es: seq<Ended>, i: int, error: Reason) {
    && 0 <= i < |es| && es[i] == Ended(true, error)
    && forall j | i < j < |es| :: es[j] == Ended(true, NoReason)
  }

  /** And it keeps an error exactly when that is the error of a failure after which no recovery succeeded and none
      failed with another one. */
  lemma {:induction false} StandingExactly(es: seq<Ended>, error: Reason)
    requires error != NoReason
    ensures Standing(es) == error <==> exists i :: FailedLast(es, i, error)
  {
    if es != [] {
      var init, last, n := es[..|es| - 1], es[|es| - 1], |es| - 1;
      StandingExactly(init, error);
      if last == Ended(true, NoReason) {
        if i :| FailedLast(init, i, error) { assert FailedLast(es, i, error); }
        if i :| FailedLast(es, i, error) { assert FailedLast(init, i, error); }
      } else {
        if last == Ended(true, error) { assert FailedLast(es, n, error); }
        if i :| FailedLast(es, i, error) { assert i == n; }
      }
    }
  }

  // ---------------------------------------------------------------- an ending and what follows from it

  /** The recovery failed, and there is an error on record for it. */
  predicate FailsWithError(c: Core, reason: Reason) {
    && CommittedDead(c, c.active) && c.active !in c.unrecoverable && c.active != Nobody
    && (reason != NoReason || RowOf(c, c.active).recoveryError != NoReason)
  }

  lemma FailedRow(row: Row, reason: Reason)
    requires row.committed == Dead && (reason != NoReason || row.recoveryError != NoReason)
    ensures var now := Unfocused(Settled(row, true, reason)); now.committed == Dead && now.recoveryError != NoReason
  {
  }

  lemma CountedIsPositive(c: Core, names: seq<Package>, p: Package)
    requires p in names && CountsUnrecovered(c, p)
    ensures UnrecoveredIn(c, names) > 0
  {
    UnrecoveredInIs(c, names);
  }

  /** The core after the ending of the recovery and of its focus. */
  function Closed(c: Core, reason: Reason): Core { EndFocusCore(ReleaseCore(c, true, reason), c.active) }

  lemma ClosedIs(c: Core, reason: Reason)
    requires c.active != Nobody && c.active in c.rows
    ensures var d := Closed(c, reason);
            && d.order == c.order && d.unrecoverable == c.unrecoverable && !d.inProgress && d.active == Nobody
            && c.active in d.rows && d.rows[c.active] == Unfocused(Settled(c.rows[c.active], true, reason))
  {
  }

  lemma ClosedCounts(c: Core, reason: Reason)
    requires WellFormed(c) && FailsWithError(c, reason)
    ensures var d := Closed(c, reason); !d.inProgress && d.active == Nobody && Unrecovered(d) > 0
  {
    ClosedIs(c, reason);
    FailedRow(c.rows[c.active], reason);
    CountedIsPositive(Closed(c, reason), c.order, c.active);
  }

  /** The header says that a package is Dead, or that its recovery is due. */
  predicate SaysDead(h: Header) {
    h.mode == DeadDetectedMode && (h.source == RecoveryPending || h.source == UnrecoveredDead)
  }

  lemma RefreshedSaysDead(c: Core, h: Header)
    requires !c.inProgress && Unrecovered(c) > 0
    ensures SaysDead(Refreshed(c, h))
  {
  }

  lemma UnpausedCounts(c: Core)
    ensures Unrecovered(c.(paused := false)) == Unrecovered(c)
  {
    SameCount(c, c.(paused := false), c.order);
  }

  lemma ClosingSaysDead(s: State, resume: bool)
    requires !s.core.inProgress && Unrecovered(s.core) > 0
    ensures var d := DoCloseRecovery(s, resume); !SafeToResume(d.core) && SaysDead(d.header)
  {
    UnpausedCounts(s.core);
    RefreshedSaysDead(s.core, s.header);
    RefreshedSaysDead(s.core.(paused := false), s.header);
    RecomputedCounts(s.core);
    RecomputedCounts(s.core.(paused := false));
  }

  lemma RecomputedCounts(c: Core)
    ensures Unrecovered(Recompute(c)) == Unrecovered(c) && Recompute(c).inProgress == c.inProgress
  {
    SameCount(c, Recompute(c), c.order);
  }

  /** After a failed ending with an error on record checking does not resume over the Dead package: the guard is
      false, and the header says dead or recovery pending. */
  lemma FailedEndingBlocks(s: State, reason: Reason, resume: bool)
    requires WellFormed(s.core) && FailsWithError(s.core, reason)
    ensures var d := Apply(s, EndRecovery(true, reason, resume)); !SafeToResume(d.core) && SaysDead(d.header)
  {
    ClosedCounts(s.core, reason);
    ClosingSaysDead(DoEndFocus(WithCore(s, ReleaseCore(s.core, true, reason)), s.core.active), resume);
  }

  lemma SuccessRow(row: Row, reason: Reason)
    ensures var now := Unfocused(Settled(row, false, reason));
            now.committed == Unset && RowDisplay(now, false) == Waiting
  {
  }

  /** After a successful ending the package is out of the queue and out of focus, nothing is committed for it, and
      it shows Waiting until the checker looks at it. */
  lemma SuccessfulEndingHandsOver(c: Core, reason: Reason, resume: bool)
    requires c.active != Nobody
    ensures var d, p := Step(c, EndRecovery(false, reason, resume)), c.active;
            && p in d.rows && d.rows[p].committed == Unset && DisplayState(d, p) == Waiting
            && p !in d.queue && d.checking != p && d.active == Nobody && !d.inProgress
  {
    var op := EndRecovery(false, reason, resume);
    StepOnRow(c, op, c.active);
    StepOnFocus(c, op);
    EndingFrees(c, reason, resume);
    WithoutIs(c.queue, c.active);
    SuccessRow(RowOf(c, c.active), reason);
  }

  lemma EndingFrees(c: Core, reason: Reason, resume: bool)
    requires c.active != Nobody
    ensures var d := Step(c, EndRecovery(false, reason, resume));
            d.queue == Without(c.queue, c.active) && d.active == Nobody && !d.inProgress
  {
  }

  // ---------------------------------------------------------------- the header after a recovery

  /** The header does not say that checking is paused with nobody Dead. */
  predicate NoPauseShown(s: State) { s.header.source != PausedNoDead }

  lemma UnpausedShows(c: Core, h: Header)
    requires !c.paused
    ensures Refreshed(c, h).source != PausedNoDead
  {
  }

  lemma ResumeShows(s: State)
    ensures NoPauseShown(DoResume(s).0)
  {
    var h := if SafeToResume(s.core.(paused := false)) then s.header.(mode := CheckingMode) else s.header;
    UnpausedShows(s.core.(paused := false), h);
  }

  lemma ApplySnoc(s: State, ops: seq<Op>, op: Op)
    ensures ApplyAll(s, ops + [op]) == Apply(ApplyAll(s, ops), op)
  {
    assert (ops + [op])[..|ops|] == ops;
  }

  lemma ReadShows(s: State)
    requires !s.core.paused
    ensures NoPauseShown(Apply(s, Screen(ReadHeader)))
  {
    UnpausedShows(s.core, s.header);
  }

  lemma ResumeStep(s: State)
    ensures var d := Apply(s, Resume); NoPauseShown(d) && !d.core.paused
  {
    ResumeShows(s);
  }

  lemma ProceedShows(s: State, ops: seq<Op>)
    ensures var c := ApplyAll(s, ops).core; NoPauseShown(ApplyAll(s, ops + Proceed(c)))
  {
    var c := ApplyAll(s, ops).core;
    var unpaused, resumed := ops + [SetPause(false)], ops + [SetPause(false)] + [Resume];
    ApplySnoc(s, unpaused, Resume);
    ResumeStep(ApplyAll(s, unpaused));
    if SafeToResume(c) {
      assert ops + Proceed(c) == resumed;
    } else {
      assert ops + Proceed(c) == resumed + [Screen(ReadHeader)];
      ApplySnoc(s, resumed, Screen(ReadHeader));
      ReadShows(ApplyAll(s, resumed));
    }
  }

  lemma EndingShows(s: State, reason: Reason)
    ensures NoPauseShown(Apply(s, EndRecovery(true, reason, true)))
  {
    var s1 := WithCore(s, ReleaseCore(s.core, true, reason));
    ResumeShows(if s.core.active == Nobody then s1 else DoEndFocus(s1, s.core.active));
  }

  lemma QuietShows(s: State, op: Op)
    requires NoPauseShown(s) && (op == SetPause(false) || op == Sync || op == Dequeue)
    ensures NoPauseShown(Apply(s, op))
  {
  }

  lemma GiveUpShows(s: State, ops: seq<Op>, p: Package, reason: Reason)
    ensures NoPauseShown(ApplyAll(s, ops + GiveUp(p, reason)))
  {
    var marked := ops + [MarkUnrecoverable(p)];
    var ended := marked + [EndRecovery(true, reason, true)];
    var unpaused := ended + [SetPause(false)];
    ApplySnoc(s, marked, EndRecovery(true, reason, true));
    EndingShows(ApplyAll(s, marked), reason);
    ApplySnoc(s, ended, SetPause(false));
    QuietShows(ApplyAll(s, ended), SetPause(false));
    ApplySnoc(s, unpaused, Sync);
    QuietShows(ApplyAll(s, unpaused), Sync);
    assert ops + GiveUp(p, reason) == unpaused + [Sync];
  }

  /** After a recovery that called the handler, however often and whatever it did, the header does not say that
      checking is paused. */
  lemma {:induction false} RecoveryShowsNoPause(s: State, h: Handler, k: nat)
    requires WellFormed(s.core) && HandlerOk(h) && !s.core.inProgress && DequeueCore(s.core).1 != Nobody
    ensures NoPauseShown(ApplyAll(s, ProcessNext(s.core, h, k).ops))
    decreases |Hopeful(s.core, h.known)|, 0
  {
    var c, p := s.core, DequeueCore(s.core).1;
    var o := h.answer(k, p);
    var s1 := ApplyAll(s, Tried(o));
    RunIsTheCore(s, Tried(o));
    if Fails(c, h, k) {
      var undo := GiveUp(p, FailReason(s1.core, o));
      var s2 := ApplyAll(s1, undo);
      AfterFailure(c, h, k);
      FailureSteps(c, h, k);
      RunIsTheCore(s1, undo);
      GiveUpShows(s, Tried(o), p, FailReason(s1.core, o));
      ApplyAllAppend(s, Tried(o), undo);
      ApplyAllAppend(s, Tried(o) + undo, ProcessNext(s2.core, h, k + 1).ops);
      LaterShows(s2, h, k + 1);
    } else {
      SuccessSteps(c, h, k);
      ProceedShows(s, Tried(o));
    }
  }

  lemma {:induction false} LaterShows(s: State, h: Handler, k: nat)
    requires WellFormed(s.core) && HandlerOk(h) && !s.core.inProgress && NoPauseShown(s)
    ensures NoPauseShown(ApplyAll(s, ProcessNext(s.core, h, k).ops))
    decreases |Hopeful(s.core, h.known)|, 1
  {
    if DequeueCore(s.core).1 == Nobody {
      assert [Dequeue, SetPause(false)] == [] + [Dequeue] + [SetPause(false)];
      ApplySnoc(s, [], Dequeue);
      ApplySnoc(s, [] + [Dequeue], SetPause(false));
      QuietShows(s, Dequeue);
      QuietShows(Apply(s, Dequeue), SetPause(false));
    } else {
      RecoveryShowsNoPause(s, h, k);
    }
  }
}
