/** What the pointer remembers after a run, said of the steps of the run alone: each field holds the last word on
    it. */
module LastWord {
  import opened Common
  import opened PointerModel
  import opened QueueLemmas
  import opened PointerInvariants
  import opened RecoveryQueue

  // ---------------------------------------------------------------- the pointer

  /** The error on record: that of the last failed ending, or one set since; none after a success. */
  function ErrorAfter(ops: seq<Op>): Reason {
    if ops == [] then NoReason
    else
      match ops[|ops| - 1]
      case EndRecovery(failed, reason, _) => if failed then reason else NoReason
      case SetLastError(error) => error
      case NewStart => NoReason
      case _ => ErrorAfter(ops[..|ops| - 1])
  }

  /** Whether checking is paused: a pause lasts until it is lifted, a resume, a resuming ending or a new Start. */
  function PausedAfter(ops: seq<Op>): bool {
    if ops == [] then false
    else
      match ops[|ops| - 1]
      case SetPause(on) => on
      case Resume => false
      case NewStart => false
      case EndRecovery(_, _, resume) => !resume && PausedAfter(ops[..|ops| - 1])
      case _ => PausedAfter(ops[..|ops| - 1])
  }

  /** The package in focus: the last one whose check began, until its own focus or recovery ends, or a new Start. */
  function Focused(ops: seq<Op>): Package {
    if ops == [] then Nobody
    else
      var init := ops[..|ops| - 1];
      match ops[|ops| - 1]
      case NewStart => Nobody
      case BeginChecking(p, _) => p
      case EndFocus(p) => if p == Focused(init) then Nobody else Focused(init)
      case EndRecovery(_, _, _) => if ActiveIn(Nobody, init) == Focused(init) then Nobody else Focused(init)
      case _ => Focused(init)
  }

  lemma StepOnError(c: Core, op: Op)
    ensures Step(c, op).lastError ==
      match op
      case EndRecovery(failed, reason, _) => if failed then reason else NoReason
      case SetLastError(error) => error
      case NewStart => NoReason
      case _ => c.lastError
  {
    match op {
      case Prepare(ps, _) => EnsureAllIs(c, ps);
      case _ =>
    }
  }

  lemma StepOnPause(c: Core, op: Op)
    ensures Step(c, op).paused ==
      match op
      case SetPause(on) => on
      case Resume => false
      case NewStart => false
      case EndRecovery(_, _, resume) => !resume && c.paused
      case _ => c.paused
  {
    match op {
      case Prepare(ps, _) => EnsureAllIs(c, ps);
      case _ =>
    }
  }

  /** The error on record, the pause, the active package and the focus after any run. */
  lemma {:induction false} RunLeaves(ops: seq<Op>)
    ensures var c := Run(InitCore, ops);
            && c.lastError == ErrorAfter(ops) && c.paused == PausedAfter(ops)
            && c.active == ActiveIn(Nobody, ops) && c.checking == Focused(ops)
  {
    if ops != [] {
      var c, op := Run(InitCore, ops[..|ops| - 1]), ops[|ops| - 1];
      RunLeaves(ops[..|ops| - 1]);
      StepOnError(c, op);
      StepOnPause(c, op);
      StepOnActive(c, op);
      StepOnFocus(c, op);
    }
  }

  /** The two focus fields differ only after a reset, which clears one of them. */
  lemma {:induction false} FocusFieldsAgree(ops: seq<Op>)
    ensures var c := Run(InitCore, ops); c.focus == c.checking || (c.focus == Nobody && Reset in ops)
  {
    if ops != [] {
      var c, op := Run(InitCore, ops[..|ops| - 1]), ops[|ops| - 1];
      FocusFieldsAgree(ops[..|ops| - 1]);
      assert ops == ops[..|ops| - 1] + [op];
      StepOnFocus(c, op);
      StepOnFocusField(c, op);
    }
  }

  lemma StepOnFocusField(c: Core, op: Op)
    ensures Step(c, op).focus ==
      match op
      case NewStart => Nobody
      case Reset => Nobody
      case BeginChecking(p, _) => p
      case EndFocus(p) => if c.focus == p then Nobody else c.focus
      case EndRecovery(_, _, _) => if c.focus == c.active then Nobody else c.focus
      case _ => c.focus
  {
    match op {
      case Prepare(ps, _) => EnsureAllIs(c, ps);
      case _ =>
    }
  }

  // ---------------------------------------------------------------- orphans

  /** The steps that bring the orphan list up to date. */
  predicate Refreshes(c: Core, op: Op) {
    match op
    case Enqueue(p) => p != Nobody && p !in c.unrecoverable
    case DeadDetected(p) => p != Nobody && p !in c.unrecoverable
    case MarkUnrecoverable(p) => p != Nobody
    case Sync => true
    case EndRecovery(_, _, _) => true
    case SelfHeal => exists p :: p in c.order && RecoverableDead(c, p) && !c.rows[p].recoveryRequested
    case _ => false
  }

  /** After such a step the list holds exactly the Dead packages nobody looks after, in the order of the rows; any
      other step leaves it, and a new Start empties it. */
  lemma OrphansExactly(c: Core, op: Op)
    requires WellFormed(c)
    ensures var d := Step(c, op);
            if Refreshes(c, op)
            then (forall p :: p in d.orphans <==> CommittedDead(d, p) && !Attended(d, p))
                 && Subsequence(d.orphans, d.order) && NoDup(d.orphans)
            else d.orphans == if op.NewStart? then [] else c.orphans
  {
    var d := Step(c, op);
    if Refreshes(c, op) {
      RefreshingStep(c, op);
      StepKeepsWellFormed(c, op);
      UnattendedInIs(d, d.order);
      UnattendedInOrder(d, d.order);
    } else {
      OtherStep(c, op);
    }
  }

  lemma HealedSome(c: Core)
    ensures UnrequestedIn(c, c.order) != []
            <==> exists p :: p in c.order && RecoverableDead(c, p) && !c.rows[p].recoveryRequested
  {
    UnrequestedInIs(c, c.order);
    HasMember(UnrequestedIn(c, c.order));
  }

  lemma RefreshingStep(c: Core, op: Op)
    requires Refreshes(c, op)
    ensures Step(c, op).orphans == UnattendedIn(Step(c, op), Step(c, op).order)
  {
    HealedSome(c);
    SameUnattended(Step(c, op), Step(c, op).order);
  }

  /** The list does not depend on itself. */
  lemma {:induction false} SameUnattended(d: Core, names: seq<Package>)
    ensures forall orphans :: UnattendedIn(d, names) == UnattendedIn(d.(orphans := orphans), names)
  {
    if names != [] { SameUnattended(d, names[..|names| - 1]); }
  }

  lemma OtherStep(c: Core, op: Op)
    requires !Refreshes(c, op)
    ensures Step(c, op).orphans == if op.NewStart? then [] else c.orphans
  {
    HealedSome(c);
    match op {
      case Prepare(ps, _) => EnsureAllIs(c, ps);
      case _ =>
    }
  }

  // ---------------------------------------------------------------- a row

  /** What is committed for `p`: the last commit, unless a success of its recovery, or a dispatch of its launch while
      it was not Dead, has wiped it out since. */
  function CommittedAfter(ops: seq<Op>, p: Package): Presence {
    if ops == [] then Unset
    else
      var init := ops[..|ops| - 1];
      match ops[|ops| - 1]
      case OnRow(q, Committed(v)) => if q == p then v else CommittedAfter(init, p)
      case OnRow(q, LaunchDispatched) =>
        if q == p && p != Nobody && CommittedAfter(init, p) != Dead then Unset else CommittedAfter(init, p)
      case DeadDetected(q) => if q == p && p != Nobody then Dead else CommittedAfter(init, p)
      case EndRecovery(failed, _, _) =>
        if !failed && p != Nobody && ActiveIn(Nobody, init) == p then Unset else CommittedAfter(init, p)
      case _ => CommittedAfter(init, p)
  }

  lemma RowOpOnCommitted(row: Row, r: RowOp)
    ensures RowStep(row, r).committed ==
      match r
      case Committed(v) => v
      case LaunchDispatched => if row.committed == Dead then Dead else Unset
      case _ => row.committed
  {
  }

  lemma SettledOnCommitted(row: Row, failed: bool, reason: Reason)
    ensures Unfocused(Settled(row, failed, reason)).committed == if failed then row.committed else Unset
  {
  }

  lemma StepOnCommitted(c: Core, op: Op, p: Package)
    ensures RowAfter(c, op, p).committed ==
      match op
      case OnRow(q, Committed(v)) => if q == p then v else RowOf(c, p).committed
      case OnRow(q, LaunchDispatched) =>
        if q == p && p != Nobody && RowOf(c, p).committed != Dead then Unset else RowOf(c, p).committed
      case DeadDetected(q) => if q == p && p != Nobody then Dead else RowOf(c, p).committed
      case EndRecovery(failed, _, _) => if !failed && p != Nobody && c.active == p then Unset else RowOf(c, p).committed
      case _ => RowOf(c, p).committed
  {
    match op {
      case OnRow(_, r) => RowOpOnCommitted(RowOf(c, p), r);
      case DeadDetected(_) => RowOpOnCommitted(RowOf(c, p), Committed(Dead));
      case EndRecovery(failed, reason, _) => SettledOnCommitted(RowOf(c, p), failed, reason);
      case _ =>
    }
  }

  lemma {:induction false} CommittedIs(ops: seq<Op>, p: Package)
    ensures RowOf(Run(InitCore, ops), p).committed == CommittedAfter(ops, p)
  {
    if ops != [] {
      var c, op := Run(InitCore, ops[..|ops| - 1]), ops[|ops| - 1];
      CommittedIs(ops[..|ops| - 1], p);
      RunLeaves(ops[..|ops| - 1]);
      StepOnRow(c, op, p);
      StepOnCommitted(c, op, p);
    }
  }

  /** The step asks for a recovery of `p`. */
  predicate Requests(c: Core, op: Op, p: Package) {
    match op
    case Enqueue(q) => q == p && p != Nobody && p !in c.unrecoverable
    case DeadDetected(q) => q == p && p != Nobody && p !in c.unrecoverable
    case BeginRecovery(q) => q == p
    case SelfHeal => RecoverableDead(c, p)
    case _ => false
  }

  lemma StepOnRequested(c: Core, op: Op, p: Package)
    ensures RowAfter(c, op, p).recoveryRequested <==> RowOf(c, p).recoveryRequested || Requests(c, op, p)
  {
    match op {
      case OnRow(_, r) => RowOpOnRequested(RowOf(c, p), r);
      case DeadDetected(_) => RowOpOnRequested(RowOf(c, p), Committed(Dead));
      case EndRecovery(failed, reason, _) => SettledOnRequested(RowOf(c, p), failed, reason);
      case _ =>
    }
  }

  lemma RowOpOnRequested(row: Row, r: RowOp)
    ensures RowStep(row, r).recoveryRequested == row.recoveryRequested
  {
  }

  lemma SettledOnRequested(row: Row, failed: bool, reason: Reason)
    ensures Unfocused(Settled(row, failed, reason)).recoveryRequested == row.recoveryRequested
  {
  }

  /** Some step of the run asked for a recovery of `p`. */
  ghost predicate AskedFor(ops: seq<Op>, p: Package) {
    exists i :: 0 <= i < |ops| && Requests(Run(InitCore, ops[..i]), ops[i], p)
  }

  lemma AskedForSnoc(init: seq<Op>, op: Op, p: Package)
    ensures AskedFor(init + [op], p) <==> AskedFor(init, p) || Requests(Run(InitCore, init), op, p)
  {
    var ops := init + [op];
    assert ops[..|init|] == init && ops[|init|] == op;
    forall i | 0 <= i < |init| ensures ops[..i] == init[..i] && ops[i] == init[i] { }
  }

  /** A row has a request on record exactly when some step of the run asked for a recovery of its package. */
  lemma {:induction false} RequestedExactly(ops: seq<Op>, p: Package)
    ensures RowOf(Run(InitCore, ops), p).recoveryRequested <==> AskedFor(ops, p)
  {
    if ops != [] {
      var init, op := ops[..|ops| - 1], ops[|ops| - 1];
      RequestedExactly(init, p);
      StepOnRow(Run(InitCore, init), op, p);
      StepOnRequested(Run(InitCore, init), op, p);
      AskedForSnoc(init, op, p);
      assert ops == init + [op];
    }
  }

  // ---------------------------------------------------------------- the empty name

  /** The methods that ignore the empty package name do nothing at all for it. */
  lemma EmptyNameIgnored(c: Core, op: Op)
    requires
      || op in {DeadDetected(Nobody), Enqueue(Nobody), MarkUnrecoverable(Nobody)}
      || op in {OnRow(Nobody, LaunchAsked), OnRow(Nobody, LaunchSent), OnRow(Nobody, LaunchDispatched)}
      || (op.RecordLaunch? && op.p == Nobody)
    ensures Step(c, op) == c
  {
  }
}
