/** What every step of the checker pointer keeps, over any interleaving of its methods. */
module PointerInvariants {
  import opened PointerModel
  import opened QueueLemmas

  /** The recovery queue has no duplicates, holds only known packages, and never an unrecoverable one. */
  ghost predicate QueueOk(c: Core) {
    && NoDup(c.queue)
    && (forall p :: p in c.queue ==> p in c.rows && p !in c.unrecoverable)
  }

  ghost predicate WellFormed(c: Core) {
    && OrderMatches(c)
    && QueueOk(c)
    && (c.active != Nobody ==> c.active in c.rows)
    && (c.checking != Nobody ==> c.checking in c.rows)
  }

  lemma PutKeepsWellFormed(c: Core, p: Package, row: Row)
    requires WellFormed(c)
    ensures WellFormed(Put(c, p, row))
  {
    NoDupSnoc(c.order, p);
  }

  /** Storing a row touches nothing but the rows. */
  lemma PutFrame(c: Core, p: Package, row: Row)
    ensures var d := Put(c, p, row); d == c.(order := d.order, rows := d.rows) && p in d.rows && d.rows[p] == row
  {
  }

  lemma RecomputeKeepsWellFormed(c: Core)
    requires WellFormed(c)
    ensures WellFormed(Recompute(c))
  {
  }

  lemma JoiningKeepsWellFormed(c: Core, p: Package)
    requires WellFormed(c) && p in c.rows && p !in c.unrecoverable && p !in c.queue
    ensures WellFormed(c.(queue := c.queue + [p]))
  {
    NoDupSnoc(c.queue, p);
  }

  lemma EnqueueKeepsWellFormed(c: Core, p: Package)
    requires WellFormed(c)
    ensures WellFormed(EnqueueCore(c, p))
  {
    if p != Nobody && p !in c.unrecoverable {
      var c1 := Put(c, p, RowOf(c, p).(recoveryRequested := true));
      PutKeepsWellFormed(c, p, RowOf(c, p).(recoveryRequested := true));
      if p in c.queue || c.active == p {
        RecomputeKeepsWellFormed(c1.(queue := c.queue));
      } else {
        JoiningKeepsWellFormed(c1, p);
        RecomputeKeepsWellFormed(c1.(queue := c.queue + [p]));
      }
    }
  }

  lemma DeadDetectedKeepsWellFormed(c: Core, p: Package)
    requires WellFormed(c)
    ensures WellFormed(DeadDetectedCore(c, p))
  {
    if p != Nobody {
      PutKeepsWellFormed(c, p, RowStep(RowOf(c, p), Committed(Dead)));
      EnqueueKeepsWellFormed(RowCore(c, p, Committed(Dead)), p);
    }
  }

  lemma DequeueKeepsWellFormed(c: Core)
    requires WellFormed(c)
    ensures WellFormed(DequeueCore(c).0)
  {
    SkipIs(c.queue, c.unrecoverable);
    var q := SkipUnrecoverable(c.queue, c.unrecoverable);
    if q != [] { NoDupSuffix(c.queue, |c.queue| - |q| + 1); }
  }

  /** Known packages that are neither waiting nor given up may line up behind the queue. */
  lemma LiningUpKeepsWellFormed(c: Core, d: Core, t: seq<Package>)
    requires WellFormed(c) && NoDup(t)
    requires forall p :: p in t ==> p in c.rows && p !in c.queue && p !in c.unrecoverable
    requires d.order == c.order && d.rows.Keys == c.rows.Keys && d.unrecoverable == c.unrecoverable
    requires d.active == c.active && d.checking == c.checking && d.queue == c.queue + t
    ensures WellFormed(d)
  {
    NoDupAppend(c.queue, t);
  }

  lemma SyncKeepsWellFormed(c: Core)
    requires WellFormed(c)
    ensures WellFormed(SyncCore(c))
  {
    UnattendedInIs(c, c.order);
    LiningUpKeepsWellFormed(c, SyncCore(c), UnattendedIn(c, c.order));
  }

  lemma HealIs(c: Core)
    ensures var d := HealCore(c).0;
            && d.order == c.order && d.rows.Keys == c.rows.Keys && d.unrecoverable == c.unrecoverable
            && d.active == c.active && d.checking == c.checking && d.queue == c.queue + UnqueuedIn(c, c.order)
  {
  }

  lemma HealKeepsWellFormed(c: Core)
    requires WellFormed(c)
    ensures WellFormed(HealCore(c).0)
  {
    UnqueuedInIs(c, c.order);
    HealIs(c);
    LiningUpKeepsWellFormed(c, HealCore(c).0, UnqueuedIn(c, c.order));
  }

  lemma MarkKeepsWellFormed(c: Core, p: Package)
    requires WellFormed(c)
    ensures WellFormed(MarkUnrecoverableCore(c, p))
  {
    WithoutIs(c.queue, p);
  }

  lemma ReleaseKeepsWellFormed(c: Core, failed: bool, reason: Reason)
    requires WellFormed(c)
    ensures WellFormed(ReleaseCore(c, failed, reason))
  {
    WithoutIs(c.queue, c.active);
    if c.active != Nobody {
      PutKeepsWellFormed(c, c.active, Settled(RowOf(c, c.active), failed, reason));
    }
  }

  lemma EndFocusKeepsWellFormed(c: Core, p: Package)
    requires WellFormed(c)
    ensures WellFormed(EndFocusCore(c, p))
  {
  }

  lemma BeginCheckingKeepsWellFormed(c: Core, p: Package)
    requires WellFormed(c)
    ensures WellFormed(BeginCheckingCore(c, p))
  {
    NoDupSnoc(c.order, p);
  }

  lemma EndRecoveryKeepsWellFormed(c: Core, failed: bool, reason: Reason, resume: bool)
    requires WellFormed(c)
    ensures WellFormed(EndRecoveryCore(c, failed, reason, resume))
  {
    ReleaseKeepsWellFormed(c, failed, reason);
    EndFocusKeepsWellFormed(ReleaseCore(c, failed, reason), c.active);
  }

  lemma PrepareKeepsWellFormed(c: Core, ps: seq<Package>)
    requires WellFormed(c)
    ensures WellFormed(EnsureAll(c, ps))
  {
    EnsureAllIs(c, ps);
    EnsureAllKeepsOrder(c, ps);
  }

  lemma RowKeepsWellFormed(c: Core, p: Package, r: RowOp)
    requires WellFormed(c)
    ensures WellFormed(RowCore(c, p, r))
  {
    PutKeepsWellFormed(c, p, RowStep(RowOf(c, p), r));
  }

  lemma FrontStepKeepsWellFormed(c: Core, op: Op)
    requires WellFormed(c) && !AboutRecovery(op)
    ensures WellFormed(Step(c, op))
  {
    if op.OnRow? || op.Prepare? || op.BeginChecking? || op.EndFocus? {
      RowsStepKeepsWellFormed(c, op);
    } else {
      FieldStepKeepsWellFormed(c, op);
    }
  }

  lemma RowsStepKeepsWellFormed(c: Core, op: Op)
    requires WellFormed(c) && (op.OnRow? || op.Prepare? || op.BeginChecking? || op.EndFocus?)
    ensures WellFormed(Step(c, op))
  {
    match op {
      case OnRow(p, r) => RowKeepsWellFormed(c, p, r);
      case Prepare(ps, _) => PrepareKeepsWellFormed(c, ps);
      case BeginChecking(p, _) => BeginCheckingKeepsWellFormed(c, p);
      case EndFocus(p) => EndFocusKeepsWellFormed(c, p);
    }
  }

  lemma FieldStepKeepsWellFormed(c: Core, op: Op)
    requires WellFormed(c) && !AboutRecovery(op) && !op.OnRow? && !op.Prepare? && !op.BeginChecking? && !op.EndFocus?
    ensures WellFormed(Step(c, op))
  {
  }

  lemma RecoveryStepKeepsWellFormed(c: Core, op: Op)
    requires WellFormed(c) && AboutRecovery(op)
    ensures WellFormed(Step(c, op))
  {
    if AboutOnePackage(op) { PackageStepKeepsWellFormed(c, op); } else { QueueStepKeepsWellFormed(c, op); }
  }

  predicate AboutOnePackage(op: Op) {
    op.DeadDetected? || op.Enqueue? || op.MarkUnrecoverable? || op.BeginRecovery?
  }

  lemma PackageStepKeepsWellFormed(c: Core, op: Op)
    requires WellFormed(c) && AboutOnePackage(op)
    ensures WellFormed(Step(c, op))
  {
    if op.DeadDetected? || op.Enqueue? { JoiningStepKeepsWellFormed(c, op); } else { MarkOrBeginKeepsWellFormed(c, op); }
  }

  lemma JoiningStepKeepsWellFormed(c: Core, op: Op)
    requires WellFormed(c) && (op.DeadDetected? || op.Enqueue?)
    ensures WellFormed(Step(c, op))
  {
    if op.DeadDetected? { DeadDetectedKeepsWellFormed(c, op.p); } else { EnqueueKeepsWellFormed(c, op.p); }
  }

  lemma MarkOrBeginKeepsWellFormed(c: Core, op: Op)
    requires WellFormed(c) && (op.MarkUnrecoverable? || op.BeginRecovery?)
    ensures WellFormed(Step(c, op))
  {
    if op.MarkUnrecoverable? { MarkKeepsWellFormed(c, op.p); } else { BeginRecoveryKeepsWellFormed(c, op.p); }
  }

  lemma ClaimKeepsWellFormed(c: Core, p: Package)
    requires WellFormed(c) && p in c.rows
    ensures WellFormed(c.(inProgress := true, active := p, stage := Start))
  {
  }

  lemma BeginRecoveryKeepsWellFormed(c: Core, p: Package)
    requires WellFormed(c)
    ensures WellFormed(BeginRecoveryCore(c, p))
  {
    var row := RowOf(c, p).(recoveryRequested := true);
    PutKeepsWellFormed(c, p, row);
    PutFrame(c, p, row);
    ClaimKeepsWellFormed(Put(c, p, row), p);
  }

  lemma QueueStepKeepsWellFormed(c: Core, op: Op)
    requires WellFormed(c) && AboutRecovery(op) && !AboutOnePackage(op)
    ensures WellFormed(Step(c, op))
  {
    match op {
      case Dequeue => DequeueKeepsWellFormed(c);
      case Sync => SyncKeepsWellFormed(c);
      case SelfHeal => HealKeepsWellFormed(c);
      case EndRecovery(failed, reason, resume) => EndRecoveryKeepsWellFormed(c, failed, reason, resume);
    }
  }

  /** The steps about the recovery queue or the recovery in progress. */
  predicate AboutRecovery(op: Op) {
    op.DeadDetected? || op.Enqueue? || op.Dequeue? || op.MarkUnrecoverable? || op.Sync? || op.SelfHeal?
    || op.BeginRecovery? || op.EndRecovery?
  }

  /** Every method keeps the queue invariant, from any well-formed state. */
  lemma StepKeepsWellFormed(c: Core, op: Op)
    requires WellFormed(c)
    ensures WellFormed(Step(c, op))
  {
    if AboutRecovery(op) { RecoveryStepKeepsWellFormed(c, op); } else { FrontStepKeepsWellFormed(c, op); }
  }

  lemma {:induction false} RunKeepsWellFormed(c: Core, ops: seq<Op>)
    requires WellFormed(c)
    ensures WellFormed(Run(c, ops))
  {
    if ops != [] {
      RunKeepsWellFormed(c, ops[..|ops| - 1]);
      StepKeepsWellFormed(Run(c, ops[..|ops| - 1]), ops[|ops| - 1]);
    }
  }

  /** A recovery is in progress exactly when a package is being recovered. */
  predicate BusyMatchesActive(c: Core) { c.inProgress <==> c.active != Nobody }

  /** Only a recovery begun for the empty name can break it. */
  lemma BusyBreaksOnlyOnEmptyName(c: Core, op: Op)
    requires BusyMatchesActive(c)
    ensures BusyMatchesActive(Step(c, op)) <==> op != BeginRecovery(Nobody)
  {
    match op {
      case Prepare(ps, _) => EnsureAllIs(c, ps);
      case _ =>
    }
  }

  /** Checking is paused only while a recovery runs. */
  predicate PauseOk(c: Core) { c.paused ==> c.inProgress }

  /** The steps that leave checking paused with no recovery running, exactly. */
  predicate Strands(c: Core, op: Op) {
    || (c.paused && op.Reset?)
    || (c.paused && op.EndRecovery? && !op.resume)
    || (op.SetPause? && op.on && !c.inProgress)
  }

  lemma PauseStrandsExactly(c: Core, op: Op)
    requires PauseOk(c)
    ensures PauseOk(Step(c, op)) <==> !Strands(c, op)
  {
    match op {
      case Prepare(ps, _) => EnsureAllIs(c, ps);
      case _ =>
    }
  }

  lemma RunSnoc(c: Core, ops: seq<Op>, op: Op)
    ensures Run(c, ops + [op]) == Step(Run(c, ops), op)
  {
    assert (ops + [op])[..|ops|] == ops;
  }

  lemma RunOfThree(c: Core, a: Op, b: Op, d: Op)
    ensures Run(c, [a, b, d]) == Step(Step(Step(c, a), b), d)
  {
    assert [a] == [] + [a] && [a, b] == [a] + [b] && [a, b, d] == [a, b] + [d];
    RunSnoc(c, [], a);
    RunSnoc(c, [a], b);
    RunSnoc(c, [a, b], d);
  }

  // ---------------------------------------------------------------- one row at a time

  /** What one step makes of the row of `p`. */
  function RowAfter(c: Core, op: Op, p: Package): Row {
    var row := RowOf(c, p);
    match op
    case OnRow(q, r) => if q == p && !NamesNobody(q, r) then RowStep(row, r) else row
    case BeginChecking(q, _) => if q == p then row.(display := Checking) else Passed(row)
    case EndFocus(q) => if q == p then Unfocused(row) else row
    case DeadDetected(q) =>
      if q != p || p == Nobody then row
      else
        var dead := RowStep(row, Committed(Dead));
        if p in c.unrecoverable then dead else dead.(recoveryRequested := true)
    case Enqueue(q) => if q == p && p != Nobody && p !in c.unrecoverable then row.(recoveryRequested := true) else row
    case SelfHeal => if Unrequested(c, p) then row.(recoveryRequested := true) else row
    case BeginRecovery(q) => if q == p then row.(recoveryRequested := true) else row
    case EndRecovery(failed, reason, _) =>
      if p != Nobody && c.active == p then Unfocused(Settled(row, failed, reason)) else row
    case _ => row
  }

  /** The packages that may get a fresh row in one step. */
  function Newcomers(c: Core, op: Op): set<Package> {
    match op
    case OnRow(q, r) => if NamesNobody(q, r) then {} else {q}
    case Prepare(ps, _) => set q | q in ps
    case BeginChecking(q, _) => {q}
    case DeadDetected(q) => if q == Nobody then {} else {q}
    case Enqueue(q) => if q == Nobody || q in c.unrecoverable then {} else {q}
    case BeginRecovery(q) => {q}
    case EndRecovery(_, _, _) => if c.active == Nobody then {} else {c.active}
    case _ => {}
  }

  lemma EnqueueOnRow(c: Core, q: Package, p: Package)
    ensures var d, busy := EnqueueCore(c, q), q != Nobody && q !in c.unrecoverable;
            && (p in d.rows <==> p in c.rows || (busy && p == q))
            && RowOf(d, p) == (if busy && p == q then RowOf(c, p).(recoveryRequested := true) else RowOf(c, p))
  {
  }

  lemma DeadDetectedOnRow(c: Core, q: Package, p: Package)
    ensures var d := DeadDetectedCore(c, q);
            && (p in d.rows <==> p in c.rows || (q != Nobody && p == q))
            && RowOf(d, p) == RowAfter(c, DeadDetected(q), p)
  {
    if q != Nobody {
      EnqueueOnRow(RowCore(c, q, Committed(Dead)), q, p);
    }
  }

  lemma HealOnRow(c: Core, p: Package)
    ensures var d := HealCore(c).0;
            && d.rows.Keys == c.rows.Keys
            && RowOf(d, p) == (if Unrequested(c, p) then RowOf(c, p).(recoveryRequested := true) else RowOf(c, p))
  {
  }

  lemma EndRecoveryOnRow(c: Core, failed: bool, reason: Reason, resume: bool, p: Package)
    ensures var d, mine := EndRecoveryCore(c, failed, reason, resume), p != Nobody && c.active == p;
            && (p in d.rows <==> p in c.rows || mine)
            && RowOf(d, p) == (if mine then Unfocused(Settled(RowOf(c, p), failed, reason)) else RowOf(c, p))
  {
    var c1 := ReleaseCore(c, failed, reason);
    assert c.active != Nobody ==> c1.rows == c.rows[c.active := Settled(RowOf(c, c.active), failed, reason)];
  }

  /** The steps that leave the recovery queue alone. */
  predicate QueueUntouched(op: Op) {
    !op.NewStart? && !op.DeadDetected? && !op.Enqueue? && !op.Dequeue? && !op.MarkUnrecoverable?
    && !op.Sync? && !op.SelfHeal? && !op.EndRecovery?
  }

  lemma QuietStepOnRow(c: Core, op: Op, p: Package)
    requires QueueUntouched(op)
    ensures p in Step(c, op).rows <==> p in c.rows || p in Newcomers(c, op)
    ensures p in Step(c, op).rows ==> Step(c, op).rows[p] == RowAfter(c, op, p)
  {
    match op {
      case Prepare(ps, _) => EnsureAllIs(c, ps);
      case _ =>
    }
  }

  /** No row is ever dropped, and a step changes each row as `RowAfter` says. */
  lemma StepOnRow(c: Core, op: Op, p: Package)
    ensures p in Step(c, op).rows <==> p in c.rows || p in Newcomers(c, op)
    ensures p in Step(c, op).rows ==> Step(c, op).rows[p] == RowAfter(c, op, p)
  {
    match op {
      case DeadDetected(q) => DeadDetectedOnRow(c, q, p);
      case Enqueue(q) => EnqueueOnRow(c, q, p);
      case SelfHeal => HealOnRow(c, p);
      case EndRecovery(failed, reason, resume) => EndRecoveryOnRow(c, failed, reason, resume, p);
      case NewStart =>
      case Dequeue =>
      case MarkUnrecoverable(_) =>
      case Sync =>
      case _ => QuietStepOnRow(c, op, p);
    }
  }

  // ---------------------------------------------------------------- Dead is sticky

  predicate CommittedDead(c: Core, p: Package) { p in c.rows && c.rows[p].committed == Dead }

  /** The only ways out of Dead: another relay commit, or the end of a successful recovery of that package. */
  predicate ClearsDead(c: Core, op: Op, p: Package) {
    match op
    case OnRow(q, Committed(v)) => q == p && v != Dead
    case EndRecovery(failed, _, _) => !failed && p != Nobody && c.active == p
    case _ => false
  }

  lemma DeadIsSticky(c: Core, op: Op, p: Package)
    requires CommittedDead(c, p)
    ensures CommittedDead(Step(c, op), p) <==> !ClearsDead(c, op, p)
  {
    StepOnRow(c, op, p);
    RowLeavesDead(c, op, p);
  }

  lemma RowLeavesDead(c: Core, op: Op, p: Package)
    requires CommittedDead(c, p)
    ensures RowAfter(c, op, p).committed == Dead <==> !ClearsDead(c, op, p)
  {
    match op {
      case OnRow(_, r) => RowOpLeavesDead(c.rows[p], r);
      case EndRecovery(failed, reason, _) => SettlingLeavesDead(c.rows[p], failed, reason);
      case _ =>
    }
  }

  lemma RowOpLeavesDead(row: Row, r: RowOp)
    requires row.committed == Dead
    ensures RowStep(row, r).committed == Dead <==> !(r.Committed? && r.v != Dead)
  {
  }

  lemma SettlingLeavesDead(row: Row, failed: bool, reason: Reason)
    requires row.committed == Dead
    ensures Unfocused(Settled(row, failed, reason)).committed == Dead <==> failed
  {
  }

  /** Along a run that never clears it, a Dead package stays Dead and is shown Dead. */
  lemma {:induction false} DeadStaysOverRun(c: Core, ops: seq<Op>, p: Package)
    requires CommittedDead(c, p)
    requires forall i :: 0 <= i < |ops| ==> !ClearsDead(Run(c, ops[..i]), ops[i], p)
    ensures CommittedDead(Run(c, ops), p) && DisplayState(Run(c, ops), p) == Shown(Dead)
  {
    if ops != [] {
      var init := ops[..|ops| - 1];
      forall i | 0 <= i < |init| ensures !ClearsDead(Run(c, init[..i]), init[i], p) {
        assert init[..i] == ops[..i];
      }
      DeadStaysOverRun(c, init, p);
      assert ops[..|ops| - 1] == init;
      DeadIsSticky(Run(c, init), ops[|ops| - 1], p);
    }
  }

  // ---------------------------------------------------------------- one focus at a time

  /** Any row marked as being checked is the package in focus. */
  ghost predicate FocusExclusive(c: Core) {
    forall p :: p in c.rows && CheckingLike(c.rows[p].display) ==> p == c.checking
  }

  /** The package in focus after one step. */
  function FocusAfter(c: Core, op: Op): Package {
    match op
    case NewStart => Nobody
    case BeginChecking(p, _) => p
    case EndFocus(p) => if c.checking == p then Nobody else c.checking
    case EndRecovery(_, _, _) => if c.checking == c.active then Nobody else c.checking
    case _ => c.checking
  }

  lemma FrontStepOnFocus(c: Core, op: Op)
    requires !AboutRecovery(op)
    ensures Step(c, op).checking == FocusAfter(c, op)
  {
    match op {
      case Prepare(ps, _) => EnsureAllIs(c, ps);
      case _ =>
    }
  }

  lemma RecoveryStepOnFocus(c: Core, op: Op)
    requires AboutRecovery(op)
    ensures Step(c, op).checking == FocusAfter(c, op)
  {
  }

  lemma StepOnFocus(c: Core, op: Op)
    ensures Step(c, op).checking == FocusAfter(c, op)
  {
    if AboutRecovery(op) { RecoveryStepOnFocus(c, op); } else { FrontStepOnFocus(c, op); }
  }

  /** No row method marks a row as being checked; losing the focus clears the mark. */
  lemma MarksCleared(row: Row, r: RowOp)
    ensures CheckingLike(RowStep(row, r).display) ==> CheckingLike(row.display)
    ensures !CheckingLike(Unfocused(row).display) && !CheckingLike(Passed(row).display)
  {
  }

  lemma MarkedOnlyInFocus(c: Core, op: Op, p: Package)
    requires CheckingLike(RowOf(c, p).display) ==> p == c.checking
    requires !op.NewStart? && CheckingLike(RowAfter(c, op, p).display)
    ensures p == FocusAfter(c, op)
  {
    var row := RowOf(c, p);
    match op {
      case OnRow(q, r) => MarksCleared(row, r);
      case BeginChecking(_, _) => MarksCleared(row, Touched);
      case EndFocus(_) => MarksCleared(row, Touched);
      case EndRecovery(failed, reason, _) => MarksCleared(Settled(row, failed, reason), Touched);
      case _ =>
    }
  }

  /** Broken only by a new Start that drops the focus of a row still marked as being checked. */
  lemma FocusBreaksOnlyOnNewStart(c: Core, op: Op)
    requires FocusExclusive(c)
    ensures FocusExclusive(Step(c, op))
            <==> !(op.NewStart? && c.checking != Nobody && c.checking in c.rows
                   && CheckingLike(c.rows[c.checking].display))
  {
    if !op.NewStart? {
      StepOnFocus(c, op);
      forall p | p in Step(c, op).rows && CheckingLike(Step(c, op).rows[p].display)
        ensures p == Step(c, op).checking
      {
        StepOnRow(c, op, p);
        MarkedOnlyInFocus(c, op, p);
      }
    }
  }

  /** Taking the focus restores it from any state whatever. */
  lemma FocusRestored(c: Core, p: Package, deadline: real)
    ensures FocusExclusive(Step(c, BeginChecking(p, deadline)))
    ensures var d := Step(c, BeginChecking(p, deadline));
            d.checking == p && d.focus == p && p in d.rows && d.rows[p].display == Checking
            && d.rows.Keys == c.rows.Keys + {p}
            && (forall q :: q in c.rows ==> d.rows[q].committed == c.rows[q].committed)
  {
  }

  /** Hence at most one package ever reads as Checking. */
  lemma OneReadsChecking(c: Core, p: Package, q: Package)
    requires FocusExclusive(c)
    requires DisplayState(c, p) == Checking && DisplayState(c, q) == Checking
    ensures p == q == c.checking
  {
  }

  lemma {:induction false} FocusExclusiveOverSession(ops: seq<Op>)
    requires forall i :: 0 <= i < |ops| ==> !ops[i].NewStart?
    ensures FocusExclusive(Run(InitCore, ops))
  {
    if ops != [] {
      FocusExclusiveOverSession(ops[..|ops| - 1]);
      FocusBreaksOnlyOnNewStart(Run(InitCore, ops[..|ops| - 1]), ops[|ops| - 1]);
    }
  }
}
