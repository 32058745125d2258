/** The relay is the single writer of the presence a row shows. */
module PresenceRelay {
  import opened Common
  import opened PointerModel
  import opened QueueLemmas
  import opened PointerInvariants

  /** A row shows a final state only as its last committed one. */
  predicate Honest(row: Row) {
    && (row.committed == Unset || row.committed == row.lastReal)
    && (row.display.Shown? ==> row.display.presence == row.lastReal && row.lastReal != Unset)
  }

  /** The presence a step commits for `p`, if any. */
  function CommittedBy(op: Op, p: Package): Option<Presence> {
    match op
    case OnRow(q, Committed(v)) => if q == p then Some(v) else None
    case DeadDetected(q) => if q == p && p != Nobody then Some(Dead) else None
    case _ => None
  }

  /** The most recent presence a run committed for `p`; Unset if none. */
  function LastCommitted(ops: seq<Op>, p: Package): Presence {
    if ops == [] then Unset
    else
      var v := CommittedBy(ops[|ops| - 1], p);
      if v.Some? then v.value else LastCommitted(ops[..|ops| - 1], p)
  }

  lemma RowOpsStayHonest(row: Row, r: RowOp)
    requires Honest(row)
    ensures Honest(RowStep(row, r))
    ensures RowStep(row, r).lastReal == if r.Committed? then r.v else row.lastReal
  {
  }

  lemma FocusStaysHonest(row: Row)
    requires Honest(row)
    ensures Honest(Unfocused(row)) && Unfocused(row).lastReal == row.lastReal
    ensures Honest(Passed(row)) && Passed(row).lastReal == row.lastReal
  {
  }

  lemma SettlingStaysHonest(row: Row, failed: bool, reason: Reason)
    requires Honest(row)
    ensures Honest(Unfocused(Settled(row, failed, reason)))
    ensures Unfocused(Settled(row, failed, reason)).lastReal == row.lastReal
  {
    FocusStaysHonest(Settled(row, failed, reason));
  }

  lemma StepStaysHonest(c: Core, op: Op, p: Package)
    requires Honest(RowOf(c, p))
    ensures Honest(RowAfter(c, op, p))
    ensures RowAfter(c, op, p).lastReal
            == if CommittedBy(op, p).Some? then CommittedBy(op, p).value else RowOf(c, p).lastReal
  {
    var row := RowOf(c, p);
    match op {
      case OnRow(_, r) => RowOpsStayHonest(row, r);
      case DeadDetected(_) => RowOpsStayHonest(row, Committed(Dead));
      case BeginChecking(_, _) => FocusStaysHonest(row);
      case EndFocus(_) => FocusStaysHonest(row);
      case EndRecovery(failed, reason, _) => SettlingStaysHonest(row, failed, reason);
      case _ =>
    }
  }

  lemma {:induction false} RunStaysHonest(ops: seq<Op>, p: Package)
    ensures Honest(RowOf(Run(InitCore, ops), p))
    ensures RowOf(Run(InitCore, ops), p).lastReal == LastCommitted(ops, p)
  {
    if ops != [] {
      var c := Run(InitCore, ops[..|ops| - 1]);
      RunStaysHonest(ops[..|ops| - 1], p);
      StepStaysHonest(c, ops[|ops| - 1], p);
      StepOnRow(c, ops[|ops| - 1], p);
      if p !in c.rows && p !in Newcomers(c, ops[|ops| - 1]) { NewcomersKnown(c, ops[|ops| - 1], p); }
    }
  }

  /** A row that does not exist after a step was not touched by it. */
  lemma NewcomersKnown(c: Core, op: Op, p: Package)
    requires p !in c.rows && p !in Newcomers(c, op)
    ensures RowAfter(c, op, p).lastReal == Unset && CommittedBy(op, p).None?
  {
  }

  /** Whatever the interleaving, a final state on screen is the one most recently committed for that
      package, and a committed state is what the screen shows. */
  lemma SingleWriter(ops: seq<Op>, p: Package, v: Presence)
    requires v != Unset
    ensures var c := Run(InitCore, ops);
            && (DisplayState(c, p) == Shown(v) ==> v == LastCommitted(ops, p))
            && (p in c.rows && c.rows[p].committed == v ==> DisplayState(c, p) == Shown(v))
  {
    RunStaysHonest(ops, p);
  }

  /** Steps that only report raw evidence. */
  predicate RawEvidence(r: RowOp) {
    r.OnlineCached? || r.DeadCached? || r.Touched? || r.Counted? || r.Uncounted?
  }

  /** They change no package's displayed state, with one exception: the first row of the empty name,
      reported while nothing is in focus, reads as Checking. */
  lemma RawEvidenceIsInvisible(c: Core, p: Package, r: RowOp)
    requires WellFormed(c) && RawEvidence(r)
    ensures (forall q :: DisplayState(Step(c, OnRow(p, r)), q) == DisplayState(c, q))
            <==> !(p == Nobody && p !in c.rows && c.checking == Nobody)
  {
    var d := Step(c, OnRow(p, r));
    if p == Nobody && p !in c.rows && c.checking == Nobody {
      assert DisplayState(d, Nobody) == Checking && DisplayState(c, Nobody) == Blank;
    } else {
      forall q ensures DisplayState(d, q) == DisplayState(c, q) { RawEvidenceShows(c, p, r, q); }
    }
  }

  lemma RawEvidenceShows(c: Core, p: Package, r: RowOp, q: Package)
    requires RawEvidence(r) && (c.checking != Nobody ==> c.checking in c.rows)
    requires p == Nobody && p !in c.rows ==> c.checking != Nobody
    ensures DisplayState(RowCore(c, p, r), q) == DisplayState(c, q)
  {
    RawEvidenceOnRow(RowOf(c, p), r, p == c.checking);
  }

  lemma RawEvidenceOnRow(row: Row, r: RowOp, inFocus: bool)
    requires RawEvidence(r)
    ensures RowDisplay(RowStep(row, r), inFocus) == RowDisplay(row, inFocus)
    ensures !inFocus ==> RowDisplay(FreshRow, inFocus) == Blank
  {
  }

  // ---------------------------------------------------------------- launches

  /** The steps of a launch. */
  predicate LaunchStep(r: RowOp) { r.LaunchAsked? || r.LaunchSent? || r.LaunchDispatched? }

  /** What a package reads when its launch is asked for, sent and dispatched: Dead stays; the dispatch makes every
      other package wait for the checker, whatever was committed for it; until then a committed state stays. */
  lemma LaunchShows(c: Core, p: Package, r: RowOp)
    requires LaunchStep(r) && p != Nobody
    ensures var d := Step(c, OnRow(p, r));
            && DisplayState(d, p) ==
               (if CommittedDead(c, p) then Shown(Dead)
                else if !r.LaunchDispatched? && RowOf(c, p).committed != Unset then Shown(RowOf(c, p).committed)
                else if p == c.checking then Checking
                else if r.LaunchDispatched? then Waiting else Launching)
            && p in d.rows && d.rows[p].display in {DisplayState(d, p), Launching, Waiting}
            && (r.LaunchDispatched? ==> d.rows[p].display == if CommittedDead(c, p) then Shown(Dead) else Waiting)
            && (CommittedDead(d, p) <==> CommittedDead(c, p))
            && forall q :: q != p ==> DisplayState(d, q) == DisplayState(c, q)
  {
  }

  /** Over every run, a row has its launch on record exactly when one was sent or dispatched for its package. */
  lemma {:induction false} LaunchedExactly(ops: seq<Op>, p: Package)
    requires p != Nobody
    ensures RowOf(Run(InitCore, ops), p).launchDispatched
            <==> OnRow(p, LaunchSent) in ops || OnRow(p, LaunchDispatched) in ops
  {
    if ops != [] {
      var c, op := Run(InitCore, ops[..|ops| - 1]), ops[|ops| - 1];
      LaunchedExactly(ops[..|ops| - 1], p);
      assert ops == ops[..|ops| - 1] + [op];
      StepOnRow(c, op, p);
      LaunchRecorded(c, op, p);
    }
  }

  lemma LaunchRecorded(c: Core, op: Op, p: Package)
    requires p != Nobody
    ensures RowAfter(c, op, p).launchDispatched <==>
              RowOf(c, p).launchDispatched || op == OnRow(p, LaunchSent) || op == OnRow(p, LaunchDispatched)
  {
    match op {
      case OnRow(_, r) => RowOpOnLaunch(RowOf(c, p), r);
      case EndRecovery(failed, reason, _) => SettlingKeepsLaunch(RowOf(c, p), failed, reason);
      case _ =>
    }
  }

  lemma RowOpOnLaunch(row: Row, r: RowOp)
    ensures RowStep(row, r).launchDispatched <==> row.launchDispatched || r == LaunchSent || r == LaunchDispatched
  {
  }

  lemma SettlingKeepsLaunch(row: Row, failed: bool, reason: Reason)
    ensures Unfocused(Settled(row, failed, reason)).launchDispatched == row.launchDispatched
  {
  }

  /** The raw evidence for `p` pending after a run, Online and Dead: the last word on each was a report, with no
      commit since. */
  function Pending(ops: seq<Op>, p: Package): (bool, bool) {
    if ops == [] then (false, false)
    else
      var (online, dead) := Pending(ops[..|ops| - 1], p);
      match ops[|ops| - 1]
      case OnRow(q, OnlineCached(on)) => if q == p then (on, dead) else (online, dead)
      case OnRow(q, DeadCached(on)) => if q == p then (online, on) else (online, dead)
      case _ => if CommittedBy(ops[|ops| - 1], p).Some? then (false, false) else (online, dead)
  }

  lemma {:induction false} PendingExactly(ops: seq<Op>, p: Package)
    ensures var row := RowOf(Run(InitCore, ops), p); (row.rawOnline, row.rawDead) == Pending(ops, p)
  {
    if ops != [] {
      var c, op := Run(InitCore, ops[..|ops| - 1]), ops[|ops| - 1];
      PendingExactly(ops[..|ops| - 1], p);
      StepOnRow(c, op, p);
      PendingStep(c, op, p);
    }
  }

  lemma PendingStep(c: Core, op: Op, p: Package)
    ensures var row, now := RowOf(c, p), RowAfter(c, op, p);
            (now.rawOnline, now.rawDead) ==
              if op.OnRow? && op.p == p && op.r.OnlineCached? then (op.r.on, row.rawDead)
              else if op.OnRow? && op.p == p && op.r.DeadCached? then (row.rawOnline, op.r.on)
              else if CommittedBy(op, p).Some? then (false, false) else (row.rawOnline, row.rawDead)
  {
    match op {
      case OnRow(_, r) => RowOpOnEvidence(RowOf(c, p), r);
      case DeadDetected(_) => RowOpOnEvidence(RowOf(c, p), Committed(Dead));
      case EndRecovery(failed, reason, _) => SettlingKeepsEvidence(RowOf(c, p), failed, reason);
      case _ =>
    }
  }

  lemma RowOpOnEvidence(row: Row, r: RowOp)
    ensures (RowStep(row, r).rawOnline, RowStep(row, r).rawDead) ==
      match r
      case OnlineCached(on) => (on, row.rawDead)
      case DeadCached(on) => (row.rawOnline, on)
      case Committed(_) => (false, false)
      case _ => (row.rawOnline, row.rawDead)
  {
  }

  lemma SettlingKeepsEvidence(row: Row, failed: bool, reason: Reason)
    ensures var now := Unfocused(Settled(row, failed, reason));
            (now.rawOnline, now.rawDead) == (row.rawOnline, row.rawDead)
  {
  }

  // ---------------------------------------------------------------- what a row reads

  /** Nothing is committed for the package, and the last state it had was Dead: it was recovered or relaunched. */
  predicate OnceDead(c: Core, p: Package) {
    p in c.rows && c.rows[p].committed == Unset && c.rows[p].lastReal == Dead
  }

  /** It reads Dead all the same: its row shows that last state again. */
  predicate StaleDead(c: Core, p: Package) {
    OnceDead(c, p) && p != c.checking && (c.rows[p].display == Blank || c.rows[p].display == Shown(Dead))
  }

  /** After any run whatever a row reads Dead exactly when Dead is committed or stale. */
  lemma ReadsDeadExactly(ops: seq<Op>, p: Package)
    ensures var c := Run(InitCore, ops);
            DisplayState(c, p) == Shown(Dead) <==> CommittedDead(c, p) || StaleDead(c, p)
  {
    RunStaysHonest(ops, p);
    RowReadsDead(RowOf(Run(InitCore, ops), p), p == Run(InitCore, ops).checking);
  }

  lemma RowReadsDead(row: Row, inFocus: bool)
    requires Honest(row)
    ensures RowDisplay(row, inFocus) == Shown(Dead) <==>
              row.committed == Dead
              || (!inFocus && row.committed == Unset && row.lastReal == Dead
                  && (row.display == Blank || row.display == Shown(Dead)))
  {
  }

  /** In every session from fresh rows a row reads Checking exactly while its package is in focus with nothing
      committed, and the internal markers never show. */
  lemma ReadsCheckingExactly(ops: seq<Op>, p: Package)
    requires forall i :: 0 <= i < |ops| ==> !ops[i].NewStart?
    ensures var c := Run(InitCore, ops);
            var shown := DisplayState(c, p);
            && (shown == Checking <==> p in c.rows && p == c.checking && c.rows[p].committed == Unset)
            && shown != WaitingCheck && shown != Monitoring && shown != Opening
  {
    RunStaysHonest(ops, p);
    FocusExclusiveOverSession(ops);
    RowReadsChecking(RowOf(Run(InitCore, ops), p), p == Run(InitCore, ops).checking);
  }

  lemma RowReadsChecking(row: Row, inFocus: bool)
    requires Honest(row) && (CheckingLike(row.display) ==> inFocus)
    ensures var shown := RowDisplay(row, inFocus);
            && (shown == Checking <==> inFocus && row.committed == Unset)
            && shown != WaitingCheck && shown != Monitoring && shown != Opening
  {
  }

  /** The internal markers read as what they stand for. */
  lemma RowReadsTransient(row: Row)
    requires row.committed == Unset
    ensures RowDisplay(row, false) == Launching <==> row.display in {Launching, Opening}
    ensures RowDisplay(row, false) == Waiting <==> row.display in {Waiting, WaitingCheck, Monitoring}
  {
  }

  // ---------------------------------------------------------------- how a stale Dead comes about

  /** The step takes the checking marker off a row and puts the last real state back in its place. */
  predicate UnmarksRow(c: Core, op: Op, p: Package) {
    && p in c.rows && CheckingLike(c.rows[p].display)
    && match op
       case BeginChecking(q, _) => q != p
       case EndFocus(q) => q == p && !c.rows[p].launchDispatched
       case EndRecovery(failed, _, _) => failed && c.active == p && !c.rows[p].launchDispatched
       case _ => false
  }

  /** A package once Dead that is in focus does not show that state. */
  predicate FocusHidesDead(c: Core, p: Package) {
    OnceDead(c, p) && p == c.checking ==> c.rows[p].display != Blank && c.rows[p].display != Shown(Dead)
  }

  lemma RowBecomesOnceDead(row: Row, r: RowOp)
    requires Honest(row)
    ensures RowStep(row, r).committed == Unset && RowStep(row, r).lastReal == Dead ==>
              row.committed == Unset && row.lastReal == Dead
              && (RowStep(row, r).display == row.display || RowStep(row, r).display in {Launching, Waiting})
  {
  }

  lemma SettledIsWaiting(row: Row, failed: bool, reason: Reason)
    requires Honest(row)
    ensures var now := Unfocused(Settled(row, failed, reason));
            now.committed == Unset && now.lastReal == Dead ==>
              if !failed then now.display == Waiting
              else row.committed == Unset && row.lastReal == Dead
                   && now.display == (if !CheckingLike(row.display) then row.display
                                      else if row.launchDispatched then Waiting else Shown(Dead))
  {
  }

  predicate OnceDeadIs(row: Row) { row.committed == Unset && row.lastReal == Dead }

  /** What a step that leaves a row once Dead made of it. */
  predicate OnceDeadBy(c: Core, op: Op, p: Package, now: Row) {
    || (op.EndRecovery? && !op.failed && c.active == p && now.display == Waiting)
    || (OnceDead(c, p)
        && if UnmarksRow(c, op, p) then now.display == Shown(Dead)
           else now.display == c.rows[p].display || now.display in {Launching, Waiting, Checking})
  }

  lemma OnceDeadRowAfter(c: Core, op: Op, p: Package)
    requires p != Nobody && p in c.rows && Honest(c.rows[p]) && OnceDeadIs(RowAfter(c, op, p))
    ensures OnceDeadBy(c, op, p, RowAfter(c, op, p))
  {
    var row := c.rows[p];
    match op {
      case OnRow(_, r) => RowBecomesOnceDead(row, r);
      case EndRecovery(failed, reason, _) => SettledIsWaiting(row, failed, reason);
      case _ =>
    }
  }

  lemma FreshRowIsNotOnceDead(c: Core, op: Op, p: Package)
    requires p !in c.rows
    ensures !OnceDeadIs(RowAfter(c, op, p))
  {
    match op {
      case OnRow(_, r) => RowBecomesOnceDead(FreshRow, r);
      case EndRecovery(failed, reason, _) => SettlingStaysHonest(FreshRow, failed, reason);
      case _ =>
    }
  }

  lemma OnceDeadRow(c: Core, op: Op, p: Package)
    requires p != Nobody && Honest(RowOf(c, p)) && OnceDead(Step(c, op), p)
    ensures OnceDeadBy(c, op, p, Step(c, op).rows[p])
  {
    StepOnRow(c, op, p);
    if p in c.rows { OnceDeadRowAfter(c, op, p); } else { FreshRowIsNotOnceDead(c, op, p); }
  }

  lemma FocusHidesDeadStep(c: Core, op: Op, p: Package)
    requires p != Nobody && Honest(RowOf(c, p)) && FocusHidesDead(c, p)
    ensures FocusHidesDead(Step(c, op), p)
  {
    if OnceDead(Step(c, op), p) && p == Step(c, op).checking {
      OnceDeadRow(c, op, p);
      StepOnFocus(c, op);
      StepOnRow(c, op, p);
    }
  }

  lemma {:induction false} FocusHidesDeadOverRun(ops: seq<Op>, p: Package)
    requires p != Nobody
    ensures FocusHidesDead(Run(InitCore, ops), p)
  {
    if ops != [] {
      var c := Run(InitCore, ops[..|ops| - 1]);
      FocusHidesDeadOverRun(ops[..|ops| - 1], p);
      RunStaysHonest(ops[..|ops| - 1], p);
      FocusHidesDeadStep(c, ops[|ops| - 1], p);
    }
  }

  /** After any run, a package becomes stale Dead exactly by a step that unmarks its row: another package takes the
      focus, its own focus ends, or its own recovery ends as failed, the last two with no launch dispatched. */
  lemma BecomesStaleExactly(ops: seq<Op>, op: Op, p: Package)
    requires p != Nobody && !StaleDead(Run(InitCore, ops), p)
    ensures var c := Run(InitCore, ops);
            StaleDead(Step(c, op), p) <==> OnceDead(c, p) && UnmarksRow(c, op, p)
  {
    var c := Run(InitCore, ops);
    RunStaysHonest(ops, p);
    FocusHidesDeadOverRun(ops, p);
    StaleStep(c, op, p);
  }

  lemma StaleStep(c: Core, op: Op, p: Package)
    requires p != Nobody && !StaleDead(c, p) && Honest(RowOf(c, p)) && FocusHidesDead(c, p)
    ensures StaleDead(Step(c, op), p) <==> OnceDead(c, p) && UnmarksRow(c, op, p)
  {
    if StaleDead(Step(c, op), p) {
      StaleComesOfUnmarking(c, op, p);
    }
    if OnceDead(c, p) && UnmarksRow(c, op, p) {
      UnmarkingStales(c, op, p);
    }
  }

  lemma UnmarkedRow(c: Core, op: Op, p: Package)
    requires p != Nobody && OnceDead(c, p) && UnmarksRow(c, op, p)
    ensures OnceDeadIs(RowAfter(c, op, p)) && RowAfter(c, op, p).display in {Blank, Shown(Dead)}
    ensures FocusAfter(c, op) != p
  {
  }

  lemma UnmarkingStales(c: Core, op: Op, p: Package)
    requires p != Nobody && OnceDead(c, p) && UnmarksRow(c, op, p)
    ensures StaleDead(Step(c, op), p)
  {
    UnmarkedRow(c, op, p);
    StepOnFocus(c, op);
    StepOnRow(c, op, p);
  }

  lemma StaleComesOfUnmarking(c: Core, op: Op, p: Package)
    requires p != Nobody && !StaleDead(c, p) && Honest(RowOf(c, p)) && FocusHidesDead(c, p)
    requires StaleDead(Step(c, op), p)
    ensures OnceDead(c, p) && UnmarksRow(c, op, p)
  {
    OnceDeadRow(c, op, p);
  }
}
