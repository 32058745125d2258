/** The recovery queue as a fair queue: who enters, who leaves, in which order. */
module RecoveryQueue {
  import opened PointerModel
  import opened QueueLemmas
  import opened PointerInvariants

  // ---------------------------------------------------------------- adopting the Dead

  /** Somebody looks after the package: it waits, it is being recovered, or it was given up. */
  predicate Attended(c: Core, p: Package) {
    p in c.queue || (c.inProgress && c.active == p) || p in c.unrecoverable
  }

  /** From any rows at all, `sync` leaves no Dead package behind; doing it again changes nothing. */
  lemma SyncAdoptsEveryDead(c: Core)
    requires OrderMatches(c)
    ensures var d := SyncCore(c);
            && c.queue <= d.queue && d.rows == c.rows && d.orphans == []
            && (forall p :: CommittedDead(d, p) ==> Attended(d, p))
            && SyncCore(d) == d
  {
    var c1 := c.(queue := c.queue + UnattendedIn(c, c.order));
    var d := SyncCore(c);
    UnattendedInIs(c, c.order);
    NobodyUnattended(c1, c.order);
    NobodyUnattended(d, c.order);
    assert d.queue + [] == d.queue;
  }

  /** Those it adopts line up behind the queue in the order of the rows, each once. */
  lemma SyncAdoptsInOrder(c: Core) returns (newcomers: seq<Package>)
    requires OrderMatches(c)
    ensures SyncCore(c).queue == c.queue + newcomers
    ensures Subsequence(newcomers, c.order) && NoDup(newcomers)
    ensures forall p :: p in newcomers <==> CommittedDead(c, p) && !Attended(c, p)
  {
    newcomers := UnattendedIn(c, c.order);
    UnattendedInIs(c, c.order);
    UnattendedInOrder(c, c.order);
  }

  /** Self-heal stamps every recoverable Dead package without a request, and queues those of them that are neither
      waiting nor active; it answers them, in the order of the rows. */
  lemma HealsInOrder(c: Core) returns (newcomers: seq<Package>)
    requires OrderMatches(c)
    ensures var (d, healed) := HealCore(c);
            && d.queue == c.queue + newcomers
            && Subsequence(newcomers, c.order) && NoDup(newcomers) && Subsequence(healed, c.order) && NoDup(healed)
            && (forall p :: p in healed <==>
                  CommittedDead(c, p) && p !in c.unrecoverable && !c.rows[p].recoveryRequested)
            && (forall p :: p in newcomers <==> p in healed && p !in c.queue && c.active != p)
            && (forall p :: p in healed ==> d.rows[p].recoveryRequested)
  {
    newcomers := UnqueuedIn(c, c.order);
    UnqueuedInIs(c, c.order);
    UnrequestedInIs(c, c.order);
    UnqueuedInOrder(c, c.order);
    UnrequestedInOrder(c, c.order);
  }

  /** Self-heal after `sync` only stamps: the queue is already complete. */
  lemma HealAfterSyncOnlyStamps(c: Core)
    requires OrderMatches(c)
    ensures var d := HealCore(SyncCore(c)).0;
            && d.queue == SyncCore(c).queue
            && (forall p :: RecoverableDead(d, p) ==> d.rows[p].recoveryRequested)
            && (forall p :: CommittedDead(d, p) ==> Attended(d, p))
            && d.orphans == []
  {
    SyncAdoptsEveryDead(c);
    var s := SyncCore(c);
    UnqueuedInIs(s, s.order);
    forall p ensures p !in UnqueuedIn(s, s.order) {
      assert CommittedDead(s, p) ==> Attended(s, p);
    }
    NoMembers(UnqueuedIn(s, s.order));
    assert s.queue + [] == s.queue;
    HealKeepsOthers(s);
    var stamped := s.(rows := HealCore(s).0.rows);
    forall p | p in s.order ensures !Unattended(stamped, p) {
      if Unattended(stamped, p) { assert CommittedDead(s, p); }
    }
    NobodyUnattended(stamped, s.order);
  }

  /** Self-heal stamps rows and touches nothing of who is attended. */
  lemma HealKeepsOthers(c: Core)
    ensures var d := HealCore(c).0;
            && d == c.(rows := d.rows, queue := d.queue, orphans := d.orphans)
            && d.rows.Keys == c.rows.Keys
            && (forall p :: p in c.rows ==> d.rows[p].committed == c.rows[p].committed)
            && (forall p :: RecoverableDead(c, p) ==> d.rows[p].recoveryRequested)
  {
  }

  // ---------------------------------------------------------------- order

  /** The place of `p` in the queue, counted from the front. */
  function Place(q: seq<Package>, p: Package): (k: nat)
    requires p in q
    ensures k < |q| && q[k] == p && p !in q[..k]
  {
    if q[0] == p then 0
    else
      var k := Place(q[1..], p) + 1;
      assert q[..k] == [q[0]] + q[1..][..k - 1];
      k
  }

  lemma PlaceIs(q: seq<Package>, p: Package, k: nat)
    requires k < |q| && q[k] == p && p !in q[..k]
    ensures Place(q, p) == k
  {
    var j := Place(q, p);
    PrefixHas(q);
  }

  function Joined(c: Core, p: Package): seq<Package> {
    if p == Nobody || p in c.unrecoverable || p in c.queue || c.active == p then c.queue else c.queue + [p]
  }

  /** What one step makes of the queue. */
  function QueueAfter(c: Core, op: Op): seq<Package> {
    match op
    case NewStart => []
    case DeadDetected(p) => Joined(c, p)
    case Enqueue(p) => Joined(c, p)
    case Dequeue => if c.queue == [] then [] else c.queue[1..]
    case MarkUnrecoverable(p) => if p == Nobody then c.queue else Without(c.queue, p)
    case Sync => c.queue + UnattendedIn(c, c.order)
    case SelfHeal => c.queue + UnqueuedIn(c, c.order)
    case EndRecovery(failed, _, _) => if failed || c.active == Nobody then c.queue else Without(c.queue, c.active)
    case _ => c.queue
  }

  lemma JoinedIs(c: Core, p: Package)
    ensures EnqueueCore(c, p).queue == Joined(c, p)
  {
  }

  lemma DeadJoins(c: Core, p: Package)
    ensures DeadDetectedCore(c, p).queue == Joined(c, p)
  {
    JoinedIs(RowCore(c, p, Committed(Dead)), p);
  }

  /** Under the queue invariant the dequeue loop never has to skip anybody. */
  lemma DequeueTakesFirst(c: Core)
    requires QueueOk(c)
    ensures DequeueCore(c).0 == c.(queue := if c.queue == [] then [] else c.queue[1..])
    ensures DequeueCore(c).1 == if c.queue == [] then Nobody else c.queue[0]
  {
    SkipIs(c.queue, c.unrecoverable);
  }

  lemma QuietQueue(c: Core, op: Op)
    requires QueueUntouched(op)
    ensures Step(c, op).queue == c.queue
  {
    match op {
      case Prepare(ps, _) => EnsureAllIs(c, ps);
      case _ =>
    }
  }

  lemma QueueAfterRecovery(c: Core, failed: bool, reason: Reason, resume: bool)
    ensures EndRecoveryCore(c, failed, reason, resume).queue
            == if failed || c.active == Nobody then c.queue else Without(c.queue, c.active)
  {
  }

  lemma JoiningStepOnQueue(c: Core, op: Op)
    requires op.DeadDetected? || op.Enqueue?
    ensures Step(c, op).queue == Joined(c, op.p)
  {
    if op.DeadDetected? { DeadJoins(c, op.p); } else { JoinedIs(c, op.p); }
  }

  lemma PackageStepOnQueue(c: Core, op: Op)
    requires AboutOnePackage(op)
    ensures Step(c, op).queue == QueueAfter(c, op)
  {
    if op.DeadDetected? || op.Enqueue? { JoiningStepOnQueue(c, op); }
  }

  lemma WholeStepOnQueue(c: Core, op: Op)
    requires WellFormed(c) && AboutRecovery(op) && !AboutOnePackage(op)
    ensures Step(c, op).queue == QueueAfter(c, op)
  {
    match op {
      case Dequeue => DequeueTakesFirst(c);
      case Sync =>
      case SelfHeal => HealIs(c);
      case EndRecovery(failed, reason, resume) => QueueAfterRecovery(c, failed, reason, resume);
    }
  }

  lemma RecoveryStepOnQueue(c: Core, op: Op)
    requires WellFormed(c) && AboutRecovery(op)
    ensures Step(c, op).queue == QueueAfter(c, op)
  {
    if AboutOnePackage(op) { PackageStepOnQueue(c, op); } else { WholeStepOnQueue(c, op); }
  }

  lemma FrontStepOnQueue(c: Core, op: Op)
    requires !AboutRecovery(op)
    ensures Step(c, op).queue == QueueAfter(c, op)
  {
    if !op.NewStart? { QuietQueue(c, op); }
  }

  lemma StepOnQueue(c: Core, op: Op)
    requires WellFormed(c)
    ensures Step(c, op).queue == QueueAfter(c, op)
  {
    if AboutRecovery(op) { RecoveryStepOnQueue(c, op); } else { FrontStepOnQueue(c, op); }
  }

  /** The only ways out of the queue. */
  predicate TakesOut(c: Core, op: Op, p: Package) {
    match op
    case NewStart => true
    case Dequeue => DequeueCore(c).1 == p
    case MarkUnrecoverable(q) => q == p && p != Nobody
    case EndRecovery(failed, _, _) => !failed && c.active == p && p != Nobody
    case _ => false
  }

  lemma DequeueTakesOne(c: Core, p: Package)
    requires QueueOk(c) && p in c.queue
    ensures p !in c.queue[1..] <==> DequeueCore(c).1 == p
  {
    DequeueTakesFirst(c);
    NoDupMeans(c.queue);
    assert c.queue == [c.queue[0]] + c.queue[1..];
  }

  lemma LeavesExactlyWhenTaken(c: Core, op: Op, p: Package)
    requires WellFormed(c) && p in c.queue
    ensures p !in Step(c, op).queue <==> TakesOut(c, op, p)
  {
    StepOnQueue(c, op);
    match op {
      case Dequeue => DequeueTakesOne(c, p);
      case MarkUnrecoverable(q) => WithoutIs(c.queue, q);
      case EndRecovery(_, _, _) => WithoutIs(c.queue, c.active);
      case _ =>
    }
  }

  lemma PlaceInAppend(q: seq<Package>, t: seq<Package>, p: Package)
    requires p in q
    ensures Place(q + t, p) == Place(q, p)
  {
    var k := Place(q, p);
    assert (q + t)[..k] == q[..k];
    PlaceIs(q + t, p, k);
  }

  lemma PlaceOfNewcomer(q: seq<Package>, t: seq<Package>, p: Package)
    requires p !in q && p in t
    ensures Place(q + t, p) >= |q|
  {
    var k := Place(q + t, p);
    assert forall i :: 0 <= i < |q| ==> (q + t)[i] == q[i];
  }

  lemma CutEntries(q: seq<Package>, k: nat)
    requires k < |q|
    ensures var r := q[..k] + q[k + 1..];
            |r| == |q| - 1 && forall n :: 0 <= n < |r| ==> r[n] == if n < k then q[n] else q[n + 1]
  {
  }

  /** The place of `p` once the entry at place k is cut out. */
  lemma PlaceAfterCut(q: seq<Package>, k: nat, p: Package)
    requires NoDup(q) && k < |q| && p in q && q[k] != p
    ensures var r := q[..k] + q[k + 1..];
            p in r && Place(r, p) == Place(q, p) - (if k < Place(q, p) then 1 else 0)
  {
    var r, i := q[..k] + q[k + 1..], Place(q, p);
    var j := if k < i then i - 1 else i;
    NoDupMeans(q);
    CutEntries(q, k);
    assert r[j] == p;
    forall n | 0 <= n < j ensures r[n] != p { }
    PlaceIs(r, p, j);
  }

  lemma PlaceAfterTaking(q: seq<Package>, x: Package, p: Package)
    requires NoDup(q) && x != p && p in q && x in q
    ensures p in Without(q, x)
    ensures Place(Without(q, x), p) == Place(q, p) - (if Place(q, x) < Place(q, p) then 1 else 0)
  {
    var k := Place(q, x);
    WithoutCloses(q, x, k);
    PlaceAfterCut(q, k, p);
  }

  /** Where `p` stands after `x` left: everyone behind `x` moves up by one, nobody else moves. */
  lemma PlaceAfterLeaving(q: seq<Package>, x: Package, p: Package)
    requires NoDup(q) && x != p && p in q
    ensures p in Without(q, x)
    ensures Place(Without(q, x), p) == Place(q, p) - (if x in q && Place(q, x) < Place(q, p) then 1 else 0)
  {
    if x in q { PlaceAfterTaking(q, x, p); } else { WithoutAbsent(q, x); }
  }

  /** The order of two packages in the queue before and after. */
  ghost predicate OrderKept(was: seq<Package>, now: seq<Package>, p: Package, q: Package)
    requires p in was && p in now && q in now
  {
    && Place(now, p) <= Place(was, p)
    && (q in was && Place(was, p) < Place(was, q) ==> Place(now, p) < Place(now, q))
    && (q !in was ==> Place(now, p) < Place(now, q))
  }

  /** Steps after which the queue is the old one, or the old one with newcomers behind it. */
  predicate OnlyAppends(op: Op) {
    !op.NewStart? && !op.Dequeue? && !op.MarkUnrecoverable? && !op.EndRecovery?
  }

  lemma AppendsBehind(c: Core, op: Op)
    requires WellFormed(c) && OnlyAppends(op)
    ensures c.queue <= Step(c, op).queue
  {
    StepOnQueue(c, op);
  }

  lemma AppendingKeepsOrder(was: seq<Package>, now: seq<Package>, p: Package, q: Package)
    requires was <= now && p in was && q in now
    ensures OrderKept(was, now, p, q)
  {
    Appended(was, now[|was|..], now, p, q);
  }

  /** No step lets one waiting package overtake another, and newcomers line up behind. */
  lemma NoOvertaking(c: Core, op: Op, p: Package, q: Package)
    requires WellFormed(c) && p in c.queue && p in Step(c, op).queue && q in Step(c, op).queue
    ensures var d := Step(c, op);
            OrderKept(c.queue, d.queue, p, q) && (op == Dequeue ==> Place(d.queue, p) < Place(c.queue, p))
  {
    if OnlyAppends(op) {
      AppendsBehind(c, op);
      AppendingKeepsOrder(c.queue, Step(c, op).queue, p, q);
    } else {
      StepOnQueue(c, op);
      match op {
        case Dequeue => Popped(c.queue, p, q);
        case MarkUnrecoverable(x) => if x != Nobody { Removed(c.queue, x, p, q); }
        case EndRecovery(failed, _, _) => if !failed && c.active != Nobody { Removed(c.queue, c.active, p, q); }
        case _ =>
      }
    }
  }

  lemma Appended(was: seq<Package>, t: seq<Package>, now: seq<Package>, p: Package, q: Package)
    requires now == was + t && p in was && q in now
    ensures Place(now, p) == Place(was, p)
    ensures q in was ==> Place(now, q) == Place(was, q)
    ensures q !in was ==> Place(now, p) < Place(now, q)
  {
    PlaceInAppend(was, t, p);
    if q in was { PlaceInAppend(was, t, q); } else { PlaceOfNewcomer(was, t, q); }
  }

  lemma Popped(queue: seq<Package>, p: Package, q: Package)
    requires NoDup(queue) && queue != [] && p in queue[1..] && q in queue[1..]
    ensures p in queue && q in queue && Place(queue[1..], p) == Place(queue, p) - 1
    ensures Place(queue[1..], q) == Place(queue, q) - 1
  {
    NoDupMeans(queue);
  }

  lemma Removed(queue: seq<Package>, x: Package, p: Package, q: Package)
    requires NoDup(queue) && p in Without(queue, x) && q in Without(queue, x)
    ensures p in queue && q in queue && p != x && q != x
    ensures Place(Without(queue, x), p) <= Place(queue, p)
    ensures Place(queue, p) < Place(queue, q) ==> Place(Without(queue, x), p) < Place(Without(queue, x), q)
  {
    WithoutIs(queue, x);
    PlaceAfterLeaving(queue, x, p);
    PlaceAfterLeaving(queue, x, q);
  }

  // ---------------------------------------------------------------- served in turn

  function Dequeues(ops: seq<Op>): nat {
    if ops == [] then 0
    else Dequeues(ops[..|ops| - 1]) + (if ops[|ops| - 1] == Dequeue then 1 else 0)
  }

  /** Every dequeue that passes a waiting package moves it one place forward. */
  lemma {:induction false} WaitingMovesForward(c: Core, ops: seq<Op>, p: Package)
    requires WellFormed(c)
    requires forall i :: 0 <= i <= |ops| ==> p in Run(c, ops[..i]).queue
    ensures p in c.queue && p in Run(c, ops).queue
    ensures Place(Run(c, ops).queue, p) + Dequeues(ops) <= Place(c.queue, p)
  {
    assert ops[..|ops|] == ops;
    if ops != [] {
      var init := ops[..|ops| - 1];
      forall i | 0 <= i <= |init| ensures p in Run(c, init[..i]).queue {
        assert init[..i] == ops[..i];
      }
      WaitingMovesForward(c, init, p);
      RunKeepsWellFormed(c, init);
      NoOvertaking(Run(c, init), ops[|ops| - 1], p, p);
    }
  }

  /** A package at place k is handed out by the (k+1)-th dequeue at the latest, unless it is given up,
      its own recovery succeeds, or a new Start forgets the queue. */
  lemma {:induction false} ServedInTurn(c: Core, ops: seq<Op>, p: Package)
    requires WellFormed(c) && p in c.queue && Dequeues(ops) > Place(c.queue, p)
    ensures exists i :: 0 <= i < |ops| && TakesOut(Run(c, ops[..i]), ops[i], p)
  {
    if forall i :: 0 <= i < |ops| ==> !TakesOut(Run(c, ops[..i]), ops[i], p) {
      forall i | 0 <= i <= |ops| ensures p in Run(c, ops[..i]).queue {
        StaysUntilTaken(c, ops, p, i);
      }
      WaitingMovesForward(c, ops, p);
    }
  }

  lemma {:induction false} StaysUntilTaken(c: Core, ops: seq<Op>, p: Package, n: nat)
    requires WellFormed(c) && p in c.queue && n <= |ops|
    requires forall i :: 0 <= i < n ==> !TakesOut(Run(c, ops[..i]), ops[i], p)
    ensures p in Run(c, ops[..n]).queue
  {
    if n > 0 {
      StaysUntilTaken(c, ops, p, n - 1);
      RunKeepsWellFormed(c, ops[..n - 1]);
      LeavesExactlyWhenTaken(Run(c, ops[..n - 1]), ops[n - 1], p);
      assert ops[..n][..n - 1] == ops[..n - 1];
    }
  }

  // ---------------------------------------------------------------- the active package

  /** The package being recovered is not also waiting in the queue. */
  predicate ActiveNotQueued(c: Core) { c.active != Nobody ==> c.active !in c.queue }

  /** The package being recovered after one step. */
  function ActiveAfter(c: Core, op: Op): Package {
    match op
    case Reset => Nobody
    case NewStart => Nobody
    case BeginRecovery(p) => p
    case EndRecovery(_, _, _) => Nobody
    case _ => c.active
  }

  lemma StepOnActive(c: Core, op: Op)
    ensures Step(c, op).active == ActiveAfter(c, op)
  {
    match op {
      case Prepare(ps, _) => EnsureAllIs(c, ps);
      case _ =>
    }
  }

  /** The package being recovered after some steps. */
  function ActiveIn(active: Package, ops: seq<Op>): Package {
    if ops == [] then active
    else
      match ops[|ops| - 1]
      case Reset => Nobody
      case NewStart => Nobody
      case BeginRecovery(p) => p
      case EndRecovery(_, _, _) => Nobody
      case _ => ActiveIn(active, ops[..|ops| - 1])
  }

  lemma {:induction false} RunOnActiveIs(c: Core, ops: seq<Op>)
    ensures Run(c, ops).active == ActiveIn(c.active, ops)
  {
    if ops != [] {
      RunOnActiveIs(c, ops[..|ops| - 1]);
      StepOnActive(Run(c, ops[..|ops| - 1]), ops[|ops| - 1]);
    }
  }

  /** Only beginning a recovery of a package that still waits in the queue can break it. */
  lemma ActiveQueuedOnlyByBegin(c: Core, op: Op)
    requires WellFormed(c) && BusyMatchesActive(c) && ActiveNotQueued(c)
    ensures ActiveNotQueued(Step(c, op))
            <==> !(op.BeginRecovery? && op.p != Nobody && op.p in c.queue)
  {
    StepOnQueue(c, op);
    StepOnActive(c, op);
    match op {
      case MarkUnrecoverable(p) => WithoutIs(c.queue, p);
      case Sync => UnattendedInIs(c, c.order);
      case SelfHeal => UnqueuedInIs(c, c.order);
      case _ =>
    }
  }

  /** Dequeue then begin, the order the checking system uses, therefore never breaks it. */
  lemma DequeuedThenBegun(c: Core)
    requires WellFormed(c) && BusyMatchesActive(c) && !c.inProgress
    ensures var (d, p) := DequeueCore(c); p != Nobody ==> ActiveNotQueued(Step(d, BeginRecovery(p)))
  {
    SkipIs(c.queue, c.unrecoverable);
    NoDupMeans(c.queue);
  }

  // ---------------------------------------------------------------- session

  /** All the above, over a whole session: any interleaving of the methods in which recoveries begin
      only for packages that are named and not waiting. */
  lemma {:induction false} SessionInvariant(ops: seq<Op>)
    requires forall i :: 0 <= i < |ops| && ops[i].BeginRecovery? ==>
               ops[i].p != Nobody && ops[i].p !in Run(InitCore, ops[..i]).queue
    ensures var c := Run(InitCore, ops);
            WellFormed(c) && BusyMatchesActive(c) && ActiveNotQueued(c)
  {
    if ops != [] {
      var init := ops[..|ops| - 1];
      forall i | 0 <= i < |init| && init[i].BeginRecovery?
        ensures init[i].p != Nobody && init[i].p !in Run(InitCore, init[..i]).queue
      {
        assert init[..i] == ops[..i];
      }
      SessionInvariant(init);
      var c, op := Run(InitCore, init), ops[|ops| - 1];
      StepKeepsWellFormed(c, op);
      BusyBreaksOnlyOnEmptyName(c, op);
      ActiveQueuedOnlyByBegin(c, op);
    }
  }
}
