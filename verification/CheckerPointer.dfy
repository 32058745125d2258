/** The lock-guarded object itself: `CheckerPointerState` of agent/checker_pointer.py.

    Every method is one atomic step.  Its contract equates the new state with the step of
    `PointerModel` it is an implementation of; the loops over the rows are proved against the
    declarative definitions there. */
module CheckerPointer {
  import opened Common
  import opened PointerModel
  import opened QueueLemmas

  /** The rows part way through handing the focus to `p`. */
  ghost function FocusRowsAmong(rows: map<Package, Row>, p: Package, done: seq<Package>): map<Package, Row> {
    map q | q in rows :: if q != p && q in done then Passed(rows[q]) else rows[q]
  }

  /** The rows part way through stamping missing recovery requests. */
  ghost function StampedAmong(c: Core, done: seq<Package>): map<Package, Row> {
    map q | q in c.rows ::
      if q in done && Unrequested(c, q) then c.rows[q].(recoveryRequested := true) else c.rows[q]
  }

  lemma FocusRowsGrow(rows: map<Package, Row>, p: Package, done: seq<Package>, q: Package)
    requires q in rows && q !in done
    ensures var among := FocusRowsAmong(rows, p, done);
            && among[q] == rows[q]
            && FocusRowsAmong(rows, p, done + [q])
               == if q != p && CheckingLike(rows[q].display) then among[q := Passed(rows[q])] else among
  {
    assert q != p && !CheckingLike(rows[q].display) ==> Passed(rows[q]) == rows[q];
  }

  lemma FocusRowsDone(rows: map<Package, Row>, p: Package, order: seq<Package>)
    ensures FocusRowsAmong(rows, p, []) == rows
    ensures (forall q :: q in rows ==> q in order) ==> FocusRowsAmong(rows, p, order) == FocusRows(rows, p)
  {
  }

  lemma StampsGrow(c: Core, done: seq<Package>, q: Package)
    requires q in c.rows && q !in done
    ensures StampedAmong(c, done)[q] == c.rows[q]
    ensures StampedAmong(c, done + [q])
            == if Unrequested(c, q) then StampedAmong(c, done)[q := c.rows[q].(recoveryRequested := true)]
               else StampedAmong(c, done)
  {
  }

  /** The queue part way through self-heal. */
  ghost function QueueAmong(c: Core, done: seq<Package>): seq<Package> {
    c.queue + UnqueuedIn(c, done)
  }

  lemma UnqueuedGrows(c: Core, done: seq<Package>, q: Package)
    requires q !in done
    ensures UnrequestedIn(c, done + [q])
            == if Unrequested(c, q) then UnrequestedIn(c, done) + [q] else UnrequestedIn(c, done)
    ensures QueueAmong(c, done + [q])
            == if Unrequested(c, q) && !(q in QueueAmong(c, done) || c.active == q) then QueueAmong(c, done) + [q]
               else QueueAmong(c, done)
  {
    assert (done + [q])[..|done|] == done;
    UnqueuedInIs(c, done);
  }

  lemma StampsBegin(c: Core)
    ensures StampedAmong(c, []) == c.rows && QueueAmong(c, []) == c.queue
  {
  }

  lemma StampsDone(c: Core)
    requires OrderMatches(c)
    ensures StampedAmong(c, c.order) == HealCore(c).0.rows
  {
  }

  lemma NextIsNew(order: seq<Package>, i: nat)
    requires NoDup(order) && i < |order|
    ensures order[i] !in order[..i] && order[..i + 1] == order[..i] + [order[i]] && order[..i + 1][..i] == order[..i]
  {
    NoDupMeans(order);
  }

  class CheckerPointer {
    var order: seq<Package>
    var rows: map<Package, Row>
    var recoveryQueue: seq<Package>
    var unrecoverable: set<Package>
    var deadWithoutQueue: seq<Package>
    var recoveryInProgress: bool
    var activeRecovery: Package
    var recoveryStage: Stage
    var recoveryLastError: Reason
    var pauseChecking: bool
    var activeFocus: Package
    var checkingActive: Package
    var lastLaunch: Launch
    var mode: Mode
    var text: Text
    var headerCaption: Text
    var headerSource: Source
    var elapsed: real
    var deadline: real
    var lastHistoryText: Text
    var history: seq<Text>
    ghost var seen: seq<Text>

    function CoreNow(): Core
      reads this`order, this`rows, this`recoveryQueue, this`unrecoverable, this`deadWithoutQueue,
            this`recoveryInProgress, this`activeRecovery, this`recoveryStage, this`recoveryLastError,
            this`pauseChecking, this`activeFocus, this`checkingActive, this`lastLaunch
    {
      Core(order, rows, recoveryQueue, unrecoverable, deadWithoutQueue, recoveryInProgress, activeRecovery,
           recoveryStage, recoveryLastError, pauseChecking, activeFocus, checkingActive, lastLaunch)
    }

    function HeaderNow(): Header
      reads this`mode, this`text, this`headerCaption, this`headerSource, this`elapsed, this`deadline
    {
      Header(mode, text, headerCaption, headerSource, elapsed, deadline)
    }

    ghost function Now(): State
      reads this
    {
      State(CoreNow(), HeaderNow(), Log(lastHistoryText, history, seen))
    }

    /** The dictionary of rows: the iteration order lists every row once. */
    ghost predicate Valid()
      reads this`order, this`rows
    {
      NoDup(order) && forall p :: p in order <==> p in rows
    }

    constructor ()
      ensures Now() == InitState && Valid()
    {
      order, rows, recoveryQueue, unrecoverable, deadWithoutQueue := [], map[], [], {}, [];
      recoveryInProgress, activeRecovery, recoveryStage, recoveryLastError := false, Nobody, NoStage, NoReason;
      pauseChecking, activeFocus, checkingActive, lastLaunch := false, Nobody, Nobody, NoLaunch;
      mode, text, headerCaption, headerSource, elapsed, deadline := Idle, NoText, NoText, NoSource, 0.0, 7.0;
      lastHistoryText, history, seen := NoText, [], [];
    }

    // -------------------------------------------------------------- internal helpers

    method PutRow(p: Package, row: Row)
      requires Valid()
      modifies this`order, this`rows
      ensures Valid() && CoreNow() == Put(old(CoreNow()), p, row)
    {
      NoDupSnoc(order, p);
      if p !in rows { order := order + [p]; }
      rows := rows[p := row];
    }

    method Save()
      modifies this`lastHistoryText, this`history, this`seen
      ensures Now() == Persist(old(Now()))
    {
      seen := seen + [text];
      if text != NoText && text != lastHistoryText {
        lastHistoryText := text;
        history := history + [text];
        if |history| > HISTORY_LIMIT { history := history[|history| - HISTORY_LIMIT..]; }
      }
    }

    method RecomputeOrphans()
      requires Valid()
      modifies this`deadWithoutQueue
      ensures Valid() && Now() == WithCore(old(Now()), Recompute(old(CoreNow())))
    {
      var missing := [];
      var i := 0;
      while i < |order|
        invariant i <= |order| && missing == UnattendedIn(CoreNow(), order[..i])
      {
        var p := order[i];
        assert order[..i + 1][..i] == order[..i];
        var row := rows[p];
        if row.committed == Dead && p !in unrecoverable
           && !(recoveryInProgress && activeRecovery == p) && p !in recoveryQueue {
          missing := missing + [p];
        }
        i := i + 1;
      }
      assert order[..i] == order;
      deadWithoutQueue := missing;
    }

    method RecomputeAndSave()
      requires Valid()
      modifies this`deadWithoutQueue, this`lastHistoryText, this`history, this`seen
      ensures Valid() && Now() == Persist(WithCore(old(Now()), Recompute(old(CoreNow()))))
    {
      RecomputeOrphans();
      Save();
    }

    method CountUnrecovered() returns (count: nat)
      requires Valid()
      ensures count == Unrecovered(CoreNow())
    {
      count := 0;
      var i := 0;
      while i < |order|
        invariant i <= |order| && count == UnrecoveredIn(CoreNow(), order[..i])
      {
        var p := order[i];
        assert order[..i + 1][..i] == order[..i];
        var row := rows[p];
        if row.committed == Dead && p !in unrecoverable
           && !(row.recoveryFinished && row.recoveryError == NoReason) {
          count := count + 1;
        }
        i := i + 1;
      }
      assert order[..i] == order;
    }

    method RefreshHeader()
      requires Valid()
      modifies this`mode, this`text, this`headerCaption, this`headerSource
      ensures Valid() && Now() == Refresh(old(Now()))
    {
      if recoveryInProgress && activeRecovery != Nobody {
        var caption := if recoveryStage == Start then StartRecoveryText else RecoveryText(activeRecovery, recoveryStage);
        WriteAction(caption, RecoveryInProgress, caption, mode);
        return;
      }
      var unrecovered := CountUnrecovered();
      if recoveryQueue != [] || deadWithoutQueue != [] || unrecovered > 0 {
        if recoveryQueue != [] || deadWithoutQueue != [] {
          WriteAction(StartRecoveryText, RecoveryPending, StartRecoveryText, DeadDetectedMode);
        } else {
          WriteAction(DeadText, UnrecoveredDead, DeadText, DeadDetectedMode);
        }
        return;
      }
      if pauseChecking {
        WriteAction(ResumeText, PausedNoDead, ResumeText, ResumeCheckingMode);
        return;
      }
      if mode == CheckingMode || checkingActive != Nobody {
        if checkingActive != Nobody {
          var caption := if text.Timer? then text else TimerText(elapsed, deadline);
          WriteAction(caption, CheckingActive, caption, mode);
          return;
        }
        WriteAction(NoText, CheckingIdle, text, mode);
        return;
      }
      WriteAction(if text == Static then NoText else text, DefaultSource, text, mode);
    }

    method WriteAction(caption: Text, source: Source, newText: Text, newMode: Mode)
      requires Valid()
      modifies this`mode, this`text, this`headerCaption, this`headerSource
      ensures Valid() && HeaderNow() == old(HeaderNow()).(caption := caption, source := source, text := newText, mode := newMode)
    {
      headerCaption, headerSource, text, mode := caption, source, newText, newMode;
    }

    method RefreshAndSave()
      requires Valid()
      modifies this`mode, this`text, this`headerCaption, this`headerSource,
               this`lastHistoryText, this`history, this`seen
      ensures Valid() && Now() == Persist(Refresh(old(Now())))
    {
      RefreshHeader();
      Save();
    }

    /** Every other row gives up its checking marker. */
    method PassFocus(p: Package)
      requires Valid()
      modifies this`rows
      ensures Valid() && rows == FocusRows(old(rows), p)
    {
      FocusRowsDone(rows, p, order);
      var i := 0;
      while i < |order|
        invariant i <= |order|
        invariant rows == FocusRowsAmong(old(rows), p, order[..i])
      {
        var q := order[i];
        NextIsNew(order, i);
        FocusRowsGrow(old(rows), p, order[..i], q);
        if CheckingLike(rows[q].display) && q != p {
          var row := rows[q];
          rows := rows[q := row.(display := Face(if row.committed == Unset then row.lastReal else row.committed))];
        }
        i := i + 1;
      }
      assert order[..i] == order;
    }

    /** Rebuilds the queue without `p`. */
    method DropFromQueue(p: Package)
      modifies this`recoveryQueue
      ensures recoveryQueue == Without(old(recoveryQueue), p)
    {
      var kept := [];
      var i := 0;
      while i < |recoveryQueue|
        invariant i <= |recoveryQueue| && kept == Without(recoveryQueue[..i], p)
      {
        assert recoveryQueue[..i + 1][..i] == recoveryQueue[..i];
        if recoveryQueue[i] != p { kept := kept + [recoveryQueue[i]]; }
        i := i + 1;
      }
      assert recoveryQueue[..i] == recoveryQueue;
      recoveryQueue := kept;
    }

    /** The loop of `sync`: appends while it scans, so it must not queue a package twice. */
    method QueueUnattended()
      requires Valid()
      modifies this`recoveryQueue
      ensures recoveryQueue == old(recoveryQueue) + UnattendedIn(old(CoreNow()), order)
    {
      ghost var before := CoreNow();
      var i := 0;
      while i < |order|
        invariant i <= |order| && recoveryQueue == before.queue + UnattendedIn(before, order[..i])
      {
        var p := order[i];
        NextIsNew(order, i);
        UnattendedInIs(before, order[..i]);
        var row := rows[p];
        if row.committed == Dead && p !in unrecoverable
           && !(recoveryInProgress && activeRecovery == p) && p !in recoveryQueue {
          recoveryQueue := recoveryQueue + [p];
        }
        i := i + 1;
      }
      assert order[..i] == order;
    }

    /** Self-heal has been through the packages `done`. */
    ghost predicate Healing(before: Core, done: seq<Package>, healed: seq<Package>)
      reads this
    {
      && healed == UnrequestedIn(before, done)
      && CoreNow() == before.(rows := StampedAmong(before, done), queue := QueueAmong(before, done))
    }

    /** The loop of `self_heal`: stamps rows and queues packages in the same pass. */
    method StampRequests() returns (healed: seq<Package>)
      requires Valid()
      modifies this`rows, this`recoveryQueue
      ensures Valid() && Healing(old(CoreNow()), order, healed)
    {
      ghost var before := CoreNow();
      StampsBegin(before);
      healed := [];
      ghost var done: seq<Package> := [];
      var i := 0;
      while i < |order|
        invariant i <= |order| && Valid() && done == order[..i] && Healing(before, done, healed)
      {
        NextIsNew(order, i);
        healed := StampRequest(before, done, healed, order[i]);
        done := done + [order[i]];
        i := i + 1;
      }
      assert done == order;
    }

    /** One turn of that loop. */
    method StampRequest(ghost before: Core, ghost done: seq<Package>, healed: seq<Package>, p: Package)
      returns (healed': seq<Package>)
      requires p in before.rows && p !in done && Healing(before, done, healed)
      modifies this`rows, this`recoveryQueue
      ensures Healing(before, done + [p], healed') && rows.Keys == old(rows).Keys
    {
      StampsGrow(before, done, p);
      UnqueuedGrows(before, done, p);
      var row := rows[p];
      healed' := healed;
      if row.committed == Dead && p !in unrecoverable && !row.recoveryRequested {
        rows := rows[p := row.(recoveryRequested := true)];
        healed' := healed + [p];
        if !(p in recoveryQueue || activeRecovery == p) { recoveryQueue := recoveryQueue + [p]; }
      }
    }

    method ShowText(m: Mode, t: Text)
      requires Valid()
      modifies this`mode, this`text
      ensures Valid() && Now() == Show(old(Now()), m, t)
    {
      mode, text := m, t;
    }

    // -------------------------------------------------------------- session

    method Reset()
      requires Valid()
      modifies this
      ensures Valid() && Now() == Show(WithCore(old(Now()), ResetCore(old(CoreNow()))), Idle, NoText)
    {
      ShowText(Idle, NoText);
      activeFocus := Nobody;
      recoveryInProgress, activeRecovery, recoveryStage := false, Nobody, NoStage;
    }

    method ResetForNewStart()
      requires Valid()
      modifies this
      ensures Valid() && Now() == DoNewStart(old(Now()))
    {
      Reset();
      ForgetHeader();
      ForgetRecovery();
      Save();
    }

    method ForgetHeader()
      requires Valid()
      modifies this`lastHistoryText, this`history, this`seen, this`elapsed, this`deadline, this`headerSource,
               this`headerCaption
      ensures Valid() && Now().log == InitLog && CoreNow() == old(CoreNow())
      ensures HeaderNow() == InitHeader.(mode := old(mode), text := old(text))
    {
      ForgetHistory();
      WriteTimer(7.0, 0.0);
      headerSource, headerCaption := NoSource, NoText;
    }

    method ForgetHistory()
      modifies this`lastHistoryText, this`history, this`seen
      ensures Now().log == InitLog
    {
      history, lastHistoryText, seen := [], NoText, [];
    }

    method WriteTimer(limit: real, seconds: real)
      modifies this`elapsed, this`deadline
      ensures deadline == limit && elapsed == seconds
    {
      deadline, elapsed := limit, seconds;
    }

    /** The rows stay: a new start does not know the old packages are gone. */
    method ForgetRecovery()
      requires Valid()
      modifies this`checkingActive, this`recoveryQueue, this`pauseChecking, this`recoveryLastError,
               this`unrecoverable, this`deadWithoutQueue
      ensures Valid() && Now() == WithCore(old(Now()), old(CoreNow()).(checking := Nobody, queue := [], paused := false,
                                           lastError := NoReason, unrecoverable := {}, orphans := []))
    {
      ForgetQueue();
      checkingActive, pauseChecking, recoveryLastError := Nobody, false, NoReason;
    }

    method ForgetQueue()
      modifies this`recoveryQueue, this`unrecoverable, this`deadWithoutQueue
      ensures recoveryQueue == [] && unrecoverable == {} && deadWithoutQueue == []
    {
      recoveryQueue, unrecoverable, deadWithoutQueue := [], {}, [];
    }

    // -------------------------------------------------------------- header

    method SetPointerMode(m: Mode, t: Option<Text>)
      requires Valid()
      modifies this
      ensures Valid() && Now() == DoScreen(old(Now()), SetMode(m, t))
    {
      mode := m;
      if t.Some? { text := t.value; }
      Save();
    }

    method SetPointerText(t: Text)
      requires Valid()
      modifies this
      ensures Valid() && Now() == DoScreen(old(Now()), SetText(t))
    {
      text := t;
      Save();
    }

    /** The mirrors of the Start phase. */
    method PublishText(m: Option<Mode>, t: Text)
      requires Valid()
      modifies this
      ensures Valid() && Now() == DoScreen(old(Now()), Publish(m, t))
    {
      WriteAction(t, StartSource, t, if m.Some? then m.value else mode);
      Save();
    }

    method StartMonitoringPhase()
      requires Valid()
      modifies this
      ensures Valid() && Now() == DoScreen(old(Now()), StartMonitoring)
    {
      mode := CheckingMode;
      RefreshAndSave();
    }

    method UpdateCheckingTimer(seconds: real, limit: real)
      requires Valid()
      modifies this
      ensures Valid() && Now() == DoScreen(old(Now()), UpdateTimer(seconds, limit))
    {
      var timer := CappedTimer(seconds, limit);
      WriteElapsed(if seconds < 0.0 then 0.0 else seconds);
      WriteAction(timer, CheckingActive, timer, mode);
      Save();
    }

    method WriteElapsed(seconds: real)
      modifies this`elapsed
      ensures elapsed == seconds
    {
      elapsed := seconds;
    }

    method Screen(op: ScreenOp)
      requires Valid()
      modifies this
      ensures Valid() && Now() == DoScreen(old(Now()), op)
    {
      match op {
        case Touch => Save();
        case SetMode(m, t) => SetPointerMode(m, t);
        case SetText(t) => SetPointerText(t);
        case Publish(m, t) => PublishText(m, t);
        case StartMonitoring => StartMonitoringPhase();
        case UpdateTimer(seconds, limit) => UpdateCheckingTimer(seconds, limit);
        case RecoveryPointer(p, stage) => SetPointerText(RecoveryText(p, if stage == NoStage then recoveryStage else stage));
        case ReadHeader => RefreshHeader();
      }
    }

    method Prepare(packages: seq<Package>, ready: bool)
      requires Valid()
      modifies this
      ensures Valid() && Now() == DoPrepare(old(Now()), packages, ready)
    {
      EnsureRows(packages);
      ShowText(GettingReady, if ready then GettingReadyText else PreparingText);
      if ready {
        RefreshHeader();
      } else {
        WriteAction(PreparingText, StartSource, text, mode);
      }
      Save();
    }

    method EnsureRows(packages: seq<Package>)
      requires Valid()
      modifies this`order, this`rows
      ensures Valid() && Now() == WithCore(old(Now()), EnsureAll(old(CoreNow()), packages))
    {
      ghost var before := CoreNow();
      var i := 0;
      while i < |packages|
        invariant i <= |packages| && Valid()
        invariant EnsureAll(CoreNow(), packages[i..]) == EnsureAll(before, packages)
      {
        if packages[i] !in rows { PutRow(packages[i], FreshRow); }
        assert packages[i..][0] == packages[i] && packages[i..][1..] == packages[i + 1..];
        i := i + 1;
      }
    }

    // -------------------------------------------------------------- focus and presence

    method BeginCheckingPackage(p: Package, limit: real)
      requires Valid()
      modifies this
      ensures Valid() && Now() == DoBeginChecking(old(Now()), p, limit)
    {
      StartTimer(limit);
      TakeFocus(p);
      Save();
    }

    method StartTimer(limit: real)
      requires Valid()
      modifies this`mode, this`text, this`headerCaption, this`headerSource, this`elapsed, this`deadline
      ensures Valid() && Now() == old(Now()).(header :=
                Header(CheckingMode, TimerText(0.0, limit), TimerText(0.0, limit), CheckingActive, 0.0, limit))
    {
      WriteTimer(limit, 0.0);
      WriteAction(TimerText(0.0, limit), CheckingActive, TimerText(0.0, limit), CheckingMode);
    }

    method TakeFocus(p: Package)
      requires Valid()
      modifies this`order, this`rows, this`activeFocus, this`checkingActive
      ensures Valid() && CoreNow() == BeginCheckingCore(old(CoreNow()), p)
    {
      MoveFocus(p);
      PutRow(p, RowOf(CoreNow(), p).(display := Checking));
    }

    method MoveFocus(p: Package)
      requires Valid()
      modifies this`rows, this`activeFocus, this`checkingActive
      ensures Valid() && CoreNow() == FocusCore(old(CoreNow()), p)
    {
      activeFocus, checkingActive := p, p;
      PassFocus(p);
    }

    method ReplaceRow(p: Package, row: Row)
      requires Valid()
      modifies this`order, this`rows
      ensures Valid() && Now() == WithCore(old(Now()), Put(old(CoreNow()), p, row))
    {
      PutRow(p, row);
    }

    /** Evidence sources and process ids: the row exists now. */
    method TouchRow(p: Package)
      requires Valid()
      modifies this`order, this`rows
      ensures Valid() && Now() == DoRow(old(Now()), p, Touched)
    {
      ReplaceRow(p, RowOf(CoreNow(), p));
    }

    method IncrementNoHeartbeat(p: Package) returns (count: nat)
      requires Valid()
      modifies this`order, this`rows
      ensures Valid() && Now() == DoRow(old(Now()), p, Counted)
      ensures count == CoreNow().rows[p].noHeartbeat
    {
      var row := RowOf(CoreNow(), p);
      count := row.noHeartbeat + 1;
      var now := row.(noHeartbeat := count);
      assert now == RowStep(row, Counted);
      ReplaceRow(p, now);
    }

    method ResetNoHeartbeat(p: Package)
      requires Valid()
      modifies this`order, this`rows
      ensures Valid() && Now() == DoRow(old(Now()), p, Uncounted)
    {
      var row := RowOf(CoreNow(), p);
      var now := row.(noHeartbeat := 0);
      assert now == RowStep(row, Uncounted);
      ReplaceRow(p, now);
    }

    method CacheOnlineEvidence(p: Package, pending: bool)
      requires Valid()
      modifies this
      ensures Valid() && Now() == DoRow(old(Now()), p, OnlineCached(pending))
    {
      PutAndSave(p, RowOf(CoreNow(), p).(rawOnline := pending));
    }

    method CacheDeadEvidence(p: Package, pending: bool)
      requires Valid()
      modifies this
      ensures Valid() && Now() == DoRow(old(Now()), p, DeadCached(pending))
    {
      PutAndSave(p, RowOf(CoreNow(), p).(rawDead := pending));
    }

    method PutAndSave(p: Package, row: Row)
      requires Valid()
      modifies this
      ensures Valid() && Now() == Persist(WithCore(old(Now()), Put(old(CoreNow()), p, row)))
    {
      PutRow(p, row);
      Save();
    }

    method MarkLaunchRequested(p: Package)
      requires Valid()
      modifies this
      ensures Valid() && Now() == DoRow(old(Now()), p, LaunchAsked)
    {
      if p == Nobody { return; }
      PutAndSave(p, RowOf(CoreNow(), p).(display := Launching));
    }

    method MarkLaunchCommandSent(p: Package)
      requires Valid()
      modifies this
      ensures Valid() && Now() == DoRow(old(Now()), p, LaunchSent)
    {
      if p == Nobody { return; }
      PutAndSave(p, RowOf(CoreNow(), p).(launchDispatched := true, display := Launching));
    }

    /** A dispatched launch forgets every committed state but Dead. */
    method MarkLaunchDispatched(p: Package)
      requires Valid()
      modifies this
      ensures Valid() && Now() == DoRow(old(Now()), p, LaunchDispatched)
    {
      if p == Nobody { return; }
      var row := RowOf(CoreNow(), p).(launchDispatched := true);
      if row.committed == Dead {
        row := row.(display := Shown(Dead));
      } else {
        row := row.(display := Waiting, committed := Unset);
      }
      PutAndSave(p, row);
    }

    method OnRow(p: Package, r: RowOp)
      requires Valid()
      modifies this
      ensures Valid() && Now() == DoRow(old(Now()), p, r)
    {
      match r {
        case Touched => TouchRow(p);
        case Counted => var _ := IncrementNoHeartbeat(p);
        case Uncounted => ResetNoHeartbeat(p);
        case OnlineCached(on) => CacheOnlineEvidence(p, on);
        case DeadCached(on) => CacheDeadEvidence(p, on);
        case LaunchAsked => MarkLaunchRequested(p);
        case LaunchSent => MarkLaunchCommandSent(p);
        case LaunchDispatched => MarkLaunchDispatched(p);
        case Committed(v) => CommitPresenceState(p, v);
      }
    }

    method CommitPresenceState(p: Package, v: Presence)
      requires Valid()
      modifies this
      ensures Valid() && Now() == DoRow(old(Now()), p, Committed(v))
    {
      var row := RowOf(CoreNow(), p);
      var now := row.(committed := v, lastReal := v, display := Face(v), rawOnline := false, rawDead := false);
      assert now == RowStep(row, Committed(v));
      PutAndSave(p, now);
    }

    method FinishCheckingDecision(p: Package, v: Presence)
      requires Valid()
      modifies this
      ensures Valid() && Now() == DoRow(old(Now()), p, Committed(v))
    {
      CommitPresenceState(p, v);
    }

    method EndCheckingFocus(p: Package)
      requires Valid()
      modifies this
      ensures Valid() && Now() == DoEndFocus(old(Now()), p)
    {
      LeaveFocus(p);
      RefreshAndSave();
    }

    method LeaveFocus(p: Package)
      requires Valid()
      modifies this`rows, this`activeFocus, this`checkingActive
      ensures Valid() && CoreNow() == EndFocusCore(old(CoreNow()), p)
    {
      if activeFocus == p { activeFocus := Nobody; }
      if checkingActive == p { checkingActive := Nobody; }
      if p in rows { UnfocusRow(p); }
    }

    method UnfocusRow(p: Package)
      requires Valid() && p in rows
      modifies this`rows
      ensures Valid() && rows == old(rows)[p := Unfocused(old(rows)[p])]
    {
      var row := rows[p];
      if CheckingLike(row.display) {
        if row.committed != Unset {
          row := row.(display := Shown(row.committed));
        } else if row.launchDispatched {
          row := row.(display := Waiting);
        } else {
          row := row.(display := if row.lastReal == Unset then Waiting else Shown(row.lastReal));
        }
      }
      assert row == Unfocused(rows[p]);
      rows := rows[p := row];
    }

    // -------------------------------------------------------------- recovery queue

    method EnqueueRecovery(p: Package, persist: bool)
      requires Valid()
      modifies this
      ensures Valid() && Now() == DoEnqueue(old(Now()), p, persist)
    {
      if p == Nobody || p in unrecoverable { return; }
      RequestRecovery(p);
      RecomputeOrphans();
      if persist {
        RefreshAndSave();
      }
    }

    method RequestRecovery(p: Package)
      requires Valid()
      modifies this`order, this`rows, this`recoveryQueue
      ensures Valid() && Now() == WithCore(old(Now()), Requested(old(CoreNow()), p))
    {
      StampRow(p);
      LineUp(p);
    }

    method LineUp(p: Package)
      requires Valid()
      modifies this`recoveryQueue
      ensures Valid() && Now() == WithCore(old(Now()), old(CoreNow()).(queue :=
                if p in old(recoveryQueue) || activeRecovery == p then old(recoveryQueue) else old(recoveryQueue) + [p]))
    {
      if p !in recoveryQueue && activeRecovery != p { recoveryQueue := recoveryQueue + [p]; }
    }

    method MarkDeadDetected(p: Package)
      requires Valid()
      modifies this
      ensures Valid() && Now() == DoDeadDetected(old(Now()), p)
    {
      ShowText(DeadDetectedMode, DeadText);
      if p != Nobody {
        CommitPresenceState(p, Dead);
        EnqueueRecovery(p, false);
      }
      RefreshAndSave();
    }

    /** Hands out the first package that was not given up meanwhile. */
    method DequeueRecovery() returns (p: Package)
      requires Valid()
      modifies this`recoveryQueue
      ensures Valid() && Now() == WithCore(old(Now()), DequeueCore(old(CoreNow())).0) && p == DequeueCore(old(CoreNow())).1
      ensures p != Nobody ==> p !in unrecoverable
    {
      while recoveryQueue != []
        invariant Valid() && Now() == WithCore(old(Now()), CoreNow().(queue := recoveryQueue))
        invariant CoreNow() == old(CoreNow()).(queue := recoveryQueue)
        invariant SkipUnrecoverable(recoveryQueue, unrecoverable) == SkipUnrecoverable(old(recoveryQueue), unrecoverable)
        decreases |recoveryQueue|
      {
        p := recoveryQueue[0];
        recoveryQueue := recoveryQueue[1..];
        if p !in unrecoverable { return; }
      }
      p := Nobody;
    }

    method MarkUnrecoverable(p: Package)
      requires Valid()
      modifies this
      ensures Valid() && Now() == DoMarkUnrecoverable(old(Now()), p)
    {
      if p == Nobody { return; }
      unrecoverable := unrecoverable + {p};
      DropFromQueue(p);
      RecomputeAndSave();
    }

    method SyncDeadPackages()
      requires Valid()
      modifies this
      ensures Valid() && Now() == DoSync(old(Now()))
    {
      QueueUnattended();
      RecomputeAndSave();
    }

    method SelfHealMissingRequests() returns (healed: seq<Package>)
      requires Valid()
      modifies this
      ensures Valid() && Now() == DoSelfHeal(old(Now())) && healed == HealCore(old(CoreNow())).1
    {
      healed := StampRequests();
      StampsDone(old(CoreNow()));
      if healed != [] {
        RecomputeOrphans();
        RefreshAndSave();
      }
    }

    // -------------------------------------------------------------- recovery

    method BeginRecovery(p: Package)
      requires Valid()
      modifies this
      ensures Valid() && Now() == DoBeginRecovery(old(Now()), p)
    {
      ClaimRecovery(p);
      AnnounceRecovery();
    }

    method AnnounceRecovery()
      requires Valid()
      modifies this`mode, this`text, this`headerCaption, this`headerSource,
               this`lastHistoryText, this`history, this`seen
      ensures Valid() && Now() == Persist(Refresh(Show(old(Now()), DeadDetectedMode, StartRecoveryText)))
    {
      ShowText(DeadDetectedMode, StartRecoveryText);
      RefreshAndSave();
    }

    method ClaimRecovery(p: Package)
      requires Valid()
      modifies this`order, this`rows, this`recoveryInProgress, this`activeRecovery, this`recoveryStage
      ensures Valid() && Now() == WithCore(old(Now()), BeginRecoveryCore(old(CoreNow()), p))
    {
      Claim(p);
      StampRow(p);
    }

    method Claim(p: Package)
      requires Valid()
      modifies this`recoveryInProgress, this`activeRecovery, this`recoveryStage
      ensures Valid() && Now() == WithCore(old(Now()), old(CoreNow()).(inProgress := true, active := p, stage := Start))
    {
      recoveryInProgress, activeRecovery, recoveryStage := true, p, Start;
    }

    /** A recovery of the package was asked for. */
    method StampRow(p: Package)
      requires Valid()
      modifies this`order, this`rows
      ensures Valid() && Now() == WithCore(old(Now()), Stamped(old(CoreNow()), p))
    {
      PutRow(p, RowOf(CoreNow(), p).(recoveryRequested := true));
    }

    method SetRecoveryStage(stage: Stage)
      requires Valid()
      modifies this
      ensures Valid() && Now() == DoSetStage(old(Now()), stage)
    {
      WriteStage(stage);
      ShowStage(stage);
      Save();
    }

    method WriteStage(stage: Stage)
      requires Valid()
      modifies this`recoveryStage
      ensures Valid() && Now() == WithCore(old(Now()), old(CoreNow()).(stage := stage))
    {
      recoveryStage := stage;
    }

    method ShowStage(stage: Stage)
      requires Valid()
      modifies this`mode, this`text, this`headerCaption, this`headerSource
      ensures Valid() && HeaderNow() == StageShown(old(HeaderNow()), stage)
    {
      var face := StageFace(stage);
      var (m, t) := if face.Some? then face.value else (mode, text);
      WriteAction(t, StageSource, t, m);
    }

    method EndRecovery(failed: bool, reason: Reason, resume: bool)
      requires Valid()
      modifies this
      ensures Valid() && Now() == DoEndRecovery(old(Now()), failed, reason, resume)
    {
      var p := activeRecovery;
      ReleaseRecovery(failed, reason);
      if p != Nobody { EndCheckingFocus(p); }
      CloseRecovery(resume);
    }

    method CloseRecovery(resume: bool)
      requires Valid()
      modifies this
      ensures Valid() && Now() == DoCloseRecovery(old(Now()), resume)
    {
      if resume {
        var _ := ResumeCheckingIfSafe();
      } else {
        RefreshHeader();
      }
      RecomputeAndSave();
    }

    method ReleaseRecovery(failed: bool, reason: Reason)
      requires Valid()
      modifies this`order, this`rows, this`recoveryQueue, this`recoveryInProgress, this`activeRecovery,
               this`recoveryStage, this`recoveryLastError
      ensures Valid() && Now() == WithCore(old(Now()), ReleaseCore(old(CoreNow()), failed, reason))
    {
      var p := activeRecovery;
      FreeRecovery(failed, reason);
      if p != Nobody { SettleRow(p, failed, reason); }
    }

    method FreeRecovery(failed: bool, reason: Reason)
      requires Valid()
      modifies this`recoveryInProgress, this`activeRecovery, this`recoveryStage, this`recoveryLastError
      ensures Valid() && Now() == WithCore(old(Now()), FreeCore(old(CoreNow()), failed, reason))
    {
      recoveryInProgress, activeRecovery := false, Nobody;
      WriteResult(if failed then RecoveryFailed else NoStage, if failed then reason else NoReason);
    }

    method WriteResult(stage: Stage, error: Reason)
      modifies this`recoveryStage, this`recoveryLastError
      ensures recoveryStage == stage && recoveryLastError == error
    {
      recoveryStage, recoveryLastError := stage, error;
    }

    method SettleRow(p: Package, failed: bool, reason: Reason)
      requires Valid()
      modifies this`order, this`rows, this`recoveryQueue
      ensures Valid() && CoreNow() == SettleCore(old(CoreNow()), p, failed, reason)
    {
      var row := RowOf(CoreNow(), p).(recoveryFinished := true);
      if failed {
        if reason != NoReason { row := row.(recoveryError := reason); }
      } else {
        row := row.(recoveryError := NoReason, committed := Unset, display := Waiting);
        DropFromQueue(p);
      }
      assert row == Settled(RowOf(old(CoreNow()), p), failed, reason);
      PutRow(p, row);
    }

    method ResumeCheckingIfSafe() returns (safe: bool)
      requires Valid()
      modifies this
      ensures Valid() && (Now(), safe) == DoResume(old(Now()))
    {
      pauseChecking := false;
      var count := CountUnrecovered();
      safe := !recoveryInProgress && recoveryQueue == [] && deadWithoutQueue == [] && count == 0;
      if safe { mode := CheckingMode; }
      RefreshAndSave();
    }

    /** The supervisor and the checking system write these two fields themselves. */
    method WriteLastError(error: Reason)
      requires Valid()
      modifies this`recoveryLastError
      ensures Valid() && Now() == WithCore(old(Now()), old(CoreNow()).(lastError := error))
    {
      recoveryLastError := error;
    }

    /** The launch trace notes the launch of a named package. */
    method RecordLaunch(p: Package, error: LaunchError)
      requires Valid()
      modifies this`lastLaunch
      ensures Valid() && Now() == WithCore(old(Now()), LaunchCore(old(CoreNow()), p, error))
    {
      if p != Nobody { lastLaunch := Launched(p, error); }
    }

    method WritePause(on: bool)
      requires Valid()
      modifies this`pauseChecking
      ensures Valid() && Now() == WithCore(old(Now()), old(CoreNow()).(paused := on))
    {
      pauseChecking := on;
    }

    /** Carries out any one step; a recovery handler is a list of them. */
    method Perform(op: Op)
      requires Valid()
      modifies this
      ensures Valid() && Now() == Apply(old(Now()), op)
    {
      match op {
        case Screen(h) => Screen(h);
        case OnRow(p, r) => OnRow(p, r);
        case Reset => Reset();
        case NewStart => ResetForNewStart();
        case Prepare(ps, ready) => Prepare(ps, ready);
        case BeginChecking(p, limit) => BeginCheckingPackage(p, limit);
        case EndFocus(p) => EndCheckingFocus(p);
        case Resume => var _ := ResumeCheckingIfSafe();
        case SetPause(on) => WritePause(on);
        case RecordLaunch(p, error) => RecordLaunch(p, error);
        case _ => PerformOnRecovery(op);
      }
    }

    method PerformOnRecovery(op: Op)
      requires Valid()
      requires !op.Screen? && !op.OnRow? && !op.Reset? && !op.NewStart? && !op.Prepare? && !op.BeginChecking?
               && !op.EndFocus? && !op.Resume? && !op.SetPause? && !op.RecordLaunch?
      modifies this
      ensures Valid() && Now() == Apply(old(Now()), op)
    {
      if op.Dequeue? || op.Sync? || op.SelfHeal? || op.EndRecovery? || op.SetStage? || op.SetLastError? {
        PerformOnQueue(op);
        return;
      }
      match op {
        case DeadDetected(p) => MarkDeadDetected(p);
        case Enqueue(p) => EnqueueRecovery(p, true);
        case MarkUnrecoverable(p) => MarkUnrecoverable(p);
        case BeginRecovery(p) => BeginRecovery(p);
      }
    }

    method PerformOnQueue(op: Op)
      requires Valid()
      requires op.Dequeue? || op.Sync? || op.SelfHeal? || op.EndRecovery? || op.SetStage? || op.SetLastError?
      modifies this
      ensures Valid() && Now() == Apply(old(Now()), op)
    {
      if op.Dequeue? {
        var _ := DequeueRecovery();
      } else if op.Sync? {
        SyncDeadPackages();
      } else if op.SelfHeal? {
        var _ := SelfHealMissingRequests();
      } else {
        PerformOnStage(op);
      }
    }

    method PerformOnStage(op: Op)
      requires Valid() && (op.EndRecovery? || op.SetStage? || op.SetLastError?)
      modifies this
      ensures Valid() && Now() == Apply(old(Now()), op)
    {
      if op.EndRecovery? {
        EndRecovery(op.failed, op.reason, op.resume);
      } else if op.SetStage? {
        SetRecoveryStage(op.stage);
      } else {
        WriteLastError(op.error);
      }
    }
  }
}
