/** What the header line says, when checking resumes, and what the pointer history remembers. */
module HeaderLine {
  import opened Common
  import opened PointerModel
  import opened QueueLemmas
  import opened PointerInvariants
  import opened RecoveryQueue

  // ---------------------------------------------------------------- what the header says

  /** Some recoverable package is Dead, and its last recovery, if any, left an error. */
  ghost predicate SomeUnrecovered(c: Core) {
    exists p :: CommittedDead(c, p) && p !in c.unrecoverable
                && (c.rows[p].recoveryFinished ==> c.rows[p].recoveryError != NoReason)
  }

  lemma UnrecoveredMeans(c: Core)
    requires OrderMatches(c)
    ensures Unrecovered(c) > 0 <==> SomeUnrecovered(c)
  {
    UnrecoveredInIs(c, c.order);
    if p :| CommittedDead(c, p) && p !in c.unrecoverable
            && (c.rows[p].recoveryFinished ==> c.rows[p].recoveryError != NoReason)
    {
      assert p in c.order && CountsUnrecovered(c, p);
    }
  }

  /** Where the header comes from: a recovery in progress comes first, then one that is due, then a package Dead
      without one, then the pause, then the focus. */
  ghost function SourceOf(c: Core, mode: Mode): Source {
    if c.inProgress && c.active != Nobody then RecoveryInProgress
    else if c.queue != [] || c.orphans != [] then RecoveryPending
    else if SomeUnrecovered(c) then UnrecoveredDead
    else if c.paused then PausedNoDead
    else if c.checking != Nobody then CheckingActive
    else if mode == CheckingMode then CheckingIdle else DefaultSource
  }

  /** The header line by its source; its caption is the pointer text but while nothing is being checked or due. */
  lemma HeaderSays(c: Core, h: Header)
    requires OrderMatches(c)
    ensures var r := Refreshed(c, h);
            && r.source == SourceOf(c, h.mode)
            && r.mode == (if r.source in {RecoveryPending, UnrecoveredDead} then DeadDetectedMode
                          else if r.source == PausedNoDead then ResumeCheckingMode else h.mode)
            && (r.source !in {CheckingIdle, DefaultSource} ==> r.caption == r.text)
            && (r.source in {CheckingIdle, DefaultSource} ==> r.text == h.text)
            && match r.source
               case RecoveryInProgress =>
                 r.caption == if c.stage == Start then StartRecoveryText else RecoveryText(c.active, c.stage)
               case RecoveryPending => r.caption == StartRecoveryText
               case UnrecoveredDead => r.caption == DeadText
               case PausedNoDead => r.caption == ResumeText
               case CheckingActive => r.caption.Timer? && (h.text.Timer? ==> r.caption == h.text)
               case CheckingIdle => r.caption == NoText
               case _ => r.caption == if h.text == Static then NoText else h.text
  {
    UnrecoveredMeans(c);
  }

  /** A shown timer counts whole seconds, and never shows more than the deadline; an unset one is 7 seconds. */
  lemma TimerShows(elapsed: real, limit: real)
    requires 0.0 <= elapsed
    ensures var t, cap := CappedTimer(elapsed, limit), if limit.Floor < 1 then 1 else limit.Floor;
            && t.Timer? && t.shown <= cap && t.shown as real <= elapsed
            && (t.shown < cap ==> elapsed < t.shown as real + 1.0)
            && TimerText(elapsed, limit) == CappedTimer(elapsed, if limit == 0.0 then 7.0 else limit)
  {
  }

  /** A check begins with a timer at zero, whatever the header said before. */
  lemma CheckShows(s: State, p: Package, deadline: real)
    ensures var d := Apply(s, BeginChecking(p, deadline)).header;
            && d.mode == CheckingMode && d.source == CheckingActive && d.caption == d.text
            && d.deadline == deadline && d.elapsed == 0.0
            && d.text == Timer(0)
  {
  }

  /** A package found Dead puts the header into Dead mode, and so does the start of its recovery, unless nothing is
      due, nothing runs, and checking is paused. */
  lemma DeathShows(s: State, p: Package)
    requires p != Nobody
    ensures var d := Apply(s, BeginRecovery(p)).header;
            d.mode == DeadDetectedMode && d.source == RecoveryInProgress && d.caption == d.text == StartRecoveryText
    ensures var d := Apply(s, DeadDetected(p)).header; d.mode == DeadDetectedMode || d.source == PausedNoDead
  {
  }

  /** The text of a recovery stage; the other stages have none of their own. */
  function StageText(stage: Stage): Option<Text> {
    match stage
    case ClearCache => Some(ClearingCacheText)
    case Reopening => Some(ReopeningText)
    case Relaunching => Some(RelaunchingText)
    case WaitOnline => Some(RelaunchingText)
    case OnlineStage => Some(OnlineText)
    case RecoveryFailed => Some(StartRecoveryText)
    case NoStage => None
    case Start => None
    case OtherStage(_) => None
  }

  /** A stage shows its text and its mode, failure that of a Dead package; a stage without a text changes neither. */
  lemma StageShows(s: State, stage: Stage)
    ensures var d, text := Apply(s, SetStage(stage)).header, StageText(stage);
            && d.source == StageSource && d.caption == d.text
            && d.text == (if text.Some? then text.value else s.header.text)
            && (text.None? ==> d.mode == s.header.mode)
            && (stage == ClearCache ==> d.mode == RecoveryClearCache)
            && (stage == Reopening ==> d.mode == RecoveryReopening)
            && (stage == Relaunching ==> d.mode == RecoveryRelaunching)
            && (stage == WaitOnline || stage == OnlineStage ==> d.mode == RecoveryWaitOnline)
            && (stage == RecoveryFailed ==> d.mode == DeadDetectedMode)
  {
  }

  /** While packages are prepared the header says so; when they are made ready, only if no recovery is due, no package
      Dead and checking not paused. */
  lemma PreparingShows(s: State, ps: seq<Package>, ready: bool)
    ensures var d := Apply(s, Prepare(ps, ready)).header;
            if ready then d.source in {RecoveryInProgress, CheckingActive, DefaultSource} <==> d.mode == GettingReady
            else d == s.header.(mode := GettingReady, text := PreparingText, caption := PreparingText,
                                source := StartSource)
  {
  }

  /** The direct writes: a timer tick, the start of monitoring, the text of a recovery stage, and the Start mirrors. */
  lemma WritesShow(s: State, elapsed: real, limit: real, p: Package, stage: Stage, mode: Mode, text: Text)
    ensures var d := DoScreen(s, UpdateTimer(elapsed, limit)).header;
            d == s.header.(text := d.text, caption := d.text, source := CheckingActive, elapsed := d.elapsed)
            && d.text == CappedTimer(elapsed, limit)
            && d.elapsed >= 0.0 && (if elapsed >= 0.0 then d.elapsed == elapsed else d.text == Timer(0))
    ensures var d := DoScreen(s, StartMonitoring).header;
            d.mode == CheckingMode || d.source in {RecoveryPending, UnrecoveredDead, PausedNoDead}
    ensures DoScreen(s, RecoveryPointer(p, stage)).header
            == s.header.(text := RecoveryText(p, if stage == NoStage then s.core.stage else stage))
    ensures DoScreen(s, SetMode(mode, None)).header == s.header.(mode := mode)
    ensures DoScreen(s, SetMode(mode, Some(text))).header == s.header.(mode := mode, text := text)
    ensures DoScreen(s, SetText(text)).header == s.header.(text := text)
    ensures DoScreen(s, Publish(Some(mode), text)).header
            == s.header.(mode := mode, text := text, caption := text, source := StartSource)
    ensures DoScreen(s, Publish(None, text)).header == s.header.(text := text, caption := text, source := StartSource)
  {
  }

  // ---------------------------------------------------------------- resuming

  /** `resume_checking_if_safe` is exact: it answers True with a checking header, or False with a
      recovery or dead header, and in neither case leaves checking paused or the header saying so.
      Only the pointer text can keep a stale resume label, exactly when nothing is in focus. */
  lemma ResumeIsExact(s: State)
    requires BusyMatchesActive(s.core)
    ensures var (d, ok) := DoResume(s);
            && d.core == s.core.(paused := false)
            && (ok <==> SafeToResume(s.core))
            && (ok ==> d.header.mode == CheckingMode
                       && d.header.source == (if s.core.checking == Nobody then CheckingIdle else CheckingActive)
                       && d.header.caption.Timer? == (s.core.checking != Nobody)
                       && (d.header.text == ResumeText <==> s.header.text == ResumeText && s.core.checking == Nobody))
            && (!ok ==> d.header.source in {RecoveryInProgress, RecoveryPending, UnrecoveredDead})
            && d.header.source != PausedNoDead && d.header.caption != ResumeText
  {
    assert Unrecovered(s.core.(paused := false)) == Unrecovered(s.core) by {
      SameCount(s.core, s.core.(paused := false), s.core.order);
    }
  }

  /** A pointer paused with no recovery running and nothing Dead shows the resume label; resuming takes it off the
      header line, while the pointer text keeps it. */
  lemma ResumeTextIsReachable()
    ensures var s := ApplyAll(InitState, [SetPause(true), Screen(ReadHeader)]);
            && s.header.caption == s.header.text == ResumeText
            && DoResume(s).1 && DoResume(s).0.header.caption == NoText && DoResume(s).0.header.text == ResumeText
  {
    assert [SetPause(true), Screen(ReadHeader)][..1] == [SetPause(true)] && [SetPause(true)][..0] == [];
  }

  /** On an up-to-date orphan list, resuming means that every Dead package was given up. */
  lemma ResumeLeavesNobodyDead(s: State)
    requires OrderMatches(s.core) && s.core.orphans == UnattendedIn(s.core, s.core.order)
    requires DoResume(s).1
    ensures forall p :: CommittedDead(s.core, p) ==> p in s.core.unrecoverable
  {
    UnattendedInIs(s.core, s.core.order);
    forall p | CommittedDead(s.core, p) ensures p in s.core.unrecoverable {
      assert Unattended(s.core, p) ==> p in s.core.orphans;
    }
  }

  /** On a stale list it means that exactly when no Dead package is a relapse: one whose last
      recovery ended without an error. */
  lemma ResumeOverlooksOnlyRelapses(s: State)
    requires OrderMatches(s.core) && DoResume(s).1
    ensures (forall p :: CommittedDead(s.core, p) ==> p in s.core.unrecoverable)
            <==> forall p :: RecoverableDead(s.core, p) ==>
                   !(s.core.rows[p].recoveryFinished && s.core.rows[p].recoveryError == NoReason)
  {
    var c := s.core.(paused := false);
    UnrecoveredInIs(c, c.order);
    forall p | RecoverableDead(s.core, p)
      ensures s.core.rows[p].recoveryFinished && s.core.rows[p].recoveryError == NoReason
    {
      assert !CountsUnrecovered(c, p);
      assert RecoverableDead(c, p);
    }
  }

  /** Recover a package once, then commit it Dead again. */
  function Relapse(p: Package): seq<Op> {
    [OnRow(p, Committed(Dead)), Enqueue(p), Dequeue, BeginRecovery(p),
     EndRecovery(false, NoReason, true), OnRow(p, Committed(Dead))]
  }

  lemma RunOfSix(c: Core, a: Op, b: Op, d: Op, e: Op, f: Op, g: Op)
    ensures Run(c, [a, b, d, e, f, g]) == Step(Step(Step(Step(Step(Step(c, a), b), d), e), f), g)
  {
    var c3 := Run(c, [a, b, d]);
    RunOfThree(c, a, b, d);
    assert [a, b, d, e] == [a, b, d] + [e] && [a, b, d, e, f] == [a, b, d, e] + [f]
        && [a, b, d, e, f, g] == [a, b, d, e, f] + [g];
    RunSnoc(c, [a, b, d], e);
    RunSnoc(c, [a, b, d, e], f);
    RunSnoc(c, [a, b, d, e, f], g);
  }

  /** The core with `p` alone, queued or being recovered. */
  function Alone(p: Package, row: Row, queued: bool, running: bool): Core {
    var c := InitCore.(order := [p], rows := map[p := row], queue := if queued then [p] else []);
    if running then c.(inProgress := true, active := p, stage := Start) else c
  }

  lemma FirstDeath(p: Package)
    requires p != Nobody
    ensures var dead := RowStep(FreshRow, Committed(Dead));
            && Step(InitCore, OnRow(p, Committed(Dead))) == Alone(p, dead, false, false)
            && Step(Alone(p, dead, false, false), Enqueue(p))
               == Alone(p, dead.(recoveryRequested := true), true, false)
  {
    var dead := RowStep(FreshRow, Committed(Dead));
    assert InitCore.order + [p] == [p];
    assert InitCore.rows[p := dead] == map[p := dead];
    var c := Alone(p, dead, false, false);
    var row := dead.(recoveryRequested := true);
    assert c.rows[p := row] == map[p := row];
    assert c.queue + [p] == [p];
    NobodyUnattended(c.(rows := map[p := row], queue := [p]), [p]);
  }

  lemma CleanRecovery(p: Package, row: Row)
    requires p != Nobody && row.committed == Dead && row.recoveryRequested && row.display == Shown(Dead)
    ensures Step(Alone(p, row, true, false), Dequeue) == Alone(p, row, false, false)
    ensures Step(Alone(p, row, false, false), BeginRecovery(p)) == Alone(p, row, false, true)
    ensures Step(Alone(p, row, false, true), EndRecovery(false, NoReason, true))
            == Alone(p, Settled(row, false, NoReason), false, false)
  {
    CleanStart(p, row);
    CleanEnd(p, row);
  }

  lemma CleanStart(p: Package, row: Row)
    requires p != Nobody && row.recoveryRequested
    ensures Step(Alone(p, row, true, false), Dequeue) == Alone(p, row, false, false)
    ensures Step(Alone(p, row, false, false), BeginRecovery(p)) == Alone(p, row, false, true)
  {
    assert [p][1..] == [];
    assert map[p := row][p := row] == map[p := row];
  }

  lemma CleanEnd(p: Package, row: Row)
    requires p != Nobody
    ensures EndRecoveryCore(Alone(p, row, false, true), false, NoReason, true)
            == Alone(p, Settled(row, false, NoReason), false, false)
  {
    var after := Settled(row, false, NoReason);
    var d := Alone(p, after, false, false);
    assert map[p := row][p := after] == map[p := after] == map[p := after][p := Unfocused(after)];
    assert Without([], p) == [];
    assert ReleaseCore(Alone(p, row, false, true), false, NoReason) == d;
    assert EndFocusCore(d, p) == d;
    NobodyUnattended(d, [p]);
  }

  /** A relapse is reachable, and then checking resumes while nobody looks after the Dead package. */
  lemma RelapseIsOverlooked(p: Package, header: Header, log: Log)
    requires p != Nobody
    ensures var c := Run(InitCore, Relapse(p));
            Unattended(c, p) && DoResume(State(c, header, log)).1
  {
    var dead := RowStep(FreshRow, Committed(Dead)).(recoveryRequested := true);
    var row := Settled(dead, false, NoReason);
    FirstDeath(p);
    CleanRecovery(p, dead);
    RunOfSix(InitCore, Relapse(p)[0], Relapse(p)[1], Relapse(p)[2], Relapse(p)[3], Relapse(p)[4], Relapse(p)[5]);
    var c := Run(InitCore, Relapse(p));
    assert c == Alone(p, RowStep(row, Committed(Dead)), false, false) by {
      assert map[p := row][p := RowStep(row, Committed(Dead))] == map[p := RowStep(row, Committed(Dead))];
    }
    UnrecoveredInIs(c.(paused := false), [p]);
  }

  // ---------------------------------------------------------------- history

  function NonBlank(texts: seq<Text>): seq<Text> {
    if texts == [] then []
    else
      var rest := NonBlank(texts[..|texts| - 1]);
      if texts[|texts| - 1] == NoText then rest else rest + [texts[|texts| - 1]]
  }

  /** The texts with adjacent repeats removed. */
  function Dedup(texts: seq<Text>): seq<Text> {
    if |texts| < 2 then texts
    else
      var rest := Dedup(texts[..|texts| - 1]);
      if texts[|texts| - 1] == texts[|texts| - 2] then rest else rest + [texts[|texts| - 1]]
  }

  /** The history is the last 16 of the non-empty texts seen at persist points since the last new
      start, with adjacent repeats removed. */
  predicate HistoryOk(log: Log) {
    var texts := NonBlank(log.seen);
    && log.history == Last(Dedup(texts), 16)
    && log.lastText == if texts == [] then NoText else texts[|texts| - 1]
  }

  lemma LastOfLonger<T>(s: seq<T>, x: T, n: nat)
    requires n > 0
    ensures Last(Last(s, n) + [x], n) == Last(s + [x], n)
  {
  }

  lemma {:induction false} NonBlankHasNoBlank(texts: seq<Text>)
    ensures NoText !in NonBlank(texts)
  {
    if texts != [] { NonBlankHasNoBlank(texts[..|texts| - 1]); }
  }

  lemma RecordKeepsHistory(log: Log, text: Text)
    requires HistoryOk(log)
    ensures HistoryOk(Record(log, text))
  {
    var was, now := NonBlank(log.seen), NonBlank(log.seen + [text]);
    assert (log.seen + [text])[..|log.seen|] == log.seen;
    NonBlankHasNoBlank(log.seen);
    if text == NoText {
      assert now == was;
    } else {
      assert now == was + [text] && now[..|now| - 1] == was;
      if text != log.lastText {
        assert Dedup(now) == Dedup(was) + [text];
        LastOfLonger(Dedup(was), text, 16);
      } else {
        assert Dedup(now) == Dedup(was);
      }
    }
  }

  function RecordAll(log: Log, texts: seq<Text>): Log {
    if texts == [] then log else Record(RecordAll(log, texts[..|texts| - 1]), texts[|texts| - 1])
  }

  lemma RecordsUpToThree(log: Log, a: Text, b: Text, c: Text)
    ensures RecordAll(log, [a]) == Record(log, a)
    ensures RecordAll(log, [a, b]) == Record(Record(log, a), b)
    ensures RecordAll(log, [a, b, c]) == Record(Record(Record(log, a), b), c)
  {
    assert [a] == [] + [a] && [a, b] == [a] + [b] && [a, b, c] == [a, b] + [c];
    RecordsSnoc(log, [], a);
    RecordsSnoc(log, [a], b);
    RecordsSnoc(log, [a, b], c);
  }

  lemma RecordsSnoc(log: Log, texts: seq<Text>, t: Text)
    ensures RecordAll(log, texts + [t]) == Record(RecordAll(log, texts), t)
  {
    assert (texts + [t])[..|texts|] == texts;
  }

  /** Every step extends the log by the texts present at its own persist points, and by nothing else. */
  lemma StepRecords(s: State, op: Op) returns (texts: seq<Text>)
    ensures Apply(s, op).log == RecordAll(if op.NewStart? then InitLog else s.log, texts)
  {
    match op {
      case DeadDetected(p) => texts := DeadDetectedRecords(s, p);
      case EndRecovery(failed, reason, resume) => texts := EndRecoveryRecords(s, failed, reason, resume);
      case _ =>
        var log := if op.NewStart? then InitLog else s.log;
        OneRecord(s, op);
        texts := if Apply(s, op).log == log then [] else [Apply(s, op).header.text];
        RecordsUpToThree(log, Apply(s, op).header.text, NoText, NoText);
    }
  }

  /** Any other step has at most one persist point, at its end. */
  lemma OneRecord(s: State, op: Op)
    requires !op.DeadDetected? && !op.EndRecovery?
    ensures var log, d := if op.NewStart? then InitLog else s.log, Apply(s, op);
            d.log == log || d.log == Record(log, d.header.text)
  {
    if AboutRecovery(op) { RecoveryOneRecord(s, op); } else { FrontOneRecord(s, op); }
  }

  lemma RecoveryOneRecord(s: State, op: Op)
    requires AboutRecovery(op) && !op.DeadDetected? && !op.EndRecovery?
    ensures Apply(s, op).log == s.log || Apply(s, op).log == Record(s.log, Apply(s, op).header.text)
  {
  }

  lemma FrontOneRecord(s: State, op: Op)
    requires !AboutRecovery(op)
    ensures var log, d := if op.NewStart? then InitLog else s.log, Apply(s, op);
            d.log == log || d.log == Record(log, d.header.text)
  {
  }

  lemma DeadDetectedRecords(s: State, p: Package) returns (texts: seq<Text>)
    ensures DoDeadDetected(s, p).log == RecordAll(s.log, texts)
  {
    var last := DoDeadDetected(s, p).header.text;
    texts := if p == Nobody then [last] else [DeadText, last];
    RecordsUpToThree(s.log, if p == Nobody then last else DeadText, last, NoText);
  }

  lemma EndRecoveryRecords(s: State, failed: bool, reason: Reason, resume: bool) returns (texts: seq<Text>)
    ensures DoEndRecovery(s, failed, reason, resume).log == RecordAll(s.log, texts)
  {
    var s1 := WithCore(s, ReleaseCore(s.core, failed, reason));
    var s2 := if s.core.active == Nobody then s1 else DoEndFocus(s1, s.core.active);
    var a, b := s2.header.text, DoResume(s2).0.header.text;
    var c := DoEndRecovery(s, failed, reason, resume).header.text;
    if s.core.active == Nobody {
      texts := if resume then [b, c] else [c];
      RecordsUpToThree(s.log, b, c, c);
      RecordsUpToThree(s.log, c, c, c);
    } else {
      texts := if resume then [a, b, c] else [a, c];
      RecordsUpToThree(s.log, a, b, c);
      RecordsUpToThree(s.log, a, c, c);
    }
  }

  /** The methods that do not reach a persist point. */
  predicate Unrecorded(s: State, op: Op) {
    match op
    case Screen(ReadHeader) => true
    case OnRow(p, r) => r.Touched? || r.Counted? || r.Uncounted? || NamesNobody(p, r)
    case Enqueue(p) => p == Nobody || p in s.core.unrecoverable
    case MarkUnrecoverable(p) => p == Nobody
    case SelfHeal => HealCore(s.core).1 == []
    case Reset => true
    case Dequeue => true
    case SetLastError(_) => true
    case SetPause(_) => true
    case RecordLaunch(_, _) => true
    case _ => false
  }

  /** After every other method the pointer text, if not blank, is the last one remembered. */
  lemma RecordsAtTheEnd(s: State, op: Op)
    ensures var d := Apply(s, op);
            if Unrecorded(s, op) then d.log == s.log else d.header.text == NoText || d.log.lastText == d.header.text
  {
    if AboutRecovery(op) { RecoveryRecordsAtTheEnd(s, op); } else { FrontRecordsAtTheEnd(s, op); }
  }

  lemma RecoveryRecordsAtTheEnd(s: State, op: Op)
    requires AboutRecovery(op)
    ensures var d := Apply(s, op);
            if Unrecorded(s, op) then d.log == s.log else d.header.text == NoText || d.log.lastText == d.header.text
  {
  }

  lemma FrontRecordsAtTheEnd(s: State, op: Op)
    requires !AboutRecovery(op)
    ensures var d := Apply(s, op);
            if Unrecorded(s, op) then d.log == s.log else d.header.text == NoText || d.log.lastText == d.header.text
  {
  }

  lemma {:induction false} RecordingKeepsHistory(log: Log, texts: seq<Text>)
    requires HistoryOk(log)
    ensures HistoryOk(RecordAll(log, texts))
  {
    if texts != [] {
      RecordingKeepsHistory(log, texts[..|texts| - 1]);
      RecordKeepsHistory(RecordAll(log, texts[..|texts| - 1]), texts[|texts| - 1]);
    }
  }

  /** After any run whatever. */
  lemma {:induction false} HistoryOverRun(ops: seq<Op>)
    ensures HistoryOk(ApplyAll(InitState, ops).log)
  {
    if ops != [] {
      HistoryOverRun(ops[..|ops| - 1]);
      var s, op := ApplyAll(InitState, ops[..|ops| - 1]), ops[|ops| - 1];
      var texts := StepRecords(s, op);
      RecordingKeepsHistory(if op.NewStart? then InitLog else s.log, texts);
    }
  }
}
