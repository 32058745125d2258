/** The checker pointer as a value: what each lock-protected method of
    `CheckerPointerState` (agent/checker_pointer.py) makes of the shared state.

    A state has two halves.  The core decides behaviour: the per-package rows,
    the recovery queue, the active recovery, the focus and the pause flag.  The
    header is what the screen shows.  The header reads the core, never the
    other way round, so claims about runs are made about the core alone. */
module PointerModel {
  import opened Common

  /** A package name matters only up to equality, so a name is a number; Nobody is the empty string. */
  datatype Package = Nobody | Pkg(id: nat)

  /** An error text; only whether there is one decides anything. */
  datatype Reason = NoReason | Because(text: string)

  /** What the launch trace says of a launch; its text decides whether the package is missing. */
  datatype LaunchError = NoError | NotInstalled(text: string) | OtherError(text: string)

  /** The launch the trace recorded last, of whatever package. */
  datatype Launch = NoLaunch | Launched(p: Package, error: LaunchError)

  /** The presence values the relay commits; Unset is the empty string. */
  datatype Presence = Unset | Online | NoHeartbeat | Dead

  /** What a table row holds in `display_state`. */
  datatype Display = Blank | Launching | Opening | Waiting | WaitingCheck | Checking | Monitoring
                   | Shown(presence: Presence)

  datatype Stage = NoStage | Start | ClearCache | Reopening | Relaunching | WaitOnline | OnlineStage
                 | RecoveryFailed | OtherStage(id: nat)

  /** A timestamp the model only asks "set or not" of is a bool. */
  datatype Row = Row(noHeartbeat: nat, display: Display, lastReal: Presence, committed: Presence,
                     rawOnline: bool, rawDead: bool, launchDispatched: bool,
                     recoveryRequested: bool, recoveryFinished: bool, recoveryError: Reason)

  const FreshRow := Row(0, Blank, Unset, Unset, false, false, false, false, false, NoReason)

  /** `order` is the insertion order of the `_packages` dictionary.  `lastLaunch` is the launch trace, a
      file beside the pointer that recovery reads; it outlives a new Start. */
  datatype Core = Core(order: seq<Package>, rows: map<Package, Row>,
                       queue: seq<Package>, unrecoverable: set<Package>, orphans: seq<Package>,
                       inProgress: bool, active: Package, stage: Stage, lastError: Reason,
                       paused: bool, focus: Package, checking: Package, lastLaunch: Launch)

  const InitCore := Core([], map[], [], {}, [], false, Nobody, NoStage, NoReason, false, Nobody, Nobody, NoLaunch)

  // ---------------------------------------------------------------- rows

  function RowOf(c: Core, p: Package): Row {
    if p in c.rows then c.rows[p] else FreshRow
  }

  /** Stores a row; a new package goes to the end of the iteration order. */
  function Put(c: Core, p: Package, row: Row): Core {
    c.(order := if p in c.rows then c.order else c.order + [p], rows := c.rows[p := row])
  }

  function Ensure(c: Core, p: Package): Core {
    if p in c.rows then c else Put(c, p, FreshRow)
  }

  function EnsureAll(c: Core, ps: seq<Package>): Core
    decreases |ps|
  {
    if ps == [] then c else EnsureAll(Ensure(c, ps[0]), ps[1..])
  }

  function Face(v: Presence): Display {
    if v == Unset then Blank else Shown(v)
  }

  predicate CheckingLike(d: Display) { d.Checking? || d.Monitoring? }

  /** What the table shows for a package (`display_state`); Blank when it has no row. */
  function DisplayState(c: Core, p: Package): Display {
    if p !in c.rows then Blank else RowDisplay(c.rows[p], p == c.checking)
  }

  function RowDisplay(row: Row, inFocus: bool): Display {
    if row.committed == Dead then Shown(Dead)
    else if inFocus then
      if row.committed == Unset then Checking else Shown(row.committed)
    else if row.committed != Unset then Shown(row.committed)
    else
      var val := if row.display == Blank then Face(row.lastReal) else row.display;
      match val
      case WaitingCheck => Waiting
      case Monitoring => Waiting
      case Opening => Launching
      case _ => val
  }

  // ---------------------------------------------------------------- recovery queue

  predicate RecoverableDead(c: Core, p: Package) {
    p in c.rows && c.rows[p].committed == Dead && p !in c.unrecoverable
  }

  /** A recoverable Dead package that nobody is looking after. */
  predicate Unattended(c: Core, p: Package) {
    RecoverableDead(c, p) && !(c.inProgress && c.active == p) && p !in c.queue
  }

  /** The unattended packages among `names`, in order. */
  function UnattendedIn(c: Core, names: seq<Package>): seq<Package> {
    if names == [] then []
    else
      var rest := UnattendedIn(c, names[..|names| - 1]);
      var p := names[|names| - 1];
      if Unattended(c, p) then rest + [p] else rest
  }

  function Recompute(c: Core): Core {
    c.(orphans := UnattendedIn(c, c.order))
  }

  function Without(q: seq<Package>, p: Package): seq<Package> {
    if q == [] then []
    else
      var rest := Without(q[..|q| - 1], p);
      if q[|q| - 1] == p then rest else rest + [q[|q| - 1]]
  }

  /** The entries of a queue from the first one not marked unrecoverable. */
  function SkipUnrecoverable(q: seq<Package>, marked: set<Package>): seq<Package> {
    if q != [] && q[0] in marked then SkipUnrecoverable(q[1..], marked) else q
  }

  /** A recovery of the package was asked for. */
  function Stamped(c: Core, p: Package): Core {
    Put(c, p, RowOf(c, p).(recoveryRequested := true))
  }

  /** The package is stamped, and waits unless it waits already or is being recovered. */
  function Requested(c: Core, p: Package): Core {
    Stamped(c, p).(queue := if p in c.queue || c.active == p then c.queue else c.queue + [p])
  }

  function EnqueueCore(c: Core, p: Package): Core {
    if p == Nobody || p in c.unrecoverable then c else Recompute(Requested(c, p))
  }

  function DequeueCore(c: Core): (Core, Package) {
    var q := SkipUnrecoverable(c.queue, c.unrecoverable);
    if q == [] then (c.(queue := []), Nobody) else (c.(queue := q[1..]), q[0])
  }

  function MarkUnrecoverableCore(c: Core, p: Package): Core {
    if p == Nobody then c
    else Recompute(c.(unrecoverable := c.unrecoverable + {p}, queue := Without(c.queue, p)))
  }

  function SyncCore(c: Core): Core {
    Recompute(c.(queue := c.queue + UnattendedIn(c, c.order)))
  }

  /** A recoverable Dead package whose recovery was never requested. */
  predicate Unrequested(c: Core, p: Package) {
    RecoverableDead(c, p) && !c.rows[p].recoveryRequested
  }

  function UnrequestedIn(c: Core, names: seq<Package>): seq<Package> {
    if names == [] then []
    else
      var rest := UnrequestedIn(c, names[..|names| - 1]);
      var p := names[|names| - 1];
      if Unrequested(c, p) then rest + [p] else rest
  }

  /** The packages among `names` that self-heal has to queue as well as stamp. */
  function UnqueuedIn(c: Core, names: seq<Package>): seq<Package> {
    if names == [] then []
    else
      var rest := UnqueuedIn(c, names[..|names| - 1]);
      var p := names[|names| - 1];
      if Unrequested(c, p) && p !in c.queue && c.active != p then rest + [p] else rest
  }

  function HealCore(c: Core): (Core, seq<Package>) {
    var healed := UnrequestedIn(c, c.order);
    var rows := map p | p in c.rows ::
      if Unrequested(c, p) then c.rows[p].(recoveryRequested := true) else c.rows[p];
    var c1 := c.(rows := rows, queue := c.queue + UnqueuedIn(c, c.order));
    (if healed == [] then c1 else Recompute(c1), healed)
  }

  /** Counted as unrecovered by the header: skips a package that recovered once without error. */
  predicate CountsUnrecovered(c: Core, p: Package) {
    RecoverableDead(c, p) && !(c.rows[p].recoveryFinished && c.rows[p].recoveryError == NoReason)
  }

  function UnrecoveredIn(c: Core, names: seq<Package>): nat {
    if names == [] then 0
    else UnrecoveredIn(c, names[..|names| - 1])
         + (if CountsUnrecovered(c, names[|names| - 1]) then 1 else 0)
  }

  function Unrecovered(c: Core): nat { UnrecoveredIn(c, c.order) }

  // ---------------------------------------------------------------- recovery, focus, presence

  function BeginRecoveryCore(c: Core, p: Package): Core {
    Stamped(c, p).(inProgress := true, active := p, stage := Start)
  }

  /** The row of a package whose recovery just ended. */
  function Settled(row: Row, failed: bool, reason: Reason): Row {
    if !failed then row.(recoveryFinished := true, recoveryError := NoReason, committed := Unset, display := Waiting)
    else if reason == NoReason then row.(recoveryFinished := true)
    else row.(recoveryFinished := true, recoveryError := reason)
  }

  function SettleCore(c: Core, p: Package, failed: bool, reason: Reason): Core {
    Put(c, p, Settled(RowOf(c, p), failed, reason)).(queue := if failed then c.queue else Without(c.queue, p))
  }

  function FreeCore(c: Core, failed: bool, reason: Reason): Core {
    c.(inProgress := false, active := Nobody, stage := if failed then RecoveryFailed else NoStage,
       lastError := if failed then reason else NoReason)
  }

  /** First part of `end_recovery`: release the active package and settle its row. */
  function ReleaseCore(c: Core, failed: bool, reason: Reason): Core {
    var c1 := FreeCore(c, failed, reason);
    if c.active == Nobody then c1 else SettleCore(c1, c.active, failed, reason)
  }

  /** A row that leaves the focus shows its committed or last known state again. */
  function Unfocused(row: Row): Row {
    if !CheckingLike(row.display) then row
    else if row.committed != Unset then row.(display := Shown(row.committed))
    else if row.launchDispatched || row.lastReal == Unset then row.(display := Waiting)
    else row.(display := Shown(row.lastReal))
  }

  function EndFocusCore(c: Core, p: Package): Core {
    c.(focus := if c.focus == p then Nobody else c.focus,
       checking := if c.checking == p then Nobody else c.checking,
       rows := if p in c.rows then c.rows[p := Unfocused(c.rows[p])] else c.rows)
  }

  function EndRecoveryCore(c: Core, failed: bool, reason: Reason, resume: bool): Core {
    var c1 := ReleaseCore(c, failed, reason);
    var c2 := if c.active == Nobody then c1 else EndFocusCore(c1, c.active);
    Recompute(if resume then c2.(paused := false) else c2)
  }

  /** A row that loses the focus to another package gives up its checking marker. */
  function Passed(row: Row): Row {
    if CheckingLike(row.display)
    then row.(display := Face(if row.committed == Unset then row.lastReal else row.committed))
    else row
  }

  function FocusRows(rows: map<Package, Row>, p: Package): map<Package, Row> {
    map q | q in rows :: if q == p then rows[q] else Passed(rows[q])
  }

  /** The package takes the focus; every other row gives up its marker. */
  function FocusCore(c: Core, p: Package): Core {
    c.(focus := p, checking := p, rows := FocusRows(c.rows, p))
  }

  function BeginCheckingCore(c: Core, p: Package): Core {
    Put(FocusCore(c, p), p, RowOf(FocusCore(c, p), p).(display := Checking))
  }

  /** What a method does to one package row and to nothing else. */
  datatype RowOp =
    | Touched                    // evidence source, pid, or a read of the counter: the row now exists
    | Counted                    // increment_no_heartbeat
    | Uncounted                  // reset_no_heartbeat
    | OnlineCached(on: bool)     // raw evidence, not yet committed
    | DeadCached(on: bool)
    | LaunchAsked
    | LaunchSent
    | LaunchDispatched
    | Committed(v: Presence)     // commit_presence_state and finish_checking_decision

  function RowStep(row: Row, r: RowOp): Row {
    match r
    case Touched => row
    case Counted => row.(noHeartbeat := row.noHeartbeat + 1)
    case Uncounted => row.(noHeartbeat := 0)
    case OnlineCached(on) => row.(rawOnline := on)
    case DeadCached(on) => row.(rawDead := on)
    case LaunchAsked => row.(display := Launching)
    case LaunchSent => row.(display := Launching, launchDispatched := true)
    case LaunchDispatched =>
      if row.committed == Dead then row.(launchDispatched := true, display := Shown(Dead))
      else row.(launchDispatched := true, display := Waiting, committed := Unset)
    case Committed(v) =>
      row.(committed := v, lastReal := v, display := Face(v), rawOnline := false, rawDead := false)
  }

  /** The launch methods ignore the empty package name. */
  predicate NamesNobody(p: Package, r: RowOp) {
    p == Nobody && (r.LaunchAsked? || r.LaunchSent? || r.LaunchDispatched?)
  }

  function RowCore(c: Core, p: Package, r: RowOp): Core {
    if NamesNobody(p, r) then c else Put(c, p, RowStep(RowOf(c, p), r))
  }

  function DeadDetectedCore(c: Core, p: Package): Core {
    if p == Nobody then c else EnqueueCore(RowCore(c, p, Committed(Dead)), p)
  }

  function ResetCore(c: Core): Core {
    c.(focus := Nobody, inProgress := false, active := Nobody, stage := NoStage)
  }

  /** `record_launch_attempt`; the empty name is ignored. */
  function LaunchCore(c: Core, p: Package, error: LaunchError): Core {
    if p == Nobody then c else c.(lastLaunch := Launched(p, error))
  }

  /** A new Start forgets queue, focus and marks, but keeps the package rows. */
  function NewStartCore(c: Core): Core {
    InitCore.(order := c.order, rows := c.rows, lastLaunch := c.lastLaunch)
  }

  // ---------------------------------------------------------------- one step

  /** What a method does to the header and to nothing else. */
  datatype ScreenOp =
    | Touch                                            // heartbeat and other calls that only persist
    | SetMode(mode: Mode, text: Option<Text>)
    | SetText(newText: Text)
    | Publish(shownMode: Option<Mode>, shown: Text)    // the Start-phase mirrors
    | StartMonitoring
    | UpdateTimer(elapsed: real, limit: real)
    | RecoveryPointer(p: Package, stage: Stage)
    | ReadHeader

  /** One call of a lock-protected method, or one direct write by the checking system. */
  datatype Op =
    | Screen(h: ScreenOp)
    | OnRow(p: Package, r: RowOp)
    | Reset
    | NewStart
    | Prepare(packages: seq<Package>, ready: bool)     // begin_preparing, begin_getting_ready
    | BeginChecking(p: Package, deadline: real)
    | EndFocus(p: Package)
    | DeadDetected(p: Package)
    | Enqueue(p: Package)
    | Dequeue
    | MarkUnrecoverable(p: Package)
    | Sync
    | SelfHeal
    | BeginRecovery(p: Package)
    | EndRecovery(failed: bool, reason: Reason, resume: bool)
    | SetStage(stage: Stage)
    | SetLastError(error: Reason)
    | Resume
    | SetPause(on: bool)
    | RecordLaunch(p: Package, fault: LaunchError)

  /** What one step does to the core. */
  function Step(c: Core, op: Op): Core {
    match op
    case Screen(_) => c
    case OnRow(p, r) => RowCore(c, p, r)
    case Reset => ResetCore(c)
    case NewStart => NewStartCore(c)
    case Prepare(ps, _) => EnsureAll(c, ps)
    case BeginChecking(p, _) => BeginCheckingCore(c, p)
    case EndFocus(p) => EndFocusCore(c, p)
    case DeadDetected(p) => DeadDetectedCore(c, p)
    case Enqueue(p) => EnqueueCore(c, p)
    case Dequeue => DequeueCore(c).0
    case MarkUnrecoverable(p) => MarkUnrecoverableCore(c, p)
    case Sync => SyncCore(c)
    case SelfHeal => HealCore(c).0
    case BeginRecovery(p) => BeginRecoveryCore(c, p)
    case EndRecovery(failed, reason, resume) => EndRecoveryCore(c, failed, reason, resume)
    case SetStage(stage) => c.(stage := stage)
    case SetLastError(error) => c.(lastError := error)
    case Resume => c.(paused := false)
    case SetPause(on) => c.(paused := on)
    case RecordLaunch(p, error) => LaunchCore(c, p, error)
  }

  function Run(c: Core, ops: seq<Op>): Core {
    if ops == [] then c else Step(Run(c, ops[..|ops| - 1]), ops[|ops| - 1])
  }

  // ---------------------------------------------------------------- header

  datatype Mode = Idle | GettingReady | FirstLaunching | CheckingMode | DeadDetectedMode
                | RecoveryClearCache | RecoveryReopening | RecoveryRelaunching | RecoveryWaitOnline
                | ResumeCheckingMode

  /** Pointer texts.  Static stands for the bare monitoring labels. */
  datatype Text = NoText | Timer(shown: int) | Static | ResumeText | StartRecoveryText | DeadText
                | RecoveryText(p: Package, stage: Stage) | GettingReadyText | PreparingText
                | ClearingCacheText | ReopeningText | RelaunchingText | OnlineText | OtherText(id: nat)

  datatype Source = NoSource | RecoveryInProgress | RecoveryPending | UnrecoveredDead | PausedNoDead
                  | CheckingActive | CheckingIdle | DefaultSource | StageSource | StartSource

  datatype Header = Header(mode: Mode, text: Text, caption: Text, source: Source,
                           elapsed: real, deadline: real)

  /** The pointer history.  `seen` is the specification's own record: every text present at a persist
      point since the last new start. */
  datatype Log = Log(lastText: Text, history: seq<Text>, seen: seq<Text>)

  const InitHeader := Header(Idle, NoText, NoText, NoSource, 0.0, 7.0)

  const InitLog := Log(NoText, [], [])

  datatype State = State(core: Core, header: Header, log: Log)

  const InitState := State(InitCore, InitHeader, InitLog)

  const HISTORY_LIMIT := 16

  function Last<T>(s: seq<T>, n: nat): seq<T> {
    if |s| <= n then s else s[|s| - n..]
  }

  /** `_record_transition_locked`: remember a new non-empty pointer text. */
  function Record(log: Log, text: Text): Log {
    var log1 := log.(seen := log.seen + [text]);
    if text != NoText && text != log.lastText
    then log1.(lastText := text, history := Last(log.history + [text], HISTORY_LIMIT))
    else log1
  }

  function Persist(s: State): State { s.(log := Record(s.log, s.header.text)) }

  function TimerText(elapsed: real, deadline: real): Text {
    var limit := if deadline == 0.0 then 7.0 else deadline;
    var cap := if limit.Floor < 1 then 1 else limit.Floor;
    Timer(if elapsed.Floor < cap then elapsed.Floor else cap)
  }

  /** Whole seconds, between zero and the deadline. */
  function CappedTimer(elapsed: real, limit: real): Text {
    var cap := if limit.Floor < 1 then 1 else limit.Floor;
    var secs := if elapsed.Floor < 0 then 0 else elapsed.Floor;
    Timer(if secs < cap then secs else cap)
  }

  /** `_refresh_header_action_locked`: the header follows from the recovery and focus state. */
  function Refreshed(c: Core, h: Header): Header {
    if c.inProgress && c.active != Nobody then
      var caption := if c.stage == Start then StartRecoveryText else RecoveryText(c.active, c.stage);
      h.(caption := caption, source := RecoveryInProgress, text := caption)
    else if c.queue != [] || c.orphans != [] then
      h.(caption := StartRecoveryText, source := RecoveryPending, text := StartRecoveryText, mode := DeadDetectedMode)
    else if Unrecovered(c) > 0 then
      h.(caption := DeadText, source := UnrecoveredDead, text := DeadText, mode := DeadDetectedMode)
    else if c.paused then
      h.(caption := ResumeText, source := PausedNoDead, text := ResumeText, mode := ResumeCheckingMode)
    else if c.checking != Nobody then
      var caption := if h.text.Timer? then h.text else TimerText(h.elapsed, h.deadline);
      h.(caption := caption, source := CheckingActive, text := caption)
    else if h.mode == CheckingMode then h.(caption := NoText, source := CheckingIdle)
    else h.(caption := if h.text == Static then NoText else h.text, source := DefaultSource)
  }

  function Refresh(s: State): State { s.(header := Refreshed(s.core, s.header)) }

  function Show(s: State, mode: Mode, text: Text): State {
    s.(header := s.header.(mode := mode, text := text))
  }

  function WithCore(s: State, c: Core): State { s.(core := c) }

  // ---------------------------------------------------------------- the methods on whole states

  function DoNewStart(s: State): State {
    Persist(State(NewStartCore(s.core), InitHeader, InitLog))
  }

  function DoBeginChecking(s: State, p: Package, deadline: real): State {
    var h := s.header.(mode := CheckingMode, deadline := deadline, elapsed := 0.0);
    var timer := TimerText(0.0, deadline);
    Persist(s.(core := BeginCheckingCore(s.core, p),
               header := h.(text := timer, caption := timer, source := CheckingActive)))
  }

  function DoRow(s: State, p: Package, r: RowOp): State {
    var s1 := WithCore(s, RowCore(s.core, p, r));
    if NamesNobody(p, r) || r.Touched? || r.Counted? || r.Uncounted? then s1 else Persist(s1)
  }

  function DoEndFocus(s: State, p: Package): State {
    Persist(Refresh(WithCore(s, EndFocusCore(s.core, p))))
  }

  /** `persist` is false for the call made inside `mark_dead_detected`. */
  function DoEnqueue(s: State, p: Package, persist: bool): State {
    if p == Nobody || p in s.core.unrecoverable then s
    else
      var s1 := WithCore(s, EnqueueCore(s.core, p));
      if persist then Persist(Refresh(s1)) else s1
  }

  function DoDeadDetected(s: State, p: Package): State {
    var s1 := Show(s, DeadDetectedMode, DeadText);
    var s2 := if p == Nobody then s1 else DoEnqueue(DoRow(s1, p, Committed(Dead)), p, false);
    Persist(Refresh(s2))
  }

  function DoMarkUnrecoverable(s: State, p: Package): State {
    if p == Nobody then s else Persist(WithCore(s, MarkUnrecoverableCore(s.core, p)))
  }

  function DoSync(s: State): State {
    Persist(WithCore(s, SyncCore(s.core)))
  }

  function DoSelfHeal(s: State): State {
    var (c, healed) := HealCore(s.core);
    if healed == [] then WithCore(s, c) else Persist(Refresh(WithCore(s, c)))
  }

  function DoBeginRecovery(s: State, p: Package): State {
    Persist(Refresh(Show(WithCore(s, BeginRecoveryCore(s.core, p)), DeadDetectedMode, StartRecoveryText)))
  }

  /** The mode and text a recovery stage publishes; None for a stage outside the map. */
  function StageFace(stage: Stage): Option<(Mode, Text)> {
    match stage
    case ClearCache => Some((RecoveryClearCache, ClearingCacheText))
    case Reopening => Some((RecoveryReopening, ReopeningText))
    case Relaunching => Some((RecoveryRelaunching, RelaunchingText))
    case WaitOnline => Some((RecoveryWaitOnline, RelaunchingText))
    case OnlineStage => Some((RecoveryWaitOnline, OnlineText))
    case RecoveryFailed => Some((DeadDetectedMode, StartRecoveryText))
    case _ => None
  }

  /** The header of a recovery stage. */
  function StageShown(h: Header, stage: Stage): Header {
    var (mode, text) := if StageFace(stage).Some? then StageFace(stage).value else (h.mode, h.text);
    h.(mode := mode, text := text, caption := text, source := StageSource)
  }

  function DoSetStage(s: State, stage: Stage): State {
    Persist(WithCore(s, s.core.(stage := stage)).(header := StageShown(s.header, stage)))
  }

  /** The guard of `resume_checking_if_safe`. */
  predicate SafeToResume(c: Core) {
    !c.inProgress && c.queue == [] && c.orphans == [] && Unrecovered(c) == 0
  }

  function DoResume(s: State): (State, bool) {
    var s1 := WithCore(s, s.core.(paused := false));
    var safe := SafeToResume(s1.core);
    (Persist(Refresh(if safe then s1.(header := s1.header.(mode := CheckingMode)) else s1)), safe)
  }

  function DoEndRecovery(s: State, failed: bool, reason: Reason, resume: bool): State {
    var p := s.core.active;
    var s1 := WithCore(s, ReleaseCore(s.core, failed, reason));
    DoCloseRecovery(if p == Nobody then s1 else DoEndFocus(s1, p), resume)
  }

  /** The orphan list is brought up to date only after the decision to resume. */
  function DoCloseRecovery(s: State, resume: bool): State {
    var s1 := if resume then DoResume(s).0 else Refresh(s);
    Persist(WithCore(s1, Recompute(s1.core)))
  }

  function DoPrepare(s: State, ps: seq<Package>, ready: bool): State {
    var s1 := WithCore(s, EnsureAll(s.core, ps));
    if ready then Persist(Refresh(Show(s1, GettingReady, GettingReadyText)))
    else
      var s2 := Show(s1, GettingReady, PreparingText);
      Persist(s2.(header := s2.header.(caption := PreparingText, source := StartSource)))
  }

  function DoScreen(s: State, op: ScreenOp): State {
    match op
    case Touch => Persist(s)
    case SetMode(mode, text) => Persist(Show(s, mode, if text.None? then s.header.text else text.value))
    case SetText(text) => Persist(s.(header := s.header.(text := text)))
    case Publish(mode, text) =>
      Persist(s.(header := s.header.(mode := if mode.None? then s.header.mode else mode.value,
                                     text := text, caption := text, source := StartSource)))
    case StartMonitoring => Persist(Refresh(s.(header := s.header.(mode := CheckingMode))))
    case UpdateTimer(elapsed, limit) =>
      var timer := CappedTimer(elapsed, limit);
      Persist(s.(header := s.header.(text := timer, caption := timer, source := CheckingActive,
                                     elapsed := if elapsed < 0.0 then 0.0 else elapsed)))
    case RecoveryPointer(p, stage) =>
      var shown := if stage == NoStage then s.core.stage else stage;
      Persist(s.(header := s.header.(text := RecoveryText(p, shown))))
    case ReadHeader => Refresh(s)
  }

  /** One step on the whole state. */
  function Apply(s: State, op: Op): State {
    match op
    case Screen(h) => DoScreen(s, h)
    case OnRow(p, r) => DoRow(s, p, r)
    case Reset => Show(WithCore(s, ResetCore(s.core)), Idle, NoText)
    case NewStart => DoNewStart(s)
    case Prepare(ps, ready) => DoPrepare(s, ps, ready)
    case BeginChecking(p, deadline) => DoBeginChecking(s, p, deadline)
    case EndFocus(p) => DoEndFocus(s, p)
    case DeadDetected(p) => DoDeadDetected(s, p)
    case Enqueue(p) => DoEnqueue(s, p, true)
    case Dequeue => WithCore(s, DequeueCore(s.core).0)
    case MarkUnrecoverable(p) => DoMarkUnrecoverable(s, p)
    case Sync => DoSync(s)
    case SelfHeal => DoSelfHeal(s)
    case BeginRecovery(p) => DoBeginRecovery(s, p)
    case EndRecovery(failed, reason, resume) => DoEndRecovery(s, failed, reason, resume)
    case SetStage(stage) => DoSetStage(s, stage)
    case SetLastError(error) => WithCore(s, s.core.(lastError := error))
    case Resume => DoResume(s).0
    case SetPause(on) => WithCore(s, s.core.(paused := on))
    case RecordLaunch(p, error) => WithCore(s, LaunchCore(s.core, p, error))
  }

  function ApplyAll(s: State, ops: seq<Op>): State {
    if ops == [] then s else Apply(ApplyAll(s, ops[..|ops| - 1]), ops[|ops| - 1])
  }

  /** The header never influences the core. */
  lemma StepIsTheCore(s: State, op: Op)
    ensures Apply(s, op).core == Step(s.core, op)
  {
  }

  lemma {:induction false} RunIsTheCore(s: State, ops: seq<Op>)
    ensures ApplyAll(s, ops).core == Run(s.core, ops)
  {
    if ops != [] {
      RunIsTheCore(s, ops[..|ops| - 1]);
      StepIsTheCore(ApplyAll(s, ops[..|ops| - 1]), ops[|ops| - 1]);
    }
  }
}
