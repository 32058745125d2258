/** The remote license gate of agent/commands.py: what the stored license remembers, and when the
    gate opens.  Saving the configuration is taken to succeed. */
module LicenseModel {
  import opened Common

  /** A license key; NoKey is the empty string. */
  datatype Key = NoKey | Key(id: nat)

  /** What a check or a bind came to, after normalisation. */
  datatype Answer = Active | ServerUnavailable | CheckTimeout | ErrorAnswer | NoAnswer
                  | ManualRebind | Rejected(code: nat)

  /** What the server call gave back: it may raise, or report a timeout in its message only. */
  datatype Reply = Raised | Said(answer: Answer, timedOut: bool)

  datatype Status = NotConfigured | Last(answer: Answer)

  /** The stored license section; `checkedAt` is in whole seconds. */
  datatype License = License(key: Key, status: Status, checkedAt: Option<int>)

  const NoLicense := License(NoKey, NotConfigured, None)

  const GRACE_SECONDS := 30.0 * 24.0 * 60.0 * 60.0

  const MAX_RETRIES := 10

  predicate Transient(a: Answer) {
    a.ServerUnavailable? || a.CheckTimeout? || a.ErrorAnswer? || a.NoAnswer?
  }

  function Normalized(r: Reply): Answer {
    match r
    case Raised => ErrorAnswer
    case Said(a, timedOut) => if a == ServerUnavailable && timedOut then CheckTimeout else a
  }

  /** `_license_should_offline_grace`. */
  predicate OfflineGrace(l: License, now: real) {
    l.status == Last(Active) && l.checkedAt.Some? && 0.0 <= now - l.checkedAt.value as real <= GRACE_SECONDS
  }

  function Persisted(l: License, a: Answer, now: real): License {
    l.(status := Last(a), checkedAt := Some(now.Floor))
  }

  // ---------------------------------------------------------------- one attempt

  /** What the prompt for a key gave. */
  datatype Typed = Unavailable | Cancelled | BlankLine | Malformed | Typed(key: Key)

  /** What the user chose after a failure. */
  datatype Choice = Retry | Exit | NoTerminal | Interrupted

  /** Everything outside that one attempt meets. */
  datatype Attempt = Attempt(readable: bool, typed: Typed, reply: Reply, now: real, tty: bool, choice: Choice)

  /** What happened: the server spoke about a key, typed in just now or stored; or the license was erased. */
  datatype Event = Answered(key: Key, answer: Answer, at: real, manual: bool) | Forgot

  datatype Verdict = Open | Shut | Again(forceFresh: bool)

  datatype Tried = Tried(stored: License, events: seq<Event>, verdict: Verdict)

  /** The server is asked about the key in `cfg`, the configuration in memory. */
  function Decide(stored: License, cfg: License, manual: bool, a: Attempt): Tried {
    var answer := Normalized(a.reply);
    var said := [Answered(cfg.key, answer, a.now, manual)];
    var kept := if Transient(answer) then stored else Persisted(cfg, answer, a.now);
    if answer == Active then Tried(kept, said, Open)
    else if Transient(answer) && !manual && OfflineGrace(cfg, a.now) then Tried(kept, said, Open)
    else if !a.tty then
      if Transient(answer) then Tried(kept, said, Shut) else Tried(NoLicense, said + [Forgot], Shut)
    else Tried(NoLicense, said + [Forgot], if a.choice == Retry then Again(true) else Shut)
  }

  /** One turn of the gate's loop. */
  function TryOnce(l: License, forceFresh: bool, a: Attempt): Tried {
    if !a.readable || (!forceFresh && l.key == NoKey && !a.tty) then Tried(l, [], Shut)
    else if !forceFresh && l.key != NoKey then Decide(l, l, false, a)
    else
      var stored := if forceFresh then NoLicense else l;
      var erased := if forceFresh then [Forgot] else [];
      match a.typed
      case Typed(key) =>
        var t := Decide(stored, stored.(key := key), true, a);
        t.(events := erased + t.events)
      case BlankLine => Tried(stored, erased, Again(false))
      case Malformed => Tried(stored, erased, Again(false))
      case _ => Tried(stored, erased, Shut)
  }

  // ---------------------------------------------------------------- one run

  /** How a use of the license ends.  Only the checks without a prompt let an exception of the server call
      through. */
  datatype End = Opened | Refused | LetThrough

  datatype Outcome = Outcome(stored: License, log: seq<Event>, end: End)

  /** `_ensure_remote_license_menu_loop` with `left` attempts to go, numbered downwards; `log` is all
      that happened before. */
  function Gate(l: License, log: seq<Event>, forceFresh: bool, left: nat, attempts: nat -> Attempt): Outcome
    decreases left
  {
    if left == 0 then Outcome(l, log, Refused)
    else
      var t := TryOnce(l, forceFresh, attempts(left));
      match t.verdict
      case Open => Outcome(t.stored, log + t.events, Opened)
      case Shut => Outcome(t.stored, log + t.events, Refused)
      case Again(force) => Gate(t.stored, log + t.events, force, left - 1, attempts)
  }

  // ---------------------------------------------------------------- checks without a prompt

  /** The key is checked once, with no prompt and no grace.  `log` as before. */
  function CheckOnce(l: License, log: seq<Event>, reply: Reply, now: real): Outcome {
    if reply.Raised? then Outcome(l, log, LetThrough)
    else
      var a := Normalized(reply);
      var log1 := log + [Answered(l.key, a, now, false)];
      if Transient(a) then Outcome(l, log1, Refused)
      else if a == ManualRebind then Outcome(NoLicense, log1 + [Forgot], Refused)
      else Outcome(Persisted(l, a, now), log1, if a == Active then Opened else Refused)
  }

  /** Why Start need not ask the server: a bypass, or a license kept locally. */
  datatype StartMode = TestBypass | DevMode | DisabledByUser | LocalKey(key: Key, valid: bool) | Remote

  /** `_cmd_start_run_license_gate`. */
  function StartGate(l: License, log: seq<Event>, mode: StartMode, reply: Reply, now: real): Outcome {
    match mode
    case Remote => CheckOnce(l, log, reply, now)
    case LocalKey(key, valid) => Outcome(l, log, if key != NoKey && valid then Opened else Refused)
    case _ => Outcome(l, log, Opened)
  }
}
