/** The gate as it runs, over the stored configuration. */
module LicenseGate {
  import opened Common
  import opened LicenseModel

  class LicenseStore {
    var stored: License
    ghost var log: seq<Event>

    constructor ()
      ensures stored == NoLicense && log == []
    {
      stored, log := NoLicense, [];
    }

    /** `_persist_license_status`. */
    method Persist(cfg: License, a: Answer, now: real) returns (saved: License)
      modifies this`stored
      ensures saved == stored == Persisted(cfg, a, now)
    {
      saved := cfg.(status := Last(a), checkedAt := Some(now.Floor));
      stored := saved;
    }

    /** `_clear_cached_license_key`. */
    method Clear(cfg: License) returns (cleared: License)
      modifies this
      ensures cleared == stored == NoLicense && log == old(log) + [Forgot]
    {
      cleared := cfg.(key := NoKey).(status := NotConfigured, checkedAt := None);
      stored, log := cleared, log + [Forgot];
    }

    /** The server's verdict on the key in `cfg`, and what follows from it. */
    method Judge(cfg: License, manual: bool, a: Attempt) returns (v: Verdict)
      modifies this
      ensures var t := Decide(old(stored), cfg, manual, a);
              stored == t.stored && log == old(log) + t.events && v == t.verdict
    {
      var answer := Normalized(a.reply);
      log := log + [Answered(cfg.key, answer, a.now, manual)];
      if answer == Active {
        var _ := Persist(cfg, Active, a.now);
        return Open;
      }
      if Transient(answer) && !manual && OfflineGrace(cfg, a.now) { return Open; }
      var current := cfg;
      if !Transient(answer) { current := Persist(cfg, answer, a.now); }
      if !a.tty {
        if !Transient(answer) { current := Clear(current); }
        return Shut;
      }
      current := Clear(current);
      v := if a.choice == Retry then Again(true) else Shut;
    }

    /** `_ensure_remote_license_menu_loop`: at most ten attempts. */
    method EnsureRemoteLicense(attempts: nat -> Attempt) returns (end: End)
      modifies this
      ensures var r := Gate(old(stored), old(log), false, MAX_RETRIES, attempts);
              stored == r.stored && log == r.log && end == r.end
    {
      var left := MAX_RETRIES;
      var forceFresh := false;
      ghost var all := Gate(stored, log, false, MAX_RETRIES, attempts);
      while left > 0
        invariant 0 <= left && all == Gate(stored, log, forceFresh, left, attempts)
      {
        ghost var before, past, forced := stored, log, forceFresh;
        var a := attempts(left);
        left := left - 1;
        var v: Verdict;
        if !a.readable { return Refused; }
        var cfg := stored;
        if forceFresh || cfg.key == NoKey {
          if forceFresh {
            forceFresh := false;
            cfg := Clear(cfg);
          } else if !a.tty {
            return Refused;
          }
          match a.typed {
            case Typed(key) =>
              v := Judge(cfg.(key := key), true, a);
            case BlankLine => v := Again(false);
            case Malformed => v := Again(false);
            case _ => return Refused;
          }
        } else {
          v := Judge(cfg, false, a);
        }
        assert log == past + TryOnce(before, forced, a).events;
        assert v == TryOnce(before, forced, a).verdict;
        match v {
          case Open => return Opened;
          case Shut => return Refused;
          case Again(force) => forceFresh := force;
        }
      }
      return Refused;
    }

    /** The single check behind `verify_remote_license_noninteractive` and the Start gate. */
    method CheckRemoteLicense(reply: Reply, now: real) returns (end: End)
      modifies this
      ensures var r := CheckOnce(old(stored), old(log), reply, now);
              stored == r.stored && log == r.log && end == r.end
    {
      if reply.Raised? { return LetThrough; }
      var a := Normalized(reply);
      log := log + [Answered(stored.key, a, now, false)];
      if a == Active {
        var _ := Persist(stored, Active, now);
        return Opened;
      }
      if !Transient(a) { var _ := Persist(stored, a, now); }
      if a == ManualRebind { var _ := Clear(stored); }
      return Refused;
    }

    /** The gate of Start: a bypass or a local license never asks the server. */
    method RunStartGate(mode: StartMode, reply: Reply, now: real) returns (end: End)
      modifies this
      ensures var r := StartGate(old(stored), old(log), mode, reply, now);
              stored == r.stored && log == r.log && end == r.end
    {
      if mode.TestBypass? || mode.DevMode? || mode.DisabledByUser? { return Opened; }
      if mode.LocalKey? { return if mode.key != NoKey && mode.valid then Opened else Refused; }
      end := CheckRemoteLicense(reply, now);
    }
  }
}
