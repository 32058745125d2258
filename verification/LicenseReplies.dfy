/** The license gate judged by what the server call really gave back, reply by reply. */
module LicenseReplies {
  import opened Common
  import opened LicenseModel
  import opened LicenseProofs

  // ---------------------------------------------------------------- replies

  predicate SaidActive(r: Reply) { r.Said? && r.answer == Active }

  /** The server could not be asked, or gave no answer about the key. */
  predicate NoVerdict(r: Reply) {
    match r
    case Raised => true
    case Said(a, _) =>
      match a
      case ServerUnavailable => true
      case CheckTimeout => true
      case ErrorAnswer => true
      case NoAnswer => true
      case Active => false
      case ManualRebind => false
      case Rejected(_) => false
  }

  /** What is logged of a reply: its own answer, and never a definite one when there was none. */
  lemma ReplyIsLogged(r: Reply)
    ensures Normalized(r) == Active <==> SaidActive(r)
    ensures Transient(Normalized(r)) <==> NoVerdict(r)
    ensures !NoVerdict(r) ==> r.Said? && Normalized(r) == r.answer
  {
  }

  // ---------------------------------------------------------------- the turns of a run

  /** One turn of the loop: its attempt, what was stored and had happened before, and whether a fresh key is due. */
  datatype Turn = Turn(at: nat, stored: License, past: seq<Event>, forced: bool)

  function Turns(l: License, log: seq<Event>, forceFresh: bool, left: nat, attempts: nat -> Attempt): seq<Turn>
    decreases left
  {
    if left == 0 then []
    else
      var t := TryOnce(l, forceFresh, attempts(left));
      [Turn(left, l, log, forceFresh)]
      + if t.verdict.Again? then Turns(t.stored, log + t.events, t.verdict.forceFresh, left - 1, attempts) else []
  }

  /** A key has to be typed in. */
  predicate Prompts(t: Turn) { t.forced || t.stored.key == NoKey }

  /** The user gets to type one. */
  predicate MayType(t: Turn, a: Attempt) { a.readable && Prompts(t) && (t.forced || a.tty) }

  /** The server is asked about a key. */
  predicate Asks(t: Turn, a: Attempt) { a.readable && if Prompts(t) then MayType(t, a) && a.typed.Typed? else true }

  function AskedKey(t: Turn, a: Attempt): Key
    requires Asks(t, a)
  {
    if Prompts(t) then a.typed.key else t.stored.key
  }

  /** The stored key was confirmed active by the latest definite answer, at most 30 days ago. */
  predicate InGrace(past: seq<Event>, now: real) {
    LastActive(past).Some? && 0.0 <= now - LastActive(past).value.1.Floor as real <= 30.0 * 86400.0
  }

  /** The server said active; or it gave no verdict about a stored key still in its grace.  A key typed in just now
      has no grace. */
  predicate OpensGate(t: Turn, a: Attempt) {
    Asks(t, a) && (SaidActive(a.reply) || (NoVerdict(a.reply) && !Prompts(t) && InGrace(t.past, a.now)))
  }

  /** The user tries again: after a failure by choice, after a blank or malformed key in any case. */
  predicate GoesOn(t: Turn, a: Attempt) {
    || (Asks(t, a) && !OpensGate(t, a) && a.tty && a.choice == Retry)
    || (MayType(t, a) && (a.typed.BlankLine? || a.typed.Malformed?))
  }

  /** What is stored after the turn. */
  function Leaves(t: Turn, a: Attempt): License {
    if !a.readable || (Prompts(t) && !MayType(t, a)) then t.stored
    else if !Asks(t, a) then if t.forced then NoLicense else t.stored
    else if SaidActive(a.reply) then License(AskedKey(t, a), Last(Active), Some(a.now.Floor))
    else if OpensGate(t, a) || (NoVerdict(a.reply) && !a.tty) then if t.forced then NoLicense else t.stored
    else NoLicense
  }

  lemma GraceIs(l: License, log: seq<Event>, now: real)
    requires Remembers(l, log)
    ensures OfflineGrace(l, now) <==> InGrace(log, now)
  {
    RecallIsLastActive(log);
  }

  lemma DecideByReply(stored: License, cfg: License, manual: bool, a: Attempt, log: seq<Event>)
    requires manual || (cfg == stored && Remembers(stored, log))
    ensures var t := Decide(stored, cfg, manual, a);
            var opens := SaidActive(a.reply) || (NoVerdict(a.reply) && !manual && InGrace(log, a.now));
            && t.verdict == (if opens then Open else if a.tty && a.choice == Retry then Again(true) else Shut)
            && t.stored == (if SaidActive(a.reply) then License(cfg.key, Last(Active), Some(a.now.Floor))
                            else if opens || (NoVerdict(a.reply) && !a.tty) then stored else NoLicense)
            && t.events[0] == Answered(cfg.key, Normalized(a.reply), a.now, manual)
            && (|t.events| == 1 || t.events == [t.events[0], Forgot])
  {
    ReplyIsLogged(a.reply);
    if !manual { GraceIs(cfg, log, a.now); }
  }

  /** One turn, said of the reply: when it opens the gate, when it is followed by another, and what it leaves. */
  lemma TurnByReply(t: Turn, a: Attempt)
    requires Remembers(t.stored, t.past)
    ensures var r := TryOnce(t.stored, t.forced, a);
            && (r.verdict == Open <==> OpensGate(t, a))
            && (r.verdict.Again? <==> GoesOn(t, a))
            && (r.verdict.Again? ==> r.verdict.forceFresh == Asks(t, a))
            && r.stored == Leaves(t, a)
  {
    if Asks(t, a) {
      var stored := if t.forced then NoLicense else t.stored;
      DecideByReply(stored, stored.(key := AskedKey(t, a)), Prompts(t), a, t.past);
    }
  }

  /** What a turn logs about the key it asked for. */
  lemma TurnLogs(t: Turn, a: Attempt, e: Event)
    requires Remembers(t.stored, t.past) && e in TryOnce(t.stored, t.forced, a).events && e.Answered?
    ensures Asks(t, a) && e.key == AskedKey(t, a) && e.manual == Prompts(t) && e.at == a.now
    ensures e.answer == Normalized(a.reply) && (e.answer == Active <==> SaidActive(a.reply))
  {
    ReplyIsLogged(a.reply);
    TurnByReply(t, a);
  }

  // ---------------------------------------------------------------- a whole run

  /** The turns are numbered by their attempts, each knows all that happened before, and it is followed by another
      exactly when the user goes on and attempts are left; a key is asked for afresh after the server was asked. */
  ghost predicate TurnsOk(ts: seq<Turn>, left: nat, attempts: nat -> Attempt)
    decreases left
  {
    if left == 0 then ts == []
    else
      && ts != [] && ts[0].at == left && Remembers(ts[0].stored, ts[0].past)
      && if GoesOn(ts[0], attempts(left))
         then !OpensGate(ts[0], attempts(left)) && TurnsOk(ts[1..], left - 1, attempts)
              && (|ts| > 1 ==> ts[1].stored == Leaves(ts[0], attempts(left))
                               && ts[1].forced == Asks(ts[0], attempts(left)))
         else |ts| == 1
  }

  /** The first of the turns. */
  lemma TurnsStartWith(l: License, log: seq<Event>, forceFresh: bool, left: nat, attempts: nat -> Attempt)
    ensures var ts := Turns(l, log, forceFresh, left, attempts);
            ts == [] || ts[0] == Turn(left, l, log, forceFresh)
  {
  }

  /** What the turn after `t` starts from. */
  lemma NextTurn(t: Turn, a: Attempt)
    requires Remembers(t.stored, t.past) && TryOnce(t.stored, t.forced, a).verdict.Again?
    ensures var r := TryOnce(t.stored, t.forced, a);
            && GoesOn(t, a) && !OpensGate(t, a)
            && Remembers(r.stored, t.past + r.events)
            && r.stored == Leaves(t, a) && r.verdict.forceFresh == Asks(t, a)
  {
    TurnByReply(t, a);
    TryRemembers(t.stored, t.forced, a, t.past);
  }

  /** The turns of every run, by the replies alone. */
  lemma {:induction false} TurnsByReply(l: License, log: seq<Event>, forceFresh: bool, left: nat,
                                        attempts: nat -> Attempt)
    requires Remembers(l, log)
    ensures TurnsOk(Turns(l, log, forceFresh, left, attempts), left, attempts)
    decreases left
  {
    if left > 0 {
      var t := Turn(left, l, log, forceFresh);
      var r := TryOnce(l, forceFresh, attempts(left));
      TurnByReply(t, attempts(left));
      if r.verdict.Again? {
        NextTurn(t, attempts(left));
        TurnsByReply(r.stored, log + r.events, r.verdict.forceFresh, left - 1, attempts);
        TurnsStartWith(r.stored, log + r.events, r.verdict.forceFresh, left - 1, attempts);
      }
    }
  }

  /** Some turn of the run opens the gate. */
  ghost predicate SomeOpens(ts: seq<Turn>, attempts: nat -> Attempt) {
    exists k :: 0 <= k < |ts| && OpensGate(ts[k], attempts(ts[k].at))
  }

  lemma SomeOpensLater(t: Turn, ts: seq<Turn>, attempts: nat -> Attempt)
    requires !OpensGate(t, attempts(t.at))
    ensures SomeOpens([t] + ts, attempts) <==> SomeOpens(ts, attempts)
  {
    var all := [t] + ts;
    if k :| 0 <= k < |ts| && OpensGate(ts[k], attempts(ts[k].at)) { assert all[k + 1] == ts[k]; }
    if k :| 0 <= k < |all| && OpensGate(all[k], attempts(all[k].at)) { assert all[k] == ts[k - 1]; }
  }

  /** A run opens the gate exactly when some turn of it got the reply that the key is active, or no verdict about a
      stored key in its grace; an exception counts as no verdict, and never opens it for a key typed in. */
  lemma {:induction false} GateByReplies(l: License, log: seq<Event>, forceFresh: bool, left: nat,
                                         attempts: nat -> Attempt)
    requires Remembers(l, log)
    ensures Gate(l, log, forceFresh, left, attempts).end == Opened
            <==> SomeOpens(Turns(l, log, forceFresh, left, attempts), attempts)
    decreases left
  {
    if left > 0 {
      var t := Turn(left, l, log, forceFresh);
      var r := TryOnce(l, forceFresh, attempts(left));
      TurnByReply(t, attempts(left));
      if r.verdict.Again? {
        TryRemembers(l, forceFresh, attempts(left), log);
        GateByReplies(r.stored, log + r.events, r.verdict.forceFresh, left - 1, attempts);
        SomeOpensLater(t, Turns(r.stored, log + r.events, r.verdict.forceFresh, left - 1, attempts), attempts);
      } else {
        var ts := Turns(l, log, forceFresh, left, attempts);
        assert ts == [t] && ts[0] == t;
      }
    }
  }

  /** Some turn of the run was told that its key is active. */
  ghost predicate SomeActive(ts: seq<Turn>, attempts: nat -> Attempt, key: Key) {
    exists k :: 0 <= k < |ts| && var a := attempts(ts[k].at);
                                 Asks(ts[k], a) && SaidActive(a.reply) && AskedKey(ts[k], a) == key
  }

  lemma SomeActiveLater(t: Turn, ts: seq<Turn>, attempts: nat -> Attempt, key: Key)
    requires SomeActive(ts, attempts, key)
    ensures SomeActive([t] + ts, attempts, key)
  {
    var k :| 0 <= k < |ts| && var a := attempts(ts[k].at);
                              Asks(ts[k], a) && SaidActive(a.reply) && AskedKey(ts[k], a) == key;
    assert ([t] + ts)[k + 1] == ts[k];
  }

  /** After a run a key is stored as active only if the server said so of it during the run, or the license is the
      one stored before.  No exception, outage or typing makes it so. */
  lemma {:induction false} ActiveOnlyIfSaid(l: License, log: seq<Event>, forceFresh: bool, left: nat,
                                            attempts: nat -> Attempt)
    requires Remembers(l, log)
    ensures var s := Gate(l, log, forceFresh, left, attempts).stored;
            s == l || s == NoLicense
            || (s.status == Last(Active) && SomeActive(Turns(l, log, forceFresh, left, attempts), attempts, s.key))
    decreases left
  {
    if left > 0 {
      var t := Turn(left, l, log, forceFresh);
      var r := TryOnce(l, forceFresh, attempts(left));
      TurnByReply(t, attempts(left));
      if r.verdict.Again? {
        var rest := Turns(r.stored, log + r.events, r.verdict.forceFresh, left - 1, attempts);
        TryRemembers(l, forceFresh, attempts(left), log);
        ActiveOnlyIfSaid(r.stored, log + r.events, r.verdict.forceFresh, left - 1, attempts);
        var s := Gate(l, log, forceFresh, left, attempts).stored;
        if SomeActive(rest, attempts, s.key) { SomeActiveLater(t, rest, attempts, s.key); }
      } else {
        var ts := Turns(l, log, forceFresh, left, attempts);
        assert ts[0] == t;
      }
    }
  }

  /** Nor does a run log any key as active of which the server did not say so. */
  lemma {:induction false} ActiveLoggedOnlyIfSaid(l: License, log: seq<Event>, forceFresh: bool, left: nat,
                                                  attempts: nat -> Attempt, i: nat)
    requires Remembers(l, log)
    requires var all := Gate(l, log, forceFresh, left, attempts).log;
             |log| <= i < |all| && all[i].Answered? && all[i].answer == Active
    ensures SomeActive(Turns(l, log, forceFresh, left, attempts), attempts,
                       Gate(l, log, forceFresh, left, attempts).log[i].key)
    decreases left
  {
    var t, a := Turn(left, l, log, forceFresh), attempts(left);
    var r := TryOnce(l, forceFresh, a);
    var all := Gate(l, log, forceFresh, left, attempts).log;
    var rest := if r.verdict.Again? then Turns(r.stored, log + r.events, r.verdict.forceFresh, left - 1, attempts) else [];
    TryRemembers(l, forceFresh, a, log);
    if i < |log + r.events| {
      if r.verdict.Again? { GateIsExact(r.stored, log + r.events, r.verdict.forceFresh, left - 1, attempts); }
      assert all[i] == r.events[i - |log|];
      TurnLogs(t, a, all[i]);
      assert ([t] + rest)[0] == t;
    } else {
      ActiveLoggedOnlyIfSaid(r.stored, log + r.events, r.verdict.forceFresh, left - 1, attempts, i);
      SomeActiveLater(t, rest, attempts, all[i].key);
    }
  }

  /** So after any history of uses the next run of the menu's gate takes its turns as the replies have it, ten at
      most and ten if the user goes on, and opens exactly when one of them opens it. */
  lemma MenuByReplies(uses: seq<Use>, attempts: nat -> Attempt)
    ensures var was := History(uses);
            var ts := Turns(was.stored, was.log, false, 10, attempts);
            && TurnsOk(ts, 10, attempts)
            && (History(uses + [Menu(attempts)]).end == Opened <==> SomeOpens(ts, attempts))
  {
    var was := History(uses);
    StoreIsRight(uses);
    assert (uses + [Menu(attempts)])[..|uses|] == uses;
    TurnsByReply(was.stored, was.log, false, 10, attempts);
    GateByReplies(was.stored, was.log, false, 10, attempts);
  }

  // ---------------------------------------------------------------- checks without a prompt

  /** What a check without a prompt leaves, said of the reply. */
  lemma CheckByReply(l: License, log: seq<Event>, reply: Reply, now: real)
    ensures var r := CheckOnce(l, log, reply, now);
            && (r.end == Opened <==> SaidActive(reply))
            && r.stored == (if NoVerdict(reply) then l else if reply.answer == ManualRebind then NoLicense
                            else License(l.key, Last(reply.answer), Some(now.Floor)))
  {
    ReplyIsLogged(reply);
  }

  /** Start opens by a bypass, with a valid local key, or when the server says active; only the last of these asks
      the server, and the others change nothing. */
  lemma StartByReply(l: License, log: seq<Event>, mode: StartMode, reply: Reply, now: real)
    ensures var r := StartGate(l, log, mode, reply, now);
            && (r.end == Opened <==>
                  || mode in {TestBypass, DevMode, DisabledByUser}
                  || (mode.LocalKey? && mode.key != NoKey && mode.valid)
                  || (mode.Remote? && SaidActive(reply)))
            && (!mode.Remote? ==> r.stored == l && r.log == log)
  {
    CheckByReply(l, log, reply, now);
  }
}
