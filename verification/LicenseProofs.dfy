/** When the license gate opens, in terms of everything the server ever answered. */
module LicenseProofs {
  import opened Common
  import opened LicenseModel

  // ---------------------------------------------------------------- what is remembered

  /** What one event does to the license that should be stored. */
  function Learn(known: License, e: Event): License {
    match e
    case Forgot => NoLicense
    case Answered(key, a, at, _) => if Transient(a) then known else License(key, Last(a), Some(at.Floor))
  }

  /** The key and the answer of the last time the server gave a definite one, unless erased since. */
  function Recall(log: seq<Event>): License {
    if log == [] then NoLicense else Learn(Recall(log[..|log| - 1]), log[|log| - 1])
  }

  predicate Remembers(l: License, log: seq<Event>) { l == Recall(log) }

  /** The key last confirmed active and the time of that answer, if the last definite answer was active
      and was not erased since. */
  function LastActive(log: seq<Event>): Option<(Key, real)> {
    if log == [] then None
    else
      match log[|log| - 1]
      case Forgot => None
      case Answered(key, a, at, _) =>
        if Transient(a) then LastActive(log[..|log| - 1]) else if a == Active then Some((key, at)) else None
  }

  lemma {:induction false} RecallIsLastActive(log: seq<Event>)
    ensures Recall(log).status == Last(Active) <==> LastActive(log).Some?
    ensures LastActive(log).Some? ==>
              Recall(log) == License(LastActive(log).value.0, Last(Active), Some(LastActive(log).value.1.Floor))
  {
    if log != [] { RecallIsLastActive(log[..|log| - 1]); }
  }

  lemma RecallOne(log: seq<Event>, e: Event)
    ensures Recall(log + [e]) == Learn(Recall(log), e)
  {
    assert (log + [e])[..|log|] == log;
  }

  /** What is right to store after one more answer, and after an erasure. */
  lemma AnswerRemembers(stored: License, cfg: License, log: seq<Event>, a: Answer, now: real, manual: bool)
    requires Remembers(stored, log)
    ensures var log1 := log + [Answered(cfg.key, a, now, manual)];
            && Remembers(if Transient(a) then stored else Persisted(cfg, a, now), log1)
            && Remembers(NoLicense, log1 + [Forgot])
  {
    var said := Answered(cfg.key, a, now, manual);
    RecallOne(log, said);
    RecallOne(log + [said], Forgot);
  }

  lemma DecideRemembers(stored: License, cfg: License, manual: bool, a: Attempt, log: seq<Event>)
    requires Remembers(stored, log)
    ensures Remembers(Decide(stored, cfg, manual, a).stored, log + Decide(stored, cfg, manual, a).events)
  {
    var said := Answered(cfg.key, Normalized(a.reply), a.now, manual);
    AnswerRemembers(stored, cfg, log, Normalized(a.reply), a.now, manual);
    assert log + ([said] + [Forgot]) == log + [said] + [Forgot];
  }

  /** What an attempt has erased before it asks for a key, and what is stored then. */
  function Erased(forceFresh: bool): seq<Event> { if forceFresh then [Forgot] else [] }

  function Before(l: License, forceFresh: bool): License { if forceFresh then NoLicense else l }

  lemma ErasedRemembers(l: License, forceFresh: bool, log: seq<Event>)
    requires Remembers(l, log)
    ensures Remembers(Before(l, forceFresh), log + Erased(forceFresh))
  {
    RecallOne(log, Forgot);
    assert log + [] == log;
  }

  /** An attempt either stops before the server is asked, or decides on its answer. */
  lemma TryCases(l: License, forceFresh: bool, a: Attempt)
    ensures var t, s := TryOnce(l, forceFresh, a), Before(l, forceFresh);
            || (t.verdict != Open && ((t.stored == l && t.events == [])
                                      || (t.stored == s && t.events == Erased(forceFresh))))
            || (!forceFresh && t == Decide(l, l, false, a))
            || (a.typed.Typed?
                && t == Decide(s, s.(key := a.typed.key), true, a)
                       .(events := Erased(forceFresh) + Decide(s, s.(key := a.typed.key), true, a).events))
  {
  }

  lemma TypedRemembers(l: License, forceFresh: bool, a: Attempt, log: seq<Event>)
    requires Remembers(l, log) && a.typed.Typed?
    ensures var s := Before(l, forceFresh);
            var t := Decide(s, s.(key := a.typed.key), true, a);
            Remembers(t.stored, log + (Erased(forceFresh) + t.events))
  {
    var s, erased := Before(l, forceFresh), Erased(forceFresh);
    var t := Decide(s, s.(key := a.typed.key), true, a);
    ErasedRemembers(l, forceFresh, log);
    DecideRemembers(s, s.(key := a.typed.key), true, a, log + erased);
    assert log + (erased + t.events) == log + erased + t.events;
  }

  lemma TryRemembers(l: License, forceFresh: bool, a: Attempt, log: seq<Event>)
    requires Remembers(l, log)
    ensures var t := TryOnce(l, forceFresh, a); Remembers(t.stored, log + t.events)
  {
    TryCases(l, forceFresh, a);
    ErasedRemembers(l, forceFresh, log);
    DecideRemembers(l, l, false, a, log);
    if a.typed.Typed? { TypedRemembers(l, forceFresh, a, log); }
    assert log + [] == log;
  }

  // ---------------------------------------------------------------- when the gate opens

  /** The server said active; or it could not be reached about a stored key, and that key was confirmed
      active by the latest definite answer, at most 30 days ago. */
  predicate Opens(past: seq<Event>, e: Event) {
    && e.Answered?
    && (e.answer == Active
        || (Transient(e.answer) && !e.manual && LastActive(past).Some?
            && e.key == LastActive(past).value.0
            && 0.0 <= e.at - LastActive(past).value.1.Floor as real <= GRACE_SECONDS))
  }

  /** Some answer since `from` opens the gate. */
  ghost predicate OpenedBy(log: seq<Event>, from: nat) {
    exists i :: from <= i < |log| && Opens(log[..i], log[i])
  }

  lemma DecideOpens(stored: License, cfg: License, manual: bool, a: Attempt, log: seq<Event>)
    requires manual || Remembers(cfg, log)
    ensures var t := Decide(stored, cfg, manual, a);
            t.verdict == Open <==> OpenedBy(log + t.events, |log|)
  {
    var t := Decide(stored, cfg, manual, a);
    var all := log + t.events;
    assert all[..|log|] == log && all[|log|] == t.events[0];
    RecallIsLastActive(log);
    if t.verdict == Open { assert Opens(all[..|log|], all[|log|]); }
  }

  lemma TypedOpens(l: License, forceFresh: bool, a: Attempt, log: seq<Event>)
    requires a.typed.Typed?
    ensures var s := Before(l, forceFresh);
            var t := Decide(s, s.(key := a.typed.key), true, a);
            t.verdict == Open <==> OpenedBy(log + (Erased(forceFresh) + t.events), |log|)
  {
    var s, erased := Before(l, forceFresh), Erased(forceFresh);
    var t := Decide(s, s.(key := a.typed.key), true, a);
    DecideOpens(s, s.(key := a.typed.key), true, a, log + erased);
    assert log + (erased + t.events) == log + erased + t.events;
    assert (log + erased + t.events)[..|log + erased|] == log + erased;
    OpenedLater(log + erased + t.events, |log|, |log + erased|);
  }

  lemma TryOpens(l: License, forceFresh: bool, a: Attempt, log: seq<Event>)
    requires Remembers(l, log)
    ensures var t := TryOnce(l, forceFresh, a);
            t.verdict == Open <==> OpenedBy(log + t.events, |log|)
  {
    TryCases(l, forceFresh, a);
    DecideOpens(l, l, false, a, log);
    if a.typed.Typed? { TypedOpens(l, forceFresh, a, log); }
  }

  /** What a run made of the past `log`: it opened if and only if one of the answers it got opens the
      gate, it asked the server at most `limit` times, it kept the past, and what it stored is right. */
  ghost predicate RunOk(log: seq<Event>, r: Outcome, limit: nat) {
    && Remembers(r.stored, r.log)
    && log <= r.log
    && (r.end == Opened <==> OpenedBy(r.log, |log|))
    && r.end != LetThrough
    && Calls(r.log) <= Calls(log) + limit
  }

  lemma RunContinues(log: seq<Event>, mid: seq<Event>, r: Outcome, limit: nat)
    requires log <= mid && !OpenedBy(mid, |log|) && Calls(mid) <= Calls(log) + 1 && RunOk(mid, r, limit)
    ensures RunOk(log, r, limit + 1)
  {
    assert r.log[..|mid|] == mid;
    OpenedLater(r.log, |log|, |mid|);
  }

  /** Every run of the gate, whatever the server, the clock and the user do. */
  lemma {:induction false} GateIsExact(l: License, log: seq<Event>, forceFresh: bool, left: nat, attempts: nat -> Attempt)
    requires Remembers(l, log)
    ensures RunOk(log, Gate(l, log, forceFresh, left, attempts), left)
    decreases left
  {
    if left > 0 {
      var a := attempts(left);
      var t := TryOnce(l, forceFresh, a);
      var mid := log + t.events;
      TryRemembers(l, forceFresh, a, log);
      TryOpens(l, forceFresh, a, log);
      TryCallsOnce(l, forceFresh, a, log);
      if t.verdict.Again? {
        GateIsExact(t.stored, mid, t.verdict.forceFresh, left - 1, attempts);
        RunContinues(log, mid, Gate(t.stored, mid, t.verdict.forceFresh, left - 1, attempts), left - 1);
      }
    }
  }

  lemma OpenedLater(log: seq<Event>, from: nat, mid: nat)
    requires from <= mid <= |log| && !OpenedBy(log[..mid], from)
    ensures OpenedBy(log, from) <==> OpenedBy(log, mid)
  {
    forall i | from <= i < mid ensures !Opens(log[..i], log[i]) {
      assert log[..mid][..i] == log[..i] && log[..mid][i] == log[i];
    }
  }

  /** How often the server was asked. */
  function Calls(log: seq<Event>): nat {
    if log == [] then 0
    else Calls(log[..|log| - 1]) + (if log[|log| - 1].Answered? then 1 else 0)
  }

  lemma {:induction false} CallsAdd(a: seq<Event>, b: seq<Event>)
    ensures Calls(a + b) == Calls(a) + Calls(b)
  {
    if b == [] {
      assert a + b == a;
    } else {
      CallsAdd(a, b[..|b| - 1]);
      assert (a + b)[..|a + b| - 1] == a + b[..|b| - 1];
    }
  }

  lemma TryCallsOnce(l: License, forceFresh: bool, a: Attempt, log: seq<Event>)
    ensures Calls(log + TryOnce(l, forceFresh, a).events) <= Calls(log) + 1
  {
    TryCases(l, forceFresh, a);
    var events := TryOnce(l, forceFresh, a).events;
    CallsAdd(log, events);
    DecideCallsOnce(l, l, false, a);
    assert Calls([]) == 0 && Calls([Forgot]) == Calls([Forgot][..0]);
    if a.typed.Typed? {
      var s := Before(l, forceFresh);
      DecideCallsOnce(s, s.(key := a.typed.key), true, a);
      CallsAdd(Erased(forceFresh), Decide(s, s.(key := a.typed.key), true, a).events);
    }
  }

  lemma DecideCallsOnce(stored: License, cfg: License, manual: bool, a: Attempt)
    ensures Calls(Decide(stored, cfg, manual, a).events) == 1
  {
    var said := Answered(cfg.key, Normalized(a.reply), a.now, manual);
    CallsAdd([said], [Forgot]);
    assert [said][..0] == [] && [Forgot][..0] == [] && [said] + [Forgot] == [said, Forgot];
  }

  // ---------------------------------------------------------------- whole histories

  /** One use of the license: the menu's gate, a check without a prompt, or the gate of Start. */
  datatype Use = Menu(attempts: nat -> Attempt) | Verify(reply: Reply, now: real)
               | Start(mode: StartMode, reply: Reply, now: real)

  function Used(l: License, log: seq<Event>, u: Use): Outcome {
    match u
    case Menu(attempts) => Gate(l, log, false, MAX_RETRIES, attempts)
    case Verify(reply, now) => CheckOnce(l, log, reply, now)
    case Start(mode, reply, now) => StartGate(l, log, mode, reply, now)
  }

  function History(uses: seq<Use>): Outcome {
    if uses == [] then Outcome(NoLicense, [], Refused)
    else
      var r := History(uses[..|uses| - 1]);
      Used(r.stored, r.log, uses[|uses| - 1])
  }

  lemma AnswerCalls(log: seq<Event>, said: Event)
    requires said.Answered?
    ensures Calls(log + [said]) == Calls(log + [said] + [Forgot]) == Calls(log) + 1
  {
    CallsOne(log, said);
    CallsOne(log + [said], Forgot);
  }

  /** A check without a prompt opens only on an active answer, never by grace; an exception of the server call
      passes through and changes nothing. */
  lemma CheckIsExact(l: License, log: seq<Event>, reply: Reply, now: real)
    requires Remembers(l, log)
    ensures var r := CheckOnce(l, log, reply, now);
            && Remembers(r.stored, r.log) && log <= r.log
            && (r.end == Opened <==> reply.Said? && reply.answer == Active)
            && (r.end == LetThrough <==> reply.Raised?)
            && (reply.Raised? ==> r.stored == l && r.log == log)
            && Calls(r.log) == Calls(log) + if reply.Raised? then 0 else 1
  {
    if reply.Said? {
      AnswerRemembers(l, l, log, Normalized(reply), now, false);
      AnswerCalls(log, Answered(l.key, Normalized(reply), now, false));
    }
  }

  lemma CallsOne(log: seq<Event>, e: Event)
    ensures Calls(log + [e]) == Calls(log) + (if e.Answered? then 1 else 0)
  {
    assert (log + [e])[..|log|] == log;
  }

  lemma UseRemembers(l: License, log: seq<Event>, u: Use)
    requires Remembers(l, log)
    ensures Remembers(Used(l, log, u).stored, Used(l, log, u).log)
  {
    match u {
      case Menu(attempts) => GateIsExact(l, log, false, MAX_RETRIES, attempts);
      case Verify(reply, now) => CheckIsExact(l, log, reply, now);
      case Start(_, reply, now) => CheckIsExact(l, log, reply, now);
    }
  }

  /** After any history of uses, the stored license is what the answers so far say it should be. */
  lemma {:induction false} StoreIsRight(uses: seq<Use>)
    ensures Remembers(History(uses).stored, History(uses).log)
  {
    if uses != [] {
      var r := History(uses[..|uses| - 1]);
      StoreIsRight(uses[..|uses| - 1]);
      UseRemembers(r.stored, r.log, uses[|uses| - 1]);
    }
  }

  /** So after any history the next run of the menu's gate opens exactly when one of its own answers
      opens it, judged on every answer ever given, and asks at most ten times. */
  lemma MenuOverHistory(uses: seq<Use>, attempts: nat -> Attempt)
    ensures RunOk(History(uses).log, History(uses + [Menu(attempts)]), 10)
  {
    var r := History(uses);
    StoreIsRight(uses);
    assert (uses + [Menu(attempts)])[..|uses|] == uses;
    GateIsExact(r.stored, r.log, false, MAX_RETRIES, attempts);
  }

  /** Outages never extend the window: an answer that opens the gate after any number of further
      outages would have opened it without them. */
  lemma {:induction false} OutagesExtendNothing(past: seq<Event>, outages: seq<Event>, e: Event)
    requires forall i :: 0 <= i < |outages| ==> outages[i].Answered? && Transient(outages[i].answer)
    ensures Opens(past + outages, e) <==> Opens(past, e)
  {
    if outages == [] {
      assert past + outages == past;
    } else {
      OutagesExtendNothing(past, outages[..|outages| - 1], e);
      assert (past + outages)[..|past + outages| - 1] == past + outages[..|outages| - 1];
    }
  }

  /** An outage at the menu costs the stored key exactly when the user is at a terminal and the grace
      has run out: the failure handler erases without looking at the answer. */
  lemma OutageErasesKeyExactly(l: License, a: Attempt)
    requires l.key != NoKey && a.readable && Transient(Normalized(a.reply))
    ensures TryOnce(l, false, a).stored.key != l.key <==> a.tty && !OfflineGrace(l, a.now)
  {
  }
}
