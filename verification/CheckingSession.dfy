/** Whole sessions: any mixture of rounds and of pointer calls made by the rest of the program. */
module CheckingSession {
  import opened PointerModel
  import opened QueueLemmas
  import opened PointerInvariants
  import opened RecoveryQueue
  import opened CheckingModel
  import opened CheckingProofs

  /** One thing that happens to the pointer: a round, or a call from elsewhere. */
  datatype Event =
    | RoundStart(h: Handler)
    | FocusOn(p: Package, w: Window, h: Handler)
    | FoundDead(p: Package, h: Handler)
    | Call(op: Op)

  datatype Limits = Limits(noHeartbeat: int, deadline: real)

  ghost predicate EventOk(e: Event) { e.Call? || HandlerOk(e.h) }

  ghost predicate EventsOk(es: seq<Event>) { forall i :: 0 <= i < |es| ==> EventOk(es[i]) }

  /** The pointer steps an event makes. */
  ghost function StepsOf(c: Core, e: Event, m: Limits): (ops: seq<Op>)
    requires WellFormed(c) && EventOk(e)
    ensures WellFormed(Run(c, ops))
  {
    match e
    case RoundStart(h) => Tick(c, h).ops
    case FocusOn(p, w, h) => Focus(c, p, w, m.noHeartbeat, m.deadline, h).0.ops
    case FoundDead(p, h) => FocusDead(c, p, h).ops
    case Call(op) => RunKeepsWellFormed(c, [op]); [op]
  }

  ghost function Session(es: seq<Event>, m: Limits): (c: Core)
    requires EventsOk(es)
    ensures WellFormed(c)
  {
    if es == [] then InitCore
    else
      var c := Session(es[..|es| - 1], m);
      Run(c, StepsOf(c, es[|es| - 1], m))
  }

  /** All the pointer steps of a session. */
  ghost function StepsOfAll(es: seq<Event>, m: Limits): seq<Op>
    requires EventsOk(es)
  {
    if es == [] then []
    else StepsOfAll(es[..|es| - 1], m) + StepsOf(Session(es[..|es| - 1], m), es[|es| - 1], m)
  }

  /** A session is a run of the pointer, so every theorem about runs holds of sessions. */
  lemma {:induction false} SessionIsARun(es: seq<Event>, m: Limits)
    requires EventsOk(es)
    ensures Session(es, m) == Run(InitCore, StepsOfAll(es, m))
  {
    if es != [] {
      var init := es[..|es| - 1];
      SessionIsARun(init, m);
      RunAppend(InitCore, StepsOfAll(init, m), StepsOf(Session(init, m), es[|es| - 1], m));
    }
  }

  // ---------------------------------------------------------------- never stuck paused

  /** The calls from elsewhere that would leave checking paused with no recovery running. */
  ghost predicate Stranding(c: Core, e: Event) { e.Call? && Strands(c, e.op) }

  lemma EventKeepsPauseOk(c: Core, e: Event, m: Limits)
    requires WellFormed(c) && EventOk(e) && PauseOk(c)
    ensures PauseOk(Run(c, StepsOf(c, e, m))) <==> !Stranding(c, e)
  {
    match e {
      case RoundStart(h) => TickKeepsPauseOk(c, h);
      case FocusOn(p, w, h) => FocusKeepsPauseOk(c, p, w, m.noHeartbeat, m.deadline, h);
      case FoundDead(p, h) => FocusDeadEndsPauseOk(c, p, h);
      case Call(op) =>
        RunOne(c, op);
        PauseStrandsExactly(c, op);
    }
  }

  /** At every boundary of every session, a paused checker has a recovery running, whatever the
      handlers did, unless a call from elsewhere strands it. */
  lemma {:induction false} NeverStuckPaused(es: seq<Event>, m: Limits)
    requires EventsOk(es)
    requires forall i :: 0 <= i < |es| ==> !Stranding(Session(es[..i], m), es[i])
    ensures PauseOk(Session(es, m))
  {
    if es != [] {
      var init := es[..|es| - 1];
      forall i | 0 <= i < |init| ensures !Stranding(Session(init[..i], m), init[i]) {
        assert init[..i] == es[..i];
      }
      NeverStuckPaused(init, m);
      assert es[..|es| - 1] == init;
      EventKeepsPauseOk(Session(init, m), es[|es| - 1], m);
    }
  }
}
