/** The mass cache clear of Start: `clear_packages_cache_mass_batch` and
    `clear_package_cache_for_start` of agent/android.py, under the budget of
    agent/cache_clear_phases.py. */
module CacheClear {
  import opened Common

  /** What the caller names: a valid package, or a name the validator rejects. */
  datatype Name = Good(id: nat) | Bad(id: nat)

  datatype Outcome = Cleared | FailedClear | TimedOut | Skipped | Aborted

  /** How a root shell ended. */
  datatype Shell = Raised | Ran(timedOut: bool, ok: bool, returnCode: int)

  /** Everything the loop meets at one package: the clock and the abort flag when it looks, and the
      shell, with the time it took, if it gets that far. */
  datatype Tick = Tick(now: real, abort: bool, shell: Shell, took: real)

  const PER_PACKAGE_TIMEOUT := 2
  const BATCH_MAX := 5.0

  function Max(a: int, b: int): int { if a < b then b else a }
  function Min(a: int, b: int): int { if a < b then a else b }
  function RealMax(a: real, b: real): real { if a < b then b else a }
  function RealMin(a: real, b: real): real { if a < b then a else b }

  /** `int()` of a float: rounded towards zero. */
  function Truncated(x: real): int { if x < 0.0 then -((-x).Floor) else x.Floor }

  /** `start_cache_clear_batch_budget_s`. */
  function StartBudget(count: int): real {
    RealMin(BATCH_MAX, Max(0, count) as real * PER_PACKAGE_TIMEOUT as real)
  }

  // ---------------------------------------------------------------- one package

  /** What a shell result is called; a shell that could not be run failed. */
  function LabelOf(shell: Shell): Outcome {
    match shell
    case Raised => FailedClear
    case Ran(timedOut, ok, code) =>
      if timedOut then TimedOut else if ok || code == 0 || code == 1 then Cleared else FailedClear
  }

  /** The timeout the root shell really gets. */
  function ShellTimeout(asked: int): int { Max(5, asked) }

  /** The timeout the loop asks for. */
  function AskedTimeout(perPackage: int, remaining: real): int {
    Max(1, Min(Max(1, perPackage), Truncated(remaining)))
  }

  // ---------------------------------------------------------------- where the batch stops

  /** At this package the loop stops: out of time, or asked to abort. */
  predicate Stops(t: Tick, deadline: real) { deadline - t.now <= 0.0 || t.abort }

  /** The label of everything from the stop on. */
  function TailLabel(t: Tick, deadline: real): Outcome {
    if deadline - t.now <= 0.0 then TimedOut else Aborted
  }

  /** How many packages are attempted, out of `n`. */
  function Cut(ticks: nat -> Tick, deadline: real, n: nat): (k: nat)
    ensures k <= n
    ensures forall i | 0 <= i < k :: !Stops(ticks(i), deadline)
    ensures k < n ==> Stops(ticks(k), deadline)
  {
    if n == 0 then 0
    else
      var k := Cut(ticks, deadline, n - 1);
      if k < n - 1 || Stops(ticks(n - 1), deadline) then k else n
  }

  /** The last attempt on `p` among the first `k` packages. */
  function LastAttempt(packages: seq<Name>, k: nat, p: Name): (i: Option<nat>)
    requires k <= |packages|
    ensures i.Some? ==> i.value < k && packages[i.value] == p
    ensures forall j | 0 <= j < k && packages[j] == p :: i.Some? && j <= i.value
  {
    if k == 0 then None
    else if packages[k - 1] == p then Some(k - 1)
    else LastAttempt(packages, k - 1, p)
  }

  /** The label each package must end with: that of its last attempt; for a package never attempted,
      that of the stop. */
  function BatchLabel(packages: seq<Name>, ticks: nat -> Tick, deadline: real, p: Name): Outcome
    requires p in packages
  {
    var k := Cut(ticks, deadline, |packages|);
    var last := LastAttempt(packages, k, p);
    if last.Some? then LabelOf(ticks(last.value).shell)
    else
      assert k < |packages|;
      TailLabel(ticks(k), deadline)
  }

  function GoodNames(names: seq<Name>): (r: seq<Name>)
    ensures forall p :: p in r <==> p in names && p.Good?
    ensures |r| <= |names|
  {
    if names == [] then []
    else
      var rest := GoodNames(names[..|names| - 1]);
      assert names == names[..|names| - 1] + [names[|names| - 1]];
      if names[|names| - 1].Good? then rest + [names[|names| - 1]] else rest
  }

  /** The valid names keep their order. */
  lemma {:induction false} GoodNamesAppend(a: seq<Name>, b: seq<Name>, all: seq<Name>)
    requires all == a + b
    ensures GoodNames(all) == GoodNames(a) + GoodNames(b)
    decreases |b|
  {
    if b == [] {
      assert all == a;
    } else {
      GoodNamesAppend(a, b[..|b| - 1], all[..|all| - 1]);
    }
  }

  // ---------------------------------------------------------------- the batch

  /** `results.setdefault` for a whole list. */
  method LabelRest(results: map<Name, Outcome>, rest: seq<Name>, outcome: Outcome) returns (r: map<Name, Outcome>)
    ensures forall p :: p in r <==> p in results || p in rest
    ensures forall p :: p in r ==> r[p] == if p in results then results[p] else outcome
  {
    r := results;
    for i := 0 to |rest|
      invariant forall p :: p in r <==> p in results || p in rest[..i]
      invariant forall p :: p in r ==> r[p] == if p in results then results[p] else outcome
    {
      if rest[i] !in r { r := r[rest[i] := outcome]; }
      assert rest[..i + 1] == rest[..i] + [rest[i]];
    }
    assert rest[..|rest|] == rest;
  }

  method SplitNames(names: seq<Name>) returns (packages: seq<Name>, results: map<Name, Outcome>)
    ensures packages == GoodNames(names)
    ensures forall p :: p in results <==> p in names && p.Bad?
    ensures forall p :: p in results ==> results[p] == FailedClear
  {
    packages, results := [], map[];
    for i := 0 to |names|
      invariant packages == GoodNames(names[..i])
      invariant forall p :: p in results <==> p in names[..i] && p.Bad?
      invariant forall p :: p in results ==> results[p] == FailedClear
    {
      assert names[..i + 1] == names[..i] + [names[i]];
      if names[i].Good? { packages := packages + [names[i]]; } else { results := results[names[i] := FailedClear]; }
    }
    assert names[..|names|] == names;
  }

  /** The deadline of a batch that starts at `start`. */
  function Deadline(start: real, perPackage: int, batchMax: Option<real>, count: nat): real {
    start + RealMax(0.5, if batchMax.Some? then batchMax.value else Max(1, perPackage) as real * count as real)
  }

  /** The labels after the first `k` attempts. */
  ghost predicate Attempted(results: map<Name, Outcome>, bad: map<Name, Outcome>, packages: seq<Name>,
                            k: nat, ticks: nat -> Tick)
    requires k <= |packages|
  {
    && (forall p :: p in results <==> p in bad || p in packages[..k])
    && (forall p :: p in results ==>
          var last := LastAttempt(packages, k, p);
          results[p] == if last.Some? then LabelOf(ticks(last.value).shell) else if p in bad then bad[p] else Aborted)
  }

  /** The timeouts of the attempts are the ones the loop computes from the clock. */
  ghost predicate TimeoutsOk(timeouts: seq<int>, ticks: nat -> Tick, deadline: real, perPackage: int) {
    forall i :: 0 <= i < |timeouts| ==>
      timeouts[i] == ShellTimeout(AskedTimeout(perPackage, deadline - ticks(i).now))
  }

  lemma AttemptOne(results: map<Name, Outcome>, bad: map<Name, Outcome>, packages: seq<Name>, k: nat, ticks: nat -> Tick)
    requires k < |packages| && Attempted(results, bad, packages, k, ticks)
    ensures Attempted(results[packages[k] := LabelOf(ticks(k).shell)], bad, packages, k + 1, ticks)
  {
    assert packages[..k + 1] == packages[..k] + [packages[k]];
  }

  /** Past the cut: every package without a label gets the one of the stop. */
  method LabelTail(attempted: map<Name, Outcome>, ghost bad: map<Name, Outcome>, packages: seq<Name>, k: nat,
                   ticks: nat -> Tick, deadline: real)
    returns (results: map<Name, Outcome>)
    requires k < |packages| && Cut(ticks, deadline, |packages|) == k && Attempted(attempted, bad, packages, k, ticks)
    requires forall p :: p in packages ==> p !in bad
    ensures forall p :: p in results <==> p in bad || p in packages
    ensures forall p :: p in bad ==> results[p] == bad[p]
    ensures forall p :: p in packages ==> results[p] == BatchLabel(packages, ticks, deadline, p)
  {
    results := LabelRest(attempted, packages[k..], if deadline - ticks(k).now <= 0.0 then TimedOut else Aborted);
    assert packages == packages[..k] + packages[k..];
  }

  /** The loop: it attempts packages until it is out of time, out of packages, or told to abort. */
  method AttemptAll(packages: seq<Name>, bad: map<Name, Outcome>, perPackage: int, deadline: real, ticks: nat -> Tick)
    returns (results: map<Name, Outcome>, timeouts: seq<int>)
    requires forall p :: p in packages ==> p !in bad
    ensures |timeouts| == Cut(ticks, deadline, |packages|) && TimeoutsOk(timeouts, ticks, deadline, perPackage)
    ensures forall p :: p in results <==> p in bad || p in packages
    ensures forall p :: p in bad ==> results[p] == bad[p]
    ensures forall p :: p in packages ==> results[p] == BatchLabel(packages, ticks, deadline, p)
  {
    results, timeouts := bad, [];
    for k := 0 to |packages|
      invariant Cut(ticks, deadline, k) == k == |timeouts| && TimeoutsOk(timeouts, ticks, deadline, perPackage)
      invariant Attempted(results, bad, packages, k, ticks)
    {
      var remaining := deadline - ticks(k).now;
      if remaining <= 0.0 || ticks(k).abort {
        CutAt(ticks, deadline, k, |packages|);
        results := LabelTail(results, bad, packages, k, ticks, deadline);
        return;
      }
      var asked := AskedTimeout(perPackage, remaining);
      var outcome := ClearForStart(asked, ticks(k).shell);
      AttemptOne(results, bad, packages, k, ticks);
      results := results[packages[k] := outcome];
      timeouts := timeouts + [ShellTimeout(asked)];
    }
    assert packages[..|packages|] == packages;
  }

  /** Every name gets a label, whatever happens; the labels of attempts survive the cut. */
  method ClearMassBatch(names: seq<Name>, root: bool, perPackage: int, batchMax: Option<real>,
                        start: real, ticks: nat -> Tick)
    returns (results: map<Name, Outcome>, timeouts: seq<int>)
    ensures forall p :: p in results <==> p in names
    ensures forall p :: p in names && p.Bad? ==> results[p] == FailedClear
    ensures !root ==> timeouts == [] && forall p :: p in names && p.Good? ==> results[p] == Skipped
    ensures root ==>
      var packages := GoodNames(names);
      var deadline := Deadline(start, perPackage, batchMax, |packages|);
      && (forall p :: p in packages ==> results[p] == BatchLabel(packages, ticks, deadline, p))
      && |timeouts| == Cut(ticks, deadline, |packages|) && TimeoutsOk(timeouts, ticks, deadline, perPackage)
    ensures root && Distinct(names) ==>
      forall j | 0 <= j < |names| && names[j].Good? :: names[j] in results && results[names[j]] ==
        if ValidBefore(names, j) < |timeouts| then LabelOf(ticks(ValidBefore(names, j)).shell)
        else TailLabel(ticks(|timeouts|), Deadline(start, perPackage, batchMax, |GoodNames(names)|))
  {
    var packages;
    packages, results := SplitNames(names);
    timeouts := [];
    if packages == [] { return; }
    if !root {
      results := LabelRest(results, packages, Skipped);
      return;
    }
    var deadline := Deadline(start, perPackage, batchMax, |packages|);
    results, timeouts := AttemptAll(packages, results, perPackage, deadline, ticks);
    forall j | Distinct(names) && 0 <= j < |names| && names[j].Good?
      ensures names[j] in packages && BatchLabel(packages, ticks, deadline, names[j]) ==
        if ValidBefore(names, j) < |timeouts| then LabelOf(ticks(ValidBefore(names, j)).shell)
        else TailLabel(ticks(|timeouts|), deadline)
    {
      CallersOrder(names, ticks, deadline, j);
    }
  }

  /** `clear_package_cache_for_start`, with its shell's answer given. */
  method ClearForStart(asked: int, shell: Shell) returns (outcome: Outcome)
    ensures outcome == LabelOf(shell)
  {
    if shell.Raised? { return FailedClear; }
    if shell.timedOut { return TimedOut; }
    if shell.ok || shell.returnCode == 0 || shell.returnCode == 1 { return Cleared; }
    return FailedClear;
  }

  /** The cut is the first stop, whatever lies behind it. */
  lemma {:induction false} CutAt(ticks: nat -> Tick, deadline: real, k: nat, n: nat)
    requires k <= n && Cut(ticks, deadline, k) == k && (k < n ==> Stops(ticks(k), deadline))
    ensures Cut(ticks, deadline, n) == k
  {
  }

  /** Without repeats the valid packages split cleanly: those before the cut keep the label of their own
      attempt, those behind it all share one label. */
  lemma CleanCut(packages: seq<Name>, ticks: nat -> Tick, deadline: real, i: nat)
    requires forall a, b :: 0 <= a < b < |packages| ==> packages[a] != packages[b]
    requires i < |packages|
    ensures var k := Cut(ticks, deadline, |packages|);
            BatchLabel(packages, ticks, deadline, packages[i])
            == if i < k then LabelOf(ticks(i).shell) else TailLabel(ticks(k), deadline)
  {
  }

  // ---------------------------------------------------------------- the caller's order

  /** How many valid names stand before place `j`. */
  function ValidBefore(names: seq<Name>, j: nat): nat
    requires j <= |names|
  {
    if j == 0 then 0 else ValidBefore(names, j - 1) + (if names[j - 1].Good? then 1 else 0)
  }

  /** No valid name is given twice. */
  predicate Distinct(names: seq<Name>) { forall i, j :: 0 <= i < j < |names| && names[j].Good? ==> names[i] != names[j] }

  lemma {:induction false} ValidCount(names: seq<Name>, j: nat)
    requires j <= |names|
    ensures |GoodNames(names[..j])| == ValidBefore(names, j)
  {
    if j > 0 {
      ValidCount(names, j - 1);
      assert names[..j][..j - 1] == names[..j - 1];
    }
  }

  /** The valid names are attempted in the caller's order. */
  lemma {:induction false} RankIs(names: seq<Name>, j: nat, taken: seq<Name>)
    requires j < |taken| && taken <= names && names[j].Good?
    ensures var r, k := GoodNames(taken), ValidBefore(names, j); k < |r| && r[k] == names[j]
    decreases |taken|
  {
    if j == |taken| - 1 {
      ValidCount(names, j);
      assert taken[..j] == names[..j];
    } else {
      RankIs(names, j, taken[..|taken| - 1]);
    }
  }

  lemma {:induction false} DistinctStays(names: seq<Name>)
    requires Distinct(names)
    ensures forall a, b :: 0 <= a < b < |GoodNames(names)| ==> GoodNames(names)[a] != GoodNames(names)[b]
  {
    if names != [] {
      var init := names[..|names| - 1];
      DistinctStays(init);
      assert names == init + [names[|names| - 1]];
    }
  }

  /** Without repeats the label of every valid name is that of its own attempt, when fewer valid names stand before
      it than were attempted, and else that of the stop. */
  lemma CallersOrder(names: seq<Name>, ticks: nat -> Tick, deadline: real, j: nat)
    requires Distinct(names) && j < |names| && names[j].Good?
    ensures var packages, n := GoodNames(names), ValidBefore(names, j);
            var k := Cut(ticks, deadline, |packages|);
            names[j] in packages && BatchLabel(packages, ticks, deadline, names[j])
            == if n < k then LabelOf(ticks(n).shell) else TailLabel(ticks(k), deadline)
  {
    DistinctStays(names);
    RankIs(names, j, names);
    CleanCut(GoodNames(names), ticks, deadline, ValidBefore(names, j));
  }

  /** So the names not attempted are a suffix of the caller's own list. */
  lemma {:induction false} CutIsASuffix(names: seq<Name>, k: nat) returns (n: nat)
    ensures n <= |names|
    ensures forall j :: 0 <= j < |names| ==> (j < n <==> ValidBefore(names, j) < k)
  {
    n := 0;
    while n < |names| && ValidBefore(names, n) < k
      invariant n <= |names| && forall j :: 0 <= j < n ==> ValidBefore(names, j) < k
    {
      n := n + 1;
    }
    forall j | n <= j < |names| ensures ValidBefore(names, j) >= k { ValidGrows(names, n, j); }
  }

  lemma {:induction false} ValidGrows(names: seq<Name>, i: nat, j: nat)
    requires i <= j <= |names|
    ensures ValidBefore(names, i) <= ValidBefore(names, j)
  {
    if i < j { ValidGrows(names, i, j - 1); }
  }

  /** What a caller may conclude from the label of a valid package.  Cleared and Failed speak of its last attempt,
      Aborted says there was none, and TimedOut leaves open which of two things happened. */
  lemma LabelMeans(packages: seq<Name>, ticks: nat -> Tick, deadline: real, p: Name)
    requires p in packages
    ensures var k, outcome := Cut(ticks, deadline, |packages|), BatchLabel(packages, ticks, deadline, p);
            var last := LastAttempt(packages, k, p);
            && (outcome == Cleared <==> last.Some? && CleanShell(ticks(last.value).shell))
            && (outcome == FailedClear <==> last.Some? && BrokenShell(ticks(last.value).shell))
            && (outcome == Aborted <==> last.None? && deadline - ticks(k).now > 0.0)
            && (outcome == TimedOut ==> if last.None? then deadline - ticks(k).now <= 0.0
                                        else ticks(last.value).shell.Ran? && ticks(last.value).shell.timedOut)
            && outcome != Skipped
            && (last.None? ==> k < |packages| && p !in packages[..k] && (ticks(k).abort || deadline - ticks(k).now <= 0.0))
  {
    var k := Cut(ticks, deadline, |packages|);
    var last := LastAttempt(packages, k, p);
    if last.None? {
      forall j | 0 <= j < k ensures packages[j] != p { }
    }
  }

  /** The shell came to an end in time with a code that counts as done. */
  predicate CleanShell(shell: Shell) {
    shell.Ran? && !shell.timedOut && (shell.ok || 0 <= shell.returnCode <= 1)
  }

  /** The shell could not be run, or came to an end in time with another code. */
  predicate BrokenShell(shell: Shell) {
    shell.Ran? ==> !shell.timedOut && !shell.ok && !(0 <= shell.returnCode <= 1)
  }

  // ---------------------------------------------------------------- time

  /** The time the first `k` shells took. */
  function Spent(ticks: nat -> Tick, k: nat): real {
    if k == 0 then 0.0 else Spent(ticks, k - 1) + ticks(k - 1).took
  }

  /** Shells respect their timeout, and the clock runs while they do. */
  ghost predicate Timely(ticks: nat -> Tick, start: real, deadline: real, perPackage: int, n: nat) {
    forall i :: 0 <= i < Cut(ticks, deadline, n) ==>
      && start + Spent(ticks, i) <= ticks(i).now
      && 0.0 <= ticks(i).took <= ShellTimeout(AskedTimeout(perPackage, deadline - ticks(i).now)) as real
  }

  /** The shells of one batch take less than the budget plus the timeout of one shell. */
  lemma BatchTimeBound(ticks: nat -> Tick, start: real, perPackage: int, batchMax: Option<real>, n: nat)
    requires Timely(ticks, start, Deadline(start, perPackage, batchMax, n), perPackage, n)
    ensures var deadline := Deadline(start, perPackage, batchMax, n);
            Spent(ticks, Cut(ticks, deadline, n)) <= deadline - start + Max(5, perPackage) as real
  {
    var deadline := Deadline(start, perPackage, batchMax, n);
    var k := Cut(ticks, deadline, n);
    if k > 0 {
      var t := ticks(k - 1);
      assert !Stops(t, deadline);
      assert Spent(ticks, k) == Spent(ticks, k - 1) + t.took;
    }
  }

  /** The timeout of a shell is never less than 5 seconds, and otherwise neither more than was asked for a package nor
      than the time left. */
  lemma TimeoutBounds(perPackage: int, remaining: real)
    requires remaining > 0.0
    ensures var t := ShellTimeout(AskedTimeout(perPackage, remaining));
            && t >= 5 && (t > 5 ==> t <= perPackage && t as real <= remaining)
            && (perPackage >= 5 && remaining >= 5.0 ==> t == perPackage || t == remaining.Floor)
  {
  }

  /** Start's own budget, in seconds: two for each name, at most 5, and half a second at least. */
  lemma StartBudgetIs(start: real, names: seq<Name>)
    ensures StartDeadline(start, names) - start ==
      if names == [] then 0.5 else if |names| == 1 then 2.0 else if |names| == 2 then 4.0 else 5.0
  {
  }

  /** Without a budget of its own a batch gets the timeout of each valid package, and half a second at least. */
  lemma DefaultBudgetIs(start: real, perPackage: int, count: nat)
    ensures Deadline(start, perPackage, None, count) - start ==
      if count == 0 then 0.5 else if perPackage < 1 then count as real else perPackage as real * count as real
  {
  }

  /** The deadline of Start's own batch: the names count for the budget, valid or not. */
  function StartDeadline(start: real, names: seq<Name>): real {
    Deadline(start, PER_PACKAGE_TIMEOUT, Some(StartBudget(|names|)), |GoodNames(names)|)
  }

  /** Every run of Start's mass clear on `names` has its shells done within `limit` seconds. */
  ghost predicate DoneWithin(names: seq<Name>, limit: real) {
    forall ticks: nat -> Tick, start: real ::
      Timely(ticks, start, StartDeadline(start, names), PER_PACKAGE_TIMEOUT, |GoodNames(names)|) ==>
      Spent(ticks, Cut(ticks, StartDeadline(start, names), |GoodNames(names)|)) <= limit
  }

  /** At most 10 seconds for any number of packages. */
  lemma StartDoneWithinTen(names: seq<Name>)
    ensures DoneWithin(names, 10.0)
  {
    forall ticks: nat -> Tick, start: real
      | Timely(ticks, start, StartDeadline(start, names), PER_PACKAGE_TIMEOUT, |GoodNames(names)|)
      ensures Spent(ticks, Cut(ticks, StartDeadline(start, names), |GoodNames(names)|)) <= 10.0
    {
      BatchTimeBound(ticks, start, PER_PACKAGE_TIMEOUT, Some(StartBudget(|names|)), |GoodNames(names)|);
    }
  }

  /** A run of two packages that takes 8 seconds: the first shell 3, the second the full 5 of its floor. */
  function SlowRun(): nat -> Tick {
    (i: nat) => if i == 0 then Tick(0.0, false, Raised, 3.0) else Tick(3.0, i > 1, Raised, 5.0)
  }

  lemma SlowRunSpends()
    ensures Spent(SlowRun(), 0) == 0.0 && Spent(SlowRun(), 1) == 3.0 && Spent(SlowRun(), 2) == 8.0
  {
    assert Spent(SlowRun(), 1) == Spent(SlowRun(), 0) + SlowRun()(0).took;
    assert Spent(SlowRun(), 2) == Spent(SlowRun(), 1) + SlowRun()(1).took;
  }

  lemma SlowRunStops(deadline: real, n: nat)
    requires deadline >= 4.0 && n >= 2
    ensures Cut(SlowRun(), deadline, n) == 2
  {
    assert Cut(SlowRun(), deadline, 1) == 1;
    assert Cut(SlowRun(), deadline, 2) == 2;
    CutAt(SlowRun(), deadline, 2, n);
  }

  lemma SlowRunIsTimely(names: seq<Name>)
    requires |GoodNames(names)| >= 2
    ensures var deadline, n := StartDeadline(0.0, names), |GoodNames(names)|;
            && Timely(SlowRun(), 0.0, deadline, PER_PACKAGE_TIMEOUT, n)
            && Spent(SlowRun(), Cut(SlowRun(), deadline, n)) == 8.0
  {
    var deadline := StartDeadline(0.0, names);
    assert StartBudget(|names|) >= 4.0;
    SlowRunSpends();
    SlowRunStops(deadline, |GoodNames(names)|);
  }

  /** The ceiling of 5 seconds the constants promise holds exactly for at most one valid package. */
  lemma FiveSecondsExactly(names: seq<Name>)
    ensures DoneWithin(names, 5.0) <==> |GoodNames(names)| <= 1
  {
    var n := |GoodNames(names)|;
    if n >= 2 {
      SlowRunIsTimely(names);
    } else {
      forall ticks: nat -> Tick, start: real
        | Timely(ticks, start, StartDeadline(start, names), PER_PACKAGE_TIMEOUT, n)
        ensures Spent(ticks, Cut(ticks, StartDeadline(start, names), n)) <= 5.0
      {
        assert Spent(ticks, 0) == 0.0 && Spent(ticks, 1) == Spent(ticks, 0) + ticks(0).took;
      }
    }
  }
}
