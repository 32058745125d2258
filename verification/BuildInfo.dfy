/** The install-time integrity check of agent/build_info.py: it walks the nested code objects of the
    bundled modules and looks for required names and strings. */
module BuildInfo {
  import opened Common

  /** A code object: its name, the names it uses, and its constants.  A value that is no code object
      at all behaves like one with nothing in it. */
  datatype Code = Code(name: string, names: seq<string>, consts: seq<Const>)

  datatype Const = Text(text: string) | Nested(code: Code) | OtherConst

  /** The bundle: module names to code objects. */
  type Bundle = map<string, Code>

  // ---------------------------------------------------------------- what a tree contains

  /** `x` is the code object `c` or nested in it at some depth. */
  predicate Reaches(c: Code, x: Code) {
    x == c || exists i | 0 <= i < |c.consts| :: c.consts[i].Nested? && Reaches(c.consts[i].code, x)
  }

  /** The code object itself is called `name` or uses it. */
  predicate OwnName(c: Code, name: string) { (c.name == name && name != "") || name in c.names }

  predicate OwnText(c: Code, text: string) { Text(text) in c.consts }

  /** Some code object of the tree is called `name` or uses it. */
  ghost predicate Names(c: Code, name: string) { exists x :: Reaches(c, x) && OwnName(x, name) }

  /** Some code object of the tree has the string as a constant. */
  ghost predicate HasText(c: Code, text: string) { exists x :: Reaches(c, x) && OwnText(x, text) }

  // ---------------------------------------------------------------- the order of the walk

  /** A code object, then its children from the last to the first, each with all it contains. */
  function Preorder(c: Code): seq<Code>
    decreases c, 1, 0
  {
    [c] + Backwards(c, |c.consts|)
  }

  /** The walk over the first `n` constants of `c`, from the last one. */
  function Backwards(c: Code, n: nat): seq<Code>
    requires n <= |c.consts|
    decreases c, 0, n
  {
    if n == 0 then []
    else if c.consts[n - 1].Nested? then Preorder(c.consts[n - 1].code) + Backwards(c, n - 1)
    else Backwards(c, n - 1)
  }

  /** The walk that a stack stands for. */
  function Pending(stack: seq<Code>): seq<Code> {
    if stack == [] then [] else Preorder(stack[|stack| - 1]) + Pending(stack[..|stack| - 1])
  }

  function Children(c: Code, n: nat): seq<Code>
    requires n <= |c.consts|
  {
    if n == 0 then []
    else if c.consts[n - 1].Nested? then Children(c, n - 1) + [c.consts[n - 1].code]
    else Children(c, n - 1)
  }

  lemma PendingPush(stack: seq<Code>, c: Code)
    ensures Pending(stack + [c]) == Preorder(c) + Pending(stack)
  {
    assert (stack + [c])[..|stack|] == stack;
  }

  lemma {:induction false} PendingChildren(stack: seq<Code>, c: Code, n: nat)
    requires n <= |c.consts|
    ensures Pending(stack + Children(c, n)) == Backwards(c, n) + Pending(stack)
  {
    if n == 0 {
      assert stack + [] == stack;
    } else {
      PendingChildren(stack, c, n - 1);
      if c.consts[n - 1].Nested? {
        var child := c.consts[n - 1].code;
        assert stack + Children(c, n) == stack + Children(c, n - 1) + [child];
        PendingPush(stack + Children(c, n - 1), child);
        Regroup(Preorder(child), Backwards(c, n - 1), Pending(stack));
      }
    }
  }

  lemma Regroup(a: seq<Code>, b: seq<Code>, c: seq<Code>)
    ensures a + (b + c) == a + b + c
  {
  }

  /** The explicit stack visits exactly the nodes of the recursive walk, in its order. */
  method IterCodeObjects(root: Code) returns (visited: seq<Code>)
    ensures visited == Preorder(root)
  {
    var stack := [root];
    visited := [];
    assert Pending(stack) == Preorder(root) + Pending([]) == Preorder(root);
    while stack != []
      invariant visited + Pending(stack) == Preorder(root)
      decreases |Pending(stack)|
    {
      ghost var before := stack;
      var item := stack[|stack| - 1];
      stack := stack[..|stack| - 1];
      ghost var rest := stack;
      assert Pending(before) == [item] + (Backwards(item, |item.consts|) + Pending(rest));
      visited := visited + [item];
      for i := 0 to |item.consts|
        invariant stack == rest + Children(item, i)
      {
        if item.consts[i].Nested? { stack := stack + [item.consts[i].code]; }
      }
      PendingChildren(rest, item, |item.consts|);
    }
  }

  // ---------------------------------------------------------------- the walk reaches everything

  lemma {:induction false} PreorderReaches(c: Code, x: Code)
    ensures x in Preorder(c) <==> Reaches(c, x)
    decreases c, 1, 0
  {
    BackwardsReaches(c, |c.consts|, x);
  }

  lemma {:induction false} BackwardsReaches(c: Code, n: nat, x: Code)
    requires n <= |c.consts|
    ensures x in Backwards(c, n) <==> exists i | 0 <= i < n :: c.consts[i].Nested? && Reaches(c.consts[i].code, x)
    decreases c, 0, n
  {
    if n > 0 {
      BackwardsReaches(c, n - 1, x);
      if c.consts[n - 1].Nested? { PreorderReaches(c.consts[n - 1].code, x); }
    }
  }

  /** What is reachable is closed under nesting. */
  lemma {:induction false} ReachesNested(c: Code, x: Code, y: Code)
    requires Reaches(c, x) && Nested(y) in x.consts
    ensures Reaches(c, y)
  {
    if x == c {
      var i :| 0 <= i < |c.consts| && c.consts[i] == Nested(y);
      assert Reaches(c.consts[i].code, y);
    } else {
      var i :| 0 <= i < |c.consts| && c.consts[i].Nested? && Reaches(c.consts[i].code, x);
      ReachesNested(c.consts[i].code, x, y);
    }
  }

  /** And nothing else is: whatever holds of the root, and of what is nested in something it holds of, holds of all
      that is reachable. */
  lemma {:induction false} ReachesOnly(c: Code, x: Code, holds: Code -> bool)
    requires Reaches(c, x) && holds(c)
    requires forall y, z :: holds(y) && Nested(z) in y.consts ==> holds(z)
    ensures holds(x)
  {
    if x != c {
      var i :| 0 <= i < |c.consts| && c.consts[i].Nested? && Reaches(c.consts[i].code, x);
      assert Nested(c.consts[i].code) in c.consts;
      ReachesOnly(c.consts[i].code, x, holds);
    }
  }

  // ---------------------------------------------------------------- the facts

  /** `_code_object_facts`: exactly the names and the string constants of the whole tree. */
  method CodeObjectFacts(root: Code) returns (names: set<string>, strings: set<string>)
    ensures forall s :: s in names <==> Names(root, s)
    ensures forall s :: s in strings <==> HasText(root, s)
    ensures forall x | x in Preorder(root) ::
              (x.name == "" || x.name in names) && (forall s :: s in x.names ==> s in names)
              && forall t :: Text(t) in x.consts ==> t in strings
  {
    names, strings := {}, {};
    var codes := IterCodeObjects(root);
    for i := 0 to |codes|
      invariant forall s :: s in names <==> exists k :: 0 <= k < i && OwnName(codes[k], s)
      invariant forall s :: s in strings <==> exists k :: 0 <= k < i && OwnText(codes[k], s)
    {
      var code := codes[i];
      if code.name != "" { names := names + {code.name}; }
      names := names + set s | s in code.names;
      strings := strings + set c | c in code.consts && c.Text? :: c.text;
    }
    forall x | x in codes
      ensures (x.name == "" || x.name in names) && (forall s :: s in x.names ==> s in names)
              && forall t :: Text(t) in x.consts ==> t in strings
    {
      var k :| 0 <= k < |codes| && codes[k] == x;
      assert x.name == "" || OwnName(codes[k], x.name);
      forall s | s in x.names ensures s in names { assert OwnName(codes[k], s); }
      forall t | Text(t) in x.consts ensures t in strings { assert OwnText(codes[k], t); }
    }
    forall s ensures s in names <==> Names(root, s) {
      NamesVisited(root, s);
    }
    forall s ensures s in strings <==> HasText(root, s) {
      TextVisited(root, s);
    }
  }

  lemma NamesVisited(root: Code, name: string)
    ensures Names(root, name) <==> exists k :: 0 <= k < |Preorder(root)| && OwnName(Preorder(root)[k], name)
  {
    if x :| Reaches(root, x) && OwnName(x, name) {
      PreorderReaches(root, x);
      var k :| 0 <= k < |Preorder(root)| && Preorder(root)[k] == x;
    }
    if k :| 0 <= k < |Preorder(root)| && OwnName(Preorder(root)[k], name) {
      PreorderReaches(root, Preorder(root)[k]);
    }
  }

  lemma TextVisited(root: Code, text: string)
    ensures HasText(root, text) <==> exists k :: 0 <= k < |Preorder(root)| && OwnText(Preorder(root)[k], text)
  {
    if x :| Reaches(root, x) && OwnText(x, text) {
      PreorderReaches(root, x);
      var k :| 0 <= k < |Preorder(root)| && Preorder(root)[k] == x;
    }
    if k :| 0 <= k < |Preorder(root)| && OwnText(Preorder(root)[k], text) {
      PreorderReaches(root, Preorder(root)[k]);
    }
  }

  // ---------------------------------------------------------------- the integrity check

  const REQUIRED_MODULES: seq<string> :=
    ["agent.commands", "agent.supervisor", "agent.roblox_presence", "agent.window_apply",
     "agent.freeform_enable", "agent.playing_state", "agent.dumpsys_cache", "agent.android",
     "agent.launcher", "agent.termux_minimize"]

  const REQUIRED_SYMBOLS: seq<(string, string)> :=
    [("agent.roblox_presence", "fetch_presence"), ("agent.roblox_presence", "lookup_user_id"),
     ("agent.dumpsys_cache", "cached_run"), ("agent.freeform_enable", "setup_freeform_capabilities"),
     ("agent.playing_state", "StateTracker"), ("agent.android", "launch_package_with_bounds"),
     ("agent.termux_minimize", "minimize_termux_to_dock")]

  const WORKER_NAMES: set<string> :=
    {"_cmd_monitor_run_worker", "_spawn_monitor_worker", "_monitor_worker_running",
     "_monitor_status_from_disk", "_stop_monitor_worker", "_MONITOR_WORKER_ENV"}

  const WORKER_STRINGS: set<string> := {"run-worker", "monitor-run-worker"}

  ghost predicate HasModules(b: Bundle) { forall i :: 0 <= i < |REQUIRED_MODULES| ==> REQUIRED_MODULES[i] in b }

  ghost predicate HasSymbols(b: Bundle) {
    forall i :: 0 <= i < |REQUIRED_SYMBOLS| ==>
      REQUIRED_SYMBOLS[i].0 in b && Names(b[REQUIRED_SYMBOLS[i].0], REQUIRED_SYMBOLS[i].1)
  }

  /** The monitor command of the bundle is the persistent worker. */
  ghost predicate HasWorker(b: Bundle) {
    && "agent.commands" in b
    && (forall s :: s in WORKER_NAMES ==> Names(b["agent.commands"], s))
    && (forall s :: s in WORKER_STRINGS ==> exists t :: HasText(b["agent.commands"], t) && Contains(t, s))
  }

  /** The part of `inspect_protected_runtime` that the check reads. */
  method IsPersistentWorker(b: Bundle) returns (worker: bool)
    ensures worker == HasWorker(b)
  {
    if "agent.commands" !in b { return false; }
    var names, strings := CodeObjectFacts(b["agent.commands"]);
    var missingNames := WORKER_NAMES - names;
    var missingStrings := set s | s in WORKER_STRINGS && !exists t | t in strings :: Contains(t, s);
    worker := missingNames == {} && missingStrings == {};
    NothingMissing(WORKER_NAMES, names, missingNames);
    if missingStrings == {} {
      forall s | s in WORKER_STRINGS ensures exists t :: t in strings && Contains(t, s) {
        assert s !in missingStrings;
      }
    }
  }

  lemma NothingMissing(required: set<string>, found: set<string>, missing: set<string>)
    requires missing == required - found
    ensures missing == {} <==> forall s :: s in required ==> s in found
  {
    if missing == {} {
      forall s | s in required ensures s in found { assert s !in missing; }
    }
  }

  /** `verify_runtime_bundle_integrity` passes exactly on the complete bundles; `bundle` is None when the
      protected runtime is absent or unreadable. */
  method VerifyBundle(bundle: Option<Bundle>) returns (ok: bool)
    ensures ok <==> bundle.Some? && HasModules(bundle.value) && HasSymbols(bundle.value) && HasWorker(bundle.value)
  {
    if bundle.None? { return false; }
    var b := bundle.value;
    if b == map[] { assert REQUIRED_MODULES[0] !in b; return false; }
    for i := 0 to |REQUIRED_MODULES|
      invariant forall k :: 0 <= k < i ==> REQUIRED_MODULES[k] in b
    {
      if REQUIRED_MODULES[i] !in b { return false; }
    }
    for i := 0 to |REQUIRED_SYMBOLS|
      invariant forall k :: 0 <= k < i ==>
        REQUIRED_SYMBOLS[k].0 in b && Names(b[REQUIRED_SYMBOLS[k].0], REQUIRED_SYMBOLS[k].1)
    {
      var (mod, symbol) := REQUIRED_SYMBOLS[i];
      if mod !in b { return false; }
      var names, _ := CodeObjectFacts(b[mod]);
      if symbol !in names { return false; }
    }
    ok := IsPersistentWorker(b);
  }
}
