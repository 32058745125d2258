/** `is_package_window_visible` of agent/android.py: a one-pass scan of a window dump, cut into blocks
    by header lines. */
module WindowScan {
  import opened Common
  import opened PackageNames

  const MARKERS: seq<string> :=
    ["mHasSurface=true", "hasSurface=true", "mDrawState=HAS_DRAWN", "isReadyForDisplay()=true", "isOnScreen=true"]

  predicate Header(line: string) { Contains(line, "Window{") || Contains(line, "Window {") }

  predicate FocusLine(line: string, package: string) {
    Contains(line, package)
    && (Contains(line, "mCurrentFocus") || Contains(line, "mFocusedApp") || Contains(line, "Focus ="))
  }

  predicate SurfaceLine(line: string, package: string) {
    Contains(line, "Surface(name=") && Contains(line, package)
  }

  predicate MarkerLine(line: string) { exists m | m in MARKERS :: Contains(line, m) }

  // ---------------------------------------------------------------- what the scan should find

  /** Lines i..j are one window: a header, and everything up to the next header or the end. */
  predicate Block(lines: seq<string>, i: int, j: int) {
    && 0 <= i < j <= |lines| && Header(lines[i])
    && (forall k :: i < k < j ==> !Header(lines[k]))
    && (j < |lines| ==> Header(lines[j]))
  }

  predicate Mentions(block: seq<string>, package: string) {
    exists k | 0 <= k < |block| :: Contains(block[k], package)
  }

  predicate Draws(block: seq<string>, package: string) {
    exists k | 0 <= k < |block| :: MarkerLine(block[k]) || SurfaceLine(block[k], package)
  }

  predicate VisibleBlock(block: seq<string>, package: string) { Mentions(block, package) && Draws(block, package) }

  ghost predicate HasFocusLine(lines: seq<string>, package: string) {
    exists k :: 0 <= k < |lines| && FocusLine(lines[k], package)
  }

  ghost predicate HasVisibleBlock(lines: seq<string>, package: string) {
    exists i, j :: Block(lines, i, j) && VisibleBlock(lines[i..j], package)
  }

  /** Some line focuses the package, or some window mentions it and is being drawn. */
  ghost predicate Visible(lines: seq<string>, package: string) {
    HasFocusLine(lines, package) || HasVisibleBlock(lines, package)
  }

  // ---------------------------------------------------------------- searching joined lines

  /** `"\n".join(lines)`. */
  function Join(lines: seq<string>): string {
    if lines == [] then ""
    else if |lines| == 1 then lines[0]
    else lines[0] + "\n" + Join(lines[1..])
  }

  lemma PartOfAppend(a: string, b: string, part: string)
    requires Contains(a, part) || Contains(b, part)
    ensures Contains(a + b, part)
  {
    if Contains(a, part) {
      var i :| 0 <= i <= |a| - |part| && a[i..][..|part|] == part;
      assert (a + b)[i..][..|part|] == a[i..][..|part|];
    } else {
      var i :| 0 <= i <= |b| - |part| && b[i..][..|part|] == part;
      assert (a + b)[|a| + i..] == b[i..];
    }
  }

  /** A part without a line break lies on one side of a line break. */
  lemma PartOfLine(a: string, b: string, part: string)
    requires part != "" && '\n' !in part && Contains(a + "\n" + b, part)
    ensures Contains(a, part) || Contains(b, part)
  {
    var text := a + "\n" + b;
    var i :| 0 <= i <= |text| - |part| && text[i..][..|part|] == part;
    assert text[|a|] == '\n';
    assert forall j :: i <= j < i + |part| ==> text[j] == text[i..][..|part|][j - i];
    if i + |part| <= |a| {
      assert a[i..][..|part|] == text[i..][..|part|];
    } else if i > |a| {
      assert b[i - |a| - 1..] == text[i..];
    }
  }

  lemma {:induction false} JoinFinds(lines: seq<string>, part: string)
    requires part != "" && '\n' !in part
    ensures Contains(Join(lines), part) <==> exists k :: 0 <= k < |lines| && Contains(lines[k], part)
  {
    if |lines| == 1 {
      assert Contains(lines[0], part) <==> Contains(Join(lines), part);
    } else if |lines| > 1 {
      var rest := Join(lines[1..]);
      JoinFinds(lines[1..], part);
      if Contains(Join(lines), part) {
        PartOfLine(lines[0], rest, part);
        if !Contains(lines[0], part) {
          var k :| 0 <= k < |lines[1..]| && Contains(lines[1..][k], part);
          assert Contains(lines[k + 1], part);
        }
      } else if exists k :: 0 <= k < |lines| && Contains(lines[k], part) {
        var k :| 0 <= k < |lines| && Contains(lines[k], part);
        assert lines[0] + ("\n" + rest) == Join(lines);
        assert k > 0 ==> lines[k] == lines[1..][k - 1];
        if k == 0 { PartOfAppend(lines[0], "\n" + rest, part); } else { PartOfAppend(lines[0] + "\n", rest, part); }
      }
    }
  }

  lemma MarkersAreParts(m: string)
    requires m in MARKERS
    ensures m != "" && '\n' !in m
  {
  }

  // ---------------------------------------------------------------- the scan

  /** `_block_drawing`: the markers are searched in the joined text, the Surface lines one by one. */
  method BlockDrawing(lines: seq<string>, package: string) returns (drawing: bool)
    ensures drawing == Draws(lines, package)
  {
    var text := Join(lines);
    if exists m | m in MARKERS :: Contains(text, m) {
      var m :| m in MARKERS && Contains(text, m);
      MarkersAreParts(m);
      JoinFinds(lines, m);
      return true;
    }
    forall k | 0 <= k < |lines| ensures !MarkerLine(lines[k]) {
      if MarkerLine(lines[k]) {
        var m :| m in MARKERS && Contains(lines[k], m);
        MarkersAreParts(m);
        JoinFinds(lines, m);
      }
    }
    for i := 0 to |lines|
      invariant forall k :: 0 <= k < i ==> !SurfaceLine(lines[k], package)
    {
      if SurfaceLine(lines[i], package) { return true; }
    }
    return false;
  }

  /** How a look ends: the name check raises, or it answers. */
  datatype Look = Raised | Seen(visible: bool)

  /** `raw` is the caller's name; `dump` is None when the dump could not be taken. */
  method IsPackageWindowVisible(raw: string, dump: Option<seq<string>>) returns (look: Look)
    ensures look.Raised? <==> !ValidName(Strip(raw))
    ensures look.Seen? ==> (look.visible <==> dump.Some? && Visible(dump.value, Strip(raw)))
    ensures look == Seen(true) <==> ValidName(Strip(raw)) && dump.Some?
                                    && (Focuses(dump.value, Strip(raw)) || Drawn(dump.value, Strip(raw)))
    ensures look == Seen(true) ==> exists k :: 0 <= k < |dump.value| && Contains(dump.value[k], Strip(raw))
  {
    if dump.Some? { VisibleMeans(dump.value, Strip(raw)); }
    var package := Strip(raw);
    if !ValidName(package) { return Raised; }
    if dump.None? { return Seen(false); }
    var lines := dump.value;
    for i := 0 to |lines|
      invariant forall k :: 0 <= k < i ==> !FocusLine(lines[k], package)
    {
      if FocusLine(lines[i], package) { return Seen(true); }
    }
    var found := AnyWindowVisible(package, lines);
    look := Seen(found);
  }

  /** The last header before line n is line `start`, when there is one. */
  ghost predicate OpenBlock(lines: seq<string>, start: nat, n: nat, inBlock: bool) {
    && n <= |lines|
    && (inBlock ==> start < n && Header(lines[start]))
    && (forall k :: (if inBlock then start < k < n else 0 <= k < n) ==> !Header(lines[k]))
  }

  /** The block that ends where the open one ends is the open one. */
  lemma OpenBlockIs(lines: seq<string>, start: nat, n: nat, inBlock: bool)
    requires OpenBlock(lines, start, n, inBlock) && (n < |lines| ==> Header(lines[n]))
    ensures forall i :: Block(lines, i, n) <==> inBlock && i == start
  {
  }

  /** No block that ends before line n shows the package. */
  ghost predicate NoneBefore(lines: seq<string>, package: string, n: int) {
    forall i, j :: Block(lines, i, j) && j < n ==> !VisibleBlock(lines[i..j], package)
  }

  lemma NoneHere(lines: seq<string>, package: string, start: nat, n: nat, inBlock: bool)
    requires OpenBlock(lines, start, n, inBlock) && (n < |lines| ==> Header(lines[n]))
    requires NoneBefore(lines, package, n) && (inBlock ==> !VisibleBlock(lines[start..n], package))
    ensures NoneBefore(lines, package, n + 1)
  {
    OpenBlockIs(lines, start, n, inBlock);
  }

  lemma NoneInside(lines: seq<string>, package: string, n: nat)
    requires NoneBefore(lines, package, n) && n < |lines| && !Header(lines[n])
    ensures NoneBefore(lines, package, n + 1)
  {
  }

  lemma FoundHere(lines: seq<string>, package: string, start: nat, n: nat)
    requires OpenBlock(lines, start, n, true) && (n < |lines| ==> Header(lines[n]))
    requires VisibleBlock(lines[start..n], package)
    ensures HasVisibleBlock(lines, package)
  {
    OpenBlockIs(lines, start, n, true);
  }

  method AnyWindowVisible(package: string, lines: seq<string>) returns (visible: bool)
    ensures visible <==> HasVisibleBlock(lines, package)
  {
    var blockLines: seq<string> := [];
    var inBlock, blockHasPackage := false, false;
    ghost var start := 0;
    for n := 0 to |lines|
      invariant OpenBlock(lines, start, n, inBlock)
      invariant inBlock ==> blockLines == lines[start..n] && blockHasPackage == Mentions(blockLines, package)
      invariant NoneBefore(lines, package, n)
    {
      var line := lines[n];
      if Header(line) {
        if inBlock && blockHasPackage {
          var drawing := BlockDrawing(blockLines, package);
          if drawing {
            FoundHere(lines, package, start, n);
            return true;
          }
        }
        NoneHere(lines, package, start, n, inBlock);
        start := n;
        inBlock, blockLines, blockHasPackage := true, [line], Contains(line, package);
        MentionsSnoc([], line, package);
        assert [] + [line] == [line] == lines[n..n + 1];
      } else {
        NoneInside(lines, package, n);
        if inBlock {
          MentionsSnoc(blockLines, line, package);
          blockLines := blockLines + [line];
          if Contains(line, package) { blockHasPackage := true; }
        }
      }
    }
    visible := false;
    if inBlock && blockHasPackage { visible := BlockDrawing(blockLines, package); }
    if visible {
      FoundHere(lines, package, start, |lines|);
    } else {
      NoneHere(lines, package, start, |lines|, inBlock);
    }
  }

  lemma MentionsSnoc(block: seq<string>, line: string, package: string)
    ensures Mentions(block + [line], package) <==> Mentions(block, package) || Contains(line, package)
  {
    if Mentions(block, package) {
      var k :| 0 <= k < |block| && Contains(block[k], package);
      assert (block + [line])[k] == block[k];
    }
    if Contains(line, package) { assert (block + [line])[|block|] == line; }
    if Mentions(block + [line], package) {
      var k :| 0 <= k < |block| + 1 && Contains((block + [line])[k], package);
      assert k < |block| ==> (block + [line])[k] == block[k];
    }
  }

  // ---------------------------------------------------------------- what visible means

  predicate SaysFocus(line: string) {
    Contains(line, "mCurrentFocus") || Contains(line, "mFocusedApp") || Contains(line, "Focus =")
  }

  /** One line names the package and says what has the focus. */
  ghost predicate Focuses(lines: seq<string>, package: string) {
    exists k :: 0 <= k < |lines| && Contains(lines[k], package) && SaysFocus(lines[k])
  }

  /** The line begins the description of a window. */
  predicate Begins(line: string) { Contains(line, "Window{") || Contains(line, "Window {") }

  /** Lines a and b belong to one window: a line that begins one stands before both or is the first of them, and no
      other window begins up to the second. */
  ghost predicate SameWindow(lines: seq<string>, a: int, b: int) {
    exists i :: 0 <= i <= a && i <= b && a < |lines| && b < |lines| && Begins(lines[i])
                && forall n :: i < n <= a || i < n <= b ==> !Begins(lines[n])
  }

  /** The line says by itself that its window is drawn. */
  predicate SaysDrawn(line: string) {
    || Contains(line, "mHasSurface=true") || Contains(line, "hasSurface=true") || Contains(line, "mDrawState=HAS_DRAWN")
    || Contains(line, "isReadyForDisplay()=true") || Contains(line, "isOnScreen=true")
  }

  /** Two lines of one window, perhaps the same: one names the package, the other says that the window is drawn, by
      a marker or by the package's own surface. */
  ghost predicate Drawn(lines: seq<string>, package: string) {
    exists a, b :: SameWindow(lines, a, b) && Contains(lines[a], package)
                   && (SaysDrawn(lines[b]) || (Contains(lines[b], "Surface(name=") && Contains(lines[b], package)))
  }

  lemma MarkerLineMeans(line: string)
    ensures MarkerLine(line) <==> SaysDrawn(line)
  {
    if MarkerLine(line) {
      var m :| m in MARKERS && Contains(line, m);
      MarkersAre(m);
    }
    if Contains(line, MARKERS[0]) { assert MARKERS[0] in MARKERS; }
    if Contains(line, MARKERS[1]) { assert MARKERS[1] in MARKERS; }
    if Contains(line, MARKERS[2]) { assert MARKERS[2] in MARKERS; }
    if Contains(line, MARKERS[3]) { assert MARKERS[3] in MARKERS; }
    if Contains(line, MARKERS[4]) { assert MARKERS[4] in MARKERS; }
  }

  lemma MarkersAre(m: string)
    requires m in MARKERS
    ensures m == MARKERS[0] || m == MARKERS[1] || m == MARKERS[2] || m == MARKERS[3] || m == MARKERS[4]
  {
  }

  /** The line at which the window that begins at line `i` ends. */
  function EndOf(lines: seq<string>, i: nat): (j: nat)
    requires i < |lines|
    ensures i < j <= |lines| && (forall n :: i < n < j ==> !Begins(lines[n])) && (j < |lines| ==> Begins(lines[j]))
    decreases |lines| - i
  {
    if i + 1 == |lines| || Begins(lines[i + 1]) then i + 1 else EndOf(lines, i + 1)
  }

  lemma DrawnIsVisible(lines: seq<string>, package: string, a: int, b: int)
    requires SameWindow(lines, a, b) && Contains(lines[a], package)
    requires SaysDrawn(lines[b]) || (Contains(lines[b], "Surface(name=") && Contains(lines[b], package))
    ensures HasVisibleBlock(lines, package)
  {
    var i :| 0 <= i <= a && i <= b && Begins(lines[i]) && forall n :: i < n <= a || i < n <= b ==> !Begins(lines[n]);
    var j := EndOf(lines, i);
    MarkerLineMeans(lines[b]);
    assert lines[i..j][a - i] == lines[a] && lines[i..j][b - i] == lines[b];
    assert Block(lines, i, j) && VisibleBlock(lines[i..j], package);
  }

  lemma VisibleIsDrawn(lines: seq<string>, package: string, i: int, j: int)
    requires Block(lines, i, j) && VisibleBlock(lines[i..j], package)
    ensures Drawn(lines, package)
  {
    var block := lines[i..j];
    var a :| 0 <= a < |block| && Contains(block[a], package);
    var b :| 0 <= b < |block| && (MarkerLine(block[b]) || SurfaceLine(block[b], package));
    MarkerLineMeans(block[b]);
    assert Begins(lines[i]) && lines[i + a] == block[a] && lines[i + b] == block[b];
    assert SameWindow(lines, i + a, i + b);
  }

  /** What the scan looks for, said line by line: in particular nothing is visible of a package no line names. */
  lemma VisibleMeans(lines: seq<string>, package: string)
    ensures Visible(lines, package) <==> Focuses(lines, package) || Drawn(lines, package)
    ensures (forall k :: 0 <= k < |lines| ==> !Contains(lines[k], package)) ==> !Visible(lines, package)
  {
    if Focuses(lines, package) {
      var k :| 0 <= k < |lines| && Contains(lines[k], package) && SaysFocus(lines[k]);
      assert FocusLine(lines[k], package);
    }
    if HasFocusLine(lines, package) {
      var k :| 0 <= k < |lines| && FocusLine(lines[k], package);
      assert Focuses(lines, package);
    }
    if HasVisibleBlock(lines, package) {
      var i, j :| Block(lines, i, j) && VisibleBlock(lines[i..j], package);
      VisibleIsDrawn(lines, package, i, j);
    }
    if Drawn(lines, package) {
      var a, b :| SameWindow(lines, a, b) && Contains(lines[a], package)
                  && (SaysDrawn(lines[b]) || (Contains(lines[b], "Surface(name=") && Contains(lines[b], package)));
      DrawnIsVisible(lines, package, a, b);
    }
  }

  // ---------------------------------------------------------------- windows are judged one by one

  lemma FocusJoins(a: seq<string>, b: seq<string>, package: string)
    ensures HasFocusLine(a + b, package) <==> HasFocusLine(a, package) || HasFocusLine(b, package)
  {
    if k :| 0 <= k < |a| && FocusLine(a[k], package) { assert (a + b)[k] == a[k]; }
    if k :| 0 <= k < |b| && FocusLine(b[k], package) { assert (a + b)[|a| + k] == b[k]; }
  }

  lemma BlockJoins(a: seq<string>, b: seq<string>, i: int, j: int)
    requires b != [] && Header(b[0])
    ensures Block(a + b, i, j) <==> Block(a, i, j) || Block(b, i - |a|, j - |a|)
  {
    var all := a + b;
    assert forall k :: 0 <= k < |a| ==> all[k] == a[k];
    assert forall k :: 0 <= k < |b| ==> all[|a| + k] == b[k];
    assert all[|a|] == b[0];
    if Block(all, i, j) && i >= |a| {
      forall k | i - |a| < k < j - |a| ensures !Header(b[k]) { assert !Header(all[|a| + k]); }
    }
    if Block(b, i - |a|, j - |a|) {
      forall k | i < k < j ensures !Header(all[k]) { assert !Header(b[k - |a|]); }
    }
  }

  /** A window added to a dump makes the package visible on its own or not at all: markers and names in
      different windows never combine. */
  lemma WindowsAreIndependent(a: seq<string>, b: seq<string>, package: string)
    requires b != [] && Header(b[0])
    ensures Visible(a + b, package) <==> Visible(a, package) || Visible(b, package)
  {
    FocusJoins(a, b, package);
    VisibleBlocksJoin(a, b, package);
  }

  lemma VisibleBlocksJoin(a: seq<string>, b: seq<string>, package: string)
    requires b != [] && Header(b[0])
    ensures HasVisibleBlock(a + b, package) <==> HasVisibleBlock(a, package) || HasVisibleBlock(b, package)
  {
    if i, j :| Block(a + b, i, j) && VisibleBlock((a + b)[i..j], package) { BlockMoves(a, b, i, j, package); }
    if i, j :| Block(a, i, j) && VisibleBlock(a[i..j], package) { BlockMoves(a, b, i, j, package); }
    if i, j :| Block(b, i, j) && VisibleBlock(b[i..j], package) { BlockMoves(a, b, i + |a|, j + |a|, package); }
  }

  /** A window is the same window in the longer dump. */
  lemma BlockMoves(a: seq<string>, b: seq<string>, i: int, j: int, package: string)
    requires b != [] && Header(b[0])
    ensures Block(a + b, i, j) && VisibleBlock((a + b)[i..j], package)
            <==> (Block(a, i, j) && VisibleBlock(a[i..j], package))
                 || (Block(b, i - |a|, j - |a|) && VisibleBlock(b[i - |a|..j - |a|], package))
  {
    BlockJoins(a, b, i, j);
    BlockText(a, b, i, j);
  }

  lemma BlockText(a: seq<string>, b: seq<string>, i: int, j: int)
    ensures 0 <= i <= j <= |a| ==> (a + b)[i..j] == a[i..j]
    ensures |a| <= i <= j <= |a| + |b| ==> (a + b)[i..j] == b[i - |a|..j - |a|]
  {
    var all := a + b;
    assert all[..|a|] == a && all[|a|..] == b;
    if 0 <= i <= j <= |a| { assert all[i..j] == all[..|a|][i..j]; }
    if |a| <= i <= j <= |all| { assert all[i..j] == all[|a|..][i - |a|..j - |a|]; }
  }
}
