/**
 * The notebook cleaner: stripping outputs and execution counts from every
 * cell in place, resetting notebook metadata, scanning for oversized cells,
 * and the rule that derives the default path of the cleaned copy.
 */
module NotebookCleaner {
  import opened Wrappers

  /** A JSON value as the notebook file holds it. */
  datatype Json =
    | JNull
    | JBool(b: bool)
    | JNum(n: real)
    | JStr(s: string)
    | JArr(items: seq<Json>)
    | JObj(fields: map<string, Json>)

  /** A cell is a JSON object. */
  type Cell = map<string, Json>

  const OutputsKey: string := "outputs"
  const ExecutionCountKey: string := "execution_count"

  // ---------------------------------------------------------------------------
  // Stripping outputs
  // ---------------------------------------------------------------------------

  /** One cell after stripping: outputs emptied where there were any, the
      execution count cleared, every other key as it was. */
  function StripCell(c: Cell): (r: Cell)
    ensures r.Keys == c.Keys + {ExecutionCountKey}
    ensures r[ExecutionCountKey] == JNull
    ensures OutputsKey in c ==> r[OutputsKey] == JArr([])
    ensures forall k :: k in c && k != OutputsKey && k != ExecutionCountKey ==> r[k] == c[k]
  {
    var emptied := if OutputsKey in c then c[OutputsKey := JArr([])] else c;
    emptied[ExecutionCountKey := JNull]
  }

  /** Every cell stripped, position by position. */
  function StripAll(cells: seq<Cell>): (r: seq<Cell>)
    ensures |r| == |cells|
    ensures forall i :: 0 <= i < |r| ==> r[i] == StripCell(cells[i])
  {
    seq(|cells|, i requires 0 <= i < |cells| => StripCell(cells[i]))
  }

  /** A cell gains an outputs key never, and keeps one always. */
  lemma StripKeepsOutputsPresence(c: Cell)
    ensures OutputsKey in StripCell(c) <==> OutputsKey in c
  {
  }

  lemma StripCellIdempotent(c: Cell)
    ensures StripCell(StripCell(c)) == StripCell(c)
  {
    var once := StripCell(c);
    var twice := StripCell(once);
    assert twice.Keys == once.Keys;
    forall k | k in once
      ensures twice[k] == once[k]
    {
      if k == ExecutionCountKey {
      } else if k == OutputsKey {
      } else {
        assert k in c;
      }
    }
  }

  /** Stripping twice is stripping once. */
  lemma StripAllIdempotent(cells: seq<Cell>)
    ensures StripAll(StripAll(cells)) == StripAll(cells)
  {
    var once := StripAll(cells);
    var twice := StripAll(once);
    forall i | 0 <= i < |cells|
      ensures twice[i] == once[i]
    {
      StripCellIdempotent(cells[i]);
    }
  }

  // ---------------------------------------------------------------------------
  // The default output path
  // ---------------------------------------------------------------------------

  const NotebookSuffix: string := ".ipynb"
  const CleanSuffix: string := "_CLEAN.ipynb"

  /** pat occurs somewhere in s. */
  predicate Occurs(s: string, pat: string)
    requires |pat| > 0
    decreases |s|
  {
    |s| >= |pat| && (s[..|pat|] == pat || Occurs(s[1..], pat))
  }

  /** Every non-overlapping occurrence of pat, scanning left to right, replaced by sub. */
  function Replace(s: string, pat: string, sub: string): string
    requires |pat| > 0
    decreases |s|
  {
    if |s| < |pat| then s
    else if s[..|pat|] == pat then sub + Replace(s[|pat|..], pat, sub)
    else [s[0]] + Replace(s[1..], pat, sub)
  }

  function DefaultCleanPath(path: string): string {
    Replace(path, NotebookSuffix, CleanSuffix)
  }

  /** With no occurrence of the pattern, replacing changes nothing. */
  lemma {:induction false} ReplaceWithoutOccurrence(s: string, pat: string, sub: string)
    requires |pat| > 0 && !Occurs(s, pat)
    ensures Replace(s, pat, sub) == s
  {
    if |s| >= |pat| {
      ReplaceWithoutOccurrence(s[1..], pat, sub);
      assert [s[0]] + s[1..] == s;
    }
  }

  /** A path without ".ipynb" is its own default clean path. */
  lemma PathWithoutSuffixUnchanged(path: string)
    requires !Occurs(path, NotebookSuffix)
    ensures DefaultCleanPath(path) == path
  {
    ReplaceWithoutOccurrence(path, NotebookSuffix, CleanSuffix);
  }

  /** A string that holds no ".ipynb" cannot start one when followed by ".ipynb":
      '.' appears in the pattern only at its start. */
  lemma NoStraddle(a: string, b: string)
    requires a != [] && !Occurs(a, NotebookSuffix)
    ensures (a + NotebookSuffix + b)[..|NotebookSuffix|] != NotebookSuffix
  {
    var s := a + NotebookSuffix + b;
    if |a| >= |NotebookSuffix| {
      assert s[..|NotebookSuffix|] == a[..|NotebookSuffix|];
    } else {
      assert s[|a|] == '.';
      assert NotebookSuffix[|a|] != '.';
    }
  }

  /** One step of the scan: a leading character that starts no ".ipynb" is kept. */
  lemma SplitsStep(a: string, b: string)
    requires a != [] && !Occurs(a, NotebookSuffix)
    requires DefaultCleanPath(a[1..] + NotebookSuffix + b) == a[1..] + CleanSuffix + DefaultCleanPath(b)
    ensures DefaultCleanPath(a + NotebookSuffix + b) == a + CleanSuffix + DefaultCleanPath(b)
  {
    var s := a + NotebookSuffix + b;
    NoStraddle(a, b);
    assert s[1..] == a[1..] + NotebookSuffix + b;
    assert [a[0]] + a[1..] == a;
  }

  /** The first ".ipynb" is replaced, and the text before it kept. */
  lemma {:induction false} DefaultPathSplits(a: string, b: string)
    requires !Occurs(a, NotebookSuffix)
    ensures DefaultCleanPath(a + NotebookSuffix + b) == a + CleanSuffix + DefaultCleanPath(b)
    decreases |a|
  {
    if a == [] {
      var s := a + NotebookSuffix + b;
      assert s[..|NotebookSuffix|] == NotebookSuffix;
      assert s[|NotebookSuffix|..] == b;
    } else {
      assert !Occurs(a[1..], NotebookSuffix);
      DefaultPathSplits(a[1..], b);
      SplitsStep(a, b);
    }
  }

  /** A path ending in its only ".ipynb" gets "_CLEAN.ipynb" in its place. */
  lemma DefaultPathOfNotebook(stem: string)
    requires !Occurs(stem, NotebookSuffix)
    ensures DefaultCleanPath(stem + NotebookSuffix) == stem + CleanSuffix
  {
    DefaultPathSplits(stem, []);
    assert stem + NotebookSuffix + [] == stem + NotebookSuffix;
    assert DefaultCleanPath([]) == [];
  }

  // ---------------------------------------------------------------------------
  // The optimizer
  // ---------------------------------------------------------------------------

  /** One oversized cell: its position and its size in KB. */
  datatype LargeCell = LargeCell(index: nat, sizeKb: real)

  const DefaultThresholdKb: real := 500.0

  class NotebookOptimizer {
    const notebookPath: string
    /** The notebook's "cells" list; a notebook without that key has none. */
    const cells: array<Cell>
    /** The notebook's "metadata" entry, None when the key is absent. */
    var metadata: Option<Json>

    /** Takes the notebook as already read and parsed from notebookPath. */
    constructor (notebookPath: string, cells: seq<Cell>, metadata: Option<Json>)
      ensures this.notebookPath == notebookPath
      ensures fresh(this.cells) && this.cells[..] == cells
      ensures this.metadata == metadata
    {
      this.notebookPath := notebookPath;
      this.cells := new Cell[|cells|](i requires 0 <= i < |cells| => cells[i]);
      this.metadata := metadata;
    }

    /** Strips every cell in place; nothing else changes. */
    method StripOutputs()
      modifies cells
      ensures cells[..] == StripAll(old(cells[..]))
    {
      for i := 0 to cells.Length
        invariant forall j :: 0 <= j < i ==> cells[j] == StripCell(old(cells[j]))
        invariant forall j :: i <= j < cells.Length ==> cells[j] == old(cells[j])
      {
        cells[i] := StripCell(cells[i]);
      }
    }

    /** Empties the metadata when present; never adds it; cells are untouched. */
    method CleanMetadata()
      modifies this`metadata
      ensures old(metadata).Some? ==> metadata == Some(JObj(map[]))
      ensures old(metadata).None? ==> metadata.None?
    {
      if metadata.Some? {
        metadata := Some(JObj(map[]));
      }
    }

    /** The warnings for the cells whose serialised size, in KB, strictly
        exceeds the threshold (see LargeCellsExact for what they list). */
    method DetectLargeCells(size: Cell -> nat, thresholdKb: real := DefaultThresholdKb)
      returns (warnings: seq<LargeCell>)
      ensures warnings == LargeCells(cells[..], size, thresholdKb)
    {
      warnings := [];
      for i := 0 to cells.Length
        invariant warnings == LargeCells(cells[..i], size, thresholdKb)
      {
        LargeCellsStep(cells[..], size, thresholdKb, i);
        var sizeKb := SizeKb(size, cells[i]);
        if sizeKb > thresholdKb {
          warnings := warnings + [LargeCell(i, sizeKb)];
        }
      }
      assert cells[..cells.Length] == cells[..];
    }

    /** Where the cleaned notebook is written: the given path, or by default the
        notebook's own path with ".ipynb" replaced by "_CLEAN.ipynb". */
    method SaveCleanVersion(outputPath: Option<string>) returns (target: string)
      ensures outputPath.Some? ==> target == outputPath.value
      ensures outputPath.None? ==> target == DefaultCleanPath(notebookPath)
    {
      target := if outputPath.Some? then outputPath.value else DefaultCleanPath(notebookPath);
    }
  }

  /** The size of a cell in KB, from the length of its serialised form. */
  function SizeKb(size: Cell -> nat, c: Cell): real {
    size(c) as real / 1024.0
  }

  /** The large cells of a cell list, in ascending order of position. */
  function LargeCells(cs: seq<Cell>, size: Cell -> nat, thresholdKb: real): seq<LargeCell>
    decreases |cs|
  {
    if cs == [] then [] else LargeCells(cs[..|cs| - 1], size, thresholdKb) + Latest(cs, size, thresholdKb)
  }

  /** The warning for the last cell of a list: nothing or one entry. */
  function Latest(cs: seq<Cell>, size: Cell -> nat, thresholdKb: real): seq<LargeCell>
    requires cs != []
  {
    var i := |cs| - 1;
    var kb := SizeKb(size, cs[i]);
    if kb > thresholdKb then [LargeCell(i, kb)] else []
  }

  /** One more cell inspected: it is appended when it is large. */
  lemma LargeCellsStep(cs: seq<Cell>, size: Cell -> nat, thresholdKb: real, i: nat)
    requires i < |cs|
    ensures LargeCells(cs[..i + 1], size, thresholdKb) == LargeCells(cs[..i], size, thresholdKb) +
      (if SizeKb(size, cs[i]) > thresholdKb then [LargeCell(i, SizeKb(size, cs[i]))] else [])
  {
    var pre := cs[..i + 1];
    assert pre[..i] == cs[..i];
    assert pre[i] == cs[i];
  }

  /** Every warning names a cell of the list and carries that cell's size. */
  lemma {:induction false} LargeCellsInRange(cs: seq<Cell>, size: Cell -> nat, thresholdKb: real)
    ensures forall k :: 0 <= k < |LargeCells(cs, size, thresholdKb)| ==>
      && LargeCells(cs, size, thresholdKb)[k].index < |cs|
      && LargeCells(cs, size, thresholdKb)[k].sizeKb == SizeKb(size, cs[LargeCells(cs, size, thresholdKb)[k].index])
    decreases |cs|
  {
    if cs != [] {
      var init := cs[..|cs| - 1];
      LargeCellsInRange(init, size, thresholdKb);
      var w0, last := LargeCells(init, size, thresholdKb), Latest(cs, size, thresholdKb);
      var w := w0 + last;
      assert LargeCells(cs, size, thresholdKb) == w;
      forall k | 0 <= k < |w| ensures w[k].index < |cs| && w[k].sizeKb == SizeKb(size, cs[w[k].index]) {
        if k < |w0| {
          assert w[k] == w0[k];
          assert init[w0[k].index] == cs[w0[k].index];
        } else {
          assert w[k] == last[0];
        }
      }
    }
  }

  /** Warnings are listed in strictly ascending order of position. */
  lemma {:induction false} LargeCellsAscending(cs: seq<Cell>, size: Cell -> nat, thresholdKb: real)
    ensures forall k, l :: 0 <= k < l < |LargeCells(cs, size, thresholdKb)| ==>
      LargeCells(cs, size, thresholdKb)[k].index < LargeCells(cs, size, thresholdKb)[l].index
    decreases |cs|
  {
    if cs != [] {
      var init := cs[..|cs| - 1];
      LargeCellsAscending(init, size, thresholdKb);
      LargeCellsInRange(init, size, thresholdKb);
      var w0, last := LargeCells(init, size, thresholdKb), Latest(cs, size, thresholdKb);
      var w := w0 + last;
      assert LargeCells(cs, size, thresholdKb) == w;
      forall k, l | 0 <= k < l < |w| ensures w[k].index < w[l].index {
        assert w[k] == w0[k];
        if l < |w0| {
          assert w[l] == w0[l];
        } else {
          assert w[l] == last[0];
        }
      }
    }
  }

  /** Cell i is warned about exactly when its size strictly exceeds the threshold. */
  lemma {:induction false} LargeCellsExact(cs: seq<Cell>, size: Cell -> nat, thresholdKb: real, i: nat)
    requires i < |cs|
    ensures Lists(LargeCells(cs, size, thresholdKb), i) <==> SizeKb(size, cs[i]) > thresholdKb
    decreases |cs|
  {
    var init := cs[..|cs| - 1];
    var w0, last := LargeCells(init, size, thresholdKb), Latest(cs, size, thresholdKb);
    var w := w0 + last;
    assert LargeCells(cs, size, thresholdKb) == w;
    LargeCellsInRange(init, size, thresholdKb);
    if i < |init| {
      LargeCellsExact(init, size, thresholdKb, i);
      assert init[i] == cs[i];
      if Lists(w0, i) {
        var k :| 0 <= k < |w0| && w0[k].index == i;
        assert w[k] == w0[k];
      }
      if Lists(w, i) {
        var k :| 0 <= k < |w| && w[k].index == i;
        if k < |w0| {
          assert w[k] == w0[k];
        }
      }
    } else {
      if SizeKb(size, cs[i]) > thresholdKb {
        assert w[|w| - 1].index == i;
      }
      if Lists(w, i) {
        var k :| 0 <= k < |w| && w[k].index == i;
        if k >= |w0| {
          assert w[k] == last[0];
        }
      }
    }
  }

  /** The warnings list, spelled out: in range, each with its cell's size, in
      ascending order, and naming exactly the cells over the threshold. */
  lemma LargeCellsSpelledOut(cs: seq<Cell>, size: Cell -> nat, thresholdKb: real)
    ensures var w := LargeCells(cs, size, thresholdKb);
      && (forall k :: 0 <= k < |w| ==> w[k].index < |cs| && w[k].sizeKb == SizeKb(size, cs[w[k].index]))
      && (forall k, l :: 0 <= k < l < |w| ==> w[k].index < w[l].index)
      && (forall i :: 0 <= i < |cs| ==> (Lists(w, i) <==> SizeKb(size, cs[i]) > thresholdKb))
  {
    LargeCellsInRange(cs, size, thresholdKb);
    LargeCellsAscending(cs, size, thresholdKb);
    forall i | 0 <= i < |cs|
      ensures Lists(LargeCells(cs, size, thresholdKb), i) <==> SizeKb(size, cs[i]) > thresholdKb
    {
      LargeCellsExact(cs, size, thresholdKb, i);
    }
  }

  /** Position i is among those a list of warnings names. */
  predicate Lists(warnings: seq<LargeCell>, i: nat) {
    exists k :: 0 <= k < |warnings| && warnings[k].index == i
  }
}
