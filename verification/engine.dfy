/**
 * The `TypeShuffle` engine with its `Line` and `Cell` records: construction of
 * the cell grid from split text, `clearCells`, `trigger`, and the body of the
 * per-cell `loop` closure of each effect as `Tick`. Timers are left to the
 * caller: an effect's run is the `Run` object `Trigger` returns, and the
 * caller ticks any cell of the grid with that run, in any order, re-arming a
 * cell for as long as `Tick` answers `again`.
 */
module Shuffle {
  import opened Glyphs
  import opened Effects
  import opened CellLoop

  /** One character slot. The position, the original glyph and colour never change;
      `state`, `color` and `cache` are what the effects animate. */
  class Cell {
    const position: nat
    const previousCellPosition: int
    const original: string
    const originalColor: string
    var state: Value
    var color: Value
    var cache: Value

    /** A cell built from a character node starts out showing its own content in the text colour. */
    constructor (original: string, textColor: string, position: nat, previousCellPosition: int)
      ensures this.original == original && this.originalColor == textColor
      ensures this.position == position && this.previousCellPosition == previousCellPosition
      ensures View() == CellView(Str(original), Str(textColor), Undefined)
    {
      this.original := original;
      this.originalColor := textColor;
      this.position := position;
      this.previousCellPosition := previousCellPosition;
      state := Str(original);
      color := Str(textColor);
      cache := Undefined;
    }

    function View(): CellView
      reads this
    {
      CellView(state, color, cache)
    }

    function Fixed(): Origin {
      Origin(position, original, originalColor)
    }

    /** `set(value)`: only the shown state changes. */
    method Set(value: Value)
      modifies this
      ensures View() == old(View()).(state := value)
    {
      state := value;
    }
  }

  /** A visual line: its index in the block and its cells, left to right. */
  datatype Line = Line(position: nat, cells: seq<Cell>)

  /** The environment of one effect invocation: which effect it is and its
      `finished` counter, shared by all the loops that invocation schedules. */
  class Run {
    const effect: Effect
    var finished: nat

    constructor (effect: Effect)
      ensures this.effect == effect && finished == 0
    {
      this.effect := effect;
      finished := 0;
    }
  }

  /** The characters of a line, word after word. */
  function Flatten(words: seq<seq<string>>): (chars: seq<string>)
    decreases |words|
  {
    if words == [] then [] else Flatten(words[..|words| - 1]) + words[|words| - 1]
  }

  /** The number of characters of a split text (lines of words of characters). */
  function TextSize(text: seq<seq<seq<string>>>): nat
    decreases |text|
  {
    if text == [] then 0 else TextSize(text[..|text| - 1]) + |Flatten(text[|text| - 1])|
  }

  /** The number of cells of a grid. */
  function CellCount(lines: seq<Line>): nat
    decreases |lines|
  {
    if lines == [] then 0 else CellCount(lines[..|lines| - 1]) + |lines[|lines| - 1].cells|
  }

  /** A grid without cells has only empty lines. */
  lemma {:induction false} NoCellsMeansEmptyLines(lines: seq<Line>)
    requires CellCount(lines) == 0
    ensures forall i :: 0 <= i < |lines| ==> lines[i].cells == []
    decreases |lines|
  {
    if lines != [] {
      NoCellsMeansEmptyLines(lines[..|lines| - 1]);
      forall i | 0 <= i < |lines| ensures lines[i].cells == [] {
        if i < |lines| - 1 {
          assert lines[..|lines| - 1][i] == lines[i];
        }
      }
    }
  }

  /** Counting a grid line by line: the cells of the first `l` lines plus those of
      line `l` never exceed the whole count. */
  lemma {:induction false} CellCountPrefix(lines: seq<Line>, l: nat)
    requires l < |lines|
    ensures CellCount(lines[..l + 1]) == CellCount(lines[..l]) + |lines[l].cells|
    ensures CellCount(lines[..l + 1]) <= CellCount(lines)
    decreases |lines|
  {
    assert lines[..l + 1][..l] == lines[..l];
    if l + 1 < |lines| {
      var init := lines[..|lines| - 1];
      assert init[..l + 1] == lines[..l + 1] && init[..l] == lines[..l];
      CellCountPrefix(init, l);
    } else {
      assert lines[..l + 1] == lines;
    }
  }

  /** Cells numbered 0, 1, 2, ... with each one's predecessor one position earlier
      (position 0 has -1), and no cell appearing twice in the line. */
  ghost predicate Numbered(cells: seq<Cell>) {
    && (forall j :: 0 <= j < |cells| ==> cells[j].position == j && cells[j].previousCellPosition == j - 1)
    && (forall j, k :: 0 <= j < k < |cells| ==> cells[j] != cells[k])
  }

  /** A cell as the constructor leaves it: holding character `ch`, shown in the text
      colour, with nothing cached yet. */
  ghost predicate Unanimated(cell: Cell, ch: string, textColor: string)
    reads cell
  {
    cell.original == ch && cell.originalColor == textColor
    && cell.View() == CellView(Str(ch), Str(textColor), Undefined)
  }

  /** The inner loop of the constructor over the characters of one word: a cell per
      character, numbered on from the cells already built. */
  method PushWord(cells: seq<Cell>, word: seq<string>, textColor: string) returns (out: seq<Cell>)
    requires Numbered(cells)
    ensures Numbered(out) && |out| == |cells| + |word| && out[..|cells|] == cells
    ensures forall j :: |cells| <= j < |out| ==>
      && fresh(out[j])
      && Unanimated(out[j], word[j - |cells|], textColor)
  {
    out := cells;
    var charCount := |cells|;
    for k := 0 to |word|
      invariant charCount == |out| == |cells| + k && out[..|cells|] == cells
      invariant Numbered(out)
      invariant forall j :: |cells| <= j < |out| ==>
        && fresh(out[j])
        && Unanimated(out[j], word[j - |cells|], textColor)
    {
      var cell := new Cell(word[k], textColor, charCount, if charCount == 0 then -1 else charCount - 1);
      out := out + [cell];
      charCount := charCount + 1;
    }
  }

  /** The cells of one line, built word after word and character after character,
      numbered from 0 in reading order, each showing its own character. */
  method BuildCells(words: seq<seq<string>>, textColor: string) returns (cells: seq<Cell>)
    ensures Numbered(cells) && |cells| == |Flatten(words)|
    ensures forall j :: 0 <= j < |cells| ==>
      && fresh(cells[j])
      && Unanimated(cells[j], Flatten(words)[j], textColor)
  {
    cells := [];
    for w := 0 to |words|
      invariant |cells| == |Flatten(words[..w])|
      invariant Numbered(cells)
      invariant forall j :: 0 <= j < |cells| ==>
        && fresh(cells[j])
        && Unanimated(cells[j], Flatten(words[..w])[j], textColor)
    {
      var done := Flatten(words[..w]);
      assert words[..w + 1][..w] == words[..w];
      assert Flatten(words[..w + 1]) == done + words[w];
      var before := cells;
      cells := PushWord(cells, words[w], textColor);
      forall j | 0 <= j < |cells|
        ensures Unanimated(cells[j], (done + words[w])[j], textColor)
      {
        if j < |before| {
          assert cells[j] == cells[..|before|][j] == before[j];
        }
      }
    }
    assert words[..|words|] == words;
  }

  class TypeShuffle {
    const lines: seq<Line>
    const totalChars: nat
    var isAnimating: bool

    ghost predicate Valid() {
      && (forall i :: 0 <= i < |lines| ==> lines[i].position == i && Numbered(lines[i].cells))
      && totalChars == CellCount(lines)
    }

    ghost function Cells(): set<Cell> {
      set i, j | 0 <= i < |lines| && 0 <= j < |lines[i].cells| :: lines[i].cells[j]
    }

    /** The cache of the cell before cell `c` of line `l` (never read for a leading cell). */
    ghost function PredecessorCache(l: nat, c: nat): Value
      requires l < |lines| && c < |lines[l].cells|
      reads Cells()
    {
      if c == 0 then Undefined else lines[l].cells[c - 1].cache
    }

    /** Builds a line per line of `text` and a cell per character, numbering the
        cells of each line from 0 and counting all of them in `totalChars`.
        `textColor` is the page's text colour, read from the stylesheet. */
    constructor (text: seq<seq<seq<string>>>, textColor: string)
      ensures Valid() && !isAnimating
      ensures |lines| == |text|
      ensures forall i :: 0 <= i < |text| ==> |lines[i].cells| == |Flatten(text[i])|
      ensures forall i, j :: 0 <= i < |text| && 0 <= j < |lines[i].cells| ==>
        && fresh(lines[i].cells[j])
        && Unanimated(lines[i].cells[j], Flatten(text[i])[j], textColor)
      ensures totalChars == TextSize(text)
    {
      var built: seq<Line> := [];
      var total := 0;
      var linePosition := 0;
      while linePosition < |text|
        invariant linePosition <= |text| && |built| == linePosition
        invariant total == CellCount(built) == TextSize(text[..linePosition])
        invariant forall i :: 0 <= i < linePosition ==>
          built[i].position == i && Numbered(built[i].cells) && |built[i].cells| == |Flatten(text[i])|
        invariant forall i, j :: 0 <= i < linePosition && 0 <= j < |built[i].cells| ==>
          && fresh(built[i].cells[j])
          && Unanimated(built[i].cells[j], Flatten(text[i])[j], textColor)
      {
        var cells := BuildCells(text[linePosition], textColor);
        assert text[..linePosition + 1][..linePosition] == text[..linePosition];
        assert (built + [Line(linePosition, cells)])[..linePosition] == built;
        built := built + [Line(linePosition, cells)];
        total := total + |cells|;
        linePosition := linePosition + 1;
      }
      assert text[..linePosition] == text;
      lines := built;
      totalChars := total;
      isAnimating := false;
    }

    /** `clearCells`: every cell shows the blank placeholder; nothing else changes. */
    method ClearCells()
      requires Valid()
      modifies Cells()
      ensures forall i, j :: 0 <= i < |lines| && 0 <= j < |lines[i].cells| ==>
        lines[i].cells[j].View() == old(lines[i].cells[j].View()).(state := Str(Blank))
    {
      for i := 0 to |lines|
        invariant forall p, j :: 0 <= p < |lines| && 0 <= j < |lines[p].cells| ==>
          lines[p].cells[j].color == old(lines[p].cells[j].color) && lines[p].cells[j].cache == old(lines[p].cells[j].cache)
        invariant forall p, j :: 0 <= p < i && 0 <= j < |lines[p].cells| ==> lines[p].cells[j].state == Str(Blank)
      {
        var cells := lines[i].cells;
        for j := 0 to |cells|
          invariant forall p, q :: 0 <= p < |lines| && 0 <= q < |lines[p].cells| ==>
            lines[p].cells[q].color == old(lines[p].cells[q].color) && lines[p].cells[q].cache == old(lines[p].cells[q].cache)
          invariant forall p, q :: 0 <= p < i && 0 <= q < |lines[p].cells| ==> lines[p].cells[q].state == Str(Blank)
          invariant forall q :: 0 <= q < j ==> cells[q].state == Str(Blank)
        {
          cells[j].Set(Str(Blank));
        }
      }
    }

    /** `trigger(effect)`: ignored while an effect runs or when the name is not in
        the catalogue; otherwise raises `isAnimating` and starts the named effect,
        which clears the grid first where the effect does so. A name inherited from
        `Object.prototype` passes the `in` test, raises the flag and starts nothing. */
    method Trigger(name: string := "fx1") returns (run: Run?)
      requires Valid()
      modifies this`isAnimating, Cells()
      ensures old(isAnimating) || Catalog(name).Absent? ==>
        run == null && isAnimating == old(isAnimating) && unchanged(Cells())
      ensures !old(isAnimating) && Catalog(name).Inherited? ==>
        run == null && isAnimating && unchanged(Cells())
      ensures !old(isAnimating) && Catalog(name).Own? ==>
        && isAnimating && run != null && fresh(run)
        && run.effect == Catalog(name).effect && run.finished == 0
        && (run.effect.ClearsFirst() ==> forall i, j :: 0 <= i < |lines| && 0 <= j < |lines[i].cells| ==>
              lines[i].cells[j].View() == old(lines[i].cells[j].View()).(state := Str(Blank)))
        && (!run.effect.ClearsFirst() ==> unchanged(Cells()))
    {
      var entry := Catalog(name);
      if entry.Absent? || isAnimating {
        return null;
      }
      isAnimating := true;
      if entry.Inherited? {
        return null;
      }
      run := new Run(entry.effect);
      if entry.effect.ClearsFirst() {
        ClearCells();
      }
    }

    /** `++finished; if (finished === this.totalChars) this.isAnimating = false;` */
    method CountFinished(run: Run)
      modifies this`isAnimating, run`finished
      ensures run.finished == old(run.finished) + 1
      ensures isAnimating == if run.finished == totalChars then false else old(isAnimating)
    {
      run.finished := run.finished + 1;
      if run.finished == totalChars {
        isAnimating := false;
      }
    }

    /** Cell `c` of line `l` exists, sits at position `c`, and its predecessor, when it
        has one, is the distinct cell just before it. */
    ghost predicate Adjacent(l: nat, c: nat) {
      && l < |lines| && c < |lines[l].cells|
      && lines[l].cells[c].position == c
      && lines[l].cells[c].previousCellPosition == c - 1
      && (c > 0 ==> lines[l].cells[c - 1] != lines[l].cells[c])
    }

    /** One call of the `loop` closure that `run`'s effect scheduled for cell `c` of
        line `l`, at `iteration`: the cell changes as `Step` says, the run counts the
        cell as finished when the tick did, the flag drops when that count reaches
        `totalChars`, and `again` says whether the closure re-arms with `next`. */
    method Tick(run: Run, l: nat, c: nat, iteration: nat, d: Draw) returns (next: nat, again: bool)
      requires Valid()
      requires l < |lines| && c < |lines[l].cells|
      requires iteration < run.effect.MaxIterations()
      modifies this`isAnimating, run`finished, lines[l].cells[c]
      ensures var cell := lines[l].cells[c];
        var r := Step(run.effect, cell.Fixed(), old(cell.View()), old(PredecessorCache(l, c)), iteration, d);
        && cell.View() == r.after
        && next == r.iteration && again == r.Reschedules(run.effect)
        && run.finished == old(run.finished) + (if r.settled then 1 else 0)
        && isAnimating == (if r.settled && run.finished == totalChars then false else old(isAnimating))
    {
      assert Numbered(lines[l].cells);
      match run.effect {
        case Fx1 | Fx4 => next, again := TickCopying(run, l, c, iteration, d);
        case Fx5 => next, again := TickCopyingColour(run, l, c, iteration, d);
        case Fx2 | Fx3 => next, again := TickRandom(run, l, c, iteration, d);
        case Fx6 => next, again := TickRandomColour(run, l, c, iteration, d);
      }
    }

    /** The `loop` closure of fx1 and fx4. */
    method TickCopying(run: Run, l: nat, c: nat, iteration: nat, d: Draw) returns (next: nat, again: bool)
      requires Adjacent(l, c) && (run.effect == Fx1 || run.effect == Fx4)
      requires iteration < run.effect.MaxIterations()
      modifies this`isAnimating, run`finished, lines[l].cells[c]
      ensures var cell := lines[l].cells[c];
        var r := Step(run.effect, cell.Fixed(), old(cell.View()), old(PredecessorCache(l, c)), iteration, d);
        && cell.View() == r.after
        && next == r.iteration && again == r.Reschedules(run.effect)
        && run.finished == old(run.finished) + (if r.settled then 1 else 0)
        && isAnimating == (if r.settled && run.finished == totalChars then false else old(isAnimating))
    {
      var cell := lines[l].cells[c];
      var fx := run.effect;
      next := iteration;
      cell.cache := cell.state;
      if iteration == fx.MaxIterations() - 1 {
        cell.Set(Str(cell.original));
        CountFinished(run);
      } else if cell.position == 0 {
        cell.Set(Str([LeadingGlyph(fx, iteration, d.glyph)]));
      } else {
        cell.Set(lines[l].cells[cell.previousCellPosition].cache);
      }
      if cell.cache != Str(Blank) {
        next := next + 1;
      }
      again := next < fx.MaxIterations();
    }

    /** The `loop` closure of fx5, which copies the predecessor's colour too. */
    method TickCopyingColour(run: Run, l: nat, c: nat, iteration: nat, d: Draw) returns (next: nat, again: bool)
      requires Adjacent(l, c) && run.effect == Fx5
      requires iteration < run.effect.MaxIterations()
      modifies this`isAnimating, run`finished, lines[l].cells[c]
      ensures var cell := lines[l].cells[c];
        var r := Step(run.effect, cell.Fixed(), old(cell.View()), old(PredecessorCache(l, c)), iteration, d);
        && cell.View() == r.after
        && next == r.iteration && again == r.Reschedules(run.effect)
        && run.finished == old(run.finished) + (if r.settled then 1 else 0)
        && isAnimating == (if r.settled && run.finished == totalChars then false else old(isAnimating))
    {
      var cell := lines[l].cells[c];
      var fx := run.effect;
      next := iteration;
      cell.cache := Snapshot(cell.state, cell.color);
      if iteration == fx.MaxIterations() - 1 {
        cell.color := Str(cell.originalColor);
        cell.Set(Str(cell.original));
        CountFinished(run);
      } else if cell.position == 0 {
        cell.color := Str(Pick(Fx5Palette, d.color));
        cell.Set(Str([LeadingGlyph(fx, iteration, d.glyph)]));
      } else {
        var previous := lines[l].cells[cell.previousCellPosition].cache;
        if previous == Undefined {
          // reading `.state` of undefined throws: the closure ends here
          return next, false;
        }
        cell.Set(if previous.Snapshot? then previous.state else Undefined);
        cell.color := if previous.Snapshot? then previous.color else Undefined;
      }
      if cell.cache.state != Str(Blank) {
        next := next + 1;
      }
      again := next < fx.MaxIterations();
    }

    /** The `loop` closure of fx2 and fx3. */
    method TickRandom(run: Run, l: nat, c: nat, iteration: nat, d: Draw) returns (next: nat, again: bool)
      requires Adjacent(l, c) && (run.effect == Fx2 || run.effect == Fx3)
      requires iteration < run.effect.MaxIterations()
      modifies this`isAnimating, run`finished, lines[l].cells[c]
      ensures var cell := lines[l].cells[c];
        var r := Step(run.effect, cell.Fixed(), old(cell.View()), old(PredecessorCache(l, c)), iteration, d);
        && cell.View() == r.after
        && next == r.iteration && again == r.Reschedules(run.effect)
        && run.finished == old(run.finished) + (if r.settled then 1 else 0)
        && isAnimating == (if r.settled && run.finished == totalChars then false else old(isAnimating))
    {
      var cell := lines[l].cells[c];
      var fx := run.effect;
      if iteration == fx.MaxIterations() - 1 {
        cell.Set(Str(cell.original));
        CountFinished(run);
      } else {
        cell.Set(Str([RandomChar(d.glyph)]));
      }
      next := iteration + 1;
      again := next < fx.MaxIterations();
    }

    /** The `loop` closure of fx6, which also draws a colour. */
    method TickRandomColour(run: Run, l: nat, c: nat, iteration: nat, d: Draw) returns (next: nat, again: bool)
      requires Adjacent(l, c) && run.effect == Fx6
      requires iteration < run.effect.MaxIterations()
      modifies this`isAnimating, run`finished, lines[l].cells[c]
      ensures var cell := lines[l].cells[c];
        var r := Step(run.effect, cell.Fixed(), old(cell.View()), old(PredecessorCache(l, c)), iteration, d);
        && cell.View() == r.after
        && next == r.iteration && again == r.Reschedules(run.effect)
        && run.finished == old(run.finished) + (if r.settled then 1 else 0)
        && isAnimating == (if r.settled && run.finished == totalChars then false else old(isAnimating))
    {
      var cell := lines[l].cells[c];
      var fx := run.effect;
      cell.cache := Snapshot(cell.state, cell.color);
      if iteration == fx.MaxIterations() - 1 {
        cell.Set(Str(cell.original));
        cell.color := Str(cell.originalColor);
        CountFinished(run);
      } else {
        cell.Set(Str([RandomChar(d.glyph)]));
        cell.color := Str(Pick(Fx6Palette, d.color));
      }
      next := iteration + 1;
      again := next < fx.MaxIterations();
    }

    /** The timer chain of one cell of fx2, fx3 or fx6, played from iteration 0 until
        it stops re-arming: the cell ends restored and the run counts it exactly once. */
    method PlayCell(run: Run, l: nat, c: nat, oracle: (nat, nat, nat) -> Draw)
      requires Valid()
      requires l < |lines| && c < |lines[l].cells|
      requires !run.effect.Propagates()
      modifies this`isAnimating, run`finished, lines[l].cells[c]
      ensures Restored(run.effect, lines[l].cells[c])
      ensures run.finished == old(run.finished) + 1
      ensures isAnimating == if run.finished == totalChars then false else old(isAnimating)
    {
      var fx := run.effect;
      var iteration, again := 0, true;
      while again
        invariant iteration <= fx.MaxIterations()
        invariant again <==> iteration < fx.MaxIterations()
        invariant run.finished == old(run.finished) + (if again then 0 else 1)
        invariant isAnimating == if !again && run.finished == totalChars then false else old(isAnimating)
        invariant !again ==> Restored(fx, lines[l].cells[c])
        decreases fx.MaxIterations() - iteration
      {
        iteration, again := Tick(run, l, c, iteration, oracle(l, c, iteration));
      }
    }

    /** The timer chains of the cells of line `l`, played one after another. */
    method PlayLine(run: Run, l: nat, oracle: (nat, nat, nat) -> Draw, ghost done: set<Cell>)
      returns (ghost done': set<Cell>)
      requires Valid() && l < |lines|
      requires !run.effect.Propagates()
      requires run.finished + |lines[l].cells| <= totalChars
      requires forall x | x in done :: Restored(run.effect, x)
      modifies this`isAnimating, run`finished, lines[l].cells
      ensures run.finished == old(run.finished) + |lines[l].cells|
      ensures isAnimating == if |lines[l].cells| > 0 && run.finished == totalChars then false else old(isAnimating)
      ensures done' == done + set j | 0 <= j < |lines[l].cells| :: lines[l].cells[j]
      ensures forall x | x in done' :: Restored(run.effect, x)
    {
      var cells := lines[l].cells;
      done' := done;
      for c := 0 to |cells|
        invariant run.finished == old(run.finished) + c
        invariant isAnimating == if c > 0 && run.finished == totalChars then false else old(isAnimating)
        invariant done' == done + set j | 0 <= j < c :: cells[j]
        invariant forall x | x in done' :: Restored(run.effect, x)
      {
        PlayCell(run, l, c, oracle);
        done' := done' + {cells[c]};
      }
    }

    /** The timers of fx2, fx3 or fx6 played out one cell after another, line by line:
        each cell's loop is ticked from iteration 0 until it stops re-arming, with
        `oracle` supplying the random draws. Afterwards every cell shows its original
        glyph (and colour in fx6), the run has counted each cell once, and the flag is
        down unless the grid has no cells at all. */
    method RunToCompletion(run: Run, oracle: (nat, nat, nat) -> Draw)
      requires Valid()
      requires !run.effect.Propagates() && run.finished == 0
      modifies this`isAnimating, run`finished, Cells()
      ensures run.finished == totalChars
      ensures totalChars > 0 ==> !isAnimating
      ensures totalChars == 0 ==> isAnimating == old(isAnimating)
      ensures forall i, j :: 0 <= i < |lines| && 0 <= j < |lines[i].cells| ==>
        && lines[i].cells[j].state == Str(lines[i].cells[j].original)
        && (run.effect == Fx6 ==> lines[i].cells[j].color == Str(lines[i].cells[j].originalColor))
    {
      ghost var done: set<Cell> := {};
      for l := 0 to |lines|
        invariant run.finished == CellCount(lines[..l]) <= totalChars
        invariant run.finished == 0 ==> isAnimating == old(isAnimating)
        invariant run.finished == totalChars && run.finished > 0 ==> !isAnimating
        invariant forall x | x in done :: Restored(run.effect, x)
        invariant forall i, j :: 0 <= i < l && 0 <= j < |lines[i].cells| ==> lines[i].cells[j] in done
      {
        CellCountPrefix(lines, l);
        done := PlayLine(run, l, oracle, done);
        assert lines[..l + 1][..l] == lines[..l];
      }
      assert lines[..|lines|] == lines;
    }
  }

  /** A cell shows its original glyph, and its original colour where the effect varies it. */
  ghost predicate Restored(fx: Effect, cell: Cell)
    reads cell
  {
    cell.state == Str(cell.original) && (fx.VariesColor() ==> cell.color == Str(cell.originalColor))
  }

  /** Text with no characters locks the engine: `trigger` raises the flag, no line has
      a cell whose loop could lower it (`Tick` needs one), and the next trigger is ignored. */
  method EmptyTextLocksEngine(text: seq<seq<seq<string>>>, textColor: string, name: string, later: string)
    returns (engine: TypeShuffle, first: Run?, second: Run?)
    requires TextSize(text) == 0 && Catalog(name).Own?
    ensures engine.Valid() && engine.totalChars == 0
    ensures forall i :: 0 <= i < |engine.lines| ==> engine.lines[i].cells == []
    ensures first != null && second == null && engine.isAnimating
  {
    engine := new TypeShuffle(text, textColor);
    NoCellsMeansEmptyLines(engine.lines);
    first := engine.Trigger(name);
    second := engine.Trigger(later);
  }
}
