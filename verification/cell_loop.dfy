/**
 * One cell's animation loop, as values. `Step` is one tick of the loop
 * closure an effect schedules for a cell; `Loop` is the chain of ticks the
 * closure runs by re-arming its timer. What a tick can see of the outside
 * world is the cache of the cell before it in the line and one random draw;
 * both arrive as inputs, so any interleaving of the timers is covered by
 * choosing the inputs.
 */
module CellLoop {
  import opened Glyphs
  import opened Effects

  /** The JavaScript values a cell's `state`, `color` and `cache` hold: a string,
      `undefined`, or the `{state, color}` object fx5 and fx6 cache. */
  datatype Value = Undefined | Str(text: string) | Snapshot(state: Value, color: Value)

  /** The fields of a `Cell` that ticks change. */
  datatype CellView = CellView(state: Value, color: Value, cache: Value)

  /** The fields of a `Cell` fixed at construction that ticks consult. */
  datatype Origin = Origin(position: nat, original: string, originalColor: string)

  /** The random numbers one tick may consume: one for a glyph, one for a colour. */
  datatype Draw = Draw(glyph: nat, color: nat)

  /** The effect of one tick: the cell's new fields, whether this tick counted the
      cell as finished, the iteration the closure re-arms with, and whether the
      tick threw (fx5 reading `.state` of an undefined cache). */
  datatype TickResult = TickResult(after: CellView, settled: bool, iteration: nat, crashed: bool)
  {
    /** `if (iteration < MAX_CELL_ITERATIONS) setTimeout(...)`, reached only when nothing threw. */
    predicate Reschedules(fx: Effect) {
      !crashed && iteration < fx.MaxIterations()
    }
  }

  /** `if (cache != '&nbsp;') ++iteration`: JavaScript's loose inequality
      makes `undefined` and any object differ from the placeholder. */
  function Advance(previous: Value, iteration: nat): nat {
    if previous != Str(Blank) then iteration + 1 else iteration
  }

  /** The glyph a leading cell shows on a non-final tick of a propagating effect. */
  function LeadingGlyph(fx: Effect, iteration: nat, draw: nat): char
    requires fx.Propagates()
  {
    if fx == Fx4 then Pick(Fx4Glyphs, draw)
    else if iteration < 9 then Pick(Flourish, draw)
    else RandomChar(draw)
  }

  /** The table a leading cell draws from, as the source lists it per effect. */
  function LeadingTable(fx: Effect, iteration: nat): seq<char> {
    if fx == Fx4 then Fx4Glyphs
    else if iteration < 9 then Flourish
    else LettersAndSymbols
  }

  /** A one-character string whose character is in `table`. */
  predicate GlyphFrom(v: Value, table: seq<char>) {
    v.Str? && |v.text| == 1 && v.text[0] in table
  }

  /** One tick of the `loop` closure of effect `fx` on a cell, given the cache of the
      cell at `previousCellPosition` and the random draw. */
  function Step(fx: Effect, o: Origin, v: CellView, neighbourCache: Value, iteration: nat, d: Draw): (r: TickResult)
    requires iteration < fx.MaxIterations()
    ensures r.iteration <= fx.MaxIterations()
  {
    var final := iteration == fx.MaxIterations() - 1;
    match fx
    case Fx1 | Fx4 =>
      var state :=
        if final then Str(o.original)
        else if o.position == 0 then Str([LeadingGlyph(fx, iteration, d.glyph)])
        else neighbourCache;
      TickResult(CellView(state, v.color, v.state), final, Advance(v.state, iteration), false)
    case Fx5 =>
      var cache := Snapshot(v.state, v.color);
      if final then
        TickResult(CellView(Str(o.original), Str(o.originalColor), cache), true, Advance(v.state, iteration), false)
      else if o.position == 0 then
        var glyph := Str([LeadingGlyph(fx, iteration, d.glyph)]);
        TickResult(CellView(glyph, Str(Pick(Fx5Palette, d.color)), cache), false, Advance(v.state, iteration), false)
      else (
        match neighbourCache
        case Undefined => TickResult(CellView(v.state, v.color, cache), false, iteration, true)
        case Str(_) => TickResult(CellView(Undefined, Undefined, cache), false, Advance(v.state, iteration), false)
        case Snapshot(s, c) => TickResult(CellView(s, c, cache), false, Advance(v.state, iteration), false))
    case Fx2 | Fx3 =>
      var state := if final then Str(o.original) else Str([RandomChar(d.glyph)]);
      TickResult(CellView(state, v.color, v.cache), final, iteration + 1, false)
    case Fx6 =>
      var cache := Snapshot(v.state, v.color);
      if final then
        TickResult(CellView(Str(o.original), Str(o.originalColor), cache), true, iteration + 1, false)
      else
        TickResult(CellView(Str([RandomChar(d.glyph)]), Str(Pick(Fx6Palette, d.color)), cache), false, iteration + 1, false)
  }

  /** Every effect but fx2 and fx3 first snapshots the cell as it was before the
      tick (with its colour in fx5 and fx6); fx2 and fx3 leave the cache alone. */
  lemma SnapshotBeforeChange(fx: Effect, o: Origin, v: CellView, n: Value, i: nat, d: Draw)
    requires i < fx.MaxIterations()
    ensures var r := Step(fx, o, v, n, i, d);
      && (fx.Caches() && !fx.VariesColor() ==> r.after.cache == v.state)
      && (fx.VariesColor() ==> r.after.cache == Snapshot(v.state, v.color))
      && (!fx.Caches() ==> r.after.cache == v.cache)
  {
  }

  /** A tick counts the cell as finished exactly on the last iteration, and that
      tick shows the original glyph again (and the original colour where colour varies). */
  lemma FinalTickRestores(fx: Effect, o: Origin, v: CellView, n: Value, i: nat, d: Draw)
    requires i < fx.MaxIterations()
    ensures var r := Step(fx, o, v, n, i, d);
      && (r.settled <==> i == fx.MaxIterations() - 1)
      && (r.settled ==> !r.crashed && r.after.state == Str(o.original))
      && (r.settled && fx.VariesColor() ==> r.after.color == Str(o.originalColor))
  {
  }

  /** Outside fx5 and fx6 a tick never touches the colour. */
  lemma ColourKeptOutsideFx5Fx6(fx: Effect, o: Origin, v: CellView, n: Value, i: nat, d: Draw)
    requires i < fx.MaxIterations()
    requires !fx.VariesColor()
    ensures Step(fx, o, v, n, i, d).after.color == v.color
  {
  }

  /** A leading cell of a propagating effect shows a glyph from its effect's small
      table (`* - ' "` for the first nine iterations of fx1 and fx5, `* :` in fx4),
      and in fx5 a colour from the palette. */
  lemma LeadingCellGlyphs(fx: Effect, o: Origin, v: CellView, n: Value, i: nat, d: Draw)
    requires fx.Propagates() && o.position == 0
    requires i < fx.MaxIterations() - 1
    ensures var r := Step(fx, o, v, n, i, d);
      && !r.crashed
      && GlyphFrom(r.after.state, LeadingTable(fx, i))
      && (fx == Fx5 ==> r.after.color.Str? && r.after.color.text in Fx5Palette)
  {
  }

  /** A non-leading cell of a propagating effect shows what the cell before it had
      cached: the cache itself in fx1 and fx4, its `state` and `color` in fx5, where
      an undefined cache throws and a string cache yields `undefined`. */
  lemma PropagationFromNeighbour(fx: Effect, o: Origin, v: CellView, n: Value, i: nat, d: Draw)
    requires fx.Propagates() && o.position > 0
    requires i < fx.MaxIterations() - 1
    ensures var r := Step(fx, o, v, n, i, d);
      && (fx != Fx5 ==> !r.crashed && r.after.state == n)
      && (fx == Fx5 ==> (r.crashed <==> n == Undefined))
      && (fx == Fx5 && n.Snapshot? ==> r.after.state == n.state && r.after.color == n.color)
      && (fx == Fx5 && n.Str? ==> r.after.state == Undefined && r.after.color == Undefined)
  {
  }

  /** fx2, fx3 and fx6 show an independent random symbol on every non-final tick
      (fx6 also a random palette colour), whatever the cell before it holds. */
  lemma IndependentDraws(fx: Effect, o: Origin, v: CellView, n: Value, n': Value, i: nat, d: Draw)
    requires !fx.Propagates()
    requires i < fx.MaxIterations() - 1
    ensures var r := Step(fx, o, v, n, i, d);
      && r == Step(fx, o, v, n', i, d)
      && GlyphFrom(r.after.state, LettersAndSymbols)
      && (fx == Fx6 ==> r.after.color.Str? && r.after.color.text in Fx6Palette)
  {
  }

  /** The blank skip: a propagating effect advances the iteration only when the
      state snapshotted this tick is not the blank placeholder; the other effects
      always advance. A tick that throws advances nothing. */
  lemma BlankSkip(fx: Effect, o: Origin, v: CellView, n: Value, i: nat, d: Draw)
    requires i < fx.MaxIterations()
    ensures var r := Step(fx, o, v, n, i, d);
      && (r.crashed ==> r.iteration == i)
      && (!r.crashed && fx.Propagates() ==> (r.iteration == i <==> v.state == Str(Blank)))
      && (!r.crashed && fx.Propagates() ==> (r.iteration == i + 1 <==> v.state != Str(Blank)))
      && (!fx.Propagates() ==> r.iteration == i + 1)
  {
  }

  /** What one tick reads from outside the cell. */
  datatype Input = Input(neighbourCache: Value, draw: Draw)

  /** Where a cell's loop is after it has been fed some ticks: its fields, the
      iteration it would re-arm with, how many ticks ran, how many of them counted
      the cell as finished, and whether the loop stopped re-arming (or threw). */
  datatype LoopEnd = LoopEnd(view: CellView, iteration: nat, ticks: nat, settled: nat, stopped: bool, crashed: bool)

  /** The ticks of one cell's loop, starting at `iteration`, each given the next
      input; it stops when the closure no longer re-arms or the inputs run out. */
  function Loop(fx: Effect, o: Origin, v: CellView, iteration: nat, feed: seq<Input>): (e: LoopEnd)
    requires iteration < fx.MaxIterations()
    ensures e.ticks <= |feed|
    ensures !e.stopped ==> e.ticks == |feed| && e.iteration < fx.MaxIterations()
    ensures e.settled <= e.ticks
    ensures e.crashed ==> e.stopped
    decreases |feed|
  {
    if feed == [] then LoopEnd(v, iteration, 0, 0, false, false)
    else
      var r := Step(fx, o, v, feed[0].neighbourCache, iteration, feed[0].draw);
      var s := if r.settled then 1 else 0;
      if !r.Reschedules(fx) then LoopEnd(r.after, r.iteration, 1, s, true, r.crashed)
      else
        var e := Loop(fx, o, r.after, r.iteration, feed[1..]);
        e.(ticks := e.ticks + 1, settled := e.settled + s)
  }

  /** fx2, fx3 and fx6 always advance, so a cell's loop runs exactly the remaining
      iterations, counts the cell as finished once and ends on the original glyph
      (and, in fx6, the original colour). */
  lemma {:induction false} IndependentLoopRunsToMax(fx: Effect, o: Origin, v: CellView, i: nat, feed: seq<Input>)
    requires !fx.Propagates()
    requires i < fx.MaxIterations() <= i + |feed|
    ensures var e := Loop(fx, o, v, i, feed);
      && e.stopped && !e.crashed
      && e.ticks == fx.MaxIterations() - i
      && e.settled == 1
      && e.view.state == Str(o.original)
      && (fx == Fx6 ==> e.view.color == Str(o.originalColor))
    decreases fx.MaxIterations() - i
  {
    var r := Step(fx, o, v, feed[0].neighbourCache, i, feed[0].draw);
    if r.Reschedules(fx) {
      IndependentLoopRunsToMax(fx, o, r.after, r.iteration, feed[1..]);
    }
  }

  /** Whenever a loop stops without throwing, its last tick was a final one: the
      cell was counted as finished at least once and shows its original glyph (and
      colour, where colour varies). */
  lemma {:induction false} StoppedLoopShowsOriginal(fx: Effect, o: Origin, v: CellView, i: nat, feed: seq<Input>)
    requires i < fx.MaxIterations()
    ensures var e := Loop(fx, o, v, i, feed);
      e.stopped && !e.crashed ==>
        && e.settled >= 1
        && e.view.state == Str(o.original)
        && (fx.VariesColor() ==> e.view.color == Str(o.originalColor))
    decreases |feed|
  {
    if feed != [] {
      var r := Step(fx, o, v, feed[0].neighbourCache, i, feed[0].draw);
      FinalTickRestores(fx, o, v, feed[0].neighbourCache, i, feed[0].draw);
      if r.Reschedules(fx) {
        StoppedLoopShowsOriginal(fx, o, r.after, r.iteration, feed[1..]);
      }
    }
  }

  /** The cache of the cell before this one holds the blank placeholder
      (as a string in fx1 and fx4, as the `state` of a snapshot in fx5). */
  predicate BlankCache(fx: Effect, n: Value) {
    if fx == Fx5 then n.Snapshot? && n.state == Str(Blank) else n == Str(Blank)
  }

  /** Blank regions do not use up the iteration budget: a blank non-leading cell of
      a propagating effect that keeps being fed blank caches stays blank, stays on
      its iteration and never finishes. */
  lemma {:induction false} BlankRunsConsumeNoIterations(fx: Effect, o: Origin, v: CellView, i: nat, feed: seq<Input>)
    requires fx.Propagates() && o.position > 0
    requires i < fx.MaxIterations() - 1
    requires v.state == Str(Blank)
    requires forall k :: 0 <= k < |feed| ==> BlankCache(fx, feed[k].neighbourCache)
    ensures var e := Loop(fx, o, v, i, feed);
      && !e.stopped && e.settled == 0
      && e.iteration == i && e.view.state == Str(Blank)
    decreases |feed|
  {
    if feed != [] {
      var r := Step(fx, o, v, feed[0].neighbourCache, i, feed[0].draw);
      assert BlankCache(fx, feed[0].neighbourCache);
      BlankRunsConsumeNoIterations(fx, o, r.after, r.iteration, feed[1..]);
    }
  }

  /** A cell of a propagating effect that still shows the placeholder when it
      reaches its last iteration is counted as finished twice: the restoring tick
      does not advance, so the closure runs the restoring tick once more. */
  lemma BlankFinalTickCountsTwice(fx: Effect, o: Origin, v: CellView, feed: seq<Input>)
    requires fx.Propagates()
    requires v.state == Str(Blank) && o.original != Blank
    requires |feed| >= 2
    ensures var e := Loop(fx, o, v, fx.MaxIterations() - 1, feed);
      && e.stopped && !e.crashed && e.ticks == 2 && e.settled == 2
      && e.view.state == Str(o.original)
  {
    var i := fx.MaxIterations() - 1;
    var r := Step(fx, o, v, feed[0].neighbourCache, i, feed[0].draw);
    assert r.after.state == Str(o.original) && r.iteration == i;
    var r' := Step(fx, o, r.after, feed[1].neighbourCache, i, feed[1].draw);
    assert r'.iteration == i + 1;
    assert feed[1..][0] == feed[1];
  }

  /** A cell whose original content is the placeholder itself and that is blank on
      its last iteration never leaves it: every tick restores, counts the cell as
      finished again and re-arms, for as long as it is fed. */
  lemma {:induction false} BlankOriginalCountsForever(fx: Effect, o: Origin, v: CellView, feed: seq<Input>)
    requires fx.Propagates()
    requires v.state == Str(Blank) && o.original == Blank
    ensures var e := Loop(fx, o, v, fx.MaxIterations() - 1, feed);
      && !e.stopped && e.settled == |feed| && e.view.state == Str(Blank)
    decreases |feed|
  {
    if feed != [] {
      var r := Step(fx, o, v, feed[0].neighbourCache, fx.MaxIterations() - 1, feed[0].draw);
      BlankOriginalCountsForever(fx, o, r.after, feed[1..]);
    }
  }
}
