/**
 * The catalogue of named effects and the parameters that tell them apart:
 * how many iterations a cell's loop runs, which rule picks a non-leading
 * cell's next value, whether the grid is cleared first, whether colour
 * varies, and the timer delays that stagger the cells' loops.
 */
module Effects {
  import opened Glyphs

  datatype Effect = Fx1 | Fx2 | Fx3 | Fx4 | Fx5 | Fx6
  {
    /** `MAX_CELL_ITERATIONS` of each effect. */
    function MaxIterations(): (n: nat)
      ensures n >= 10
    {
      match this
      case Fx1 => 45
      case Fx2 => 20
      case Fx3 => 10
      case Fx4 => 30
      case Fx5 => 65
      case Fx6 => 15
    }

    /** fx1, fx4 and fx5 copy the predecessor's cache into non-leading cells; the others draw at random. */
    predicate Propagates() {
      this == Fx1 || this == Fx4 || this == Fx5
    }

    /** fx1, fx3, fx4 and fx5 call `clearCells` before scheduling. */
    predicate ClearsFirst() {
      this != Fx2 && this != Fx6
    }

    /** fx5 and fx6 change `color` and restore `originalColor` at the end. */
    predicate VariesColor() {
      this == Fx5 || this == Fx6
    }

    /** fx2 and fx3 never write `cache`; the others snapshot the cell first on every tick. */
    predicate Caches() {
      this != Fx2 && this != Fx3
    }
  }

  /** How `name in this.effects` resolves: an own entry of the catalogue,
      a member inherited from `Object.prototype`, or nothing. */
  datatype Lookup = Own(effect: Effect) | Inherited | Absent

  /** The names every plain JavaScript object answers to through its prototype. */
  const ObjectPrototypeNames: set<string> :=
    {"constructor", "hasOwnProperty", "isPrototypeOf", "propertyIsEnumerable",
     "toLocaleString", "toString", "valueOf", "__proto__", "__defineGetter__",
     "__defineSetter__", "__lookupGetter__", "__lookupSetter__"}

  /** The `effects` map of the engine, as seen by the `in` operator. */
  function Catalog(name: string): (r: Lookup)
    ensures r.Own? <==> name in {"fx1", "fx2", "fx3", "fx4", "fx5", "fx6"}
    ensures r.Inherited? <==> name in ObjectPrototypeNames
  {
    match name
    case "fx1" => Own(Fx1)
    case "fx2" => Own(Fx2)
    case "fx3" => Own(Fx3)
    case "fx4" => Own(Fx4)
    case "fx5" => Own(Fx5)
    case "fx6" => Own(Fx6)
    case _ => if name in ObjectPrototypeNames then Inherited else Absent
  }

  /** Every effect is reachable by its own name, and by no other. */
  lemma CatalogNamesEachEffect(fx: Effect, name: string)
    ensures Catalog(name) == Own(fx) <==> name == EffectName(fx)
  {
  }

  function EffectName(fx: Effect): string {
    match fx
    case Fx1 => "fx1"
    case Fx2 => "fx2"
    case Fx3 => "fx3"
    case Fx4 => "fx4"
    case Fx5 => "fx5"
    case Fx6 => "fx6"
  }

  function Abs(x: int): nat {
    if x < 0 then -x else x
  }

  /** Milliseconds before the first tick of the cell at `cellPos` of line `linePos`,
      in a block of `lineCount` lines; `draw` stands for the random start of fx3. */
  function StartDelay(fx: Effect, lineCount: nat, linePos: nat, cellPos: nat, draw: nat): (ms: nat)
    ensures fx == Fx3 ==> ms <= 2000
    ensures fx == Fx4 ==> ms % 200 == 0
  {
    match fx
    case Fx1 => (linePos + 1) * 200
    case Fx2 => (cellPos + 1) * 30
    case Fx3 => RandomNumber(0, 2000, draw)
    case Fx4 => Abs(lineCount - 2 * linePos) * 200
    case Fx5 => (linePos + 1) * 200
    case Fx6 => (linePos + 1) * 80
  }

  /** Milliseconds between two ticks of one cell; `draw` stands for fx6's random interval. */
  function TickInterval(fx: Effect, draw: nat): (ms: nat)
    ensures fx == Fx6 ==> 30 <= ms <= 110
    ensures fx != Fx6 ==> ms >= 10
  {
    match fx
    case Fx1 => 15
    case Fx2 => 40
    case Fx3 => 80
    case Fx4 => 15
    case Fx5 => 10
    case Fx6 => RandomNumber(30, 110, draw)
  }

  function RealAbs(x: real): real {
    if x < 0.0 then -x else x
  }

  /** fx4's delay `Math.abs(lines.length/2 - line.position)*400` is computed in
      floating point; with exact arithmetic it equals the integer delay above. */
  lemma Fx4DelayMatchesSource(lineCount: nat, linePos: nat, cellPos: nat, draw: nat)
    ensures RealAbs(lineCount as real / 2.0 - linePos as real) * 400.0
         == StartDelay(Fx4, lineCount, linePos, cellPos, draw) as real
  {
    var d := lineCount - 2 * linePos;
    assert lineCount as real / 2.0 - linePos as real == d as real / 2.0;
  }

  /** fx4 measures from `lines.length/2`: lines 1 to n-1 pair up around it and start
      together. Line 0 has no partner (line n does not exist). */
  lemma Fx4DelaySymmetric(lineCount: nat, linePos: nat, cellPos: nat, draw: nat)
    requires 1 <= linePos < lineCount
    ensures StartDelay(Fx4, lineCount, linePos, cellPos, draw)
         == StartDelay(Fx4, lineCount, lineCount - linePos, cellPos, draw)
  {
  }

  /** fx4 is not symmetric about the middle line: in a block of two or more lines the
      top line starts 400 ms after the bottom one. */
  lemma Fx4TopLineLags(lineCount: nat, cellPos: nat, draw: nat)
    requires lineCount >= 2
    ensures StartDelay(Fx4, lineCount, 0, cellPos, draw)
         == StartDelay(Fx4, lineCount, lineCount - 1, cellPos, draw) + 400
  {
  }

  /** In every propagating effect the cells of one line all start at the same time. */
  lemma PropagatingLineStartsTogether(fx: Effect, lineCount: nat, linePos: nat, c1: nat, c2: nat, d1: nat, d2: nat)
    requires fx.Propagates()
    ensures StartDelay(fx, lineCount, linePos, c1, d1) == StartDelay(fx, lineCount, linePos, c2, d2)
  {
  }

  /** fx1, fx5 and fx6 start each line strictly after the line above it. */
  lemma LinesStartTopDown(fx: Effect, lineCount: nat, p: nat, q: nat, cellPos: nat, draw: nat)
    requires fx == Fx1 || fx == Fx5 || fx == Fx6
    requires p < q
    ensures StartDelay(fx, lineCount, p, cellPos, draw) < StartDelay(fx, lineCount, q, cellPos, draw)
  {
  }
}
