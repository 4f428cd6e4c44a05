# TypeShuffle text-scramble engine, modelled in Dafny

This project models the `TypeShuffle` engine of `src/js/main.js`. The engine
splits a text block into lines of character cells. A `trigger(name)` call
starts one of six effects (`fx1` to `fx6`). Each effect arms a timer loop per
cell. Every tick of a loop:

- snapshots the cell into its `cache`;
- shows a scrambled glyph, or restores the original on the last iteration;
- advances the cell's iteration counter.

A shared `finished` counter lowers the engine's `isAnimating` flag when it
reaches `totalChars`. The project also models the decision logic of the
project-list filter: the filter object, the "is this item displayed" test and
the "is the reset button active" test.

Modules:

- `Glyphs` (`glyphs.dfy`): the symbol tables and palettes. A random draw
  becomes a choice through `Pick`, `RandomChar` and `RandomNumber`.
- `Effects` (`effects.dfy`): the effect catalogue. It holds the iteration
  limits, which rule each effect uses, and the start delays and tick
  intervals as integer functions. It also models how the `in` test resolves
  a name.
- `CellLoop` (`cell_loop.dfy`): one tick of a cell's loop as the pure function
  `Step`, and the chain of ticks as `Loop`. The lemmas state the tick rules
  (snapshot, restore, leading cell, propagation, independent draws, blank
  skip) and what whole loops do.
- `Shuffle` (`engine.dfy`): the classes `Cell` and `Run` and the datatype
  `Line`. The class `TypeShuffle` holds the constructor, `ClearCells`,
  `Trigger` and `Tick`. `Tick` is the body of an effect's loop closure and is
  proved equal to `Step`. `Run` is the closure environment of one effect
  invocation: its effect and its `finished` counter.
- `ProjectFilter` (`project_filter.dfy`): the filter object, the
  `applyFilters` test and the `toggleResetButton` test.

Timers are not modelled as time. The caller ticks any cell, with any run, in
any order. What a tick reads from outside its cell arrives as inputs: the
predecessor's cache and a random draw. So every interleaving the timers could
produce is covered. `RunToCompletion` plays one concrete schedule of fx2, fx3
and fx6 (cell after cell) to show that the flag comes down.

Behaviours of the code that the model keeps as they are:

- **Empty text locks the engine.** With no cells, `trigger` raises
  `isAnimating` and nothing can ever lower it (`EmptyTextLocksEngine`). An empty
  block does not complete at once.
- **A cell can be counted as finished more than once.** Take a cell of fx1,
  fx4 or fx5 that is blank when it reaches its last iteration. Its restoring
  tick does not advance the counter, so the restoring tick runs again
  (`BlankFinalTickCountsTwice`). If the cell's original content is the
  placeholder itself, it re-counts forever (`BlankOriginalCountsForever`). So
  `finished` can exceed `totalChars`, and the flag can drop while other cells
  still animate.
- **The blank skip tests the cell's own snapshot.** The iteration advances
  unless the cell's fresh snapshot (`cell.cache`) is the placeholder; the
  predecessor's cache being copied plays no part in it.
- **Inherited names pass `trigger`'s test.** `name in this.effects` is also
  true for the members of `Object.prototype`, such as `toString`. Such a name
  raises the flag and starts nothing, which locks the engine.
- **fx5 can throw or copy `undefined`.** fx5 reads `.state` and `.color` of
  the predecessor's cache. An undefined cache throws, and the loop ends. A
  string cache left by fx1 or fx4 yields `undefined`.
- **fx4 is not centred on the middle line.** Its delay measures the distance
  from `lines.length/2`, so lines 1 to n-1 pair up around it
  (`Fx4DelaySymmetric`) while the top line starts 400 ms after the bottom one
  (`Fx4TopLineLags`).
- **Reset drops two filter keys.** The reset handler keeps only four of the
  six filter keys; `publicity` and `platform` disappear
  (`ResetDropsTwoKeys`).

## Model

| member | source | states |
|---|---|---|
| `Glyphs.Pick` | src/js/main.js:142 | a table lookup by a random draw yields an element of the table |
| `Glyphs.PickReachesAll` | src/js/main.js:142 | every element of a table is chosen by some draw |
| `Glyphs.RandomChar` | src/js/main.js:141-143 | `getRandomChar` returns a member of `lettersAndSymbols` |
| `Glyphs.RandomNumber` | src/js/main.js:7 | `randomNumber(min, max)` lies in the closed range [min, max] |
| `Glyphs.RandomNumberReachesAll` | src/js/main.js:7 | every integer of the range is produced by some draw |
| `Effects.Effect.MaxIterations` | src/js/main.js:149-351 | each effect's `MAX_CELL_ITERATIONS` (45, 20, 10, 30, 65, 15), all at least 10 |
| `Effects.Catalog` | src/js/main.js:77-84 | a name is an own effect exactly when it is `fx1`..`fx6`; it is inherited exactly when it names an `Object.prototype` member |
| `Effects.CatalogNamesEachEffect` | src/js/main.js:77-84 | each effect is reached by its own name and by no other |
| `Effects.StartDelay` | src/js/main.js:195-199 | the start delay of each effect; fx3's random start is at most 2000 ms; fx4's is a multiple of 200 ms |
| `Effects.TickInterval` | src/js/main.js:376 | fx6 re-arms after 30 to 110 ms; every other effect waits a fixed interval of at least 10 ms |
| `Effects.Fx4DelayMatchesSource` | src/js/main.js:296 | fx4's `abs(lines.length/2 - position)*400`, computed exactly, equals the integer delay `abs(lines.length - 2*position)*200` |
| `Effects.Fx4DelaySymmetric` | src/js/main.js:296 | for 1 <= p <= n-1, fx4 starts line p and line n-p of an n-line block together (they are equally far from `lines.length/2`) |
| `Effects.Fx4TopLineLags` | src/js/main.js:296 | in a block of n >= 2 lines, fx4 starts the top line 400 ms after the bottom line |
| `Effects.PropagatingLineStartsTogether` | src/js/main.js:195-199 | in fx1, fx4 and fx5 all cells of one line start together, whatever their position |
| `Effects.LinesStartTopDown` | src/js/main.js:197 | fx1, fx5 and fx6 start each line strictly after the line above |
| `CellLoop.Step` | src/js/main.js:158-192 | one tick of an effect's loop closure; the iteration it re-arms with never passes the maximum |
| `CellLoop.SnapshotBeforeChange` | src/js/main.js:160 | fx1 and fx4 cache the state from before the tick, fx5 and fx6 cache state and colour, fx2 and fx3 leave the cache alone |
| `CellLoop.FinalTickRestores` | src/js/main.js:163-169 | a tick counts the cell as finished exactly on iteration MAX-1, and that tick restores the original glyph (and colour in fx5 and fx6) |
| `CellLoop.ColourKeptOutsideFx5Fx6` | src/js/main.js:147-299 | fx1 to fx4 never change a cell's colour |
| `CellLoop.LeadingCellGlyphs` | src/js/main.js:171-176 | a position-0 cell of fx1/fx5 shows one of `* - ' "` before iteration 9 and a `lettersAndSymbols` member after; in fx4 it shows `*` or `:`; in fx5 it also takes a palette colour |
| `CellLoop.PropagationFromNeighbour` | src/js/main.js:179-181 | a non-leading cell of fx1/fx4 shows its predecessor's cache; in fx5 it takes that cache's state and colour, throws on an undefined cache and gets `undefined` from a string cache |
| `CellLoop.IndependentDraws` | src/js/main.js:217-219 | fx2, fx3 and fx6 ignore the predecessor and show a `lettersAndSymbols` member on each non-final tick (fx6 also a palette colour) |
| `CellLoop.BlankSkip` | src/js/main.js:184-186 | fx1, fx4 and fx5 advance the iteration exactly when the snapshot taken this tick is not the placeholder; fx2, fx3 and fx6 always advance; a throwing tick advances nothing |
| `CellLoop.Loop` | src/js/main.js:188-191 | a cell's loop never runs more ticks than it is fed, never counts more finishes than ticks, and stops after any tick that throws |
| `CellLoop.IndependentLoopRunsToMax` | src/js/main.js:221-224 | in fx2, fx3 and fx6 a loop from iteration i runs exactly MAX-i ticks, counts the cell once and ends on the original glyph (and colour in fx6) |
| `CellLoop.StoppedLoopShowsOriginal` | src/js/main.js:163-191 | any loop that stops without throwing has counted the cell at least once and shows the original glyph (and colour where it varies) |
| `CellLoop.BlankRunsConsumeNoIterations` | src/js/main.js:183-186 | a blank non-leading cell fed only blank caches stays blank, keeps its iteration and never finishes |
| `CellLoop.BlankFinalTickCountsTwice` | src/js/main.js:163-190 | a propagating cell that is blank on its last iteration is counted as finished twice before its loop stops |
| `CellLoop.BlankOriginalCountsForever` | src/js/main.js:163-190 | a propagating cell whose original is the placeholder, blank on its last iteration, counts itself as finished on every tick and never stops |
| `Shuffle.Cell.constructor` | src/js/main.js:46-56 | a new cell shows its original content in the text colour, with an empty cache |
| `Shuffle.Cell.Set` | src/js/main.js:60-63 | `set` changes the shown state and nothing else |
| `Shuffle.Run.constructor` | src/js/main.js:151 | each effect invocation starts its own `finished` counter at 0 |
| `Shuffle.NoCellsMeansEmptyLines` | src/js/main.js:101-122 | a grid that counts no cells has only empty lines |
| `Shuffle.CellCountPrefix` | src/js/main.js:121 | counting cells line by line adds each line's length and stays within the total |
| `Shuffle.PushWord` | src/js/main.js:109-117 | the characters of one word become fresh cells, each showing its character, numbered on from the cells already in the line |
| `Shuffle.BuildCells` | src/js/main.js:104-118 | the cells of a line follow its characters word by word, numbered 0..n-1 with predecessor position-1 (-1 for the first), all distinct |
| `Shuffle.TypeShuffle.constructor` | src/js/main.js:91-122 | one line per split line with `position` equal to its index, cells numbered and showing their characters, `totalChars` equal to the number of characters |
| `Shuffle.TypeShuffle.ClearCells` | src/js/main.js:130-136 | every cell shows the placeholder; colour, cache, original and position are unchanged |
| `Shuffle.TypeShuffle.Trigger` | src/js/main.js:390-394 | nothing changes when busy or when the name is absent; an own effect raises the flag, starts a fresh run of exactly that effect and clears the grid when the effect does; an inherited name raises the flag and starts nothing |
| `Shuffle.TypeShuffle.CountFinished` | src/js/main.js:165-168 | the run's counter goes up by one, and the flag drops when it equals `totalChars` |
| `Shuffle.TypeShuffle.Tick` | src/js/main.js:158-192 | a tick changes its cell exactly as `Step` says, reading the predecessor's cache; it counts the finish on the run and lowers the flag when the count reaches `totalChars`; it re-arms while the iteration is below the maximum and nothing threw |
| `Shuffle.TypeShuffle.TickCopying` | src/js/main.js:267-292 | the fx1 and fx4 closure body changes the cell exactly as `Step` says and counts the finish on the run |
| `Shuffle.TypeShuffle.TickCopyingColour` | src/js/main.js:306-341 | the fx5 closure body changes the cell exactly as `Step` says, stops the chain where reading the predecessor's cache throws, and counts the finish on the run |
| `Shuffle.TypeShuffle.TickRandom` | src/js/main.js:238-254 | the fx2 and fx3 closure body changes the cell exactly as `Step` says and counts the finish on the run |
| `Shuffle.TypeShuffle.TickRandomColour` | src/js/main.js:353-378 | the fx6 closure body changes the cell exactly as `Step` says and counts the finish on the run |
| `Shuffle.TypeShuffle.PlayCell` | src/js/main.js:204-225 | one cell's timer chain in fx2, fx3 or fx6 ends with the cell restored and counted exactly once |
| `Shuffle.TypeShuffle.PlayLine` | src/js/main.js:227-231 | the chains of one line's cells together count the line's cells and restore all of them |
| `Shuffle.TypeShuffle.RunToCompletion` | src/js/main.js:227-231 | fx2, fx3 and fx6 played cell after cell leave every cell original (colour too in fx6) and `finished == totalChars`; the flag is down unless there are no cells |
| `Shuffle.EmptyTextLocksEngine` | src/js/main.js:390-394 | over text with no characters, trigger raises the flag, no cell exists to lower it, and the next trigger returns nothing |
| `ProjectFilter.Lookup` | src/js/main.js:400-403 | a key is found exactly when the filter object has it |
| `ProjectFilter.Assign` | src/js/main.js:403 | after `setKey` the key has the new value and every other key keeps its own; an existing key keeps its place, a new one goes last; distinct keys stay distinct |
| `ProjectFilter.HasActiveFilters` | src/js/main.js:537 | true exactly when some filter value is not `'all'` |
| `ProjectFilter.MatchesFilters` | src/js/main.js:504-513 | the early-exit loop over the filter entries answers true exactly when the item passes every filter |
| `ProjectFilter.ResetButtonMeansFiltering` | src/js/main.js:536-538 | the reset button is inactive exactly when every possible item passes the filters |
| `ProjectFilter.ResetFiltersKeys` | src/js/main.js:454 | the object the reset button installs has exactly the keys `hosting`, `cms`, `creative` and `categorize` |
| `ProjectFilter.ResetDropsTwoKeys` | src/js/main.js:454 | reset keeps four of the six initial keys and loses `publicity` and `platform`; nothing is active after it; selecting `publicity` again appends it at the end |
| `ProjectFilter.FilterStore.constructor` | src/js/main.js:399-404 | the filters start as six keys, all `'all'` |
| `ProjectFilter.FilterStore.Set` | src/js/main.js:402 | `set` replaces the whole filter object |
| `ProjectFilter.FilterStore.SetKey` | src/js/main.js:403 | `setKey` updates the object as `Assign` says |
| `ProjectFilter.FilterStore.Reset` | src/js/main.js:454 | the reset handler leaves the four-key object with no active filter |
| `ProjectFilter.FilterStore.ApplyFilters` | src/js/main.js:500-521 | an item is displayed exactly when it passes every filter and its lower-cased title contains the search text (or the search text is empty) |

## Left out

- DOM and styling: `innerHTML` writes, `style.color`, the opacity blink of fx2, the `--opa` variable fx5 sets through gsap, and gsap item animations (with their `visibleCount` stagger). The model keeps only the `state` and `color` fields these writes mirror.
- `getComputedStyle`: the page's text colour is a constructor parameter.
- The Splitting library: the constructor takes its output, lines of words of character strings, as input.
- `setTimeout` and real time: ticks are calls made by the caller in any order. Start delays and tick intervals are functions that nothing schedules with. `RunToCompletion` plays one order only.
- `Math.random`: each use is a natural-number draw, reduced modulo the table size or the range width. Floating-point arithmetic is not modelled.
- Exceptions: a tick that throws in fx5 ends its loop and is reported as `crashed`. The `TypeError` that `trigger` throws for a non-function inherited name (such as `__proto__`) is not modelled. Its effect on the engine's state, a raised flag and no run, is modelled.
- Event wiring of the dropdowns: click handlers, opening and closing classes, the outside-click handler, and the debounced search input with its lower-casing and trimming. The search text reaches `ApplyFilters` as a parameter. The select-item handler calls `applyFilters()` with no search text. That behaviour follows from the default parameter and is not modelled as a separate method.
- ProjectFilter.Assign: filter keys are taken to be plain lower-case identifiers other than `__proto__`. JavaScript ignores a string assigned to `_data['__proto__']`, while `Assign` adds the key. `Object.entries` lists integer-like keys such as `"2024"` first, while `Assign` appends them. `dataset[key]` never finds a hyphenated key because of its camel-case mapping, while `AttributeOf` does. The keys come from the page's `data-name` markup.
- Lower-casing in `ProjectFilter.Lower` covers ASCII letters only, not full Unicode case mapping.
- The page bootstrap `init`, ScrollTrigger, and `astro.config.mjs`: no engine logic.
