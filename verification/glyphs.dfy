/**
 * The symbol tables the shuffle effects draw from, and the two ways the
 * engine turns a random draw into a choice: picking an element of a table
 * (`Math.floor(Math.random() * n)` as an index) and `randomNumber(min, max)`.
 * A draw is an arbitrary natural number standing for one call of
 * `Math.random`; reducing it modulo the table size gives an index in range.
 */
module Glyphs {

  /** The placeholder a cleared cell shows (an HTML non-breaking space). */
  const Blank: string := "&nbsp;"

  /** `lettersAndSymbols`: 26 capitals, 22 symbols and 10 digits, in source order. */
  const LettersAndSymbols: seq<char> :=
    ['A', 'B', 'C', 'D', 'E', 'F', 'G', 'H', 'I', 'J', 'K', 'L', 'M',
     'N', 'O', 'P', 'Q', 'R', 'S', 'T', 'U', 'V', 'W', 'X', 'Y', 'Z',
     '!', '@', '#', '$', '&', '*', '(', ')', '-', '_', '+', '=', '/',
     '[', ']', '{', '}', ';', ':', '<', '>', ',',
     '0', '1', '2', '3', '4', '5', '6', '7', '8', '9']

  /** What the leading cell shows for its first nine iterations in fx1 and fx5. */
  const Flourish: seq<char> := ['*', '-', '\'', '"']

  /** What the leading cell shows on every non-final iteration of fx4. */
  const Fx4Glyphs: seq<char> := ['*', ':']

  /** Colours the leading cell cycles through in fx5. */
  const Fx5Palette: seq<string> := ["#343131", "#D8A25E", "#7A1CAC"]

  /** Colours every cell cycles through in fx6. */
  const Fx6Palette: seq<string> := ["#393646", "#4F4557", "#6D5D6E", "#F4EEE0"]

  /** `xs[Math.floor(Math.random() * xs.length)]`, with the draw standing for the random number. */
  function Pick<T>(xs: seq<T>, draw: nat): (r: T)
    requires |xs| > 0
    ensures r in xs
  {
    xs[draw % |xs|]
  }

  /** Every element of a table is reachable by some draw: no symbol is excluded. */
  lemma PickReachesAll<T>(xs: seq<T>, i: nat)
    requires i < |xs|
    ensures Pick(xs, i) == xs[i]
  {
  }

  /** `getRandomChar`: a symbol of `lettersAndSymbols`. */
  function RandomChar(draw: nat): (c: char)
    ensures c in LettersAndSymbols
  {
    Pick(LettersAndSymbols, draw)
  }

  /** `randomNumber(min, max)`: an integer in the closed range [min, max]. */
  function RandomNumber(min: int, max: int, draw: nat): (r: int)
    requires min <= max
    ensures min <= r <= max
  {
    min + draw % (max - min + 1)
  }

  /** Every value of the range is reachable by some draw. */
  lemma RandomNumberReachesAll(min: int, max: int, k: int)
    requires min <= k <= max
    ensures RandomNumber(min, max, (k - min) as nat) == k
  {
  }
}
