/**
 * The decision logic of the project list's filter dropdowns: the filter
 * object and its updates, the test that decides whether a project item is
 * displayed, and the test that decides whether the reset button is active.
 * A filter object is an ordered list of (key, value) pairs in insertion
 * order, which is how JavaScript enumerates plain (non-integer) string keys
 * of `_data`.
 */
module ProjectFilter {

  datatype Option<T> = None | Some(value: T)

  type Filters = seq<(string, string)>

  /** The value that switches a filter off. */
  const All: string := "all"

  /** `_data` as the page starts: six filters, all off. */
  const InitialFilters: Filters :=
    [("hosting", All), ("cms", All), ("creative", All), ("categorize", All), ("publicity", All), ("platform", All)]

  /** What the reset button puts in `_data`: only four of the six keys. */
  const ResetFilters: Filters :=
    [("hosting", All), ("cms", All), ("creative", All), ("categorize", All)]

  function KeySet(f: Filters): (keys: set<string>)
    decreases |f|
  {
    if f == [] then {} else {f[0].0} + KeySet(f[1..])
  }

  lemma {:induction false} KeySetAppend(f: Filters, g: Filters)
    ensures KeySet(f + g) == KeySet(f) + KeySet(g)
    decreases |f|
  {
    if f == [] {
      assert f + g == g;
    } else {
      assert (f + g)[0] == f[0] && (f + g)[1..] == f[1..] + g;
      KeySetAppend(f[1..], g);
    }
  }

  /** No key appears twice, as in any JavaScript object. */
  predicate DistinctKeys(f: Filters)
    decreases |f|
  {
    f == [] || (f[0].0 !in KeySet(f[1..]) && DistinctKeys(f[1..]))
  }

  /** `_data[key]`, or `None` for a key the object does not have. */
  function Lookup(f: Filters, key: string): (r: Option<string>)
    ensures r.Some? <==> key in KeySet(f)
    decreases |f|
  {
    if f == [] then None
    else if f[0].0 == key then Some(f[0].1)
    else Lookup(f[1..], key)
  }

  /** `_data[key] = value`: an existing key keeps its place and takes the new value,
      a new key is added at the end. */
  function Assign(f: Filters, key: string, value: string): (r: Filters)
    ensures Lookup(r, key) == Some(value)
    ensures forall k :: k != key ==> Lookup(r, k) == Lookup(f, k)
    ensures KeySet(r) == KeySet(f) + {key}
    ensures key in KeySet(f) ==> |r| == |f|
    ensures key !in KeySet(f) ==> r == f + [(key, value)]
    ensures forall i :: 0 <= i < |f| ==> r[i].0 == f[i].0
    ensures DistinctKeys(f) ==> DistinctKeys(r)
    decreases |f|
  {
    if f == [] then [(key, value)]
    else if f[0].0 == key then
      assert ([(key, value)] + f[1..])[1..] == f[1..];
      [(key, value)] + f[1..]
    else
      var rest := Assign(f[1..], key, value);
      var r := [f[0]] + rest;
      assert r[0] == f[0] && r[1..] == rest;
      r
  }

  /** A project card: the value each `data-<key>` attribute inside it carries, and its title. */
  datatype Item = Item(attributes: map<string, string>, title: string)

  /** `item.querySelector('[data-key]')?.dataset[key]`. */
  function AttributeOf(item: Item, key: string): Option<string> {
    if key in item.attributes then Some(item.attributes[key]) else None
  }

  /** One filter lets an item through: it is off, or the item carries exactly its value. */
  predicate Admits(value: string, attribute: Option<string>) {
    value == All || attribute == Some(value)
  }

  /** The item passes every filter of `f`. */
  predicate PassesFilters(f: Filters, item: Item) {
    forall i :: 0 <= i < |f| ==> Admits(f[i].1, AttributeOf(item, f[i].0))
  }

  function LowerChar(c: char): char {
    if 'A' <= c <= 'Z' then (c as int + 32) as char else c
  }

  /** `toLowerCase`, on ASCII letters. */
  function Lower(s: string): string {
    seq(|s|, i requires 0 <= i < |s| => LowerChar(s[i]))
  }

  /** `part` occurs in `text` starting at index `i`. */
  predicate OccursAt(text: string, part: string, i: nat) {
    i + |part| <= |text| && text[i..i + |part|] == part
  }

  /** `text.includes(part)`. */
  predicate Contains(text: string, part: string) {
    exists i: nat | i <= |text| :: OccursAt(text, part, i)
  }

  /** The item passes the search: no search text, or the lower-cased title contains it. */
  predicate PassesSearch(item: Item, search: string) {
    search == "" || Contains(Lower(item.title), search)
  }

  /** `Object.values(_data).some(value => value !== 'all')`. */
  function HasActiveFilters(f: Filters): (r: bool)
    ensures r <==> exists i :: 0 <= i < |f| && f[i].1 != All
    decreases |f|
  {
    if f == [] then false
    else if f[0].1 != All then true
    else
      var r := HasActiveFilters(f[1..]);
      assert forall i :: 1 <= i < |f| ==> f[i] == f[1..][i - 1];
      r
  }

  /** The loop of `applyFilters` over the entries of `_data` for one item: it stops
      at the first filter the item fails. */
  method MatchesFilters(f: Filters, item: Item) returns (matches: bool)
    ensures matches <==> PassesFilters(f, item)
  {
    matches := true;
    var i := 0;
    while i < |f|
      invariant 0 <= i <= |f|
      invariant matches && forall k :: 0 <= k < i ==> Admits(f[k].1, AttributeOf(item, f[k].0))
    {
      var (key, value) := f[i];
      if value != All && AttributeOf(item, key) != Some(value) {
        matches := false;
        return;
      }
      i := i + 1;
    }
  }

  /** With no filter active every item passes the filters; with one active, an item
      that carries no attributes is hidden. So the reset button is active exactly when
      the filters can hide something. */
  lemma ResetButtonMeansFiltering(f: Filters)
    ensures !HasActiveFilters(f) <==> forall item: Item :: PassesFilters(f, item)
  {
    if HasActiveFilters(f) {
      var i :| 0 <= i < |f| && f[i].1 != All;
      var bare := Item(map[], "");
      assert !Admits(f[i].1, AttributeOf(bare, f[i].0));
      assert !PassesFilters(f, bare);
    } else {
      forall item: Item ensures PassesFilters(f, item) {
      }
    }
  }

  /** The keys of the object the reset button installs. */
  lemma ResetFiltersKeys()
    ensures KeySet(ResetFilters) == {"hosting", "cms", "creative", "categorize"}
  {
    assert KeySet(ResetFilters[4..]) == {};
    assert KeySet(ResetFilters[3..]) == {"categorize"} by { assert ResetFilters[3..][1..] == ResetFilters[4..]; }
    assert KeySet(ResetFilters[2..]) == {"creative", "categorize"} by { assert ResetFilters[2..][1..] == ResetFilters[3..]; }
    assert KeySet(ResetFilters[1..]) == {"cms", "creative", "categorize"} by { assert ResetFilters[1..][1..] == ResetFilters[2..]; }
  }

  /** The reset handler keeps four keys: `publicity` and `platform` are gone afterwards,
      and a later selection of either adds it back at the end. */
  lemma ResetDropsTwoKeys(v: string)
    ensures KeySet(InitialFilters) == KeySet(ResetFilters) + {"publicity", "platform"}
    ensures "publicity" !in KeySet(ResetFilters) && "platform" !in KeySet(ResetFilters)
    ensures !HasActiveFilters(ResetFilters)
    ensures Assign(ResetFilters, "publicity", v) == ResetFilters + [("publicity", v)]
  {
    var dropped := [("publicity", All), ("platform", All)];
    assert InitialFilters == ResetFilters + dropped;
    KeySetAppend(ResetFilters, dropped);
    assert KeySet(dropped) == {"publicity", "platform"} by {
      assert KeySet(dropped[1..][1..]) == {};
      assert KeySet(dropped[1..]) == {"platform"};
    }
    ResetFiltersKeys();
  }

  /** The filter object of the dropdowns. */
  class FilterStore {
    var data: Filters

    constructor ()
      ensures data == InitialFilters
    {
      data := InitialFilters;
    }

    /** `set(newData)`. */
    method Set(newData: Filters)
      modifies this
      ensures data == newData
    {
      data := newData;
    }

    /** `setKey(key, value)`: afterwards the key has the value and every other key keeps its own. */
    method SetKey(key: string, value: string)
      modifies this
      ensures data == Assign(old(data), key, value)
      ensures Lookup(data, key) == Some(value)
      ensures forall k :: k != key ==> Lookup(data, k) == Lookup(old(data), k)
    {
      data := Assign(data, key, value);
    }

    /** What the reset button does to the filters: `set` with four keys. */
    method Reset()
      modifies this
      ensures data == ResetFilters && !HasActiveFilters(data)
    {
      ResetDropsTwoKeys("all");
      Set(ResetFilters);
    }

    /** `applyFilters(searchValue)`: which items are displayed. An item is displayed
        when it passes every filter and the search. */
    method ApplyFilters(items: seq<Item>, search: string := "") returns (shown: seq<bool>)
      ensures |shown| == |items|
      ensures forall i :: 0 <= i < |items| ==>
        (shown[i] <==> PassesFilters(data, items[i]) && PassesSearch(items[i], search))
    {
      shown := [];
      for i := 0 to |items|
        invariant |shown| == i
        invariant forall k :: 0 <= k < i ==>
          (shown[k] <==> PassesFilters(data, items[k]) && PassesSearch(items[k], search))
      {
        var matchesFilter := MatchesFilters(data, items[i]);
        var matchesSearch := true;
        if search != "" {
          matchesSearch := Contains(Lower(items[i].title), search);
        }
        shown := shown + [matchesFilter && matchesSearch];
      }
    }
  }
}
