/**
 * The catalogue filter panel (components/product-filters.tsx). Its state is the set of
 * ticked categories, the price slider's two values, two check boxes and a flag telling
 * whether the price was ever committed. Every call of the `onFilterChange` callback is
 * recorded, in order, in `emitted`; the effect that re-emits the state after a change
 * of the categories or of a check box is part of the handler that caused it.
 */
module ProductFilters {
  import opened Text

  /** `FilterState`; the slider has step 1, so its values are whole numbers. */
  datatype FilterState = FilterState(
    categories: seq<string>,
    low: int,
    high: int,
    inStock: bool,
    onSale: bool,
    hasTouchedPrice: bool)

  /** The `initial` property: each key may be missing. */
  datatype Initial = Initial(
    categories: Option<seq<string>>,
    priceRange: Option<(int, int)>,
    inStock: Option<bool>,
    onSale: Option<bool>,
    hasTouchedPrice: Option<bool>)

  /** The categories offered as check boxes. */
  const Categories: seq<string> := ["Proteínas", "Creatina", "Pre-Entreno", "Aminoácidos", "Vitaminas", "Quemadores"]

  /** The state `clearAll` restores and emits. */
  const Cleared := FilterState([], 0, 1000, false, false, false)

  /** `[val[0] ?? 0, val[1] ?? 0]`: a missing slider value reads as 0. */
  function SliderPair(val: seq<int>): (r: (int, int))
    ensures r.0 == (if |val| > 0 then val[0] else 0)
    ensures r.1 == (if |val| > 1 then val[1] else 0)
  {
    (if |val| > 0 then val[0] else 0, if |val| > 1 then val[1] else 0)
  }

  /** The offered categories are non-empty, trimmed and free of commas, so they survive a comma-joined query string. */
  lemma CategoriesAreClean()
    ensures forall k :: 0 <= k < |Categories| ==> Categories[k] != [] && IsTrimmed(Categories[k]) && ',' !in Categories[k]
    ensures NoDuplicates(Categories)
  {
  }

  class FilterPanel {
    var categories: seq<string>
    var low: int
    var high: int
    var inStock: bool
    var onSale: bool
    var hasTouchedPrice: bool
    /** The arguments of every `onFilterChange` call so far. */
    var emitted: seq<FilterState>

    function State(): FilterState
      reads this
    {
      FilterState(categories, low, high, inStock, onSale, hasTouchedPrice)
    }

    /** The ticked categories never repeat. */
    predicate Valid()
      reads this
    {
      NoDuplicates(categories)
    }

    /** Mounting: each missing initial key takes its default, then the mount effect emits the state once. */
    constructor(initial: Initial)
      ensures initial.categories.Some? ==> (Valid() <==> NoDuplicates(initial.categories.value))
      ensures initial.categories.None? ==> Valid()
      ensures categories == (if initial.categories.Some? then initial.categories.value else [])
      ensures (low, high) == (if initial.priceRange.Some? then initial.priceRange.value else (0, 1000))
      ensures inStock == (initial.inStock == Some(true)) && onSale == (initial.onSale == Some(true))
      ensures hasTouchedPrice == (initial.hasTouchedPrice == Some(true))
      ensures emitted == [State()]
    {
      categories := if initial.categories.Some? then initial.categories.value else [];
      var range := if initial.priceRange.Some? then initial.priceRange.value else (0, 1000);
      low := range.0;
      high := range.1;
      inStock := initial.inStock == Some(true);
      onSale := initial.onSale == Some(true);
      hasTouchedPrice := initial.hasTouchedPrice == Some(true);
      new;
      emitted := [State()];
    }

    /** `toggleCategory(cat)`: flips the category's membership; the new list triggers one emission. */
    method ToggleCategory(cat: string)
      modifies this
      ensures old(Valid()) ==> Valid()
      ensures categories == ToggleMember(old(categories), cat)
      ensures cat in categories <==> cat !in old(categories)
      ensures forall c :: c != cat ==> (c in categories <==> c in old(categories))
      ensures low == old(low) && high == old(high) && inStock == old(inStock) && onSale == old(onSale)
      ensures hasTouchedPrice == old(hasTouchedPrice)
      ensures emitted == old(emitted) + [State()]
    {
      categories := ToggleMember(categories, cat);
      emitted := emitted + [State()];
    }

    /** The "in stock" check box: a change of value triggers one emission, re-ticking the same value none. */
    method SetInStock(v: bool)
      modifies this
      ensures inStock == v
      ensures categories == old(categories) && low == old(low) && high == old(high)
      ensures onSale == old(onSale) && hasTouchedPrice == old(hasTouchedPrice)
      ensures emitted == if v == old(inStock) then old(emitted) else old(emitted) + [State()]
    {
      if v != inStock {
        inStock := v;
        emitted := emitted + [State()];
      }
    }

    /** The "on sale" check box, like `SetInStock`. */
    method SetOnSale(v: bool)
      modifies this
      ensures onSale == v
      ensures categories == old(categories) && low == old(low) && high == old(high)
      ensures inStock == old(inStock) && hasTouchedPrice == old(hasTouchedPrice)
      ensures emitted == if v == old(onSale) then old(emitted) else old(emitted) + [State()]
    {
      if v != onSale {
        onSale := v;
        emitted := emitted + [State()];
      }
    }

    /** `handlePriceChange(val)` while dragging: only the slider moves, nothing is emitted and the flag is untouched. */
    method HandlePriceChange(val: seq<int>)
      modifies this
      ensures (low, high) == SliderPair(val)
      ensures categories == old(categories) && inStock == old(inStock) && onSale == old(onSale)
      ensures hasTouchedPrice == old(hasTouchedPrice) && emitted == old(emitted)
    {
      var next := SliderPair(val);
      low := next.0;
      high := next.1;
    }

    /** `handlePriceCommit(val)`: sets the slider and the flag and emits the committed range with the other filters. */
    method HandlePriceCommit(val: seq<int>)
      modifies this
      ensures (low, high) == SliderPair(val) && hasTouchedPrice
      ensures categories == old(categories) && inStock == old(inStock) && onSale == old(onSale)
      ensures emitted == old(emitted) + [FilterState(old(categories), SliderPair(val).0, SliderPair(val).1, old(inStock), old(onSale), true)]
      ensures emitted[|emitted| - 1] == State()
    {
      var next := SliderPair(val);
      low := next.0;
      high := next.1;
      hasTouchedPrice := true;
      emitted := emitted + [FilterState(categories, next.0, next.1, inStock, onSale, true)];
    }

    /**
     * `clearAll()`: resets every filter and emits the cleared state. Because the
     * categories are replaced by a fresh empty list, the effect then emits the same
     * cleared state a second time.
     */
    method ClearAll()
      modifies this
      ensures State() == Cleared && Valid()
      ensures emitted == old(emitted) + [Cleared, Cleared]
    {
      categories := [];
      low, high := 0, 1000;
      inStock, onSale, hasTouchedPrice := false, false, false;
      emitted := emitted + [Cleared];
      emitted := emitted + [State()];
    }
  }

  /** Ticking an unticked category and then unticking it restores the list, order included. */
  method ToggleTwiceRestores(panel: FilterPanel, cat: string)
    requires cat !in panel.categories
    modifies panel
    ensures panel.categories == old(panel.categories)
    ensures |panel.emitted| == |old(panel.emitted)| + 2
  {
    ToggleTwiceAbsent(panel.categories, cat);
    panel.ToggleCategory(cat);
    panel.ToggleCategory(cat);
  }

  /** Dragging the slider and letting go emits the released values with the flag set, whatever was dragged through. */
  method DragThenCommit(panel: FilterPanel, path: seq<int>, release: seq<int>)
    modifies panel
    ensures panel.emitted == old(panel.emitted) + [FilterState(old(panel.categories), SliderPair(release).0, SliderPair(release).1, old(panel.inStock), old(panel.onSale), true)]
  {
    panel.HandlePriceChange(path);
    panel.HandlePriceCommit(release);
  }
}
