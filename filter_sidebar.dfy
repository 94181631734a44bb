/** src/components/FilterSidebar.jsx: the catalogue filters. The sidebar
    owns no state: each handler computes the value it passes to a parent
    setter, which is what the functions below return. `Number(...)` on the
    input text is abstracted: prices arrive as integers. */
module FilterSidebar {
  import opened Common

  const DefaultSort: string := "rating-desc"
  const PriceFloor: int := 0
  const PriceCeiling: int := 1000

  /** The parent state the sidebar reads: selected category, `priceRange`,
      `sortOrder` and the three quick-filter flags. */
  datatype Filters = Filters(
    category: Option<int>,
    minPrice: int,
    maxPrice: int,
    sortOrder: string,
    showNew: bool,
    showSale: bool,
    showWishlist: bool)

  /** The state after every filter is cleared. */
  const Cleared: Filters := Filters(None, PriceFloor, PriceCeiling, DefaultSort, false, false, false)

  predicate RangeOrdered(f: Filters)
  {
    f.minPrice <= f.maxPrice
  }

  /** `handlePriceChange`: the slider replaces only the upper bound. */
  function OnMaxPrice(f: Filters, newMax: int): (r: Filters)
    ensures r.maxPrice == newMax && r.minPrice == f.minPrice
    ensures r.(maxPrice := f.maxPrice) == f
  {
    f.(maxPrice := newMax)
  }

  /** `handleMinPriceChange`: a new lower bound is applied only when it does
      not exceed the upper bound, so this handler keeps `min <= max`. */
  function OnMinPrice(f: Filters, newMin: int): (r: Filters)
    ensures r.maxPrice == f.maxPrice
    ensures r == f || r == f.(minPrice := newMin)
    ensures r.minPrice == newMin <==> newMin <= f.maxPrice || newMin == f.minPrice
    ensures RangeOrdered(f) ==> RangeOrdered(r)
  {
    if newMin <= f.maxPrice then f.(minPrice := newMin) else f
  }

  /** The max handler does not check the lower bound (the slider's own `min`
      attribute is what keeps the two ordered in the browser). */
  lemma MaxPriceCanCrossMin()
    ensures var f := Filters(None, 100, 200, DefaultSort, false, false, false);
      RangeOrdered(f) && !RangeOrdered(OnMaxPrice(f, 50))
  {
  }

  /** `hasActiveFilters` */
  predicate HasActiveFilters(f: Filters)
  {
    TruthyNumber(f.category) || f.showNew || f.showSale || f.showWishlist ||
    f.minPrice > PriceFloor || f.maxPrice < PriceCeiling || f.sortOrder != DefaultSort
  }

  /** Which parent setters were passed to the sidebar (each is optional). */
  datatype Setters = Setters(category: bool, priceRange: bool, sortOrder: bool,
                             showNew: bool, showSale: bool, showWishlist: bool)

  const AllSetters: Setters := Setters(true, true, true, true, true, true)

  /** What `clearFilters` does: hand over to `onClearAll`, or reset state itself. */
  datatype ClearOutcome = DelegatedToOnClearAll | Reset(filters: Filters)

  /** `clearFilters`: delegate solely to `onClearAll` when given; otherwise
      reset, through each setter that was passed, the category to null, the
      range to [0, 1000], the sort to `rating-desc` and the flags to false. */
  function ClearFilters(f: Filters, hasOnClearAll: bool, s: Setters): (r: ClearOutcome)
    ensures r.DelegatedToOnClearAll? <==> hasOnClearAll
    ensures r.Reset? ==> r.filters.category == (if s.category then None else f.category)
    ensures r.Reset? ==> r.filters.minPrice == (if s.priceRange then PriceFloor else f.minPrice)
    ensures r.Reset? ==> r.filters.maxPrice == (if s.priceRange then PriceCeiling else f.maxPrice)
    ensures r.Reset? ==> r.filters.sortOrder == (if s.sortOrder then DefaultSort else f.sortOrder)
    ensures r.Reset? ==> r.filters.showNew == (!s.showNew && f.showNew)
    ensures r.Reset? ==> r.filters.showSale == (!s.showSale && f.showSale)
    ensures r.Reset? ==> r.filters.showWishlist == (!s.showWishlist && f.showWishlist)
  {
    if hasOnClearAll then DelegatedToOnClearAll
    else Reset(Filters(
      if s.category then None else f.category,
      if s.priceRange then PriceFloor else f.minPrice,
      if s.priceRange then PriceCeiling else f.maxPrice,
      if s.sortOrder then DefaultSort else f.sortOrder,
      if s.showNew then false else f.showNew,
      if s.showSale then false else f.showSale,
      if s.showWishlist then false else f.showWishlist))
  }

  /** With every setter passed, the fallback clear yields the cleared state,
      which has no active filter and an ordered range. */
  lemma ClearLeavesNoActiveFilters(f: Filters)
    ensures ClearFilters(f, false, AllSetters) == Reset(Cleared)
    ensures !HasActiveFilters(Cleared) && RangeOrdered(Cleared)
    ensures ActiveLabels(Cleared) == []
  {
    ActiveLabelsIff(Cleared);
  }

  /** The labels of the active-filter summary. */
  datatype Label = CategoryLabel | NewLabel | SaleLabel | WishlistLabel | PriceLabel | SortLabel

  function LabelText(l: Label): string
  {
    match l
    case CategoryLabel => "Category"
    case NewLabel => "New"
    case SaleLabel => "Sale"
    case WishlistLabel => "Wishlist"
    case PriceLabel => "Price"
    case SortLabel => "Sort"
  }

  /** The condition under which each label is listed. */
  predicate LabelActive(f: Filters, l: Label)
  {
    match l
    case CategoryLabel => TruthyNumber(f.category)
    case NewLabel => f.showNew
    case SaleLabel => f.showSale
    case WishlistLabel => f.showWishlist
    case PriceLabel => f.minPrice > PriceFloor || f.maxPrice < PriceCeiling
    case SortLabel => f.sortOrder != DefaultSort
  }

  /** `[cond && 'Label', ...].filter(Boolean)`: each label of the fixed list
      Category, New, Sale, Wishlist, Price, Sort kept when its condition holds. */
  function ActiveLabels(f: Filters): seq<Label>
  {
    If(f, CategoryLabel) + If(f, NewLabel) + If(f, SaleLabel) +
    If(f, WishlistLabel) + If(f, PriceLabel) + If(f, SortLabel)
  }

  /** `cond && 'Label'` after `filter(Boolean)`: the label, or nothing. */
  function If(f: Filters, l: Label): seq<Label>
  {
    if LabelActive(f, l) then [l] else []
  }

  /** A label is listed if and only if its condition holds, and the list is
      non-empty exactly when `hasActiveFilters` holds. */
  lemma ActiveLabelsIff(f: Filters)
    ensures forall l :: l in ActiveLabels(f) <==> LabelActive(f, l)
    ensures ActiveLabels(f) != [] <==> HasActiveFilters(f)
  {
  }

  /** No label is listed twice. */
  lemma ActiveLabelsDistinct(f: Filters)
    ensures forall i, j :: 0 <= i < j < |ActiveLabels(f)| ==> ActiveLabels(f)[i] != ActiveLabels(f)[j]
  {
  }

  /** `.join(', ')` */
  function Join(parts: seq<string>, sep: string): (r: string)
    ensures parts == [] ==> r == ""
    ensures |parts| == 1 ==> r == parts[0]
    ensures |parts| >= 2 ==> r == parts[0] + sep + Join(parts[1..], sep)
  {
    if parts == [] then ""
    else if |parts| == 1 then parts[0]
    else parts[0] + sep + Join(parts[1..], sep)
  }

  function Texts(ls: seq<Label>): (r: seq<string>)
    ensures |r| == |ls|
    ensures forall i :: 0 <= i < |ls| ==> r[i] == LabelText(ls[i])
  {
    if ls == [] then [] else [LabelText(ls[0])] + Texts(ls[1..])
  }

  /** The text shown under the header while filters are active. */
  function Summary(f: Filters): string
  {
    Join(Texts(ActiveLabels(f)), ", ") + " active"
  }

  /** With only the New and Sale quick filters on, the summary reads
      "New, Sale active": the labels in list order, comma-separated. */
  lemma SummaryNewAndSale(f: Filters)
    requires !TruthyNumber(f.category) && f.showNew && f.showSale && !f.showWishlist
    requires f.minPrice <= PriceFloor && f.maxPrice >= PriceCeiling && f.sortOrder == DefaultSort
    ensures Summary(f) == "New, Sale active"
  {
    assert ActiveLabels(f) == [NewLabel, SaleLabel];
    assert Texts([NewLabel, SaleLabel]) == ["New", "Sale"];
    assert Join(["New", "Sale"], ", ") == "New" + ", " + Join(["Sale"], ", ");
  }

  /** The four price presets. */
  const Presets: seq<(int, int)> := [(0, 50), (50, 100), (100, 500), (500, 1000)]

  /** A preset button sets exactly its pair. */
  function ApplyPreset(f: Filters, i: nat): (r: Filters)
    requires i < |Presets|
    ensures r.minPrice == Presets[i].0 && r.maxPrice == Presets[i].1
    ensures r.(minPrice := f.minPrice, maxPrice := f.maxPrice) == f
  {
    f.(minPrice := Presets[i].0, maxPrice := Presets[i].1)
  }

  /** A preset is highlighted when both endpoints match. */
  predicate PresetHighlighted(f: Filters, i: nat)
    requires i < |Presets|
  {
    f.minPrice == Presets[i].0 && f.maxPrice == Presets[i].1
  }

  /** After pressing a preset, that preset and no other is highlighted. */
  lemma PresetHighlightsItself(f: Filters, i: nat, j: nat)
    requires i < |Presets| && j < |Presets|
    ensures PresetHighlighted(ApplyPreset(f, i), j) <==> i == j
  {
  }

  /** The three quick-filter buttons. */
  datatype QuickFilter = NewProducts | OnSale | MyWishlist

  /** `setShowX(!showX)`: negate exactly one flag. */
  function Toggle(f: Filters, q: QuickFilter): (r: Filters)
    ensures r.category == f.category && r.minPrice == f.minPrice && r.maxPrice == f.maxPrice
    ensures r.sortOrder == f.sortOrder
    ensures r.showNew == (if q == NewProducts then !f.showNew else f.showNew)
    ensures r.showSale == (if q == OnSale then !f.showSale else f.showSale)
    ensures r.showWishlist == (if q == MyWishlist then !f.showWishlist else f.showWishlist)
  {
    match q
    case NewProducts => f.(showNew := !f.showNew)
    case OnSale => f.(showSale := !f.showSale)
    case MyWishlist => f.(showWishlist := !f.showWishlist)
  }

  /** Pressing a quick filter twice restores the filters. */
  lemma ToggleTwice(f: Filters, q: QuickFilter)
    ensures Toggle(Toggle(f, q), q) == f
  {
  }
}
