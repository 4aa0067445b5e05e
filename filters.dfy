/**
 * The filter panel: changing one criterion, clearing all of them, telling whether any is set,
 * the category choices and the result-count label.
 */
module Filters {
  import opened Types
  import opened Wrappers
  import ResponderFilter
  import Decimal
  import JsText

  /** The four criteria the panel edits. */
  datatype FilterKey = TitleKey | CategoryKey | CityKey | StateKey

  function Field(f: FilterState, k: FilterKey): string {
    match k
    case TitleKey => f.title
    case CategoryKey => f.category
    case CityKey => f.city
    case StateKey => f.state
  }

  /** The value of a criterion that is not set: "All" for the category, "" for the others. */
  function DefaultField(k: FilterKey): string {
    if k == CategoryKey then "All" else ""
  }

  /** `handleChange(key, value)`: a copy of the filters with the one criterion replaced. */
  function HandleChange(f: FilterState, key: FilterKey, value: string): (g: FilterState)
    ensures Field(g, key) == value
    ensures forall k :: k != key ==> Field(g, k) == Field(f, k)
    ensures g.categories == f.categories
  {
    match key
    case TitleKey => f.(title := value)
    case CategoryKey => f.(category := value)
    case CityKey => f.(city := value)
    case StateKey => f.(state := value)
  }

  /** `clearFilters`: every criterion back to its default; the optional category list is dropped. */
  function ClearFilters(): (f: FilterState)
    ensures forall k :: Field(f, k) == DefaultField(k)
    ensures f.categories.None?
  {
    FilterState("", "All", None, "", "")
  }

  /** `hasActiveFilters`: some criterion differs from its default. */
  function HasActiveFilters(f: FilterState): (b: bool)
    ensures b <==> exists k :: Field(f, k) != DefaultField(k)
  {
    assert f.title != "" ==> Field(f, TitleKey) != DefaultField(TitleKey);
    assert f.category != "All" ==> Field(f, CategoryKey) != DefaultField(CategoryKey);
    assert f.city != "" ==> Field(f, CityKey) != DefaultField(CityKey);
    assert f.state != "" ==> Field(f, StateKey) != DefaultField(StateKey);
    f.title != "" || f.category != "All" || f.city != "" || f.state != ""
  }

  /** Writing a criterion's current value back changes nothing. */
  lemma HandleChangeSameValue(f: FilterState, key: FilterKey)
    ensures HandleChange(f, key, Field(f, key)) == f
  {
  }

  /** The last write to a criterion wins. */
  lemma HandleChangeOverwrites(f: FilterState, key: FilterKey, v: string, w: string)
    ensures HandleChange(HandleChange(f, key, v), key, w) == HandleChange(f, key, w)
  {
  }

  /** Changes to different criteria commute. */
  lemma HandleChangeCommutes(f: FilterState, k1: FilterKey, v1: string, k2: FilterKey, v2: string)
    requires k1 != k2
    ensures HandleChange(HandleChange(f, k1, v1), k2, v2) == HandleChange(HandleChange(f, k2, v2), k1, v1)
  {
  }

  /** Once cleared, no criterion is active and every record is listed. */
  lemma ClearedShowsAll(rs: seq<FirstResponder>)
    ensures !HasActiveFilters(ClearFilters())
    ensures ResponderFilter.Apply(rs, ClearFilters()) == rs
  {
    assert JsText.Trim("") == "";
    ResponderFilter.NoCriteriaShowsAll(rs, ClearFilters());
  }

  /** Filters the panel reports as inactive list every record. */
  lemma InactiveShowsAll(rs: seq<FirstResponder>, f: FilterState)
    requires !HasActiveFilters(f)
    ensures ResponderFilter.Apply(rs, f) == rs
  {
    assert Field(f, TitleKey) == "";
    assert JsText.Trim(f.title) == "";
    ResponderFilter.NoCriteriaShowsAll(rs, f);
  }

  /**
   * The panel and the list disagree on a title of spaces: the panel counts it as active (and
   * offers to clear it) although the list filters nothing out for it.
   */
  lemma SpacesTitleActiveButIdle(rs: seq<FirstResponder>)
    ensures HasActiveFilters(ClearFilters().(title := " "))
    ensures ResponderFilter.Apply(rs, ClearFilters().(title := " ")) == rs
  {
    var f := ClearFilters().(title := " ");
    assert Field(f, TitleKey) != DefaultField(TitleKey);
    ResponderFilter.BlankTitleIgnored(rs, f);
    ClearedShowsAll(rs);
  }

  /** The category select: "All", then the five categories in display order. */
  function CategoryOptions(): (opts: seq<string>)
    ensures |opts| == 6 && opts[0] == "All"
    ensures forall c :: CategoryName(c) in opts
    ensures forall i, j :: 0 <= i < j < |opts| ==> opts[i] != opts[j]
  {
    var opts := ["All"] + seq(5, i requires 0 <= i < 5 => CategoryName(AllCategories[i]));
    assert opts == ["All", "Police", "Fire", "Ambulance", "Hospital", "Emergency"];
    assert forall c :: CategoryName(c) in opts by {
      forall c ensures CategoryName(c) in opts {
        AllCategoriesComplete(c);
      }
    }
    opts
  }

  /** Only "All" selects every category; any other option selects records of one category. */
  lemma CategoryOptionSelects(i: int, r: FirstResponder, f: FilterState)
    requires 1 <= i < 6 && f.category == CategoryOptions()[i]
    ensures ResponderFilter.CategoryStage(r, f) <==> r.category == AllCategories[i - 1]
  {
    var opts := CategoryOptions();
    assert opts == ["All", "Police", "Fire", "Ambulance", "Hospital", "Emergency"];
    if ResponderFilter.CategoryStage(r, f) {
      CategoryNameInjective(r.category, AllCategories[i - 1]);
    }
  }

  /** `${resultCount} result${resultCount !== 1 ? 's' : ''} found`. */
  function ResultLabel(count: nat): (s: string)
    ensures exists n :: (0 < n <= |s| && Decimal.AllDigits(s[..n]) && Decimal.ParseNat(s[..n]) == count
                         && s[n..] == (if count == 1 then " result found" else " results found"))
    ensures s == Decimal.NatToDecimal(count) + (if count == 1 then " result found" else " results found")
  {
    var digits := Decimal.NatToDecimal(count);
    var s := digits + " result" + (if count != 1 then "s" else "") + " found";
    Decimal.NatRoundTrip(count);
    assert s[..|digits|] == digits;
    assert s[|digits|..] == (if count == 1 then " result found" else " results found");
    s
  }
}
