/**
 * The four-criterion list filter both screens apply to the facilities they hold (free text,
 * category, city, state), and the sorted city and state choices offered beside it.
 */
module ResponderFilter {
  import opened Types
  import JsText
  import Seqs
  import Ordering

  /** The free-text stage runs only when the title, trimmed, is not empty. */
  predicate TitleGiven(f: FilterState) {
    JsText.Trim(f.title) != ""
  }

  /**
   * The free-text test: the lower-cased, UNtrimmed query occurs in the lower-cased title,
   * city, state or address.
   */
  predicate TextMatches(r: FirstResponder, query: string) {
    var q := JsText.ToLower(query);
    || JsText.Includes(JsText.ToLower(r.title), q)
    || JsText.Includes(JsText.ToLower(r.city), q)
    || JsText.Includes(JsText.ToLower(r.state), q)
    || JsText.Includes(JsText.ToLower(r.address), q)
  }

  predicate TextStage(r: FirstResponder, f: FilterState) {
    !TitleGiven(f) || TextMatches(r, f.title)
  }

  predicate CategoryStage(r: FirstResponder, f: FilterState) {
    f.category == "All" || CategoryName(r.category) == f.category
  }

  predicate CityStage(r: FirstResponder, f: FilterState) {
    f.city == "" || r.city == f.city
  }

  predicate StateStage(r: FirstResponder, f: FilterState) {
    f.state == "" || r.state == f.state
  }

  /** The records that survive the text stage, then the category stage, then the city stage. */
  predicate AfterText(r: FirstResponder, f: FilterState) {
    TextStage(r, f)
  }

  predicate AfterCategory(r: FirstResponder, f: FilterState) {
    AfterText(r, f) && CategoryStage(r, f)
  }

  predicate AfterCity(r: FirstResponder, f: FilterState) {
    AfterCategory(r, f) && CityStage(r, f)
  }

  /** A record is listed exactly when it passes all four stages. */
  predicate Matches(r: FirstResponder, f: FilterState) {
    AfterCity(r, f) && StateStage(r, f)
  }

  /** The filtered list: the matching records, in their original order. */
  function Apply(rs: seq<FirstResponder>, f: FilterState): (r: seq<FirstResponder>)
    ensures |r| <= |rs|
    ensures Seqs.IsSubsequence(r, rs)
    ensures forall x :: x in r <==> x in rs && Matches(x, f)
    ensures forall x :: multiset(r)[x] == if Matches(x, f) then multiset(rs)[x] else 0
  {
    Seqs.KeepIsSubsequence(rs, x => Matches(x, f));
    Seqs.Keep(rs, x => Matches(x, f))
  }

  /**
   * The filter as both screens run it: start from a copy of the list and narrow it stage by
   * stage, each stage only when its criterion is set.
   */
  method FilterInStages(rs: seq<FirstResponder>, f: FilterState) returns (list: seq<FirstResponder>)
    ensures list == Apply(rs, f)
  {
    list := NarrowByText(rs, f);
    list := NarrowByCategory(rs, f, list);
    list := NarrowByCity(rs, f, list);
    list := NarrowByState(rs, f, list);
  }

  /** The text stage, applied to the copy of the whole list. */
  method NarrowByText(rs: seq<FirstResponder>, f: FilterState) returns (list: seq<FirstResponder>)
    ensures list == Seqs.Keep(rs, x => AfterText(x, f))
  {
    list := rs;
    Seqs.KeepAll(rs, x => true);
    if TitleGiven(f) {
      list := Seqs.Keep(list, (r: FirstResponder) => TextMatches(r, f.title));
    }
    Seqs.Refine(rs, x => true, TitleGiven(f), (r: FirstResponder) => TextMatches(r, f.title),
                x => AfterText(x, f), rs, list);
  }

  /** The category stage, applied to what the text stage left. */
  method NarrowByCategory(rs: seq<FirstResponder>, f: FilterState, list: seq<FirstResponder>)
    returns (list': seq<FirstResponder>)
    requires list == Seqs.Keep(rs, x => AfterText(x, f))
    ensures list' == Seqs.Keep(rs, x => AfterCategory(x, f))
  {
    list' := list;
    if f.category != "All" {
      list' := Seqs.Keep(list, (r: FirstResponder) => CategoryName(r.category) == f.category);
    }
    Seqs.Refine(rs, x => AfterText(x, f), f.category != "All", (r: FirstResponder) => CategoryName(r.category) == f.category,
                x => AfterCategory(x, f), list, list');
  }

  /** The city stage, applied to what the category stage left. */
  method NarrowByCity(rs: seq<FirstResponder>, f: FilterState, list: seq<FirstResponder>)
    returns (list': seq<FirstResponder>)
    requires list == Seqs.Keep(rs, x => AfterCategory(x, f))
    ensures list' == Seqs.Keep(rs, x => AfterCity(x, f))
  {
    list' := list;
    if f.city != "" {
      list' := Seqs.Keep(list, (r: FirstResponder) => r.city == f.city);
    }
    Seqs.Refine(rs, x => AfterCategory(x, f), f.city != "", (r: FirstResponder) => r.city == f.city,
                x => AfterCity(x, f), list, list');
  }

  /** The state stage, applied to what the city stage left: the end result. */
  method NarrowByState(rs: seq<FirstResponder>, f: FilterState, list: seq<FirstResponder>)
    returns (list': seq<FirstResponder>)
    requires list == Seqs.Keep(rs, x => AfterCity(x, f))
    ensures list' == Apply(rs, f)
  {
    list' := list;
    if f.state != "" {
      list' := Seqs.Keep(list, (r: FirstResponder) => r.state == f.state);
    }
    Seqs.Refine(rs, x => AfterCity(x, f), f.state != "", (r: FirstResponder) => r.state == f.state,
                x => Matches(x, f), list, list');
  }

  /** With no criterion set every record passes, so the whole list is shown in its order. */
  lemma NoCriteriaShowsAll(rs: seq<FirstResponder>, f: FilterState)
    requires !TitleGiven(f) && f.category == "All" && f.city == "" && f.state == ""
    ensures Apply(rs, f) == rs
  {
    assert forall x :: Matches(x, f);
    Seqs.KeepAll(rs, x => Matches(x, f));
  }

  /** A title of whitespace alone switches the text stage off, as an empty title does. */
  lemma BlankTitleNotGiven(f: FilterState)
    requires forall i :: 0 <= i < |f.title| ==> JsText.IsJsWhitespace(f.title[i])
    ensures !TitleGiven(f) && !TitleGiven(f.(title := ""))
  {
    assert JsText.Trim(f.title) == "";
    assert JsText.Trim("") == "";
  }

  /** A title of whitespace alone filters nothing out. */
  lemma BlankTitleIgnored(rs: seq<FirstResponder>, f: FilterState)
    requires forall i :: 0 <= i < |f.title| ==> JsText.IsJsWhitespace(f.title[i])
    ensures Apply(rs, f) == Apply(rs, f.(title := ""))
  {
    var g := f.(title := "");
    BlankTitleNotGiven(f);
    UnsetTitlesAgree(f, g);
    Seqs.KeepCongruent(rs, x => Matches(x, f), x => Matches(x, g));
  }

  /** Two filters that differ only in titles, neither of them set, match the same records. */
  lemma UnsetTitlesAgree(f: FilterState, g: FilterState)
    requires !TitleGiven(f) && !TitleGiven(g)
    requires f.category == g.category && f.city == g.city && f.state == g.state
    ensures forall x :: Matches(x, f) == Matches(x, g)
  {
    forall x ensures Matches(x, f) == Matches(x, g) {
      assert TextStage(x, f) && TextStage(x, g);
      PastTextStage(x, f);
      PastTextStage(x, g);
    }
  }

  /** Once the text stage passes, the other three stages decide. */
  lemma PastTextStage(x: FirstResponder, f: FilterState)
    requires TextStage(x, f)
    ensures Matches(x, f) == (CategoryStage(x, f) && CityStage(x, f) && StateStage(x, f))
  {
  }

  /** Every record passes the text stage for a query that occurs in its own title. */
  lemma OwnTitleMatches(r: FirstResponder)
    ensures TextMatches(r, r.title)
  {
    JsText.IncludesSelf(JsText.ToLower(r.title));
  }

  /** Filtering an already filtered list again by the same criteria changes nothing. */
  lemma ApplyIdempotent(rs: seq<FirstResponder>, f: FilterState)
    ensures Apply(Apply(rs, f), f) == Apply(rs, f)
  {
    Seqs.KeepAll(Apply(rs, f), x => Matches(x, f));
  }

  /** The choices of a select: the distinct values of one field, sorted by code unit. */
  function AvailableCities(rs: seq<FirstResponder>): (cities: seq<string>)
    ensures Ordering.StrictlySorted(cities)
    ensures forall c :: c in cities <==> exists i :: 0 <= i < |rs| && rs[i].city == c
  {
    var all := seq(|rs|, i requires 0 <= i < |rs| => rs[i].city);
    assert forall c :: c in all <==> exists i :: 0 <= i < |rs| && rs[i].city == c by {
      forall c ensures c in all <==> exists i :: 0 <= i < |rs| && rs[i].city == c {
        if c in all {
          var i :| 0 <= i < |all| && all[i] == c;
        }
        if exists i :: 0 <= i < |rs| && rs[i].city == c {
          var i :| 0 <= i < |rs| && rs[i].city == c;
          assert all[i] == c;
        }
      }
    }
    Ordering.SortedDistinct(all)
  }

  function AvailableStates(rs: seq<FirstResponder>): (states: seq<string>)
    ensures Ordering.StrictlySorted(states)
    ensures forall s :: s in states <==> exists i :: 0 <= i < |rs| && rs[i].state == s
  {
    var all := seq(|rs|, i requires 0 <= i < |rs| => rs[i].state);
    assert forall s :: s in all <==> exists i :: 0 <= i < |rs| && rs[i].state == s by {
      forall s ensures s in all <==> exists i :: 0 <= i < |rs| && rs[i].state == s {
        if s in all {
          var i :| 0 <= i < |all| && all[i] == s;
        }
        if exists i :: 0 <= i < |rs| && rs[i].state == s {
          var i :| 0 <= i < |rs| && rs[i].state == s;
          assert all[i] == s;
        }
      }
    }
    Ordering.SortedDistinct(all)
  }

  /** The choices depend only on which values occur, not on the order or repetition of records. */
  lemma AvailableCitiesCanonical(rs: seq<FirstResponder>, ts: seq<FirstResponder>)
    requires forall i :: 0 <= i < |rs| ==> exists j :: 0 <= j < |ts| && ts[j].city == rs[i].city
    requires forall j :: 0 <= j < |ts| ==> exists i :: 0 <= i < |rs| && rs[i].city == ts[j].city
    ensures AvailableCities(rs) == AvailableCities(ts)
  {
    Ordering.SortedUnique(AvailableCities(rs), AvailableCities(ts));
  }
}
