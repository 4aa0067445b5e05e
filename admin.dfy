/**
 * The administration dashboard: an in-memory list of facilities that can be added, edited and
 * deleted through a form, and filtered by the same four criteria as the map screen.
 */
module Admin {
  import opened Wrappers
  import opened Types
  import Seqs
  import ResponderFilter
  import Filters

  /**
   * The form's contents. The form holds a partial record: `id` is present only after a record
   * was loaded for editing.
   */
  datatype Draft = Draft(
    id: Option<string>,
    title: string,
    category: Category,
    city: string,
    state: string,
    address: string,
    locationLat: int,
    locationLng: int,
    phoneNumber: string,
    websiteUrl: Option<string>,
    googleLocationUrl: string)

  /** The blank form: Police, empty texts, zero coordinates. */
  function EmptyDraft(): (d: Draft)
    ensures d.id.None? && d.category == Police && d.locationLat == 0 && d.locationLng == 0
  {
    Draft(None, "", Police, "", "", "", 0, 0, "", Some(""), "")
  }

  /** The form loaded with a record to edit. */
  function DraftOf(r: FirstResponder): Draft {
    Draft(Some(r.id), r.title, r.category, r.city, r.state, r.address, r.locationLat, r.locationLng,
          r.phoneNumber, r.websiteUrl, r.googleLocationUrl)
  }

  /** `{ ...formData, id }`: the form's fields under the given id. */
  function ToRecord(d: Draft, id: string): (r: FirstResponder)
    ensures r.id == id
  {
    FirstResponder(id, d.title, d.category, d.city, d.state, d.address, d.locationLat, d.locationLng,
                   d.phoneNumber, d.websiteUrl, d.googleLocationUrl)
  }

  /** `{ id: freshId, ...formData }`: an id carried by the form overrides the fresh one. */
  function NewRecord(d: Draft, freshId: string): (r: FirstResponder)
    ensures d.id.None? ==> r.id == freshId
    ensures d.id.Some? ==> r.id == d.id.value
  {
    ToRecord(d, d.id.GetOr(freshId))
  }

  /** Loading a record into the form and saving it under its own id gives the record back. */
  lemma ToRecordOfDraft(r: FirstResponder)
    ensures ToRecord(DraftOf(r), r.id) == r
    ensures NewRecord(DraftOf(r), "") == r
  {
  }

  /** One edit made through a form control. */
  datatype DraftEdit =
    | TitleEdit(title: string)
    | CategoryEdit(category: Category)
    | CityEdit(city: string)
    | StateEdit(state: string)
    | AddressEdit(address: string)
    | LatEdit(lat: int)
    | LngEdit(lng: int)
    | PhoneEdit(phone: string)
    | WebsiteEdit(website: string)
    | GoogleUrlEdit(url: string)

  /** `setFormData({ ...formData, key: value })`. */
  function UpdateDraft(d: Draft, e: DraftEdit): (r: Draft)
    ensures Shows(r, e)
    ensures Blank(r, e) == Blank(d, e)
  {
    match e
    case TitleEdit(v) => d.(title := v)
    case CategoryEdit(v) => d.(category := v)
    case CityEdit(v) => d.(city := v)
    case StateEdit(v) => d.(state := v)
    case AddressEdit(v) => d.(address := v)
    case LatEdit(v) => d.(locationLat := v)
    case LngEdit(v) => d.(locationLng := v)
    case PhoneEdit(v) => d.(phoneNumber := v)
    case WebsiteEdit(v) => d.(websiteUrl := Some(v))
    case GoogleUrlEdit(v) => d.(googleLocationUrl := v)
  }

  /** The form shows the value of edit `e` in the field `e` edits. */
  predicate Shows(d: Draft, e: DraftEdit) {
    match e
    case TitleEdit(v) => d.title == v
    case CategoryEdit(v) => d.category == v
    case CityEdit(v) => d.city == v
    case StateEdit(v) => d.state == v
    case AddressEdit(v) => d.address == v
    case LatEdit(v) => d.locationLat == v
    case LngEdit(v) => d.locationLng == v
    case PhoneEdit(v) => d.phoneNumber == v
    case WebsiteEdit(v) => d.websiteUrl == Some(v)
    case GoogleUrlEdit(v) => d.googleLocationUrl == v
  }

  /** `d` with the field that `e` edits blanked: two drafts with equal blanks differ at most there. */
  function Blank(d: Draft, e: DraftEdit): Draft {
    match e
    case TitleEdit(_) => d.(title := "")
    case CategoryEdit(_) => d.(category := Police)
    case CityEdit(_) => d.(city := "")
    case StateEdit(_) => d.(state := "")
    case AddressEdit(_) => d.(address := "")
    case LatEdit(_) => d.(locationLat := 0)
    case LngEdit(_) => d.(locationLng := 0)
    case PhoneEdit(_) => d.(phoneNumber := "")
    case WebsiteEdit(_) => d.(websiteUrl := None)
    case GoogleUrlEdit(_) => d.(googleLocationUrl := "")
  }

  /** `responders.filter((r) => r.id !== id)`. */
  function RemoveId(rs: seq<FirstResponder>, id: string): (r: seq<FirstResponder>)
    ensures Seqs.IsSubsequence(r, rs)
    ensures forall x :: x in r <==> x in rs && x.id != id
    ensures forall x :: multiset(r)[x] == if x.id != id then multiset(rs)[x] else 0
  {
    Seqs.KeepIsSubsequence(rs, (x: FirstResponder) => x.id != id);
    Seqs.Keep(rs, (x: FirstResponder) => x.id != id)
  }

  /** `responders.map((r) => r.id === id ? rec : r)`. */
  function ReplaceId(rs: seq<FirstResponder>, id: string, rec: FirstResponder): (r: seq<FirstResponder>)
    ensures |r| == |rs|
    ensures forall i :: 0 <= i < |rs| ==> r[i] == if rs[i].id == id then rec else rs[i]
  {
    seq(|rs|, i requires 0 <= i < |rs| => if rs[i].id == id then rec else rs[i])
  }

  /** The list of ids, in order. */
  function Ids(rs: seq<FirstResponder>): (ids: seq<string>)
    ensures |ids| == |rs| && forall i :: 0 <= i < |rs| ==> ids[i] == rs[i].id
  {
    seq(|rs|, i requires 0 <= i < |rs| => rs[i].id)
  }

  /** Saving an edit keeps every record in its place and every id as it was. */
  lemma ReplaceKeepsIds(rs: seq<FirstResponder>, id: string, d: Draft)
    ensures Ids(ReplaceId(rs, id, ToRecord(d, id))) == Ids(rs)
  {
  }

  /** Saving an unchanged form leaves the list as it was, when no other record shares the id. */
  lemma SaveUnchanged(rs: seq<FirstResponder>, r: FirstResponder)
    requires forall i :: 0 <= i < |rs| && rs[i].id == r.id ==> rs[i] == r
    ensures ReplaceId(rs, r.id, ToRecord(DraftOf(r), r.id)) == rs
  {
    ToRecordOfDraft(r);
  }

  /** Deleting is idempotent and leaves no record with the id. */
  lemma RemoveIdIdempotent(rs: seq<FirstResponder>, id: string)
    ensures RemoveId(RemoveId(rs, id), id) == RemoveId(rs, id)
    ensures forall x :: x in RemoveId(rs, id) ==> x.id != id
  {
    Seqs.KeepAll(RemoveId(rs, id), (x: FirstResponder) => x.id != id);
  }

  /** The dashboard's state, as its component holds it. */
  class Dashboard {
    var responders: seq<FirstResponder>
    var editing: Option<FirstResponder>
    var showForm: bool
    var filters: FilterState
    var formData: Draft

    /**
     * The form carries the id of the record being edited, and only then an id: an open form for a
     * new record has none.
     */
    predicate Valid()
      reads this
    {
      && (editing.Some? ==> formData.id == Some(editing.value.id))
      && (showForm && editing.None? ==> formData.id.None?)
    }

    constructor(initial: seq<FirstResponder>)
      ensures Valid()
      ensures responders == initial && editing.None? && !showForm
      ensures filters == Filters.ClearFilters() && formData == EmptyDraft()
    {
      responders := initial;
      editing := None;
      showForm := false;
      filters := FilterState("", "All", None, "", "");
      formData := EmptyDraft();
    }

    /** `handleAdd`: a blank form for a new record. */
    method Add()
      requires Valid()
      modifies this
      ensures Valid()
      ensures editing.None? && formData == EmptyDraft() && showForm
      ensures responders == old(responders) && filters == old(filters)
    {
      editing := None;
      formData := EmptyDraft();
      showForm := true;
    }

    /** `handleEdit`: the form loaded with `r`. */
    method Edit(r: FirstResponder)
      requires Valid()
      modifies this
      ensures Valid()
      ensures editing == Some(r) && formData == DraftOf(r) && showForm
      ensures responders == old(responders) && filters == old(filters)
    {
      editing := Some(r);
      formData := DraftOf(r);
      showForm := true;
    }

    /** `handleDelete`: removes every record with the id, if the user confirms. */
    method Delete(id: string, confirmed: bool)
      requires Valid()
      modifies this
      ensures Valid()
      ensures responders == if confirmed then RemoveId(old(responders), id) else old(responders)
      ensures editing == old(editing) && showForm == old(showForm)
      ensures filters == old(filters) && formData == old(formData)
    {
      if confirmed {
        responders := RemoveId(responders, id);
      }
    }

    /**
     * `handleSubmit`: replaces the edited record (matched by id) with the form, or appends a new
     * record under `freshId`, the time-based id the caller supplies; then closes the form.
     */
    method Submit(freshId: string)
      requires Valid()
      modifies this
      ensures Valid()
      ensures old(editing).Some? ==>
        responders == ReplaceId(old(responders), old(editing).value.id, ToRecord(old(formData), old(editing).value.id))
      ensures old(editing).None? ==> responders == old(responders) + [NewRecord(old(formData), freshId)]
      ensures old(editing).None? && old(showForm) ==> responders[|responders| - 1].id == freshId
      ensures !showForm && editing.None?
      ensures filters == old(filters) && formData == old(formData)
    {
      if editing.Some? {
        var id := editing.value.id;
        responders := ReplaceId(responders, id, ToRecord(formData, id));
      } else {
        responders := responders + [NewRecord(formData, freshId)];
      }
      showForm := false;
      editing := None;
    }

    /** `handleCancel`: closes and blanks the form; the list is not touched. */
    method Cancel()
      requires Valid()
      modifies this
      ensures Valid()
      ensures !showForm && editing.None? && formData == EmptyDraft()
      ensures responders == old(responders) && filters == old(filters)
    {
      showForm := false;
      editing := None;
      formData := EmptyDraft();
    }

    /** A form control's `onChange`: one field of the form takes the control's value. */
    method EditForm(e: DraftEdit)
      requires Valid()
      modifies this
      ensures Valid()
      ensures formData == UpdateDraft(old(formData), e)
      ensures responders == old(responders) && editing == old(editing)
      ensures showForm == old(showForm) && filters == old(filters)
    {
      formData := UpdateDraft(formData, e);
    }

    /** A filter control's `onChange`: one criterion takes the control's value. */
    method SetFilter(key: Filters.FilterKey, value: string)
      requires Valid()
      modifies this
      ensures Valid()
      ensures filters == Filters.HandleChange(old(filters), key, value)
      ensures responders == old(responders) && editing == old(editing)
      ensures showForm == old(showForm) && formData == old(formData)
    {
      filters := Filters.HandleChange(filters, key, value);
    }

    /** `filteredResponders`: the records the table lists. */
    method FilteredResponders() returns (list: seq<FirstResponder>)
      ensures list == ResponderFilter.Apply(responders, filters)
    {
      list := ResponderFilter.FilterInStages(responders, filters);
    }
  }
}
