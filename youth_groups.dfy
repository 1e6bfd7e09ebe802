/** The youth-group page: its search filter, the per-group totals it
    shows, and the form whose submit adds a new group or updates the one
    being edited. */
module YouthGroupsPage {
  import opened Common
  import opened Housing
  import SyncEngine

  function TeenTotal(g: Group): int
  {
    OrZero(g.maleTeens) + OrZero(g.femaleTeens)
  }

  function ChaperoneTotal(g: Group): int
  {
    OrZero(g.maleChaperones) + OrZero(g.femaleChaperones)
  }

  /** The "Total" column: teens plus chaperones, a missing count read as 0. */
  function GroupTotal(g: Group): (r: int)
    ensures r == TeenTotal(g) + ChaperoneTotal(g)
    ensures g.maleTeens.None? && g.femaleTeens.None? ==> r == ChaperoneTotal(g)
    ensures g.maleChaperones.None? && g.femaleChaperones.None? ==> r == TeenTotal(g)
  {
    OrZero(g.maleTeens) + OrZero(g.femaleTeens) + OrZero(g.maleChaperones) + OrZero(g.femaleChaperones)
  }

  /** The lower-cased search term occurs in the lower-cased parish or leader. */
  predicate MatchesSearch(g: Group, term: string)
  {
    Contains(Lower(g.parish), Lower(term)) || Contains(Lower(g.leader), Lower(term))
  }

  function SearchFilter(term: string): Group -> bool
  {
    (g: Group) => MatchesSearch(g, term)
  }

  /** `filteredGroups` */
  function FilteredGroups(groups: seq<Group>, term: string): (r: seq<Group>)
    ensures forall g :: g in r <==> g in groups && MatchesSearch(g, term)
    ensures term == "" ==> r == groups
  {
    if term == "" then
      assert forall i :: 0 <= i < |groups| ==> SearchFilter(term)(groups[i]);
      FilterKeepsAll(groups, SearchFilter(term));
      Filter(groups, SearchFilter(term))
    else
      Filter(groups, SearchFilter(term))
  }

  /** The search keeps groups in list order: filtering a list made of two
      parts lists the first part's matches before the second part's. */
  lemma FilteredGroupsKeepOrder(a: seq<Group>, b: seq<Group>, term: string)
    ensures FilteredGroups(a + b, term) == FilteredGroups(a, term) + FilteredGroups(b, term)
  {
    FilterConcat(a, b, SearchFilter(term));
  }

  /** The record `handleAdd` puts in the form. */
  function NewGroup(id: string): (g: Group)
    ensures g.id == id
    ensures g.maleTeens == Some(0) && g.femaleTeens == Some(0)
    ensures g.maleChaperones == Some(0) && g.femaleChaperones == Some(0)
    ensures !g.stayingOffCampus
    ensures g.parish == "" && g.leader == "" && g.phone == ""
    ensures g.seminarianSgl == "" && g.religious == "" && g.specialAccommodations == ""
    ensures GroupTotal(g) == 0
  {
    Group(id, "", "", "", "", "", Some(0), Some(0), Some(0), Some(0), false, "")
  }

  /** One `handleChange(field, value)`. Count inputs arrive already parsed. */
  datatype GroupEdit =
    | SetParish(text: string)
    | SetLeader(text: string)
    | SetSeminarianSgl(text: string)
    | SetReligious(text: string)
    | SetPhone(text: string)
    | SetMaleTeens(count: int)
    | SetFemaleTeens(count: int)
    | SetMaleChaperones(count: int)
    | SetFemaleChaperones(count: int)
    | SetStayingOffCampus(flag: bool)
    | SetSpecialAccommodations(text: string)

  /** `{ ...formData, [field]: value }`: the edited field holds the new
      value and every other field keeps its old one. No form edit touches
      the id, so an edited group keeps the keys its assignments are filed
      under. */
  function ApplyEdit(g: Group, e: GroupEdit): (r: Group)
    ensures r.id == g.id
    ensures r.parish == (if e.SetParish? then e.text else g.parish)
    ensures r.leader == (if e.SetLeader? then e.text else g.leader)
    ensures r.seminarianSgl == (if e.SetSeminarianSgl? then e.text else g.seminarianSgl)
    ensures r.religious == (if e.SetReligious? then e.text else g.religious)
    ensures r.phone == (if e.SetPhone? then e.text else g.phone)
    ensures r.maleTeens == (if e.SetMaleTeens? then Some(e.count) else g.maleTeens)
    ensures r.femaleTeens == (if e.SetFemaleTeens? then Some(e.count) else g.femaleTeens)
    ensures r.maleChaperones == (if e.SetMaleChaperones? then Some(e.count) else g.maleChaperones)
    ensures r.femaleChaperones == (if e.SetFemaleChaperones? then Some(e.count) else g.femaleChaperones)
    ensures r.stayingOffCampus == (if e.SetStayingOffCampus? then e.flag else g.stayingOffCampus)
    ensures r.specialAccommodations == (if e.SetSpecialAccommodations? then e.text else g.specialAccommodations)
  {
    match e
    case SetParish(t) => g.(parish := t)
    case SetLeader(t) => g.(leader := t)
    case SetSeminarianSgl(t) => g.(seminarianSgl := t)
    case SetReligious(t) => g.(religious := t)
    case SetPhone(t) => g.(phone := t)
    case SetMaleTeens(n) => g.(maleTeens := Some(n))
    case SetFemaleTeens(n) => g.(femaleTeens := Some(n))
    case SetMaleChaperones(n) => g.(maleChaperones := Some(n))
    case SetFemaleChaperones(n) => g.(femaleChaperones := Some(n))
    case SetStayingOffCampus(b) => g.(stayingOffCampus := b)
    case SetSpecialAccommodations(t) => g.(specialAccommodations := t)
  }

  /** The page's own state: the modal, the index being edited and the form. */
  class GroupForm {
    var showModal: bool
    var editIndex: Option<nat>
    var formData: Group

    constructor ()
      ensures !showModal && editIndex == None && formData == NewGroup("")
    {
      showModal, editIndex, formData := false, None, NewGroup("");
    }

    /** `handleAdd`; `clock` is `Date.now()`. */
    method HandleAdd(clock: nat)
      modifies this
      ensures editIndex == None && showModal
      ensures formData == NewGroup("group-" + Decimal(clock))
    {
      editIndex := None;
      formData := NewGroup("group-" + Decimal(clock));
      showModal := true;
    }

    /** `handleEdit`: the form starts as a copy of the listed group. */
    method HandleEdit(d: Document, index: nat)
      requires index < |d.youthGroups|
      modifies this
      ensures editIndex == Some(index) && formData == d.youthGroups[index] && showModal
    {
      editIndex := Some(index);
      formData := d.youthGroups[index];
      showModal := true;
    }

    method HandleChange(e: GroupEdit)
      modifies this`formData
      ensures formData == ApplyEdit(old(formData), e)
    {
      formData := ApplyEdit(formData, e);
    }

    /** `handleSubmit`: update when an index is being edited, add otherwise;
        the modal closes. */
    method HandleSubmit(provider: SyncEngine.DataProvider, stamp: string)
      requires provider.data.Some?
      requires editIndex.Some? ==> editIndex.value < |provider.data.value.youthGroups|
      modifies this`showModal, provider
      ensures editIndex.Some? ==>
        provider.Rearmed(Housing.UpdateYouthGroup(old(provider.data).value, editIndex.value, formData, stamp))
      ensures editIndex.None? ==>
        provider.Rearmed(Housing.AddYouthGroup(old(provider.data).value, formData, stamp))
      ensures !showModal
    {
      if editIndex.Some? {
        provider.UpdateYouthGroup(editIndex.value, formData, stamp);
      } else {
        provider.AddYouthGroup(formData, stamp);
      }
      showModal := false;
    }
  }
}
