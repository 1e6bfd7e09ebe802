/** The room page: search plus type filter, and the form whose submit
    adds a new room or updates the one being edited. */
module RoomsPage {
  import opened Common
  import opened Housing
  import SyncEngine

  /** The lower-cased search term occurs in the lower-cased building or
      room number. */
  predicate MatchesSearch(r: Room, term: string)
  {
    Contains(Lower(r.building), Lower(term)) || Contains(Lower(r.roomId), Lower(term))
  }

  /** The type selector: 'all', or the room's own type. */
  predicate MatchesType(r: Room, filterType: string)
  {
    filterType == "all" || r.roomType == filterType
  }

  function RoomFilter(term: string, filterType: string): Room -> bool
  {
    (r: Room) => MatchesSearch(r, term) && MatchesType(r, filterType)
  }

  /** `filteredRooms` */
  function FilteredRooms(rooms: seq<Room>, term: string, filterType: string): (r: seq<Room>)
    ensures forall x :: x in r <==> x in rooms && MatchesSearch(x, term) && MatchesType(x, filterType)
    ensures filterType == "all" && term == "" ==> r == rooms
    ensures filterType == "housing" ==> forall x :: x in r ==> x.roomType == "housing"
    ensures filterType == "smallGroup" ==> forall x :: x in r ==> x.roomType == "smallGroup"
  {
    if filterType == "all" && term == "" then
      assert forall i :: 0 <= i < |rooms| ==> RoomFilter(term, filterType)(rooms[i]);
      FilterKeepsAll(rooms, RoomFilter(term, filterType));
      Filter(rooms, RoomFilter(term, filterType))
    else
      Filter(rooms, RoomFilter(term, filterType))
  }

  /** Rooms stay in list order through the filter. */
  lemma FilteredRoomsKeepOrder(a: seq<Room>, b: seq<Room>, term: string, filterType: string)
    ensures FilteredRooms(a + b, term, filterType) == FilteredRooms(a, term, filterType) + FilteredRooms(b, term, filterType)
  {
    FilterConcat(a, b, RoomFilter(term, filterType));
  }

  /** With an empty search, the 'housing' choice lists the same rooms as
      the housing-assignment page, in the same order. */
  lemma HousingChoiceIsHousingPartition(rooms: seq<Room>)
    ensures FilteredRooms(rooms, "", "housing") == Filter(rooms, IsHousingRoom)
  {
    FilterSamePredicate(rooms, RoomFilter("", "housing"), IsHousingRoom);
  }

  /** The record `handleAdd` puts in the form. */
  function NewRoom(): (r: Room)
    ensures r.roomType == "housing" && r.gender == "male" && r.capacity == 0
    ensures r.building == "" && r.roomId == "" && r.accessibility == ""
    ensures IsHousingRoom(r)
  {
    Room("", "", "housing", "male", 0, "")
  }

  /** One `handleChange(field, value)`. Capacity arrives already parsed. */
  datatype RoomEdit =
    | SetBuilding(text: string)
    | SetRoomId(text: string)
    | SetType(text: string)
    | SetGender(text: string)
    | SetCapacity(count: int)
    | SetAccessibility(text: string)

  /** `{ ...formData, [field]: value }`: the edited field holds the new
      value and every other field keeps its old one. */
  function ApplyEdit(r: Room, e: RoomEdit): (r': Room)
    ensures r'.building == (if e.SetBuilding? then e.text else r.building)
    ensures r'.roomId == (if e.SetRoomId? then e.text else r.roomId)
    ensures r'.roomType == (if e.SetType? then e.text else r.roomType)
    ensures r'.gender == (if e.SetGender? then e.text else r.gender)
    ensures r'.capacity == (if e.SetCapacity? then e.count else r.capacity)
    ensures r'.accessibility == (if e.SetAccessibility? then e.text else r.accessibility)
  {
    match e
    case SetBuilding(t) => r.(building := t)
    case SetRoomId(t) => r.(roomId := t)
    case SetType(t) => r.(roomType := t)
    case SetGender(t) => r.(gender := t)
    case SetCapacity(n) => r.(capacity := n)
    case SetAccessibility(t) => r.(accessibility := t)
  }

  class RoomForm {
    var showModal: bool
    var editIndex: Option<nat>
    var formData: Room

    constructor ()
      ensures !showModal && editIndex == None && formData == NewRoom()
    {
      showModal, editIndex, formData := false, None, NewRoom();
    }

    method HandleAdd()
      modifies this
      ensures editIndex == None && showModal && formData == NewRoom()
    {
      editIndex := None;
      formData := NewRoom();
      showModal := true;
    }

    method HandleEdit(d: Document, index: nat)
      requires index < |d.rooms|
      modifies this
      ensures editIndex == Some(index) && formData == d.rooms[index] && showModal
    {
      editIndex := Some(index);
      formData := d.rooms[index];
      showModal := true;
    }

    method HandleChange(e: RoomEdit)
      modifies this`formData
      ensures formData == ApplyEdit(old(formData), e)
    {
      formData := ApplyEdit(formData, e);
    }

    /** `handleSubmit`: update when an index is being edited, add otherwise;
        either way the partitions are recomputed and the modal closes. */
    method HandleSubmit(provider: SyncEngine.DataProvider, stamp: string)
      requires provider.data.Some?
      requires editIndex.Some? ==> editIndex.value < |provider.data.value.rooms|
      modifies this`showModal, provider
      ensures editIndex.Some? ==>
        provider.Rearmed(Housing.UpdateRoom(old(provider.data).value, editIndex.value, formData, stamp))
      ensures editIndex.None? ==>
        provider.Rearmed(Housing.AddRoom(old(provider.data).value, formData, stamp))
      ensures provider.data.Some? && PartitionsCurrent(provider.data.value)
      ensures !showModal
    {
      if editIndex.Some? {
        provider.UpdateRoom(editIndex.value, formData, stamp);
      } else {
        provider.AddRoom(formData, stamp);
      }
      showModal := false;
    }
  }
}
