/** The housing-assignment page: the room toggle behind `handleAssignRoom`,
    the list of housing rooms it offers and which groups it lists per
    gender. */
module HousingAssignmentsPage {
  import opened Common
  import opened Housing

  /** `data.housingAssignments[gender][groupId] || []`: a group without an
      entry for the gender has no rooms. */
  function CurrentAssignments(d: Document, groupId: string, gender: Gender): (r: seq<string>)
    ensures groupId !in d.housingAssignments.Of(gender) ==> r == []
    ensures groupId in d.housingAssignments.Of(gender) ==> r == d.housingAssignments.Of(gender)[groupId]
  {
    var m := d.housingAssignments.Of(gender);
    if groupId in m then m[groupId] else []
  }

  function Other(key: string): string -> bool
  {
    (x: string) => x != key
  }

  /** `list.filter(r => r !== key)`: every occurrence of `key` goes. */
  function RemoveAll(list: seq<string>, key: string): (r: seq<string>)
    ensures key !in r
    ensures forall x :: x != key ==> (x in r <==> x in list)
    ensures |r| <= |list|
    ensures key in list ==> |r| < |list|
  {
    if key in list then
      var i :| 0 <= i < |list| && list[i] == key;
      FilterShorter(list, Other(key), i);
      Filter(list, Other(key))
    else
      Filter(list, Other(key))
  }

  lemma RemoveAllAbsent(list: seq<string>, key: string)
    requires key !in list
    ensures RemoveAll(list, key) == list
  {
    FilterKeepsAll(list, Other(key));
  }

  lemma RemoveAllConcat(a: seq<string>, b: seq<string>, key: string)
    ensures RemoveAll(a + b, key) == RemoveAll(a, key) + RemoveAll(b, key)
  {
    FilterConcat(a, b, Other(key));
  }

  /** The toggle: a listed room key is removed (every copy of it), an
      unlisted one is appended at the end. */
  function Toggle(list: seq<string>, roomKey: string): (r: seq<string>)
    ensures roomKey in list ==> r == RemoveAll(list, roomKey)
    ensures roomKey in list ==> roomKey !in r && |r| < |list|
    ensures roomKey in list ==> forall x :: x != roomKey ==> (x in r <==> x in list)
    ensures roomKey !in list ==> r == list + [roomKey]
    ensures (roomKey in r) <==> (roomKey !in list)
  {
    if roomKey in list then RemoveAll(list, roomKey) else list + [roomKey]
  }

  /** Toggling a room key twice, from a list without it, gives the list back. */
  lemma ToggleTwice(list: seq<string>, roomKey: string)
    requires roomKey !in list
    ensures Toggle(Toggle(list, roomKey), roomKey) == list
  {
    RemoveAllConcat(list, [roomKey], roomKey);
    RemoveAllAbsent(list, roomKey);
    assert RemoveAll([roomKey], roomKey) == [];
  }

  /** `handleAssignRoom`: writes the toggled list for (groupId, gender) only,
      through `updateHousingAssignment`. */
  function HandleAssignRoom(d: Document, groupId: string, gender: Gender, roomKey: string, stamp: string): (r: Document)
    ensures Overwrote(d.housingAssignments.Of(gender), r.housingAssignments.Of(gender), groupId,
                      Toggle(CurrentAssignments(d, groupId, gender), roomKey))
    ensures (roomKey in r.housingAssignments.Of(gender)[groupId]) <==> (roomKey !in CurrentAssignments(d, groupId, gender))
    ensures gender == Male ==> r.housingAssignments.female == d.housingAssignments.female
    ensures gender == Female ==> r.housingAssignments.male == d.housingAssignments.male
    ensures r.youthGroups == d.youthGroups && SameRooms(d, r) && SameRest(d, r)
    ensures r.smallGroupAssignments == d.smallGroupAssignments && r.mealColorAssignments == d.mealColorAssignments
    ensures r.lastUpdated == stamp
  {
    UpdateHousingAssignment(d, groupId, gender, Toggle(CurrentAssignments(d, groupId, gender), roomKey), stamp)
  }

  /** `data.rooms.filter(r => r.type === 'housing')`; it is the partition
      the document stores when that is up to date. */
  function HousingRooms(d: Document): (r: seq<Room>)
    ensures forall x :: x in r <==> x in d.rooms && x.roomType == "housing"
    ensures PartitionsCurrent(d) ==> r == d.housingRooms
  {
    Filter(d.rooms, IsHousingRoom)
  }

  /** The housing rooms keep room order: they sit in the rooms at
      strictly increasing positions. */
  lemma HousingRoomsInOrder(d: Document)
    ensures exists idx :: IndexedSubsequence(HousingRooms(d), d.rooms, idx)
  {
    var idx := FilterIndices(d.rooms, IsHousingRoom);
    assert IndexedSubsequence(HousingRooms(d), d.rooms, idx);
  }

  /** A group is left out of a gender's list exactly when both its teen
      and its chaperone count for that gender are 0. */
  predicate Listed(g: Group, gender: Gender)
  {
    match gender
    case Male => !(g.maleTeens == Some(0) && g.maleChaperones == Some(0))
    case Female => !(g.femaleTeens == Some(0) && g.femaleChaperones == Some(0))
  }

  function ListedGroups(d: Document, gender: Gender): (r: seq<Group>)
    ensures gender == Male ==>
      forall g :: g in r <==> g in d.youthGroups && !(g.maleTeens == Some(0) && g.maleChaperones == Some(0))
    ensures gender == Female ==>
      forall g :: g in r <==> g in d.youthGroups && !(g.femaleTeens == Some(0) && g.femaleChaperones == Some(0))
    ensures |r| <= |d.youthGroups|
  {
    Filter(d.youthGroups, (g: Group) => Listed(g, gender))
  }
}
