/** The housing document (the one JSON file the dashboard loads and saves)
    and the catalogue of copy-on-write transforms that `DataContext.jsx`
    builds with object spread and `filter`. Every transform returns a new
    document stamped with the caller's `lastUpdated` time; none validates
    that a group id exists. */
module Housing {
  import opened Common

  datatype Gender = Male | Female

  /** A youth group. The four head-counts may be missing in stored JSON. */
  datatype Group = Group(
    id: string,
    parish: string,
    leader: string,
    seminarianSgl: string,
    religious: string,
    phone: string,
    maleTeens: Option<int>,
    femaleTeens: Option<int>,
    maleChaperones: Option<int>,
    femaleChaperones: Option<int>,
    stayingOffCampus: bool,
    specialAccommodations: string)

  /** A room; `roomType` is the JSON field `type` ('housing' or 'smallGroup'). */
  datatype Room = Room(
    building: string,
    roomId: string,
    roomType: string,
    gender: string,
    capacity: int,
    accessibility: string)

  /** `housingAssignments`: per gender, group id to the list of room keys. */
  datatype HousingAssignments = HousingAssignments(
    male: map<string, seq<string>>,
    female: map<string, seq<string>>)
  {
    /** `housingAssignments[gender]` */
    function Of(g: Gender): map<string, seq<string>>
    {
      match g
      case Male => male
      case Female => female
    }
  }

  datatype MealTime = MealTime(satBreakfast: string, satLunch: string, satDinner: string, sunBreakfast: string)

  datatype AdaIndividual = AdaIndividual(name: string, groupId: string, roomAssignment: string, accommodations: string)

  datatype DefaultNotes = DefaultNotes(generalInfo: string, housingNotes: string, teenShowerPlan: string, adultShowerPlan: string)

  datatype Document = Document(
    version: string,
    lastUpdated: string,
    youthGroups: seq<Group>,
    rooms: seq<Room>,
    housingRooms: seq<Room>,
    smallGroupRooms: seq<Room>,
    housingAssignments: HousingAssignments,
    smallGroupAssignments: map<string, seq<string>>,
    mealColorAssignments: map<string, string>,
    mealTimes: map<string, MealTime>,
    activeColors: seq<string>,
    adaIndividuals: Option<seq<AdaIndividual>>,
    defaultNotes: DefaultNotes,
    groupNotes: map<string, string>,
    resources: seq<string>)

  // ---------------------------------------------------------------------
  // Derived room partitions and frame predicates

  predicate IsHousingRoom(r: Room) { r.roomType == "housing" }

  predicate IsSmallGroupRoom(r: Room) { r.roomType == "smallGroup" }

  /** The stored partitions are exactly what `rooms` determines. */
  predicate PartitionsCurrent(d: Document)
  {
    && d.housingRooms == Filter(d.rooms, IsHousingRoom)
    && d.smallGroupRooms == Filter(d.rooms, IsSmallGroupRoom)
  }

  /** Everything but the groups, rooms, assignments and timestamp is equal. */
  predicate SameRest(d: Document, e: Document)
  {
    && e.version == d.version
    && e.mealTimes == d.mealTimes
    && e.activeColors == d.activeColors
    && e.adaIndividuals == d.adaIndividuals
    && e.defaultNotes == d.defaultNotes
    && e.groupNotes == d.groupNotes
    && e.resources == d.resources
  }

  predicate SameRooms(d: Document, e: Document)
  {
    e.rooms == d.rooms && e.housingRooms == d.housingRooms && e.smallGroupRooms == d.smallGroupRooms
  }

  predicate SameAssignments(d: Document, e: Document)
  {
    && e.housingAssignments == d.housingAssignments
    && e.smallGroupAssignments == d.smallGroupAssignments
    && e.mealColorAssignments == d.mealColorAssignments
  }

  /** `m'` is `m` with `key` bound to `v`; every other key reads the same. */
  ghost predicate Overwrote<V>(m: map<string, V>, m': map<string, V>, key: string, v: V)
  {
    && key in m' && m'[key] == v
    && (forall k :: k != key ==> (k in m' <==> k in m))
    && (forall k :: k != key && k in m' ==> m'[k] == m[k])
  }

  /** `m'` is `m` without `key`; every other key reads the same. */
  ghost predicate Dropped<V>(m: map<string, V>, m': map<string, V>, key: string)
  {
    && key !in m'
    && (forall k :: k != key ==> (k in m' <==> k in m))
    && (forall k :: k != key && k in m' ==> m'[k] == m[k])
  }

  /** `s.filter((_, i) => i !== index)`: an index past the end removes nothing. */
  function WithoutIndex<T>(s: seq<T>, index: nat): (r: seq<T>)
    ensures index < |s| ==> |r| == |s| - 1
    ensures index >= |s| ==> r == s
    ensures forall j :: 0 <= j < index && j < |r| ==> r[j] == s[j]
    ensures forall j :: index <= j < |r| ==> r[j] == s[j + 1]
  {
    if index < |s| then s[..index] + s[index + 1..] else s
  }

  // ---------------------------------------------------------------------
  // Youth groups

  function AddYouthGroup(d: Document, group: Group, stamp: string): (r: Document)
    ensures |r.youthGroups| == |d.youthGroups| + 1
    ensures r.youthGroups[..|d.youthGroups|] == d.youthGroups
    ensures r.youthGroups[|d.youthGroups|] == group
    ensures SameRooms(d, r) && SameAssignments(d, r) && SameRest(d, r)
    ensures r.lastUpdated == stamp
  {
    d.(youthGroups := d.youthGroups + [group], lastUpdated := stamp)
  }

  /** `newGroups[index] = group`; the page only edits a listed group. */
  function UpdateYouthGroup(d: Document, index: nat, group: Group, stamp: string): (r: Document)
    requires index < |d.youthGroups|
    ensures |r.youthGroups| == |d.youthGroups|
    ensures r.youthGroups[index] == group
    ensures forall j :: 0 <= j < |d.youthGroups| && j != index ==> r.youthGroups[j] == d.youthGroups[j]
    ensures SameRooms(d, r) && SameAssignments(d, r) && SameRest(d, r)
    ensures r.lastUpdated == stamp
  {
    d.(youthGroups := d.youthGroups[index := group], lastUpdated := stamp)
  }

  /** Removes the group at `index` and its id from the two housing maps,
      the small-group map and the meal-colour map. `adaIndividuals` is left
      as it is. Reading `youthGroups[index].id` needs a valid index. */
  function DeleteYouthGroup(d: Document, index: nat, stamp: string): (r: Document)
    requires index < |d.youthGroups|
    ensures |r.youthGroups| == |d.youthGroups| - 1
    ensures forall j :: 0 <= j < index ==> r.youthGroups[j] == d.youthGroups[j]
    ensures forall j :: index <= j < |r.youthGroups| ==> r.youthGroups[j] == d.youthGroups[j + 1]
    ensures Dropped(d.housingAssignments.male, r.housingAssignments.male, d.youthGroups[index].id)
    ensures Dropped(d.housingAssignments.female, r.housingAssignments.female, d.youthGroups[index].id)
    ensures Dropped(d.smallGroupAssignments, r.smallGroupAssignments, d.youthGroups[index].id)
    ensures Dropped(d.mealColorAssignments, r.mealColorAssignments, d.youthGroups[index].id)
    ensures SameRooms(d, r) && SameRest(d, r)
    ensures r.lastUpdated == stamp
  {
    var groupId := d.youthGroups[index].id;
    d.(youthGroups := WithoutIndex(d.youthGroups, index),
       housingAssignments := HousingAssignments(
         d.housingAssignments.male - {groupId},
         d.housingAssignments.female - {groupId}),
       smallGroupAssignments := d.smallGroupAssignments - {groupId},
       mealColorAssignments := d.mealColorAssignments - {groupId},
       lastUpdated := stamp)
  }

  // ---------------------------------------------------------------------
  // Rooms: every room edit recomputes both partitions from the new rooms

  function WithRooms(d: Document, newRooms: seq<Room>, stamp: string): (r: Document)
    ensures r.rooms == newRooms && PartitionsCurrent(r)
    ensures r.youthGroups == d.youthGroups && SameAssignments(d, r) && SameRest(d, r)
    ensures r.lastUpdated == stamp
  {
    d.(rooms := newRooms,
       housingRooms := Filter(newRooms, IsHousingRoom),
       smallGroupRooms := Filter(newRooms, IsSmallGroupRoom),
       lastUpdated := stamp)
  }

  function AddRoom(d: Document, room: Room, stamp: string): (r: Document)
    ensures r.rooms == d.rooms + [room]
    ensures PartitionsCurrent(r)
    ensures r.youthGroups == d.youthGroups && SameAssignments(d, r) && SameRest(d, r)
    ensures r.lastUpdated == stamp
  {
    WithRooms(d, d.rooms + [room], stamp)
  }

  function UpdateRoom(d: Document, index: nat, room: Room, stamp: string): (r: Document)
    requires index < |d.rooms|
    ensures |r.rooms| == |d.rooms| && r.rooms[index] == room
    ensures forall j :: 0 <= j < |d.rooms| && j != index ==> r.rooms[j] == d.rooms[j]
    ensures PartitionsCurrent(r)
    ensures r.youthGroups == d.youthGroups && SameAssignments(d, r) && SameRest(d, r)
    ensures r.lastUpdated == stamp
  {
    WithRooms(d, d.rooms[index := room], stamp)
  }

  /** An index past the end keeps every room (it is a `filter`), but the
      partitions are still recomputed and the stamp still refreshed. */
  function DeleteRoom(d: Document, index: nat, stamp: string): (r: Document)
    ensures index < |d.rooms| ==> |r.rooms| == |d.rooms| - 1
    ensures index >= |d.rooms| ==> r.rooms == d.rooms
    ensures forall j :: 0 <= j < index && j < |r.rooms| ==> r.rooms[j] == d.rooms[j]
    ensures forall j :: index <= j < |r.rooms| ==> r.rooms[j] == d.rooms[j + 1]
    ensures PartitionsCurrent(r)
    ensures r.youthGroups == d.youthGroups && SameAssignments(d, r) && SameRest(d, r)
    ensures r.lastUpdated == stamp
  {
    WithRooms(d, WithoutIndex(d.rooms, index), stamp)
  }

  // ---------------------------------------------------------------------
  // Assignments: each overwrites one key of one map

  function UpdateHousingAssignment(d: Document, groupId: string, gender: Gender, rooms: seq<string>, stamp: string): (r: Document)
    ensures Overwrote(d.housingAssignments.Of(gender), r.housingAssignments.Of(gender), groupId, rooms)
    ensures gender == Male ==> r.housingAssignments.female == d.housingAssignments.female
    ensures gender == Female ==> r.housingAssignments.male == d.housingAssignments.male
    ensures r.smallGroupAssignments == d.smallGroupAssignments
    ensures r.mealColorAssignments == d.mealColorAssignments
    ensures r.youthGroups == d.youthGroups && SameRooms(d, r) && SameRest(d, r)
    ensures r.lastUpdated == stamp
  {
    var h := d.housingAssignments;
    var h' := match gender
      case Male => h.(male := h.male[groupId := rooms])
      case Female => h.(female := h.female[groupId := rooms]);
    d.(housingAssignments := h', lastUpdated := stamp)
  }

  function UpdateSmallGroupAssignment(d: Document, groupId: string, rooms: seq<string>, stamp: string): (r: Document)
    ensures Overwrote(d.smallGroupAssignments, r.smallGroupAssignments, groupId, rooms)
    ensures r.housingAssignments == d.housingAssignments
    ensures r.mealColorAssignments == d.mealColorAssignments
    ensures r.youthGroups == d.youthGroups && SameRooms(d, r) && SameRest(d, r)
    ensures r.lastUpdated == stamp
  {
    d.(smallGroupAssignments := d.smallGroupAssignments[groupId := rooms], lastUpdated := stamp)
  }

  function UpdateMealColorAssignment(d: Document, groupId: string, color: string, stamp: string): (r: Document)
    ensures Overwrote(d.mealColorAssignments, r.mealColorAssignments, groupId, color)
    ensures r.housingAssignments == d.housingAssignments
    ensures r.smallGroupAssignments == d.smallGroupAssignments
    ensures r.youthGroups == d.youthGroups && SameRooms(d, r) && SameRest(d, r)
    ensures r.lastUpdated == stamp
  {
    d.(mealColorAssignments := d.mealColorAssignments[groupId := color], lastUpdated := stamp)
  }

  // ---------------------------------------------------------------------
  // Cross-references between groups and assignment keys

  function GroupIds(d: Document): set<string>
  {
    set g | g in d.youthGroups :: g.id
  }

  /** Every assignment key names an existing group. The code keeps this
      across a group deletion but does not enforce it on assignment. */
  predicate NoDanglingAssignments(d: Document)
  {
    && d.housingAssignments.male.Keys <= GroupIds(d)
    && d.housingAssignments.female.Keys <= GroupIds(d)
    && d.smallGroupAssignments.Keys <= GroupIds(d)
    && d.mealColorAssignments.Keys <= GroupIds(d)
  }

  /** Every key kept after removing `id` still names a remaining group. */
  lemma {:induction false} KeysOutsideDeleted<V>(d: Document, index: nat, m: map<string, V>, m': map<string, V>)
    requires index < |d.youthGroups|
    requires m.Keys <= GroupIds(d)
    requires Dropped(m, m', d.youthGroups[index].id)
    ensures m'.Keys <= GroupIds(DeleteYouthGroup(d, index, ""))
  {
    var e := DeleteYouthGroup(d, index, "");
    forall k | k in m'
      ensures k in GroupIds(e)
    {
      assert k in GroupIds(d);
      var g :| g in d.youthGroups && g.id == k;
      var j :| 0 <= j < |d.youthGroups| && d.youthGroups[j] == g;
      if j < index {
        assert e.youthGroups[j] == g;
      } else {
        assert j != index;
        assert e.youthGroups[j - 1] == g;
      }
    }
  }

  /** Deleting a group never leaves an assignment key naming a group that
      is gone, and the remaining groups keep their assignments. */
  lemma DeleteYouthGroupKeepsReferences(d: Document, index: nat, stamp: string)
    requires index < |d.youthGroups|
    requires NoDanglingAssignments(d)
    ensures NoDanglingAssignments(DeleteYouthGroup(d, index, stamp))
  {
    var e := DeleteYouthGroup(d, index, "");
    KeysOutsideDeleted(d, index, d.housingAssignments.male, e.housingAssignments.male);
    KeysOutsideDeleted(d, index, d.housingAssignments.female, e.housingAssignments.female);
    KeysOutsideDeleted(d, index, d.smallGroupAssignments, e.smallGroupAssignments);
    KeysOutsideDeleted(d, index, d.mealColorAssignments, e.mealColorAssignments);
    assert GroupIds(DeleteYouthGroup(d, index, stamp)) == GroupIds(e);
  }

  /** Adding a group and then deleting it (it sits at the old length)
      restores the group list and leaves no key for its id. */
  lemma AddThenDeleteYouthGroup(d: Document, group: Group, s1: string, s2: string)
    requires group.id !in d.housingAssignments.male && group.id !in d.housingAssignments.female
    ensures var e := DeleteYouthGroup(AddYouthGroup(d, group, s1), |d.youthGroups|, s2);
            && e.youthGroups == d.youthGroups
            && e.housingAssignments == d.housingAssignments
            && group.id !in e.smallGroupAssignments && group.id !in e.mealColorAssignments
  {
    var a := AddYouthGroup(d, group, s1);
    var e := DeleteYouthGroup(a, |d.youthGroups|, s2);
    assert e.youthGroups == d.youthGroups;
    assert e.housingAssignments.male == d.housingAssignments.male;
    assert e.housingAssignments.female == d.housingAssignments.female;
  }
  /** An assignment is accepted for any id: starting from a document with
      no dangling key, the result has none exactly when the id names a
      listed group. */
  lemma UpdateHousingAssignmentReferences(d: Document, groupId: string, gender: Gender, rooms: seq<string>, stamp: string)
    requires NoDanglingAssignments(d)
    ensures NoDanglingAssignments(UpdateHousingAssignment(d, groupId, gender, rooms, stamp)) <==> groupId in GroupIds(d)
  {
    var r := UpdateHousingAssignment(d, groupId, gender, rooms, stamp);
    assert GroupIds(r) == GroupIds(d);
    assert groupId in r.housingAssignments.Of(gender);
    assert r.housingAssignments.Of(gender).Keys == d.housingAssignments.Of(gender).Keys + {groupId};
  }

  lemma UpdateSmallGroupAssignmentReferences(d: Document, groupId: string, rooms: seq<string>, stamp: string)
    requires NoDanglingAssignments(d)
    ensures NoDanglingAssignments(UpdateSmallGroupAssignment(d, groupId, rooms, stamp)) <==> groupId in GroupIds(d)
  {
    var r := UpdateSmallGroupAssignment(d, groupId, rooms, stamp);
    assert GroupIds(r) == GroupIds(d);
    assert r.smallGroupAssignments.Keys == d.smallGroupAssignments.Keys + {groupId};
  }

  lemma UpdateMealColorAssignmentReferences(d: Document, groupId: string, color: string, stamp: string)
    requires NoDanglingAssignments(d)
    ensures NoDanglingAssignments(UpdateMealColorAssignment(d, groupId, color, stamp)) <==> groupId in GroupIds(d)
  {
    var r := UpdateMealColorAssignment(d, groupId, color, stamp);
    assert GroupIds(r) == GroupIds(d);
    assert r.mealColorAssignments.Keys == d.mealColorAssignments.Keys + {groupId};
  }
}
