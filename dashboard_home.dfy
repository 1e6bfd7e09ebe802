/** The overview page: the counts it computes from the current document. */
module DashboardHome {
  import opened Common
  import opened Housing
  import YouthGroupsPage

  /** `reduce((sum, g) => sum + f(g), 0)`: a left fold, so the last group
      is added last. */
  function Sum(groups: seq<Group>, f: Group -> int): int
  {
    if groups == [] then 0 else Sum(groups[..|groups| - 1], f) + f(groups[|groups| - 1])
  }

  lemma {:induction false} SumConcat(a: seq<Group>, b: seq<Group>, f: Group -> int)
    ensures Sum(a + b, f) == Sum(a, f) + Sum(b, f)
    decreases |b|
  {
    if b == [] {
      assert a + b == a;
    } else {
      assert (a + b)[..|a + b| - 1] == a + b[..|b| - 1];
      SumConcat(a, b[..|b| - 1], f);
    }
  }

  lemma {:induction false} SumNonNegative(groups: seq<Group>, f: Group -> int)
    requires forall i :: 0 <= i < |groups| ==> f(groups[i]) >= 0
    ensures Sum(groups, f) >= 0
  {
    if groups != [] {
      SumNonNegative(groups[..|groups| - 1], f);
    }
  }

  lemma {:induction false} SumAdd(groups: seq<Group>, f: Group -> int, g: Group -> int, h: Group -> int)
    requires forall i :: 0 <= i < |groups| ==> h(groups[i]) == f(groups[i]) + g(groups[i])
    ensures Sum(groups, h) == Sum(groups, f) + Sum(groups, g)
  {
    if groups != [] {
      SumAdd(groups[..|groups| - 1], f, g, h);
    }
  }

  function Teens(): Group -> int { (g: Group) => YouthGroupsPage.TeenTotal(g) }
  function Chaperones(): Group -> int { (g: Group) => YouthGroupsPage.ChaperoneTotal(g) }
  function Totals(): Group -> int { (g: Group) => YouthGroupsPage.GroupTotal(g) }

  /** The cards on the page. */
  datatype Stats = Stats(
    totalGroups: nat,
    totalTeens: int,
    totalChaperones: int,
    totalParticipants: int,
    totalRooms: nat,
    housingRooms: nat,
    smallGroupRooms: nat,
    assignedGroups: nat,
    uniqueAssignedGroups: nat,
    adaCount: nat)

  /** All counts of the page. Room counts are taken from `rooms` by type,
      not from the stored partitions; a group assigned rooms of both
      genders counts twice in `assignedGroups` but once in
      `uniqueAssignedGroups`. */
  function Statistics(d: Document): (s: Stats)
    ensures s.totalGroups == |d.youthGroups| && s.totalRooms == |d.rooms|
    ensures s.totalTeens == Sum(d.youthGroups, Teens())
    ensures s.totalChaperones == Sum(d.youthGroups, Chaperones())
    ensures s.totalParticipants == s.totalTeens + s.totalChaperones
    ensures s.totalParticipants == Sum(d.youthGroups, Totals())
    ensures s.housingRooms == |Filter(d.rooms, IsHousingRoom)|
    ensures s.smallGroupRooms == |Filter(d.rooms, IsSmallGroupRoom)|
    ensures s.housingRooms + s.smallGroupRooms <= s.totalRooms
    ensures PartitionsCurrent(d) ==>
      s.housingRooms == |d.housingRooms| && s.smallGroupRooms == |d.smallGroupRooms|
    ensures s.assignedGroups == |d.housingAssignments.male| + |d.housingAssignments.female|
    ensures s.uniqueAssignedGroups == |d.housingAssignments.male.Keys + d.housingAssignments.female.Keys|
    ensures |d.housingAssignments.male| <= s.uniqueAssignedGroups <= s.assignedGroups
    ensures |d.housingAssignments.female| <= s.uniqueAssignedGroups
    ensures s.uniqueAssignedGroups == s.assignedGroups <==>
      d.housingAssignments.male.Keys !! d.housingAssignments.female.Keys
    ensures s.adaCount == (if d.adaIndividuals.Some? then |d.adaIndividuals.value| else 0)
  {
    var teens := Sum(d.youthGroups, Teens());
    var chaperones := Sum(d.youthGroups, Chaperones());
    SumAdd(d.youthGroups, Teens(), Chaperones(), Totals());
    FilterDisjointCount(d.rooms, IsHousingRoom, IsSmallGroupRoom);
    var male := d.housingAssignments.male.Keys;
    var female := d.housingAssignments.female.Keys;
    UnionSize(male, female);
    Stats(
      |d.youthGroups|,
      teens,
      chaperones,
      teens + chaperones,
      |d.rooms|,
      |Filter(d.rooms, IsHousingRoom)|,
      |Filter(d.rooms, IsSmallGroupRoom)|,
      |d.housingAssignments.male| + |d.housingAssignments.female|,
      |male + female|,
      if d.adaIndividuals.Some? then |d.adaIndividuals.value| else 0)
  }

  /** The size of a union of two key sets: at least either, at most the
      sum, and the sum exactly when no key is in both. */
  lemma UnionSize(a: set<string>, b: set<string>)
    ensures |a| <= |a + b| && |b| <= |a + b|
    ensures |a + b| == |a| + |b| - |a * b|
    ensures |a + b| == |a| + |b| <==> a !! b
  {
    assert a + b == a + (b - a);
    assert b == (b - a) + (a * b);
    assert (b - a) !! (a * b);
    assert |b| == |b - a| + |a * b|;
    if |a * b| == 0 {
      assert a * b == {};
    } else {
      var x :| x in a * b;
    }
  }

  /** With no negative head-count, none of the participant totals is
      negative. */
  lemma TotalsNonNegative(d: Document)
    requires forall i :: 0 <= i < |d.youthGroups| ==>
      OrZero(d.youthGroups[i].maleTeens) >= 0 && OrZero(d.youthGroups[i].femaleTeens) >= 0 &&
      OrZero(d.youthGroups[i].maleChaperones) >= 0 && OrZero(d.youthGroups[i].femaleChaperones) >= 0
    ensures Statistics(d).totalTeens >= 0 && Statistics(d).totalChaperones >= 0
    ensures Statistics(d).totalParticipants >= 0
  {
    SumNonNegative(d.youthGroups, Teens());
    SumNonNegative(d.youthGroups, Chaperones());
  }

  /** Adding a group adds its teens and chaperones to the totals and one
      to the group count. */
  lemma AddYouthGroupStatistics(d: Document, g: Group, stamp: string)
    ensures Statistics(Housing.AddYouthGroup(d, g, stamp)).totalGroups == Statistics(d).totalGroups + 1
    ensures Statistics(Housing.AddYouthGroup(d, g, stamp)).totalTeens
         == Statistics(d).totalTeens + YouthGroupsPage.TeenTotal(g)
    ensures Statistics(Housing.AddYouthGroup(d, g, stamp)).totalChaperones
         == Statistics(d).totalChaperones + YouthGroupsPage.ChaperoneTotal(g)
  {
    var groups := Housing.AddYouthGroup(d, g, stamp).youthGroups;
    assert groups[..|groups| - 1] == d.youthGroups;
  }

  /** Deleting a group takes exactly its teens and chaperones off the
      totals; the room counts do not change. */
  lemma DeleteYouthGroupStatistics(d: Document, index: nat, stamp: string)
    requires index < |d.youthGroups|
    ensures Statistics(Housing.DeleteYouthGroup(d, index, stamp)).totalTeens
         == Statistics(d).totalTeens - YouthGroupsPage.TeenTotal(d.youthGroups[index])
    ensures Statistics(Housing.DeleteYouthGroup(d, index, stamp)).totalChaperones
         == Statistics(d).totalChaperones - YouthGroupsPage.ChaperoneTotal(d.youthGroups[index])
    ensures Statistics(Housing.DeleteYouthGroup(d, index, stamp)).totalRooms == Statistics(d).totalRooms
  {
    var s := d.youthGroups;
    var a, b := s[..index], s[index + 1..];
    assert s == a + [s[index]] + b;
    assert Housing.DeleteYouthGroup(d, index, stamp).youthGroups == a + b;
    SumConcat(a + [s[index]], b, Teens());
    SumConcat(a, [s[index]], Teens());
    SumConcat(a, b, Teens());
    SumConcat(a + [s[index]], b, Chaperones());
    SumConcat(a, [s[index]], Chaperones());
    SumConcat(a, b, Chaperones());
    assert [s[index]][..0] == [];
  }
}
