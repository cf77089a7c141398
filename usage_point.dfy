/**
 * `UsagePoint`: two private collections, its equipment and its end devices.
 * Each is a list created on first add and dropped again when it becomes empty
 * or is cleared; an add is refused when a different object with the same mRID
 * is already present.
 */
module UsagePoints {
  import opened Wrappers
  import opened IdentifiedObjects

  /** An `Equipment` or `EndDevice` object: its identity and its mRID. */
  datatype Member = Member(identity: nat, mRID: string)

  /** The `IllegalArgumentException` of `validateReference`: the mRID is taken by another object. */
  datatype CollectionError = DuplicateMRID(mRID: string)

  /** A lazily created list: null until the first add. */
  type Collection = Option<seq<Member>>

  function Items(list: Collection): seq<Member>
  {
    list.GetOr([])
  }

  /** `num…()`: the list size, or 0 when there is no list. */
  function Num(list: Collection): nat
  {
    |Items(list)|
  }

  /** `getByMRID`: the first element with the mRID. */
  function FirstWithMRID(s: seq<Member>, mRID: string): (r: Option<Member>)
    ensures r.Some? ==> r.value in s && r.value.mRID == mRID
    ensures r.None? <==> forall m :: m in s ==> m.mRID != mRID
  {
    if s == [] then None
    else if s[0].mRID == mRID then Some(s[0])
    else FirstWithMRID(s[1..], mRID)
  }

  /** `get…(mRID)`: null when there is no list. */
  function Get(list: Collection, mRID: string): Option<Member>
  {
    FirstWithMRID(Items(list), mRID)
  }

  predicate DistinctMRIDs(s: seq<Member>)
  {
    forall i, j :: 0 <= i < j < |s| ==> s[i].mRID != s[j].mRID
  }

  /** What the operations maintain: no empty list is kept, and no mRID appears twice. */
  predicate Valid(list: Collection)
  {
    (list.Some? ==> list.value != []) && DistinctMRIDs(Items(list))
  }

  /**
   * `add…`: `validateReference` finds the element with the same mRID; the
   * very same object is already present and nothing changes, a different one
   * is refused; otherwise the element is appended, creating the list.
   */
  function Add(list: Collection, x: Member): (r: Result<Collection, CollectionError>)
    requires Valid(list)
    ensures r.Failure? <==> exists m :: m in Items(list) && m.mRID == x.mRID && m != x
    ensures r.Failure? ==> r.error == DuplicateMRID(x.mRID)
    ensures r.Success? ==> Valid(r.value) && x in Items(r.value)
    ensures r.Success? && x in Items(list) ==> r.value == list
    ensures r.Success? && x !in Items(list) ==> Items(r.value) == Items(list) + [x]
  {
    match Get(list, x.mRID)
    case Some(existing) =>
      if existing == x then Success(list) else Failure(DuplicateMRID(x.mRID))
    case None =>
      var r := Some(Items(list) + [x]);
      assert Items(r) == Items(list) + [x];
      Success(r)
  }

  /** `MutableList.remove`: drops the first element equal to `x`. */
  function RemoveFirst(s: seq<Member>, x: Member): (r: seq<Member>)
    ensures x !in s ==> r == s
    ensures x in s ==> |r| == |s| - 1
    ensures multiset(r) == multiset(s) - multiset{x}
  {
    if s == [] then []
    else
      assert s == [s[0]] + s[1..];
      if s[0] == x then s[1..] else [s[0]] + RemoveFirst(s[1..], x)
  }

  /** `remove…(x)`: whether something was removed, and the list, dropped when it became empty. */
  function Remove(list: Collection, x: Option<Member>): (bool, Collection)
  {
    if list.None? || x.None? then (false, list)
    else
      var rest := RemoveFirst(list.value, x.value);
      (x.value in list.value, if rest == [] then None else Some(rest))
  }

  lemma TailDistinct(s: seq<Member>)
    requires s != [] && DistinctMRIDs(s)
    ensures DistinctMRIDs(s[1..])
    ensures forall m :: m in s[1..] ==> m.mRID != s[0].mRID
  {
    var tail := s[1..];
    forall i, j | 0 <= i < j < |tail| ensures tail[i].mRID != tail[j].mRID {
      assert tail[i] == s[i + 1] && tail[j] == s[j + 1];
    }
    forall m | m in tail ensures m.mRID != s[0].mRID {
      var k :| 0 <= k < |tail| && tail[k] == m;
      assert s[k + 1] == m;
    }
  }

  lemma ConsDistinct(h: Member, r: seq<Member>)
    requires DistinctMRIDs(r)
    requires forall m :: m in r ==> m.mRID != h.mRID
    ensures DistinctMRIDs([h] + r)
  {
    var full := [h] + r;
    forall i, j | 0 <= i < j < |full| ensures full[i].mRID != full[j].mRID {
      assert full[j] == r[j - 1];
      if i > 0 {
        assert full[i] == r[i - 1];
      }
    }
  }

  lemma RemoveFirstIsSubset(s: seq<Member>, x: Member)
    ensures forall m :: m in RemoveFirst(s, x) ==> m in s
  {
    forall m | m in RemoveFirst(s, x) ensures m in s {
      assert m in multiset(RemoveFirst(s, x));
    }
  }

  lemma {:induction false} RemoveFirstKeepsDistinct(s: seq<Member>, x: Member)
    requires DistinctMRIDs(s)
    ensures DistinctMRIDs(RemoveFirst(s, x))
    ensures x !in RemoveFirst(s, x)
  {
    if s != [] {
      TailDistinct(s);
      if s[0] != x {
        RemoveFirstKeepsDistinct(s[1..], x);
        RemoveFirstIsSubset(s[1..], x);
        ConsDistinct(s[0], RemoveFirst(s[1..], x));
      }
    }
  }

  /**
   * Removing reports true exactly when the object was present, the count
   * drops by one exactly then, the object is gone afterwards (so a second
   * removal reports false), and nothing else is lost.
   */
  lemma RemoveSpec(list: Collection, x: Option<Member>)
    requires Valid(list)
    ensures var (removed, after) := Remove(list, x);
      Valid(after) &&
      (removed <==> x.Some? && x.value in Items(list)) &&
      Num(after) == (if removed then Num(list) - 1 else Num(list)) &&
      (x.Some? ==> x.value !in Items(after)) &&
      (forall m :: m in Items(list) && Some(m) != x ==> m in Items(after))
  {
    if list.Some? && x.Some? {
      RemoveFirstKeepsDistinct(list.value, x.value);
      var rest := RemoveFirst(list.value, x.value);
      forall m | m in list.value && m != x.value ensures m in rest {
        assert multiset(rest)[m] == multiset(list.value)[m];
      }
    }
  }

  /** The first removal of a present object reports true, the second false. */
  lemma RemoveTwice(list: Collection, x: Member)
    requires Valid(list) && x in Items(list)
    ensures Remove(list, Some(x)).0
    ensures !Remove(Remove(list, Some(x)).1, Some(x)).0
  {
    RemoveSpec(list, Some(x));
  }

  /** `get(mRID)` finds the element added under that mRID, and only it. */
  lemma GetAfterAdd(list: Collection, x: Member)
    requires Valid(list) && Add(list, x).Success?
    ensures Get(Add(list, x).value, x.mRID) == Some(x)
  {
  }

  class UsagePoint {
    const mRID: string
    var equipment: Collection
    var endDevices: Collection

    /** `UsagePoint(mRID)`: both collections start absent. */
    constructor (mRID: string)
      ensures mRID != "" ==> this.mRID == mRID
      ensures this.mRID != ""
      ensures equipment == None && endDevices == None
      ensures NumEquipment() == 0 && NumEndDevices() == 0
      ensures Valid(equipment) && Valid(endDevices)
    {
      SomeRandomUuid();
      var generated :| IsRandomUuid(generated);
      this.mRID := InitialMRID(mRID, generated);
      equipment := None;
      endDevices := None;
    }

    /** `numEquipment()`: the list size, 0 exactly when there is no list. */
    function NumEquipment(): (n: nat)
      reads this
      ensures n == |Items(equipment)|
      ensures Valid(equipment) ==> (n == 0 <==> equipment.None?)
    {
      Num(equipment)
    }

    /** `getEquipment(mRID)`: an equipment with that mRID, null exactly when there is none. */
    function GetEquipment(mRID: string): (r: Option<Member>)
      reads this
      ensures r.Some? ==> r.value in Items(equipment) && r.value.mRID == mRID
      ensures r.None? <==> forall m :: m in Items(equipment) ==> m.mRID != mRID
    {
      Get(equipment, mRID)
    }

    /** `addEquipment`: the end devices are untouched. */
    method AddEquipment(e: Member) returns (r: Result<(), CollectionError>)
      requires Valid(equipment)
      modifies this`equipment
      ensures Add(old(equipment), e).Success? ==> r.Success? && equipment == Add(old(equipment), e).value
      ensures Add(old(equipment), e).Failure? ==> r == Failure(Add(old(equipment), e).error) && equipment == old(equipment)
      ensures Valid(equipment)
    {
      var existing := GetEquipment(e.mRID);
      if existing.Some? {
        if existing.value == e {
          return Success(());
        }
        return Failure(DuplicateMRID(e.mRID));
      }
      equipment := Some(Items(equipment) + [e]);
      r := Success(());
    }

    /** `removeEquipment`: the end devices are untouched. */
    method RemoveEquipment(e: Option<Member>) returns (removed: bool)
      requires Valid(equipment)
      modifies this`equipment
      ensures (removed, equipment) == Remove(old(equipment), e)
      ensures Valid(equipment)
    {
      RemoveSpec(equipment, e);
      var after := Remove(equipment, e);
      removed := after.0;
      equipment := after.1;
    }

    method ClearEquipment()
      modifies this`equipment
      ensures equipment == None && NumEquipment() == 0 && Valid(equipment)
    {
      equipment := None;
    }

    /** `numEndDevices()`: the list size, 0 exactly when there is no list. */
    function NumEndDevices(): (n: nat)
      reads this
      ensures n == |Items(endDevices)|
      ensures Valid(endDevices) ==> (n == 0 <==> endDevices.None?)
    {
      Num(endDevices)
    }

    /** `getEndDevice(mRID)`: an end device with that mRID, null exactly when there is none. */
    function GetEndDevice(mRID: string): (r: Option<Member>)
      reads this
      ensures r.Some? ==> r.value in Items(endDevices) && r.value.mRID == mRID
      ensures r.None? <==> forall m :: m in Items(endDevices) ==> m.mRID != mRID
    {
      Get(endDevices, mRID)
    }

    /** `addEndDevice`: the equipment is untouched. */
    method AddEndDevice(d: Member) returns (r: Result<(), CollectionError>)
      requires Valid(endDevices)
      modifies this`endDevices
      ensures Add(old(endDevices), d).Success? ==> r.Success? && endDevices == Add(old(endDevices), d).value
      ensures Add(old(endDevices), d).Failure? ==> r == Failure(Add(old(endDevices), d).error) && endDevices == old(endDevices)
      ensures Valid(endDevices)
    {
      var existing := GetEndDevice(d.mRID);
      if existing.Some? {
        if existing.value == d {
          return Success(());
        }
        return Failure(DuplicateMRID(d.mRID));
      }
      endDevices := Some(Items(endDevices) + [d]);
      r := Success(());
    }

    /** `removeEndDevice`: the equipment is untouched. */
    method RemoveEndDevice(d: Option<Member>) returns (removed: bool)
      requires Valid(endDevices)
      modifies this`endDevices
      ensures (removed, endDevices) == Remove(old(endDevices), d)
      ensures Valid(endDevices)
    {
      RemoveSpec(endDevices, d);
      var after := Remove(endDevices, d);
      removed := after.0;
      endDevices := after.1;
    }

    method ClearEndDevices()
      modifies this`endDevices
      ensures endDevices == None && NumEndDevices() == 0 && Valid(endDevices)
    {
      endDevices := None;
    }
  }
}
