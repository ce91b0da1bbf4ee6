/**
 * The fleet registry (Repositories/MongoDB/MongoCabRepository.cs): the
 * "Cabs" collection, seeded with ten cabs when empty, from which a booking
 * takes the first available cab of its type or, failing that, a new one.
 */
module CabRepo {
  import opened Models
  import opened Seqs

  predicate IsAvailable(c: Cab) { c.isAvailable }

  /** `c.Type == type && c.IsAvailable`, the filter of find-or-create and of GetCabsByType. */
  predicate FreeOfType(c: Cab, t: CabType) { c.cabType == t && c.isAvailable }

  /** How many cabs of type `t` the fleet holds. */
  function CountOfType(fleet: seq<Cab>, t: CabType): nat
  {
    |set i | 0 <= i < |fleet| && fleet[i].cabType == t|
  }

  /** The ten seed cabs, in the order they are inserted. */
  function InitialCabs(ids: seq<string>): (r: seq<Cab>)
    requires |ids| == 10
    ensures |r| == 10
    ensures forall i :: 0 <= i < 10 ==> r[i].id == ids[i] && r[i].isAvailable
  {
    [ Cab(ids[0], Mini, true), Cab(ids[1], Mini, true), Cab(ids[2], Mini, true),
      Cab(ids[3], Sedan, true), Cab(ids[4], Sedan, true), Cab(ids[5], Sedan, true),
      Cab(ids[6], SUV, true), Cab(ids[7], SUV, true),
      Cab(ids[8], Luxury, true), Cab(ids[9], Luxury, true) ]
  }

  lemma InitialCabsMix(ids: seq<string>)
    requires |ids| == 10
    ensures CountOfType(InitialCabs(ids), Mini) == 3
    ensures CountOfType(InitialCabs(ids), Sedan) == 3
    ensures CountOfType(InitialCabs(ids), SUV) == 2
    ensures CountOfType(InitialCabs(ids), Luxury) == 2
  {
    var r := InitialCabs(ids);
    assert (set i | 0 <= i < |r| && r[i].cabType == Mini) == {0, 1, 2};
    assert (set i | 0 <= i < |r| && r[i].cabType == Sedan) == {3, 4, 5};
    assert (set i | 0 <= i < |r| && r[i].cabType == SUV) == {6, 7};
    assert (set i | 0 <= i < |r| && r[i].cabType == Luxury) == {8, 9};
  }

  /**
   * SeedInitialCabs: an empty fleet becomes the ten seed cabs; a fleet that
   * holds anything is left as it is.
   */
  function Seeded(fleet: seq<Cab>, ids: seq<string>): (r: seq<Cab>)
    requires |ids| == 10
    ensures |fleet| > 0 ==> r == fleet
    ensures |fleet| == 0 ==> |r| == 10 && forall c :: c in r ==> c.isAvailable
    ensures |fleet| == 0 ==>
      CountOfType(r, Mini) == 3 && CountOfType(r, Sedan) == 3 &&
      CountOfType(r, SUV) == 2 && CountOfType(r, Luxury) == 2
    ensures (forall i, j :: 0 <= i < j < 10 ==> ids[i] != ids[j]) && UniqueKeys(fleet, CabKey) ==>
      UniqueKeys(r, CabKey)
  {
    if |fleet| == 0 then
      InitialCabsMix(ids);
      InitialCabs(ids)
    else
      fleet
  }

  /**
   * UpdateCabAvailabilityAsync: UpdateOne sets IsAvailable on the first cab
   * with the id, and on nothing else; an unknown id changes nothing.
   */
  function SetAvailability(fleet: seq<Cab>, cabId: string, isAvailable: bool): (r: seq<Cab>)
    ensures |r| == |fleet|
    ensures forall i :: 0 <= i < |fleet| ==>
      r[i].id == fleet[i].id && r[i].cabType == fleet[i].cabType
    ensures forall i :: 0 <= i < |fleet| && r[i] != fleet[i] ==>
      fleet[i].id == cabId && forall k :: 0 <= k < i ==> fleet[k].id != cabId
    ensures forall i :: 0 <= i < |fleet| && fleet[i].id == cabId && (forall k :: 0 <= k < i ==> fleet[k].id != cabId) ==>
      r[i].isAvailable == isAvailable
    ensures KeyFree(fleet, CabKey, cabId) ==> r == fleet
  {
    match IndexOfKey(fleet, CabKey, cabId)
    case None => fleet
    case Some(i) => fleet[i := fleet[i].(isAvailable := isAvailable)]
  }

  /** With unique ids, the cab looked up after the update carries the new flag. */
  lemma SetAvailabilityFound(fleet: seq<Cab>, cabId: string, isAvailable: bool)
    requires UniqueKeys(fleet, CabKey)
    ensures UniqueKeys(SetAvailability(fleet, cabId, isAvailable), CabKey)
    ensures FindByKey(SetAvailability(fleet, cabId, isAvailable), CabKey, cabId) ==
      match FindByKey(fleet, CabKey, cabId)
      case None => None
      case Some(c) => Some(c.(isAvailable := isAvailable))
  {
    var r := SetAvailability(fleet, cabId, isAvailable);
    assert forall i :: 0 <= i < |r| ==> CabKey(r[i]) == CabKey(fleet[i]);
    match IndexOfKey(fleet, CabKey, cabId)
    case None =>
    case Some(i) =>
      UniqueKeysFind(fleet, CabKey, i);
      UniqueKeysFind(r, CabKey, i);
  }

  /** What GetAvailableCabOrCreateNewAsync hands back, and the fleet it leaves. */
  datatype Allocation = Allocation(cab: Option<Cab>, fleet: seq<Cab>)

  /**
   * GetAvailableCabOrCreateNewAsync: an unknown type name gives no cab; else
   * the first available cab of the type, or a new available cab of the type
   * (id `newId`) appended to the fleet.
   */
  function FindOrCreate(fleet: seq<Cab>, cabType: string, newId: string): (a: Allocation)
    ensures ParseCabType(cabType).None? ==> a == Allocation(None, fleet)
    ensures ParseCabType(cabType).Some? ==>
      a.cab.Some? && a.cab.value.cabType == ParseCabType(cabType).value && a.cab.value.isAvailable
    ensures forall i ::
      (0 <= i < |fleet| && ParseCabType(cabType) == Some(fleet[i].cabType) && fleet[i].isAvailable &&
       forall k :: 0 <= k < i ==> !FreeOfType(fleet[k], fleet[i].cabType)) ==>
      a == Allocation(Some(fleet[i]), fleet)
    ensures forall t :: ParseCabType(cabType) == Some(t) && (forall c :: c in fleet ==> !FreeOfType(c, t)) ==>
      a == Allocation(Some(Cab(newId, t, true)), fleet + [Cab(newId, t, true)])
  {
    match ParseCabType(cabType)
    case None => Allocation(None, fleet)
    case Some(t) =>
      match First(fleet, (c: Cab) => FreeOfType(c, t))
      case Some(c) => Allocation(Some(c), fleet)
      case None => Allocation(Some(Cab(newId, t, true)), fleet + [Cab(newId, t, true)])
  }

  /**
   * The cab handed out is the one the registry holds under its id, and the
   * ids stay unique, as long as the id for a new cab is unused.
   */
  lemma FindOrCreateStored(fleet: seq<Cab>, cabType: string, newId: string)
    requires UniqueKeys(fleet, CabKey) && KeyFree(fleet, CabKey, newId)
    ensures UniqueKeys(FindOrCreate(fleet, cabType, newId).fleet, CabKey)
    ensures FindOrCreate(fleet, cabType, newId).cab.Some? ==>
      FindByKey(FindOrCreate(fleet, cabType, newId).fleet, CabKey, FindOrCreate(fleet, cabType, newId).cab.value.id) ==
      FindOrCreate(fleet, cabType, newId).cab
  {
    var a := FindOrCreate(fleet, cabType, newId);
    if a.cab.Some? {
      if a.fleet == fleet {
        var i :| 0 <= i < |fleet| && fleet[i] == a.cab.value;
        UniqueKeysFind(fleet, CabKey, i);
      } else {
        UniqueKeysAppend(fleet, CabKey, a.cab.value);
        UniqueKeysFind(a.fleet, CabKey, |fleet|);
      }
    }
  }

  /** The "Cabs" collection, in storage order. */
  class CabRepository {
    var cabs: seq<Cab>

    /** `Id` is the document's `_id`, so no two cabs share one. */
    ghost predicate Valid()
      reads this
    {
      UniqueKeys(cabs, CabKey)
    }

    /** The repository over an existing collection, seeded if that is empty. */
    constructor (existing: seq<Cab>, seedIds: seq<string>)
      requires UniqueKeys(existing, CabKey)
      requires |seedIds| == 10 && forall i, j :: 0 <= i < j < 10 ==> seedIds[i] != seedIds[j]
      ensures Valid() && cabs == Seeded(existing, seedIds)
    {
      cabs := existing;
      new;
      SeedInitialCabs(seedIds);
    }

    method SeedInitialCabs(ids: seq<string>)
      requires Valid()
      requires |ids| == 10 && forall i, j :: 0 <= i < j < 10 ==> ids[i] != ids[j]
      modifies this
      ensures Valid() && cabs == Seeded(old(cabs), ids)
    {
      if |cabs| == 0 {
        cabs := InitialCabs(ids);
      }
    }

    function GetById(id: string): (r: Option<Cab>)
      reads this
      ensures r.Some? ==> r.value in cabs && r.value.id == id
      ensures r.None? <==> forall c :: c in cabs ==> c.id != id
    {
      FindByKey(cabs, CabKey, id)
    }

    function GetAll(): (r: seq<Cab>)
      reads this
      ensures multiset(r) == multiset(cabs)
    {
      cabs
    }

    function Find(p: Cab -> bool): (r: seq<Cab>)
      reads this
      ensures forall c :: multiset(r)[c] == if p(c) then multiset(cabs)[c] else 0
    {
      Filter(cabs, p)
    }

    /** InsertOne; a duplicate `_id` is refused and stores nothing. */
    method Add(c: Cab) returns (ok: bool)
      requires Valid()
      modifies this
      ensures Valid()
      ensures ok <==> KeyFree(old(cabs), CabKey, c.id)
      ensures cabs == if ok then old(cabs) + [c] else old(cabs)
    {
      ok := FindByKey(cabs, CabKey, c.id).None?;
      if ok {
        UniqueKeysAppend(cabs, CabKey, c);
        cabs := cabs + [c];
      }
    }

    /** ReplaceOne by id. */
    method Update(c: Cab)
      requires Valid()
      modifies this
      ensures Valid() && cabs == ReplaceByKey(old(cabs), CabKey, c)
    {
      cabs := ReplaceByKey(cabs, CabKey, c);
    }

    /** DeleteOne by id. */
    method Delete(id: string)
      requires Valid()
      modifies this
      ensures Valid() && cabs == DeleteByKey(old(cabs), CabKey, id)
      ensures KeyFree(cabs, CabKey, id)
    {
      cabs := DeleteByKey(cabs, CabKey, id);
    }

    method UpdateCabAvailability(cabId: string, isAvailable: bool)
      requires Valid()
      modifies this
      ensures Valid() && cabs == SetAvailability(old(cabs), cabId, isAvailable)
      ensures GetById(cabId) ==
        match old(GetById(cabId))
        case None => None
        case Some(c) => Some(c.(isAvailable := isAvailable))
    {
      SetAvailabilityFound(cabs, cabId, isAvailable);
      cabs := SetAvailability(cabs, cabId, isAvailable);
    }

    function GetAvailableCabs(): (r: seq<Cab>)
      reads this
      ensures forall c :: multiset(r)[c] == if c.isAvailable then multiset(cabs)[c] else 0
    {
      Filter(cabs, IsAvailable)
    }

    /** The available cabs of the named type; none for a name that is not a cab type. */
    function GetCabsByType(cabType: string): (r: seq<Cab>)
      reads this
      ensures ParseCabType(cabType).None? ==> r == []
      ensures forall t, c :: ParseCabType(cabType) == Some(t) ==>
        multiset(r)[c] == if FreeOfType(c, t) then multiset(cabs)[c] else 0
    {
      match ParseCabType(cabType)
      case None => []
      case Some(t) => Filter(cabs, (c: Cab) => FreeOfType(c, t))
    }

    /** The fresh id stands for Guid.NewGuid(). */
    method GetAvailableCabOrCreateNew(cabType: string, newId: string) returns (r: Option<Cab>)
      requires Valid() && KeyFree(cabs, CabKey, newId)
      modifies this
      ensures Valid()
      ensures Allocation(r, cabs) == FindOrCreate(old(cabs), cabType, newId)
    {
      var parsed := ParseCabType(cabType);
      if parsed.None? {
        return None;
      }
      var t := parsed.value;
      var found := First(cabs, (c: Cab) => FreeOfType(c, t));
      if found.Some? {
        return found;
      }
      var newCab := Cab(newId, t, true);
      var ok := Add(newCab);
      r := Some(newCab);
    }
  }
}
