/** JosoCustomEquipSlots.js: the fourteen-slot equipment table of every
    actor, the slot names, the equip checks, the parameter-sum evaluation
    behind "optimize", the choice of the best item for a slot, the list of
    equippable items, and the two loops over all slots (`optimizeEquip`,
    `clearEquip`). The engine's `changeEquip` is modelled as storing the item
    in the slot. */
module EquipSlots {
  import opened Common
  import opened JsText

  /** `CUSTOM_EQUIP_SLOTS`: the equipment type of each slot. */
  const CustomEquipSlots: seq<nat> := [1, 1, 3, 4, 5, 6, 7, 8, 9, 10, 11, 12, 13, 14]

  /** `SLOT_NAMES`. */
  const SlotNames: seq<string> := ["Weapon 1", "Weapon 2 / Shield", "Head", "Necklace", "Shoulderpads",
                                   "Cloak", "Chest", "Bracelet", "Gloves", "Belt", "Legs", "Boots",
                                   "Ring", "Relic"]

  const SlotCount := 14

  /** A weapon or an armor: its equipment type and its eight parameters
      (`params`, which may be shorter; a missing entry counts as 0). */
  datatype Equipment = Equipment(kind: Kind, id: int, etypeId: int, params: seq<int>)

  /** `equipSlots()`: a new array holding the table, so that changing it
      leaves the table alone. */
  method EquipSlotsCopy() returns (a: array<nat>)
    ensures fresh(a)
    ensures a.Length == SlotCount && a[..] == CustomEquipSlots
  {
    a := new nat[SlotCount];
    var i := 0;
    while i < SlotCount
      invariant 0 <= i <= SlotCount
      invariant forall j :: 0 <= j < i ==> a[j] == CustomEquipSlots[j]
    {
      a[i] := CustomEquipSlots[i];
      i := i + 1;
    }
  }

  /** `slotName(index)`: `SLOT_NAMES[index] || "Unknown"`. */
  function SlotName(index: int): (r: string)
    ensures 0 <= index < SlotCount ==> r == SlotNames[index]
    ensures !(0 <= index < SlotCount) ==> r == "Unknown"
    ensures r != ""
  {
    if 0 <= index < |SlotNames| && SlotNames[index] != "" then SlotNames[index] else "Unknown"
  }

  /** `canEquip(item)`: no item is always allowed; otherwise the base check
      `base` of the engine decides. */
  function CanEquip(item: Option<Equipment>, base: Equipment -> bool): (r: bool)
    ensures item.None? ==> r
    ensures item.Some? ==> (r <==> base(item.value))
  {
    item.None? || base(item.value)
  }

  // ---------------------------------------------------------------------------
  // isEquipChangeOk
  // ---------------------------------------------------------------------------

  /** A JavaScript value that can index an object: a table entry or
      `undefined` (an index outside the table). */
  datatype JsValue = Num(n: nat) | Undefined

  /** `equipSlots()[slotId]`. */
  function SlotSymbol(slotId: int): (v: JsValue)
    ensures v.Num? <==> 0 <= slotId < SlotCount
  {
    if 0 <= slotId < |CustomEquipSlots| then Num(CustomEquipSlots[slotId]) else Undefined
  }

  /** The property name an object lookup uses for a value: the decimal text
      of a number, `"undefined"` for `undefined`. */
  function PropertyKey(v: JsValue): string
  {
    match v
    case Num(n) => Decimal(n)
    case Undefined => "undefined"
  }

  const EtypeIdMap: map<string, int> := map["weapon" := 1, "shield" := 2, "head" := 3, "body" := 4, "accessory" := 5]

  /** `etypeIdMap[key] || 5`. */
  function SlotEtypeId(key: string): int
  {
    if key in EtypeIdMap && EtypeIdMap[key] != 0 then EtypeIdMap[key] else 5
  }

  /** `isEquipChangeOk(slotId, item)`, as written. */
  function IsEquipChangeOk(slotId: int, item: Option<Equipment>): bool
  {
    item.None? || item.value.etypeId == SlotEtypeId(PropertyKey(SlotSymbol(slotId)))
  }

  /** The slot value is a number (or `undefined`), whose property name never
      matches one of the map's words, so every slot is compared with 5: the
      check holds exactly for no item or an item of equipment type 5. */
  lemma IsEquipChangeOkComparesWithFive(slotId: int, item: Option<Equipment>)
    ensures IsEquipChangeOk(slotId, item) <==> item.None? || item.value.etypeId == 5
  {
    var key := PropertyKey(SlotSymbol(slotId));
    if SlotSymbol(slotId).Num? {
      assert IsDigit(key[0]);
      assert key !in EtypeIdMap by {
        assert !IsDigit("weapon"[0]) && !IsDigit("shield"[0]) && !IsDigit("head"[0]);
        assert !IsDigit("body"[0]) && !IsDigit("accessory"[0]);
      }
    }
  }

  /** What the check is evidently meant to say: the item's equipment type is
      the slot's own. */
  function IsEquipChangeOkIntended(slotId: int, item: Option<Equipment>): (r: bool)
    ensures item.Some? && !(0 <= slotId < SlotCount) ==> !r
  {
    item.None? || (0 <= slotId < |CustomEquipSlots| && item.value.etypeId == CustomEquipSlots[slotId])
  }

  /** The intended check accepts, for every slot, exactly the items of that
      slot's type; the check as written refuses a weapon in the weapon slot
      and accepts a type-5 item there. */
  lemma EquipChangeCheckDiffers()
    ensures forall slotId, e :: 0 <= slotId < SlotCount ==>
      (IsEquipChangeOkIntended(slotId, Some(e)) <==> e.etypeId == CustomEquipSlots[slotId])
    ensures var sword := Equipment(Weapon, 1, 1, []);
      IsEquipChangeOkIntended(0, Some(sword)) && !IsEquipChangeOk(0, Some(sword))
    ensures var pads := Equipment(Armor, 1, 5, []);
      !IsEquipChangeOkIntended(0, Some(pads)) && IsEquipChangeOk(0, Some(pads))
  {
    IsEquipChangeOkComparesWithFive(0, Some(Equipment(Weapon, 1, 1, [])));
    IsEquipChangeOkComparesWithFive(0, Some(Equipment(Armor, 1, 5, [])));
  }

  // ---------------------------------------------------------------------------
  // evalEquipItem and bestEquipItem
  // ---------------------------------------------------------------------------

  /** `item.params[i] || 0`. */
  function ParamAt(params: seq<int>, i: nat): int
  {
    if i < |params| then params[i] else 0
  }

  /** The first `n` parameters added up. */
  function ParamSum(params: seq<int>, n: nat): int
  {
    if n == 0 then 0 else ParamSum(params, n - 1) + ParamAt(params, n - 1)
  }

  /** The value `evalEquipItem` gives an item. */
  function Eval(e: Equipment): int
  {
    ParamSum(e.params, 8)
  }

  method EvalEquipItem(item: Option<Equipment>) returns (value: int)
    ensures item.None? ==> value == 0
    ensures item.Some? ==> value == Eval(item.value)
  {
    value := 0;
    if item.None? {
      return;
    }
    var params := item.value.params;
    var i := 0;
    while i < 8
      invariant 0 <= i <= 8
      invariant value == ParamSum(params, i)
    {
      value := value + (if i < |params| then params[i] else 0);
      i := i + 1;
    }
  }

  /** Only the first eight parameters count; entries after them change nothing. */
  lemma {:induction false} ParamSumPrefix(p: seq<int>, q: seq<int>, n: nat)
    requires n <= |p|
    ensures ParamSum(p + q, n) == ParamSum(p, n)
  {
    if n > 0 {
      ParamSumPrefix(p, q, n - 1);
      assert (p + q)[n - 1] == p[n - 1];
    }
  }

  /** An item at least as strong in each of the eight parameters is worth at
      least as much. */
  lemma {:induction false} ParamSumMonotone(p: seq<int>, q: seq<int>, n: nat)
    requires forall i :: 0 <= i < n ==> ParamAt(p, i) <= ParamAt(q, i)
    ensures ParamSum(p, n) <= ParamSum(q, n)
  {
    if n > 0 {
      ParamSumMonotone(p, q, n - 1);
    }
  }

  /** `etypeId === value`: `undefined` equals no number. */
  predicate Matches(value: JsValue, etypeId: int)
  {
    value.Num? && value.n == etypeId
  }

  /** `.filter(item => item.etypeId === etypeId)`. */
  function OfType(items: seq<Equipment>, etype: JsValue): (r: seq<Equipment>)
    ensures |r| <= |items|
  {
    if items == [] then []
    else (if etype.Num? && items[0].etypeId == etype.n then [items[0]] else []) + OfType(items[1..], etype)
  }

  /** The filter keeps exactly the items of the type. */
  lemma {:induction false} OfTypeMembers(items: seq<Equipment>, etype: JsValue)
    ensures forall e :: e in OfType(items, etype) <==> e in items && Matches(etype, e.etypeId)
    decreases |items|
  {
    if items != [] {
      OfTypeMembers(items[1..], etype);
      assert items == [items[0]] + items[1..];
    }
  }

  /** The index of the first item of greatest value. */
  function BestIndex(items: seq<Equipment>): (k: nat)
    requires items != []
    ensures k < |items|
    ensures forall j :: 0 <= j < |items| ==> Eval(items[j]) <= Eval(items[k])
    ensures forall j :: 0 <= j < k ==> Eval(items[j]) < Eval(items[k])
    decreases |items|
  {
    if |items| == 1 then 0
    else
      var k := BestIndex(items[..|items| - 1]);
      if Eval(items[|items| - 1]) > Eval(items[k]) then |items| - 1 else k
  }

  /** One more candidate replaces the best only when it is worth strictly more. */
  lemma BestIndexSnoc(items: seq<Equipment>, i: nat)
    requires 1 <= i < |items|
    ensures BestIndex(items[..i + 1]) ==
      if Eval(items[i]) > Eval(items[BestIndex(items[..i])]) then i else BestIndex(items[..i])
  {
    assert items[..i + 1][..i] == items[..i];
  }

  /** What `bestEquipItem` picks among candidates: none when there are none,
      otherwise the first one of greatest value. */
  function BestOf(items: seq<Equipment>): Option<Equipment>
  {
    if items == [] then None else Some(items[BestIndex(items)])
  }

  /** `bestEquipItem(slotId)` given `equippableItems()`. */
  function BestEquipItemSpec(equippable: seq<Equipment>, slotId: int): Option<Equipment>
  {
    BestOf(OfType(equippable, SlotSymbol(slotId)))
  }

  /** The item chosen for a slot has the type stored at `slotId`, is among
      the equippable items, and no equippable item of that type is worth more.
      There is no choice only when no equippable item has that type. */
  lemma BestEquipItemChoice(equippable: seq<Equipment>, slotId: int)
    ensures var b := BestEquipItemSpec(equippable, slotId);
      && (b.None? <==> forall e :: e in equippable ==> !Matches(SlotSymbol(slotId), e.etypeId))
      && (b.Some? ==> b.value in equippable && Matches(SlotSymbol(slotId), b.value.etypeId)
                      && forall e :: e in equippable && Matches(SlotSymbol(slotId), e.etypeId) ==> Eval(e) <= Eval(b.value))
  {
    var c := OfType(equippable, SlotSymbol(slotId));
    OfTypeMembers(equippable, SlotSymbol(slotId));
    if c != [] {
      var k := BestIndex(c);
      assert c[k] in c;
      forall e | e in equippable && Matches(SlotSymbol(slotId), e.etypeId)
        ensures Eval(e) <= Eval(c[k])
      {
        var j :| 0 <= j < |c| && c[j] == e;
      }
    }
  }

  /** The running-best loop of `bestEquipItem`: a later item replaces the
      best only when it is worth strictly more. */
  method BestEquipItem(equippable: seq<Equipment>, slotId: int) returns (best: Option<Equipment>)
    ensures best == BestEquipItemSpec(equippable, slotId)
  {
    var items := OfType(equippable, SlotSymbol(slotId));
    if |items| == 0 {
      return None;
    }
    var k := 0;
    var bestValue := EvalEquipItem(Some(items[0]));
    var i := 1;
    while i < |items|
      invariant 1 <= i <= |items|
      invariant k == BestIndex(items[..i])
      invariant bestValue == Eval(items[k])
    {
      var value := EvalEquipItem(Some(items[i]));
      BestIndexSnoc(items, i);
      if value > bestValue {
        k := i;
        bestValue := value;
      }
      i := i + 1;
    }
    assert items[..|items|] == items;
    best := Some(items[k]);
  }

  // ---------------------------------------------------------------------------
  // equippableItems
  // ---------------------------------------------------------------------------

  /** The items that pass `canEquip`, in their order. */
  function Accepted(items: seq<Equipment>, base: Equipment -> bool): (r: seq<Equipment>)
    ensures |r| <= |items|
  {
    if items == [] then []
    else (if CanEquip(Some(items[0]), base) then [items[0]] else []) + Accepted(items[1..], base)
  }

  /** The filter keeps exactly the items the actor can equip. */
  lemma {:induction false} AcceptedMembers(items: seq<Equipment>, base: Equipment -> bool)
    ensures forall e :: e in Accepted(items, base) <==> e in items && base(e)
    decreases |items|
  {
    if items != [] {
      AcceptedMembers(items[1..], base);
      assert items == [items[0]] + items[1..];
    }
  }

  /** Filtering distributes over concatenation. */
  lemma {:induction false} AcceptedAppend(a: seq<Equipment>, b: seq<Equipment>, base: Equipment -> bool)
    ensures Accepted(a + b, base) == Accepted(a, base) + Accepted(b, base)
    decreases |a|
  {
    if a != [] {
      AcceptedAppend(a[1..], b, base);
      assert (a + b)[1..] == a[1..] + b;
    } else {
      assert a + b == b;
    }
  }

  /** The items accepted among the first `i + 1` are those among the first
      `i`, then the next one if the actor can equip it. */
  lemma AcceptedSnoc(items: seq<Equipment>, i: nat, base: Equipment -> bool)
    requires i < |items|
    ensures Accepted(items[..i + 1], base) ==
      Accepted(items[..i], base) + (if CanEquip(Some(items[i]), base) then [items[i]] else [])
  {
    assert items[..i + 1] == items[..i] + [items[i]];
    AcceptedAppend(items[..i], [items[i]], base);
    assert [items[i]][1..] == [];
  }

  /** `equippableItems()`: the party's weapons, then its armors, that the
      actor can equip, in the party's order. */
  method EquippableItems(weapons: seq<Equipment>, armors: seq<Equipment>, base: Equipment -> bool)
    returns (items: seq<Equipment>)
    ensures items == Accepted(weapons, base) + Accepted(armors, base)
  {
    items := [];
    var i := 0;
    while i < |weapons|
      invariant 0 <= i <= |weapons|
      invariant items == Accepted(weapons[..i], base)
    {
      AcceptedSnoc(weapons, i, base);
      if CanEquip(Some(weapons[i]), base) {
        items := items + [weapons[i]];
      }
      i := i + 1;
    }
    assert weapons[..i] == weapons;
    ghost var fromWeapons := items;
    var j := 0;
    while j < |armors|
      invariant 0 <= j <= |armors|
      invariant items == fromWeapons + Accepted(armors[..j], base)
    {
      AcceptedSnoc(armors, j, base);
      if CanEquip(Some(armors[j]), base) {
        items := items + [armors[j]];
      }
      j := j + 1;
    }
    assert armors[..j] == armors;
  }

  // ---------------------------------------------------------------------------
  // optimizeEquip and clearEquip
  // ---------------------------------------------------------------------------

  /** The item `optimizeEquip` puts in slot `i`, as written: it hands the
      slot's equipment type to `bestEquipItem`, which reads it as a slot index. */
  function OptimizedChoice(equippable: seq<Equipment>, i: nat): Option<Equipment>
    requires i < SlotCount
  {
    BestEquipItemSpec(equippable, CustomEquipSlots[i])
  }

  /** What slot `i` is evidently meant to get: the best item of its own type. */
  function IntendedChoice(equippable: seq<Equipment>, i: nat): Option<Equipment>
    requires i < SlotCount
  {
    BestOf(OfType(equippable, Num(CustomEquipSlots[i])))
  }

  /** As written, slots 2 to 12 are offered items of the next slot's type
      (the head slot is offered a necklace), and the relic slot never gets an item. */
  lemma OptimizedChoiceShifted(equippable: seq<Equipment>, i: nat)
    requires 2 <= i < SlotCount
    ensures i < 13 ==> OptimizedChoice(equippable, i) == IntendedChoice(equippable, i + 1)
    ensures i < 13 && OptimizedChoice(equippable, i).Some? ==>
      OptimizedChoice(equippable, i).value.etypeId == CustomEquipSlots[i] + 1
    ensures OptimizedChoice(equippable, 13) == None
  {
    BestEquipItemChoice(equippable, CustomEquipSlots[i]);
    BestEquipItemChoice(equippable, 14);
    if i < 13 {
      assert SlotSymbol(CustomEquipSlots[i]) == Num(CustomEquipSlots[i + 1]);
    }
  }

  /** The intended choice for every slot has the slot's type and is the
      first equippable item of greatest value of that type. */
  lemma IntendedChoiceCorrect(equippable: seq<Equipment>, i: nat)
    requires i < SlotCount
    ensures var b := IntendedChoice(equippable, i);
      && (b.None? <==> forall e :: e in equippable ==> e.etypeId != CustomEquipSlots[i])
      && (b.Some? ==> b.value in equippable && b.value.etypeId == CustomEquipSlots[i]
                      && forall e :: e in equippable && e.etypeId == CustomEquipSlots[i] ==> Eval(e) <= Eval(b.value))
  {
    BestEquipItemChoice(equippable, i);
    assert SlotSymbol(i) == Num(CustomEquipSlots[i]);
  }

  /** A helmet the party holds is never put on by `optimizeEquip` as written,
      though the intended choice picks it. */
  lemma HelmetExample()
    ensures var helm := Equipment(Armor, 1, 3, [0, 0, 0, 5]);
      OptimizedChoice([helm], 2) == None && IntendedChoice([helm], 2) == Some(helm)
  {
    var helm := Equipment(Armor, 1, 3, [0, 0, 0, 5]);
    assert OfType([helm], Num(4)) == [];
    assert OfType([helm], Num(3)) == [helm];
  }

  class Actor {
    /** `_equips`: what each of the fourteen slots holds. */
    var equips: seq<Option<Equipment>>

    constructor ()
      ensures equips == seq(SlotCount, _ => None)
    {
      equips := seq(SlotCount, _ => None);
    }

    predicate Valid()
      reads this
    {
      |equips| == SlotCount
    }

    /** The engine's `changeEquip(slotId, item)`, reduced to storing the item. */
    method ChangeEquip(slotId: nat, item: Option<Equipment>)
      requires slotId < |equips|
      modifies this
      ensures equips == old(equips)[slotId := item]
    {
      equips := equips[slotId := item];
    }

    /** `optimizeEquip()`, as written. */
    method OptimizeEquip(equippable: seq<Equipment>)
      requires Valid()
      modifies this
      ensures Valid()
      ensures forall i :: 0 <= i < SlotCount ==> equips[i] == OptimizedChoice(equippable, i)
    {
      var slots := EquipSlotsCopy();
      var i := 0;
      while i < slots.Length
        invariant 0 <= i <= SlotCount && |equips| == SlotCount
        invariant slots[..] == CustomEquipSlots
        invariant forall j :: 0 <= j < i ==> equips[j] == OptimizedChoice(equippable, j)
      {
        var best := BestEquipItem(equippable, slots[i]);
        ChangeEquip(i, best);
        i := i + 1;
      }
    }

    /** `optimizeEquip()` with each slot's own type handed to the search. */
    method OptimizeEquipBySlot(equippable: seq<Equipment>)
      requires Valid()
      modifies this
      ensures Valid()
      ensures forall i :: 0 <= i < SlotCount ==> equips[i] == IntendedChoice(equippable, i)
    {
      var i := 0;
      while i < SlotCount
        invariant 0 <= i <= SlotCount && |equips| == SlotCount
        invariant forall j :: 0 <= j < i ==> equips[j] == IntendedChoice(equippable, j)
      {
        var best := BestEquipItem(equippable, i);
        assert SlotSymbol(i) == Num(CustomEquipSlots[i]);
        ChangeEquip(i, best);
        i := i + 1;
      }
    }

    /** `clearEquip()`: every slot emptied. */
    method ClearEquip()
      requires Valid()
      modifies this
      ensures Valid()
      ensures forall i :: 0 <= i < SlotCount ==> equips[i].None?
    {
      var i := 0;
      while i < SlotCount
        invariant 0 <= i <= SlotCount && |equips| == SlotCount
        invariant forall j :: 0 <= j < i ==> equips[j].None?
      {
        ChangeEquip(i, None);
        i := i + 1;
      }
    }
  }
}
