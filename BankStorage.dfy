/** JosoBankStorageSystem.js: a storage box (`Game_SimpleItemStorage`) that
    keeps a count per item id and forgets an id whose count drops to zero or
    below, the save-file fallback that gives an empty box, and the two
    handlers of the storage scene that move one unit between the party and
    the box. The scene lists regular items only, so every id here is an id of
    the items database. */
module BankStorage {
  import opened Common
  import opened Party

  /** One line of `allItems()`: a stored id that has a record, and its count. */
  datatype StorageEntry = StorageEntry(item: int, qty: int)

  /** `_items[id] || 0`. */
  function Stored(items: map<int, int>, id: int): int
  {
    if id in items then items[id] else 0
  }

  /** Every stored count is positive. */
  predicate AllPositive(items: map<int, int>)
  {
    forall id :: id in items ==> items[id] > 0
  }

  /** `gainItem(item, amount)`: nothing for no item; otherwise the count of
      that one id moves by `amount` and the id is dropped when the count is no
      longer positive, so a box of positive counts stays one. */
  function Gain(items: map<int, int>, item: Option<int>, amount: int): (r: map<int, int>)
    ensures item.None? ==> r == items
    ensures item.Some? ==>
      && (item.value in r <==> Stored(items, item.value) + amount > 0)
      && Stored(r, item.value) == (if Stored(items, item.value) + amount > 0 then Stored(items, item.value) + amount else 0)
    ensures forall id :: (item.None? || id != item.value) ==> (id in r <==> id in items) && Stored(r, id) == Stored(items, id)
    ensures AllPositive(items) ==> AllPositive(r)
  {
    match item
    case None => items
    case Some(id) =>
      var n := Stored(items, id) + amount;
      if n <= 0 then items - {id} else items[id := n]
  }

  /** `m` is the least element of `s`. */
  predicate IsLeast(m: int, s: set<int>)
  {
    m in s && forall x :: x in s ==> m <= x
  }

  lemma {:induction false} HasLeast(s: set<int>)
    requires s != {}
    ensures exists m :: IsLeast(m, s)
    decreases |s|
  {
    assert exists y :: y in s by {
      if forall y :: y !in s {
        assert false;
      }
    }
    var y :| y in s;
    if s == {y} {
      assert IsLeast(y, s);
    } else {
      var t := s - {y};
      assert |t| == |s| - 1;
      HasLeast(t);
      var m :| IsLeast(m, t);
      var least := if y < m then y else m;
      forall x | x in s
        ensures least <= x
      {
        if x != y {
          assert x in t;
        }
      }
      assert IsLeast(least, s);
    }
  }

  /** The least element of a non-empty set of ids. */
  function MinOf(s: set<int>): (m: int)
    requires s != {}
    ensures IsLeast(m, s)
  {
    HasLeast(s);
    var m :| IsLeast(m, s);
    m
  }

  /** Integer keys in the order `Object.entries` visits them: ascending. */
  function SortedKeys(s: set<int>): (r: seq<int>)
    ensures forall x :: x in r <==> x in s
    ensures forall i, j :: 0 <= i < j < |r| ==> r[i] < r[j]
    decreases |s|
  {
    if s == {} then []
    else
      var m := MinOf(s);
      [m] + SortedKeys(s - {m})
  }

  function EntriesFor(items: map<int, int>, db: Database, ids: seq<int>): seq<StorageEntry>
    requires forall x :: x in ids ==> x in items
  {
    if ids == [] then []
    else (if ids[0] in db.items then [StorageEntry(ids[0], Stored(items, ids[0]))] else [])
         + EntriesFor(items, db, ids[1..])
  }

  /** `allItems()`: the stored ids with a record, ascending, with their counts. */
  function AllItems(items: map<int, int>, db: Database): seq<StorageEntry>
  {
    EntriesFor(items, db, SortedKeys(items.Keys))
  }

  lemma {:induction false} EntriesForContents(items: map<int, int>, db: Database, ids: seq<int>)
    requires forall x :: x in ids ==> x in items
    requires forall i, j :: 0 <= i < j < |ids| ==> ids[i] < ids[j]
    ensures var r := EntriesFor(items, db, ids);
      && (forall e :: e in r <==> e.item in ids && e.item in db.items && e.qty == items[e.item])
      && (forall i, j :: 0 <= i < j < |r| ==> r[i].item < r[j].item)
    decreases |ids|
  {
    if ids != [] {
      EntriesForContents(items, db, ids[1..]);
      var rest := EntriesFor(items, db, ids[1..]);
      assert forall e :: e in rest ==> ids[0] < e.item by {
        forall e | e in rest ensures ids[0] < e.item {
          var k :| 1 <= k < |ids| && ids[k] == e.item;
        }
      }
    }
  }

  /** One entry per stored id that has a database record, with its stored
      count, in strictly ascending id order; ids without a record are dropped. */
  lemma AllItemsContents(items: map<int, int>, db: Database)
    ensures var r := AllItems(items, db);
      && (forall e :: e in r <==> e.item in items && e.item in db.items && e.qty == items[e.item])
      && (forall i, j :: 0 <= i < j < |r| ==> r[i].item < r[j].item)
  {
    EntriesForContents(items, db, SortedKeys(items.Keys));
  }

  class SimpleItemStorage {
    var items: map<int, int>

    constructor ()
      ensures items == map[]
    {
      items := map[];
    }

    function NumItems(id: int): int
      reads this
    {
      Stored(items, id)
    }

    method GainItem(item: Option<int>, amount: int)
      modifies this
      ensures items == Gain(old(items), item, amount)
    {
      if item.None? {
        return;
      }
      var id := item.value;
      items := items[id := NumItems(id) + amount];
      if items[id] <= 0 {
        items := items - {id};
      }
    }
  }

  /** `extractSaveContents`: the saved box when the save has one, otherwise a
      new empty box. */
  method LoadStorage(saved: Option<map<int, int>>) returns (box: SimpleItemStorage)
    ensures fresh(box)
    ensures box.items == (if saved.Some? then saved.value else map[])
  {
    box := new SimpleItemStorage();
    if saved.Some? {
      box.items := saved.value;
    }
  }

  /** `onItemDeposit` for the inventory window's current item: when the party
      holds at least one, one unit leaves the party and enters the box. */
  method OnItemDeposit(party: Party, box: SimpleItemStorage, item: Option<int>)
    modifies party, box
    ensures item.None? || old(party.NumItems(ItemKey(Item, item.value))) <= 0 ==>
      party.items == old(party.items) && box.items == old(box.items)
    ensures item.Some? && old(party.NumItems(ItemKey(Item, item.value))) > 0 ==>
      && party.items == AddItem(old(party.items), Some(ItemKey(Item, item.value)), -1)
      && box.items == Gain(old(box.items), item, 1)
    ensures item.Some? && old(party.NumItems(ItemKey(Item, item.value))) > 0 && old(box.NumItems(item.value)) >= 0 ==>
      party.NumItems(ItemKey(Item, item.value)) + box.NumItems(item.value)
         == old(party.NumItems(ItemKey(Item, item.value))) + old(box.NumItems(item.value))
    ensures party.gold == old(party.gold) && party.exp == old(party.exp)
    ensures party.activeQuests == old(party.activeQuests)
  {
    if item.None? {
      return;
    }
    var k := ItemKey(Item, item.value);
    if party.NumItems(k) <= 0 {
      return;
    }
    party.LoseItem(Some(k), 1);
    box.GainItem(item, 1);
  }

  /** `onItemWithdraw` for the storage window's current entry: no entry or a
      non-positive count refuses (`ok` false, the buzzer); otherwise one unit
      leaves the box and enters the party. When the entry shows the box's own
      count, the party's and the box's counts add up to the same total. */
  method OnItemWithdraw(party: Party, box: SimpleItemStorage, entry: Option<StorageEntry>) returns (ok: bool)
    modifies party, box
    ensures ok <==> entry.Some? && entry.value.qty > 0
    ensures !ok ==> party.items == old(party.items) && box.items == old(box.items)
    ensures ok ==>
      && box.items == Gain(old(box.items), Some(entry.value.item), -1)
      && party.items == AddItem(old(party.items), Some(ItemKey(Item, entry.value.item)), 1)
    ensures ok && old(box.NumItems(entry.value.item)) >= 1 ==>
      party.NumItems(ItemKey(Item, entry.value.item)) + box.NumItems(entry.value.item)
      == old(party.NumItems(ItemKey(Item, entry.value.item))) + old(box.NumItems(entry.value.item))
    ensures party.gold == old(party.gold) && party.exp == old(party.exp)
    ensures party.activeQuests == old(party.activeQuests)
  {
    if entry.None? || entry.value.qty <= 0 {
      return false;
    }
    var id := entry.value.item;
    box.GainItem(Some(id), -1);
    party.GainItem(Some(ItemKey(Item, id)), 1);
    return true;
  }

  /** A deposit followed by a withdrawal of the same item, shown with the
      box's count, gives back the counts the party and the box started with. */
  lemma DepositThenWithdraw(partyItems: map<ItemKey, int>, items: map<int, int>, id: int)
    requires Count(partyItems, ItemKey(Item, id)) > 0
    requires AllPositive(items)
    ensures var p1 := AddItem(partyItems, Some(ItemKey(Item, id)), -1);
      var b1 := Gain(items, Some(id), 1);
      && Stored(b1, id) > 0
      && (forall k :: Count(AddItem(p1, Some(ItemKey(Item, id)), 1), k) == Count(partyItems, k))
      && Gain(b1, Some(id), -1) == items
  {
    var b1 := Gain(items, Some(id), 1);
    if id in items {
      assert b1 == items[id := items[id] + 1];
      assert Gain(b1, Some(id), -1) == items[id := items[id]];
    } else {
      assert Gain(b1, Some(id), -1) == items[id := 1] - {id};
    }
  }
}
