/** The host party (`$gameParty`) as plain state: inventory counts, gold,
    the experience of each member and the party's own quest ledger. The
    engine's clamping of counts and gold, and experience rates and levels,
    belong to the host and are not modelled: every grant is plain addition. */
module Party {
  import opened Common

  /** How many of `k` the inventory holds (`numItems`): 0 for an absent key. */
  function Count(items: map<ItemKey, int>, k: ItemKey): int
  {
    if k in items then items[k] else 0
  }

  /** `gainItem(item, amount)`: nothing for a missing record, otherwise the
      count of that one key moves by `amount`. */
  function AddItem(items: map<ItemKey, int>, k: Option<ItemKey>, amount: int): (r: map<ItemKey, int>)
    ensures k.None? ==> r == items
    ensures forall key :: Count(r, key) == Count(items, key) + (if k == Some(key) then amount else 0)
  {
    match k
    case None => items
    case Some(key) => items[key := Count(items, key) + amount]
  }

  /** The part of the party that quest rewards change, as a value. */
  datatype PartyState = PartyState(items: map<ItemKey, int>, gold: int, exp: seq<int>)

  class Party {
    var items: map<ItemKey, int>
    var gold: int
    /** Experience of each member, in `members()` order. */
    var exp: seq<int>
    /** `_activeQuests`: quest ids this party has been offered and accepted. */
    var activeQuests: set<string>

    constructor (items0: map<ItemKey, int>, gold0: int, exp0: seq<int>)
      ensures items == items0 && gold == gold0 && exp == exp0 && activeQuests == {}
    {
      items, gold, exp, activeQuests := items0, gold0, exp0, {};
    }

    function State(): PartyState
      reads this
    {
      PartyState(items, gold, exp)
    }

    function NumItems(k: ItemKey): int
      reads this
    {
      Count(items, k)
    }

    method GainItem(k: Option<ItemKey>, amount: int)
      modifies this
      ensures items == AddItem(old(items), k, amount)
      ensures gold == old(gold) && exp == old(exp) && activeQuests == old(activeQuests)
    {
      if k.Some? {
        items := items[k.value := Count(items, k.value) + amount];
      }
    }

    /** `loseItem(item, amount)` is `gainItem(item, -amount)`. */
    method LoseItem(k: Option<ItemKey>, amount: int)
      modifies this
      ensures items == AddItem(old(items), k, -amount)
      ensures gold == old(gold) && exp == old(exp) && activeQuests == old(activeQuests)
    {
      GainItem(k, -amount);
    }

    method GainGold(amount: int)
      modifies this
      ensures gold == old(gold) + amount
      ensures items == old(items) && exp == old(exp) && activeQuests == old(activeQuests)
    {
      gold := gold + amount;
    }

    /** `members()[member].gainExp(amount)`. */
    method GainExp(member: nat, amount: int)
      requires member < |exp|
      modifies this
      ensures exp == old(exp)[member := old(exp)[member] + amount]
      ensures items == old(items) && gold == old(gold) && activeQuests == old(activeQuests)
    {
      exp := exp[member := exp[member] + amount];
    }
  }
}
