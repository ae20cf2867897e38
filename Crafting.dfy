/** JosoCraftingSystem_Core.js: the recipe catalog, the set of recipes the
    player has learned (`CraftingManager`), whether a recipe can be crafted,
    what crafting takes from and gives to the party (`Scene_Crafting.onCraft`),
    the recipe list of a workbench and the workbench titles. */
module Crafting {
  import opened Common
  import opened Party

  /** One ingredient line: `quantity` units of regular item `itemId`. */
  datatype Ingredient = Ingredient(itemId: int, quantity: int)

  /** What a recipe makes. An id of 0 stands for a missing one (falsy). */
  datatype CraftResult = CraftResult(itemId: int, weaponId: int, armorId: int, quantity: int)

  /** A catalog entry. `autoLearn` is false only when the entry says `false`;
      a missing flag reads as true, both for `autoLearn !== false` and for the
      constructor's `?? true`. */
  datatype Recipe = Recipe(id: int, name: string, rtype: string, description: string,
                           ingredients: seq<Ingredient>, result: CraftResult, autoLearn: bool)

  /** `RawCraftingRecipes.find(r => r.id === id)`: the first entry with that id. */
  function FindRecipe(recipes: seq<Recipe>, id: int): (r: Option<Recipe>)
    ensures r.None? <==> forall i :: 0 <= i < |recipes| ==> recipes[i].id != id
    ensures r.Some? ==> exists i :: 0 <= i < |recipes| && recipes[i] == r.value && r.value.id == id
                          && forall j :: 0 <= j < i ==> recipes[j].id != id
    decreases |recipes|
  {
    if recipes == [] then None
    else if recipes[0].id == id then Some(recipes[0])
    else
      var r := FindRecipe(recipes[1..], id);
      if r.Some? then
        ghost var i :| 0 <= i < |recipes| - 1 && recipes[1..][i] == r.value && r.value.id == id
                       && forall j :: 0 <= j < i ==> recipes[1..][j].id != id;
        assert recipes[i + 1] == r.value;
        r
      else r
  }

  /** `isRecipeLearned(id)`. */
  predicate IsRecipeLearned(recipes: seq<Recipe>, learned: seq<int>, id: int)
  {
    match FindRecipe(recipes, id)
    case None => false
    case Some(r) => r.autoLearn || id in learned
  }

  /** `_learnedRecipes.add(id)`: a `Set` keeps insertion order and no duplicates. */
  function Learn(learned: seq<int>, id: int): (r: seq<int>)
    ensures forall x :: x in r <==> x in learned || x == id
    ensures Distinct(learned) ==> Distinct(r)
    ensures id in learned ==> r == learned
  {
    if id in learned then learned else learned + [id]
  }

  /** `_learnedRecipes.delete(id)`: the others keep their order. */
  function Without(learned: seq<int>, id: int): (r: seq<int>)
    ensures forall x :: x in r <==> x in learned && x != id
    ensures |r| <= |learned|
    ensures Distinct(learned) ==> Distinct(r)
    decreases |learned|
  {
    if learned == [] then []
    else if learned[0] == id then Without(learned[1..], id)
    else
      var rest := Without(learned[1..], id);
      assert learned[0] !in rest || learned[0] in learned[1..];
      [learned[0]] + rest
  }

  predicate Distinct(s: seq<int>)
  {
    forall i, j :: 0 <= i < j < |s| ==> s[i] != s[j]
  }

  /** `$gameParty.numItems($dataItems[itemId]) || 0`: 0 when there is no record. */
  function Have(items: map<ItemKey, int>, db: Database, itemId: int): int
  {
    match Resolve(db, Item, itemId)
    case None => 0
    case Some(k) => Count(items, k)
  }

  /** `ingredients.every(ing => have >= ing.quantity)`: each line on its own. */
  predicate LinesMet(items: map<ItemKey, int>, db: Database, ings: seq<Ingredient>)
  {
    forall i :: 0 <= i < |ings| ==> Have(items, db, ings[i].itemId) >= ings[i].quantity
  }

  /** `canCraft()`. */
  predicate CanCraft(recipes: seq<Recipe>, learned: seq<int>, items: map<ItemKey, int>, db: Database, r: Recipe)
  {
    IsRecipeLearned(recipes, learned, r.id) && LinesMet(items, db, r.ingredients)
  }

  /** The `loseItem` calls of `onCraft`, in line order. */
  function Consume(items: map<ItemKey, int>, db: Database, ings: seq<Ingredient>): map<ItemKey, int>
    decreases |ings|
  {
    if ings == [] then items
    else Consume(AddItem(items, Resolve(db, Item, ings[0].itemId), -ings[0].quantity), db, ings[1..])
  }

  /** The first set id among `itemId`, `weaponId`, `armorId` decides what is
      made; a set id without a record makes nothing (the later ids are not
      tried). */
  function ResultKey(db: Database, res: CraftResult): (r: Option<ItemKey>)
    ensures res.itemId != 0 ==> r == Resolve(db, Item, res.itemId)
    ensures res.itemId == 0 && res.weaponId != 0 ==> r == Resolve(db, Weapon, res.weaponId)
    ensures res.itemId == 0 && res.weaponId == 0 && res.armorId != 0 ==> r == Resolve(db, Armor, res.armorId)
    ensures res.itemId == 0 && res.weaponId == 0 && res.armorId == 0 ==> r.None?
  {
    if res.itemId != 0 then Resolve(db, Item, res.itemId)
    else if res.weaponId != 0 then Resolve(db, Weapon, res.weaponId)
    else if res.armorId != 0 then Resolve(db, Armor, res.armorId)
    else None
  }

  /** Units of `k` the lines ask for: the lines naming item `k.id`, when `k`
      is a regular item with a record. */
  function Needed(db: Database, ings: seq<Ingredient>, k: ItemKey): int
    decreases |ings|
  {
    if ings == [] then 0
    else (if k.kind == Item && ings[0].itemId == k.id && k.id in db.items then ings[0].quantity else 0)
         + Needed(db, ings[1..], k)
  }

  /** Consuming the lines takes, from every key, the sum its lines ask for. */
  lemma {:induction false} ConsumeTakesNeeded(items: map<ItemKey, int>, db: Database, ings: seq<Ingredient>, k: ItemKey)
    ensures Count(Consume(items, db, ings), k) == Count(items, k) - Needed(db, ings, k)
    decreases |ings|
  {
    if ings != [] {
      var next := AddItem(items, Resolve(db, Item, ings[0].itemId), -ings[0].quantity);
      ConsumeTakesNeeded(next, db, ings[1..], k);
    }
  }

  /** Because the lines are checked one by one, two lines for the same item
      both pass against the same count: recipe lines asking for 1 and 1 of an
      item the party holds once can be crafted, though together they ask for 2. */
  lemma DuplicateLinesCheckedSeparately(db: Database)
    requires 5 in db.items
    ensures var items := map[ItemKey(Item, 5) := 1];
      var ings := [Ingredient(5, 1), Ingredient(5, 1)];
      && LinesMet(items, db, ings)
      && Needed(db, ings, ItemKey(Item, 5)) == 2 > Count(items, ItemKey(Item, 5))
  {
  }

  /** `recipe.result.quantity` of the result, if any. */
  function Grant(items: map<ItemKey, int>, db: Database, res: CraftResult): map<ItemKey, int>
  {
    AddItem(items, ResultKey(db, res), res.quantity)
  }

  /** The recipe list of a workbench: the learned recipes of its type, in
      catalog order. */
  function RecipeList(recipes: seq<Recipe>, all: seq<Recipe>, learned: seq<int>, wtype: string): (r: seq<Recipe>)
    ensures |r| <= |all|
    decreases |all|
  {
    if all == [] then []
    else
      (if all[0].rtype == wtype && IsRecipeLearned(recipes, learned, all[0].id) then [all[0]] else [])
      + RecipeList(recipes, all[1..], learned, wtype)
  }

  /** The workbench list holds exactly the learned recipes of its type. */
  lemma {:induction false} RecipeListMembers(recipes: seq<Recipe>, all: seq<Recipe>, learned: seq<int>, wtype: string)
    ensures forall x :: x in RecipeList(recipes, all, learned, wtype) <==>
      x in all && x.rtype == wtype && IsRecipeLearned(recipes, learned, x.id)
    decreases |all|
  {
    if all != [] {
      RecipeListMembers(recipes, all[1..], learned, wtype);
      assert all == [all[0]] + all[1..];
    }
  }

  /** `getWorkbenchTitle()`. */
  function WorkbenchTitle(wtype: string): (t: string)
    ensures t == "Crafting Menu" <==> wtype !in {"blacksmith", "cooking", "alchemy"}
  {
    match wtype
    case "blacksmith" => "Forja do Josoaldo"
    case "cooking" => "Cozinha do Josão"
    case "alchemy" => "Alquimia do Mestre Joso"
    case _ => "Crafting Menu"
  }

  class CraftingManager {
    /** `RawCraftingRecipes`. */
    const recipes: seq<Recipe>
    /** `_learnedRecipes`, in insertion order. */
    var learned: seq<int>

    constructor (recipes0: seq<Recipe>)
      ensures recipes == recipes0 && learned == []
    {
      recipes := recipes0;
      learned := [];
    }

    predicate Valid()
      reads this
    {
      Distinct(learned)
    }

    predicate IsLearned(id: int)
      reads this
    {
      IsRecipeLearned(recipes, learned, id)
    }

    method LearnRecipe(id: int)
      requires Valid()
      modifies this
      ensures Valid()
      ensures learned == Learn(old(learned), id)
    {
      if id !in learned {
        learned := learned + [id];
      }
    }

    method ForgetRecipe(id: int)
      requires Valid()
      modifies this
      ensures Valid()
      ensures learned == Without(old(learned), id)
    {
      learned := Without(learned, id);
    }

    /** `getLearnedRecipes()`: the learned ids, once each, in the order they
        were learned. */
    method GetLearnedRecipes() returns (ids: seq<int>)
      requires Valid()
      ensures Distinct(ids)
      ensures forall x :: x in ids <==> x in learned
      ensures ids == learned
    {
      ids := learned;
    }
  }

  /** A catalog recipe counts as learned after `learnRecipe`; `forgetRecipe`
      un-learns it only when it does not learn itself. An id outside the
      catalog is never learned, whatever the set holds. */
  lemma LearnForgetEffect(recipes: seq<Recipe>, learned: seq<int>, id: int)
    ensures FindRecipe(recipes, id).None? ==> !IsRecipeLearned(recipes, Learn(learned, id), id)
    ensures FindRecipe(recipes, id).Some? ==> IsRecipeLearned(recipes, Learn(learned, id), id)
    ensures FindRecipe(recipes, id).Some? ==>
      (IsRecipeLearned(recipes, Without(learned, id), id) <==> FindRecipe(recipes, id).value.autoLearn)
    ensures Learn(Learn(learned, id), id) == Learn(learned, id)
    ensures forall other :: other != id ==>
      (IsRecipeLearned(recipes, Learn(learned, id), other) <==> IsRecipeLearned(recipes, learned, other))
      && (IsRecipeLearned(recipes, Without(learned, id), other) <==> IsRecipeLearned(recipes, learned, other))
  {
  }

  /** `onCraft` for the list window's current recipe. Refused (`ok` false,
      the buzzer) when there is none or it cannot be crafted; otherwise every
      ingredient line is taken, then the result is given (`granted`) when it
      names a record. */
  method OnCraft(mgr: CraftingManager, party: Party, db: Database, recipe: Option<Recipe>)
    returns (ok: bool, granted: bool)
    modifies party
    ensures ok <==> recipe.Some? && CanCraft(mgr.recipes, mgr.learned, old(party.items), db, recipe.value)
    ensures !ok ==> party.items == old(party.items) && !granted
    ensures ok ==> granted == ResultKey(db, recipe.value.result).Some?
    ensures ok ==> party.items == Grant(Consume(old(party.items), db, recipe.value.ingredients), db, recipe.value.result)
    ensures party.gold == old(party.gold) && party.exp == old(party.exp)
    ensures party.activeQuests == old(party.activeQuests)
  {
    if recipe.None? || !CanCraft(mgr.recipes, mgr.learned, party.items, db, recipe.value) {
      return false, false;
    }
    var r := recipe.value;
    var i := 0;
    while i < |r.ingredients|
      invariant 0 <= i <= |r.ingredients|
      invariant Consume(party.items, db, r.ingredients[i..]) == Consume(old(party.items), db, r.ingredients)
      invariant party.gold == old(party.gold) && party.exp == old(party.exp)
      invariant party.activeQuests == old(party.activeQuests)
    {
      var ing := r.ingredients[i];
      assert r.ingredients[i..] == [ing] + r.ingredients[i + 1..];
      party.LoseItem(Resolve(db, Item, ing.itemId), ing.quantity);
      i := i + 1;
    }
    var resultItem: Option<ItemKey> := None;
    if r.result.itemId != 0 {
      resultItem := Resolve(db, Item, r.result.itemId);
    } else if r.result.weaponId != 0 {
      resultItem := Resolve(db, Weapon, r.result.weaponId);
    } else if r.result.armorId != 0 {
      resultItem := Resolve(db, Armor, r.result.armorId);
    }
    granted := resultItem.Some?;
    if granted {
      party.GainItem(resultItem, r.result.quantity);
    }
    ok := true;
  }

  /** A successful craft leaves every key short by what the lines ask for and
      adds the result quantity to the result key. */
  lemma CraftTotals(items: map<ItemKey, int>, db: Database, r: Recipe, k: ItemKey)
    ensures Count(Grant(Consume(items, db, r.ingredients), db, r.result), k)
      == Count(items, k) - Needed(db, r.ingredients, k)
         + (if ResultKey(db, r.result) == Some(k) then r.result.quantity else 0)
  {
    ConsumeTakesNeeded(items, db, r.ingredients, k);
  }

  /** With lines for distinct items, a craftable recipe leaves no count
      negative. */
  lemma {:induction false} NeededOfDistinctLines(db: Database, ings: seq<Ingredient>, k: ItemKey)
    requires forall i, j :: 0 <= i < j < |ings| ==> ings[i].itemId != ings[j].itemId
    ensures k.kind == Item && k.id in db.items && (exists i :: 0 <= i < |ings| && ings[i].itemId == k.id) ==>
      exists i :: 0 <= i < |ings| && ings[i].itemId == k.id && Needed(db, ings, k) == ings[i].quantity
    ensures (k.kind != Item || k.id !in db.items || forall i :: 0 <= i < |ings| ==> ings[i].itemId != k.id) ==>
      Needed(db, ings, k) == 0
    decreases |ings|
  {
    if ings != [] {
      NeededOfDistinctLines(db, ings[1..], k);
      if ings[0].itemId == k.id {
        assert forall i :: 1 <= i < |ings| ==> ings[i].itemId != k.id;
        assert forall i :: 0 <= i < |ings[1..]| ==> ings[1..][i].itemId != k.id;
      } else if k.kind == Item && k.id in db.items && (exists i :: 0 <= i < |ings| && ings[i].itemId == k.id) {
        var i :| 0 <= i < |ings| && ings[i].itemId == k.id;
        assert ings[1..][i - 1].itemId == k.id;
      }
    }
  }

  lemma CraftKeepsCountsNonNegative(items: map<ItemKey, int>, db: Database, r: Recipe, k: ItemKey)
    requires forall i, j :: 0 <= i < j < |r.ingredients| ==> r.ingredients[i].itemId != r.ingredients[j].itemId
    requires LinesMet(items, db, r.ingredients)
    requires Count(items, k) >= 0
    ensures Count(Consume(items, db, r.ingredients), k) >= 0
  {
    ConsumeTakesNeeded(items, db, r.ingredients, k);
    NeededOfDistinctLines(db, r.ingredients, k);
    if k.kind == Item && k.id in db.items && (exists i :: 0 <= i < |r.ingredients| && r.ingredients[i].itemId == k.id) {
      var i :| 0 <= i < |r.ingredients| && r.ingredients[i].itemId == k.id && Needed(db, r.ingredients, k) == r.ingredients[i].quantity;
      assert Resolve(db, Item, r.ingredients[i].itemId) == Some(k);
    }
  }

  // The shipped recipe catalog, used as a fixture.

  const StandardIngredients := [Ingredient(2, 4), Ingredient(3, 2), Ingredient(4, 1)]

  const ShippedRecipes := [
    Recipe(1, "Iron Sword", "blacksmith", "Basic sword forged from iron bars.",
           StandardIngredients, CraftResult(0, 2, 0, 1), true),
    Recipe(2, "Healing Potion", "blacksmith", "Restores some HP.",
           StandardIngredients, CraftResult(5, 0, 0, 1), false),
    Recipe(3, "Cooked Meat", "blacksmith", "Grilled meat for energy.",
           StandardIngredients, CraftResult(5, 0, 0, 1), true)
  ]

  /** Recipe 2 of the shipped catalog is the one that must be learned. */
  lemma ShippedLearning()
    ensures IsRecipeLearned(ShippedRecipes, [], 1) && IsRecipeLearned(ShippedRecipes, [], 3)
    ensures !IsRecipeLearned(ShippedRecipes, [], 2) && IsRecipeLearned(ShippedRecipes, [2], 2)
  {
    var rs := ShippedRecipes;
    assert FindRecipe(rs[2..], 3) == Some(rs[2]);
    assert FindRecipe(rs[1..], 2) == Some(rs[1]);
  }

  /** The blacksmith lists recipes 1 and 3 until recipe 2 is learned, then all
      three in catalog order. */
  lemma ShippedBlacksmithList()
    ensures RecipeList(ShippedRecipes, ShippedRecipes, [], "blacksmith") == [ShippedRecipes[0], ShippedRecipes[2]]
    ensures RecipeList(ShippedRecipes, ShippedRecipes, [2], "blacksmith") == ShippedRecipes
  {
    ShippedLearning();
    ShippedListFrom(ShippedRecipes, []);
    ShippedListFrom(ShippedRecipes, [2]);
  }

  /** The list over the shipped catalog, built from its last recipe back. */
  lemma ShippedListFrom(rs: seq<Recipe>, learned: seq<int>)
    requires rs == ShippedRecipes
    requires IsRecipeLearned(rs, learned, 1) && IsRecipeLearned(rs, learned, 3)
    ensures RecipeList(rs, rs[2..], learned, "blacksmith") == [rs[2]]
    ensures RecipeList(rs, rs[1..], learned, "blacksmith") ==
      if IsRecipeLearned(rs, learned, 2) then [rs[1], rs[2]] else [rs[2]]
    ensures RecipeList(rs, rs, learned, "blacksmith") ==
      if IsRecipeLearned(rs, learned, 2) then rs else [rs[0], rs[2]]
  {
    assert rs[2..][1..] == [];
    assert rs[1..][1..] == rs[2..];
    assert rs[1..][0] == rs[1] && rs[2..][0] == rs[2];
    assert rs == [rs[0], rs[1], rs[2]];
  }
}
