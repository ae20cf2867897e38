/** The quest ledger of JosoQuestSystem_Core.js: a catalog of quest
    definitions, a per-save ledger of status and progress for every quest id,
    the three operations that change it (`addQuest`, `addProgress`,
    `completeQuest`), the reward grants of a completion, the read-only queries,
    the quest-log filter, the turn-in guard of the offer scene and the party's
    own "offered once" check. Each operation returns the sound effects it
    plays, in order. */
module QuestSystem {
  import opened Common
  import opened Party

  /** The statuses the ledger stores; an id that is not tracked has none. */
  datatype Status = Active | ReadyToTurnIn | Completed

  /** A reward line. `rtype` is the line's raw `type` string; `amount == 0`
      stands for a missing amount (both are falsy to `r.amount || 1`). */
  datatype Reward = Reward(rtype: string, id: int, amount: int)

  /** A quest definition. `required == 0`, `xp == 0` and `completeSe == ""`
      stand for missing fields, which the source reads the same way. */
  datatype QuestDef = QuestDef(name: string, description: string, required: int, xp: int,
                               rewards: seq<Reward>, completeSe: string)

  /** `QuestData`: definitions by quest id. */
  type Catalog = map<string, QuestDef>

  /** `$gameSystem._quests` and `$gameSystem._questProgress`. `order` is the
      key order of `_quests`, which for non-numeric ids is insertion order. */
  datatype Ledger = Ledger(status: map<string, Status>, progress: map<string, int>, order: seq<string>)

  const EmptyLedger := Ledger(map[], map[], [])

  const AcceptSe := "Chime2"
  const ReadySe := "Decision5"
  const BuzzerSe := "Buzzer1"

  // ---------------------------------------------------------------------------
  // Queries
  // ---------------------------------------------------------------------------

  /** `exists(id)`: the id has a definition. */
  predicate Exists(catalog: Catalog, id: string)
  {
    id in catalog
  }

  /** `(QuestData[id] && QuestData[id].required) || 1`. */
  function Goal(catalog: Catalog, id: string): int
  {
    if id in catalog && catalog[id].required != 0 then catalog[id].required else 1
  }

  function StatusText(s: Status): string
  {
    match s
    case Active => "active"
    case ReadyToTurnIn => "readyToTurnIn"
    case Completed => "completed"
  }

  /** `getStatus(id)`: the stored status, or `"none"` for an untracked id. */
  function GetStatus(l: Ledger, id: string): (r: string)
    ensures r == "none" <==> id !in l.status
    ensures id in l.status ==> r == StatusText(l.status[id])
  {
    if id in l.status then StatusText(l.status[id]) else "none"
  }

  predicate IsQuestActive(l: Ledger, id: string)
  {
    id in l.status && l.status[id] == Active
  }

  predicate IsQuestReadyToTurnIn(l: Ledger, id: string)
  {
    id in l.status && l.status[id] == ReadyToTurnIn
  }

  predicate IsQuestCompleted(l: Ledger, id: string)
  {
    id in l.status && l.status[id] == Completed
  }

  /** `getProgress(id)`: the stored progress, 0 when there is none. */
  function GetProgress(l: Ledger, id: string): int
  {
    if id in l.progress then l.progress[id] else 0
  }

  /** `getAllQuestIds()`: every tracked id, completed ones included. */
  function GetAllQuestIds(l: Ledger): seq<string>
  {
    l.order
  }

  /** The definitions the source's own comments promise: `required` is never negative. */
  ghost predicate WellFormed(catalog: Catalog)
  {
    forall id :: id in catalog ==> catalog[id].required >= 0
  }

  /** What every reachable ledger satisfies, whatever the catalog: `order`
      lists each tracked id once, exactly the tracked quests that are not
      completed have a progress entry, and a quest ready to turn in has
      reached its goal. */
  ghost predicate LedgerValid(catalog: Catalog, l: Ledger)
  {
    && (forall i, j :: 0 <= i < j < |l.order| ==> l.order[i] != l.order[j])
    && (forall id :: id in l.status <==> id in l.order)
    && (forall id :: id in l.status ==> id in catalog)
    && (forall id :: id in l.progress <==> id in l.status && l.status[id] != Completed)
    && (forall id :: IsQuestReadyToTurnIn(l, id) ==> GetProgress(l, id) >= Goal(catalog, id))
  }

  /** With a well-formed catalog, progress never passes the goal, and an
      active quest is still short of it. */
  ghost predicate Bounded(catalog: Catalog, l: Ledger)
  {
    && (forall id :: id in l.progress ==> l.progress[id] <= Goal(catalog, id))
    && (forall id :: IsQuestActive(l, id) ==> GetProgress(l, id) < Goal(catalog, id))
  }

  // ---------------------------------------------------------------------------
  // Transitions, as functions of the ledger
  // ---------------------------------------------------------------------------

  /** `addQuest(id)`. */
  function LedgerAddQuest(catalog: Catalog, l: Ledger, id: string): Ledger
  {
    if id !in catalog || id in l.status then l
    else Ledger(l.status[id := Active], l.progress[id := 0], l.order + [id])
  }

  function AddQuestSounds(catalog: Catalog, l: Ledger, id: string): seq<string>
  {
    if id in catalog && id !in l.status then [AcceptSe] else []
  }

  function Min(a: int, b: int): int
  {
    if a < b then a else b
  }

  /** `Math.min(current + value, max)`. */
  function Advanced(catalog: Catalog, l: Ledger, id: string, value: int): int
  {
    Min(GetProgress(l, id) + value, Goal(catalog, id))
  }

  /** The call moves an active quest to ready and plays the ready cue. */
  predicate BecomesReady(catalog: Catalog, l: Ledger, id: string, value: int)
  {
    IsQuestActive(l, id) && Advanced(catalog, l, id, value) >= Goal(catalog, id)
  }

  /** `addProgress(id, value)`. */
  function LedgerAddProgress(catalog: Catalog, l: Ledger, id: string, value: int): Ledger
  {
    if !IsQuestActive(l, id) then l
    else
      var updated := Advanced(catalog, l, id, value);
      Ledger(if updated >= Goal(catalog, id) then l.status[id := ReadyToTurnIn] else l.status,
             l.progress[id := updated], l.order)
  }

  function AddProgressSounds(catalog: Catalog, l: Ledger, id: string, value: int): seq<string>
  {
    if BecomesReady(catalog, l, id, value) then [ReadySe] else []
  }

  /** `completeQuest` acts from active and from ready to turn in. */
  predicate CanComplete(l: Ledger, id: string)
  {
    IsQuestActive(l, id) || IsQuestReadyToTurnIn(l, id)
  }

  /** `completeQuest(id)`, as far as the ledger goes. */
  function LedgerCompleteQuest(l: Ledger, id: string): Ledger
  {
    if CanComplete(l, id) then Ledger(l.status[id := Completed], l.progress - {id}, l.order) else l
  }

  /** `r.amount || 1` and `r.amount || 0`. */
  function AmountOr(amount: int, default: int): int
  {
    if amount != 0 then amount else default
  }

  /** `members().forEach(actor => actor.gainExp(xp))` when `xp > 0`: every
      member gains the whole `xp`, it is not divided among them. */
  function ApplyXp(exp: seq<int>, xp: int): (r: seq<int>)
    ensures |r| == |exp|
    ensures forall j :: 0 <= j < |exp| ==> r[j] == exp[j] + (if xp > 0 then xp else 0)
  {
    if xp > 0 then seq(|exp|, j requires 0 <= j < |exp| => exp[j] + xp) else exp
  }

  /** One reward line; an unknown `type` is skipped, as is an id with no record. */
  function ApplyReward(db: Database, s: PartyState, r: Reward): PartyState
  {
    match r.rtype
    case "item" => s.(items := AddItem(s.items, Resolve(db, Item, r.id), AmountOr(r.amount, 1)))
    case "weapon" => s.(items := AddItem(s.items, Resolve(db, Weapon, r.id), AmountOr(r.amount, 1)))
    case "armor" => s.(items := AddItem(s.items, Resolve(db, Armor, r.id), AmountOr(r.amount, 1)))
    case "gold" => s.(gold := s.gold + AmountOr(r.amount, 0))
    case _ => s
  }

  /** The reward lines, applied in list order. */
  function ApplyRewards(db: Database, s: PartyState, rs: seq<Reward>): PartyState
    decreases |rs|
  {
    if rs == [] then s else ApplyRewards(db, ApplyReward(db, s, rs[0]), rs[1..])
  }

  /** The party after `completeQuest(id)`: experience first, then the rewards;
      nothing when the call is refused or the definition is missing. */
  function CompletionGrants(catalog: Catalog, db: Database, l: Ledger, id: string, s: PartyState): PartyState
  {
    if CanComplete(l, id) && id in catalog then
      ApplyRewards(db, s.(exp := ApplyXp(s.exp, catalog[id].xp)), catalog[id].rewards)
    else s
  }

  function CompletionSounds(catalog: Catalog, l: Ledger, id: string): seq<string>
  {
    if CanComplete(l, id) && id in catalog && catalog[id].completeSe != "" then [catalog[id].completeSe] else []
  }

  // ---------------------------------------------------------------------------
  // The transitions keep the ledger invariants
  // ---------------------------------------------------------------------------

  lemma AddQuestKeepsValid(catalog: Catalog, l: Ledger, id: string)
    requires LedgerValid(catalog, l)
    ensures LedgerValid(catalog, LedgerAddQuest(catalog, l, id))
    ensures WellFormed(catalog) && Bounded(catalog, l) ==> Bounded(catalog, LedgerAddQuest(catalog, l, id))
  {
    if id in catalog && id !in l.status {
      AddQuestKeepsLedgerValid(catalog, l, id);
      if WellFormed(catalog) && Bounded(catalog, l) {
        AddQuestKeepsBounded(catalog, l, id);
      }
    }
  }

  lemma AddQuestKeepsLedgerValid(catalog: Catalog, l: Ledger, id: string)
    requires LedgerValid(catalog, l) && id in catalog && id !in l.status
    ensures LedgerValid(catalog, LedgerAddQuest(catalog, l, id))
  {
    var r := LedgerAddQuest(catalog, l, id);
    assert r.order == l.order + [id] && r.status == l.status[id := Active] && r.progress == l.progress[id := 0];
    AddQuestKeepsDistinct(l, id);
    assert forall x :: x in r.status <==> x in l.status || x == id;
    assert forall x :: x in r.progress <==> x in l.progress || x == id;
    assert forall x :: IsQuestReadyToTurnIn(r, x) ==> x != id && IsQuestReadyToTurnIn(l, x) && GetProgress(r, x) == GetProgress(l, x);
  }

  lemma AddQuestKeepsBounded(catalog: Catalog, l: Ledger, id: string)
    requires WellFormed(catalog) && Bounded(catalog, l) && id in catalog && id !in l.status
    ensures Bounded(catalog, LedgerAddQuest(catalog, l, id))
  {
    var r := LedgerAddQuest(catalog, l, id);
    assert r.status == l.status[id := Active] && r.progress == l.progress[id := 0];
    assert Goal(catalog, id) >= 1;
    assert forall other :: other != id ==> GetProgress(r, other) == GetProgress(l, other);
    assert forall other :: other != id && other in l.status ==> r.status[other] == l.status[other];
  }

  lemma AddQuestKeepsDistinct(l: Ledger, id: string)
    requires forall i, j :: 0 <= i < j < |l.order| ==> l.order[i] != l.order[j]
    requires id !in l.order
    ensures forall i, j :: 0 <= i < j < |l.order + [id]| ==> (l.order + [id])[i] != (l.order + [id])[j]
  {
    var o := l.order + [id];
    forall i, j | 0 <= i < j < |o| ensures o[i] != o[j] {
      if j == |l.order| {
        assert o[i] == l.order[i] && l.order[i] in l.order;
      }
    }
  }

  lemma AddProgressKeepsValid(catalog: Catalog, l: Ledger, id: string, value: int)
    requires LedgerValid(catalog, l)
    ensures LedgerValid(catalog, LedgerAddProgress(catalog, l, id, value))
    ensures Bounded(catalog, l) ==> Bounded(catalog, LedgerAddProgress(catalog, l, id, value))
  {
    AddProgressKeepsLedgerValid(catalog, l, id, value);
    if Bounded(catalog, l) {
      AddProgressKeepsBounded(catalog, l, id, value);
    }
  }

  lemma AddProgressKeepsLedgerValid(catalog: Catalog, l: Ledger, id: string, value: int)
    requires LedgerValid(catalog, l)
    ensures LedgerValid(catalog, LedgerAddProgress(catalog, l, id, value))
  {
    if IsQuestActive(l, id) {
      var r := LedgerAddProgress(catalog, l, id, value);
      assert r.order == l.order && r.status.Keys == l.status.Keys;
      assert r.progress.Keys == l.progress.Keys;
      assert forall other :: other != id ==> GetProgress(r, other) == GetProgress(l, other);
      assert forall other :: other != id && other in l.status ==> r.status[other] == l.status[other];
    }
  }

  lemma AddProgressKeepsBounded(catalog: Catalog, l: Ledger, id: string, value: int)
    requires Bounded(catalog, l)
    ensures Bounded(catalog, LedgerAddProgress(catalog, l, id, value))
  {
    if IsQuestActive(l, id) {
      var r := LedgerAddProgress(catalog, l, id, value);
      assert forall other :: other != id ==> GetProgress(r, other) == GetProgress(l, other);
      assert forall other :: other != id && other in l.status ==> r.status[other] == l.status[other];
    }
  }

  lemma CompleteQuestKeepsValid(catalog: Catalog, l: Ledger, id: string)
    requires LedgerValid(catalog, l)
    ensures LedgerValid(catalog, LedgerCompleteQuest(l, id))
    ensures Bounded(catalog, l) ==> Bounded(catalog, LedgerCompleteQuest(l, id))
  {
  }

  // ---------------------------------------------------------------------------
  // Entry points outside the manager
  // ---------------------------------------------------------------------------

  /** `Scene_QuestOffer.onTurnIn` calls `completeQuest` only for a known id
      whose progress has reached `required || 1`. */
  predicate TurnInAccepted(catalog: Catalog, l: Ledger, id: string)
  {
    id != "" && id in catalog && GetProgress(l, id) >= Goal(catalog, id)
  }

  function LedgerTurnIn(catalog: Catalog, l: Ledger, id: string): Ledger
  {
    if TurnInAccepted(catalog, l, id) then LedgerCompleteQuest(l, id) else l
  }

  function TurnInSounds(catalog: Catalog, l: Ledger, id: string): seq<string>
  {
    if TurnInAccepted(catalog, l, id) then CompletionSounds(catalog, l, id)
    else if id != "" && id in catalog then [BuzzerSe]
    else []
  }

  /** `Game_Party.addQuest(id)`: the party remembers the id and forwards it to
      the manager only the first time it sees it. */
  function PartyAddQuest(catalog: Catalog, seen: set<string>, l: Ledger, id: string): (set<string>, Ledger)
  {
    if id in seen then (seen, l) else (seen + {id}, LedgerAddQuest(catalog, l, id))
  }

  /** `Window_QuestList.refresh`: tracked ids, in ledger order, whose status
      reads `"active"` or `"readyToTurnIn"`. */
  function QuestListIds(l: Ledger): seq<string>
  {
    ListFilter(l, l.order)
  }

  predicate Listed(l: Ledger, id: string)
  {
    GetStatus(l, id) == "active" || GetStatus(l, id) == "readyToTurnIn"
  }

  function ListFilter(l: Ledger, ids: seq<string>): (r: seq<string>)
    ensures |r| <= |ids|
    ensures forall id :: id in r <==> id in ids && Listed(l, id)
  {
    if ids == [] then []
    else (if Listed(l, ids[0]) then [ids[0]] else []) + ListFilter(l, ids[1..])
  }

  // ---------------------------------------------------------------------------
  // The manager, updating its two dictionaries in place
  // ---------------------------------------------------------------------------

  class QuestManager {
    const catalog: Catalog
    var status: map<string, Status>
    var progress: map<string, int>
    var order: seq<string>

    function State(): Ledger
      reads this`status, this`progress, this`order
    {
      Ledger(status, progress, order)
    }

    ghost predicate Valid()
      reads this`status, this`progress, this`order
    {
      && LedgerValid(catalog, State())
      && (WellFormed(catalog) ==> Bounded(catalog, State()))
    }

    /** `loadData()` on a save without quest data: both dictionaries empty. */
    constructor (catalog0: Catalog)
      ensures Valid()
      ensures catalog == catalog0 && State() == EmptyLedger
    {
      catalog := catalog0;
      status, progress, order := map[], map[], [];
    }

    /** `addQuest(id)`; `played` lists the sound effects it plays. */
    method AddQuest(id: string) returns (played: seq<string>)
      requires Valid()
      modifies this
      ensures Valid()
      ensures State() == LedgerAddQuest(catalog, old(State()), id)
      ensures played == AddQuestSounds(catalog, old(State()), id)
    {
      played := [];
      AddQuestKeepsValid(catalog, State(), id);
      if id !in catalog {
        return;
      }
      if id !in status {
        status := status[id := Active];
        progress := progress[id := 0];
        order := order + [id];
        played := [AcceptSe];
      }
    }

    method AddProgress(id: string, value: int := 1) returns (played: seq<string>)
      requires Valid()
      modifies this
      ensures Valid()
      ensures State() == LedgerAddProgress(catalog, old(State()), id, value)
      ensures played == AddProgressSounds(catalog, old(State()), id, value)
    {
      played := [];
      ghost var l0 := State();
      AddProgressKeepsValid(catalog, l0, id, value);
      if !(id in status && status[id] == Active) {
        return;
      }
      var current := GetProgress(State(), id);
      var max := Goal(catalog, id);
      var updated := Min(current + value, max);
      assert updated == Advanced(catalog, l0, id, value);
      progress := progress[id := updated];
      if updated >= max {
        if status[id] != ReadyToTurnIn {
          status := status[id := ReadyToTurnIn];
          played := [ReadySe];
        }
      }
      assert State() == LedgerAddProgress(catalog, l0, id, value);
    }

    method CompleteQuest(party: Party, db: Database, id: string) returns (played: seq<string>)
      requires Valid()
      modifies this, party
      ensures Valid()
      ensures State() == LedgerCompleteQuest(old(State()), id)
      ensures party.State() == CompletionGrants(catalog, db, old(State()), id, old(party.State()))
      ensures party.activeQuests == old(party.activeQuests)
      ensures played == CompletionSounds(catalog, old(State()), id)
    {
      played := [];
      ghost var l0 := State();
      CompleteQuestKeepsValid(catalog, l0, id);
      if (id in status && status[id] == Active) || (id in status && status[id] == ReadyToTurnIn) {
        status := status[id := Completed];
        progress := progress - {id};
        assert State() == LedgerCompleteQuest(l0, id);
        if id in catalog {
          var quest := catalog[id];
          GrantCompletion(party, db, quest);
          if quest.completeSe != "" {
            played := [quest.completeSe];
          }
        }
      }
    }

    /** `Scene_QuestOffer.onTurnIn` for the scene's current quest id. */
    method TurnIn(party: Party, db: Database, id: string) returns (played: seq<string>)
      requires Valid()
      modifies this, party
      ensures Valid()
      ensures State() == LedgerTurnIn(catalog, old(State()), id)
      ensures party.State() ==
        (if TurnInAccepted(catalog, old(State()), id)
         then CompletionGrants(catalog, db, old(State()), id, old(party.State()))
         else old(party.State()))
      ensures party.activeQuests == old(party.activeQuests)
      ensures played == TurnInSounds(catalog, old(State()), id)
    {
      played := [];
      if id == "" {
        return;
      }
      if id !in catalog {
        return;
      }
      var current := GetProgress(State(), id);
      var required := Goal(catalog, id);
      if current >= required {
        played := CompleteQuest(party, db, id);
      } else {
        played := [BuzzerSe];
      }
    }
  }

  /** The grants of `completeQuest`: the experience, when the quest gives
      any, then the reward lines. */
  method GrantCompletion(party: Party, db: Database, quest: QuestDef)
    modifies party
    ensures party.State() == ApplyRewards(db, old(party.State()).(exp := ApplyXp(old(party.exp), quest.xp)), quest.rewards)
    ensures party.activeQuests == old(party.activeQuests)
  {
    var xp := quest.xp;
    if xp > 0 {
      GrantXp(party, xp);
    }
    GrantRewards(party, db, quest.rewards);
  }

  /** Every member gains the full `xp`. */
  method GrantXp(party: Party, xp: int)
    requires xp > 0
    modifies party
    ensures party.exp == ApplyXp(old(party.exp), xp)
    ensures party.items == old(party.items) && party.gold == old(party.gold)
    ensures party.activeQuests == old(party.activeQuests)
  {
    ghost var e0 := party.exp;
    var i := 0;
    while i < |party.exp|
      invariant 0 <= i <= |party.exp| == |e0|
      invariant party.exp == seq(|e0|, j requires 0 <= j < |e0| => if j < i then e0[j] + xp else e0[j])
      invariant party.items == old(party.items) && party.gold == old(party.gold)
      invariant party.activeQuests == old(party.activeQuests)
    {
      party.GainExp(i, xp);
      i := i + 1;
    }
  }

  /** The `rewards.forEach` loop. */
  method GrantRewards(party: Party, db: Database, rewards: seq<Reward>)
    modifies party
    ensures party.State() == ApplyRewards(db, old(party.State()), rewards)
    ensures party.activeQuests == old(party.activeQuests)
  {
    var k := 0;
    while k < |rewards|
      invariant 0 <= k <= |rewards|
      invariant ApplyRewards(db, party.State(), rewards[k..]) == ApplyRewards(db, old(party.State()), rewards)
      invariant party.activeQuests == old(party.activeQuests)
    {
      var r := rewards[k];
      assert rewards[k..] == [r] + rewards[k + 1..];
      match r.rtype {
        case "item" => party.GainItem(Resolve(db, Item, r.id), AmountOr(r.amount, 1));
        case "weapon" => party.GainItem(Resolve(db, Weapon, r.id), AmountOr(r.amount, 1));
        case "armor" => party.GainItem(Resolve(db, Armor, r.id), AmountOr(r.amount, 1));
        case "gold" => party.GainGold(AmountOr(r.amount, 0));
        case _ =>
      }
      k := k + 1;
    }
  }

  /** `Game_Party.addQuest(id)`. */
  method PartyAddQuestTo(party: Party, qm: QuestManager, id: string) returns (played: seq<string>)
    requires qm.Valid()
    modifies party, qm
    ensures qm.Valid()
    ensures (party.activeQuests, qm.State()) ==
            PartyAddQuest(qm.catalog, old(party.activeQuests), old(qm.State()), id)
    ensures played == (if id in old(party.activeQuests) then [] else AddQuestSounds(qm.catalog, old(qm.State()), id))
    ensures party.State() == old(party.State())
  {
    played := [];
    if id !in party.activeQuests {
      party.activeQuests := party.activeQuests + {id};
      played := qm.AddQuest(id);
    }
  }

  // ---------------------------------------------------------------------------
  // What one call does, as the queries see it
  // ---------------------------------------------------------------------------

  /** `addQuest` starts a known, untracked quest as active with progress 0 at
      the end of the id list; an unknown id, or one already tracked (completed
      ones included), is left alone, so a second call changes nothing. */
  lemma AddQuestEffect(catalog: Catalog, l: Ledger, id: string)
    ensures var r := LedgerAddQuest(catalog, l, id);
      && (id in catalog && id !in l.status ==>
            GetStatus(r, id) == "active" && GetProgress(r, id) == 0 && r.order == l.order + [id]
            && AddQuestSounds(catalog, l, id) == [AcceptSe])
      && (id !in catalog || id in l.status ==> r == l && AddQuestSounds(catalog, l, id) == [])
      && (forall other :: other != id ==>
            GetStatus(r, other) == GetStatus(l, other) && GetProgress(r, other) == GetProgress(l, other))
      && LedgerAddQuest(catalog, r, id) == r
  {
  }

  /** `addProgress` moves only an active quest: its progress becomes
      `min(old + value, required || 1)`, it turns ready to turn in exactly
      when that reaches the goal, and the ready cue plays exactly then. */
  lemma AddProgressEffect(catalog: Catalog, l: Ledger, id: string, value: int)
    ensures var r := LedgerAddProgress(catalog, l, id, value);
      && (!IsQuestActive(l, id) ==> r == l && AddProgressSounds(catalog, l, id, value) == [])
      && (IsQuestActive(l, id) ==>
            && GetProgress(r, id) == Min(GetProgress(l, id) + value, Goal(catalog, id))
            && GetProgress(r, id) <= Goal(catalog, id)
            && (IsQuestReadyToTurnIn(r, id) <==> GetProgress(r, id) >= Goal(catalog, id))
            && (IsQuestActive(r, id) <==> GetProgress(r, id) < Goal(catalog, id))
            && (AddProgressSounds(catalog, l, id, value) == [ReadySe] <==> IsQuestReadyToTurnIn(r, id)))
      && (forall other :: other != id ==>
            GetStatus(r, other) == GetStatus(l, other) && GetProgress(r, other) == GetProgress(l, other))
      && r.order == l.order
  {
  }

  /** `completeQuest` acts from active or ready to turn in: the quest becomes
      completed and its progress reads 0 again. Otherwise, and on any second
      call, neither the ledger nor the party changes. */
  lemma CompleteQuestEffect(catalog: Catalog, db: Database, l: Ledger, id: string, s: PartyState)
    ensures var r := LedgerCompleteQuest(l, id);
      && (CanComplete(l, id) ==> IsQuestCompleted(r, id) && GetProgress(r, id) == 0)
      && (!CanComplete(l, id) ==> r == l && CompletionGrants(catalog, db, l, id, s) == s
                                  && CompletionSounds(catalog, l, id) == [])
      && (forall other :: other != id ==>
            GetStatus(r, other) == GetStatus(l, other) && GetProgress(r, other) == GetProgress(l, other))
      && r.order == l.order
      && LedgerCompleteQuest(r, id) == r
      && CompletionGrants(catalog, db, r, id, s) == s
  {
  }

  /** With the ledger invariants, the turn-in button completes a quest exactly
      when it is ready to turn in (and the id is not empty). An active quest
      is refused, because its progress is still short of the goal. */
  lemma TurnInCompletesOnlyReady(catalog: Catalog, l: Ledger, id: string)
    requires LedgerValid(catalog, l) && WellFormed(catalog) && Bounded(catalog, l)
    ensures LedgerTurnIn(catalog, l, id) != l <==> id != "" && IsQuestReadyToTurnIn(l, id)
    ensures id != "" && IsQuestReadyToTurnIn(l, id) ==> IsQuestCompleted(LedgerTurnIn(catalog, l, id), id)
    ensures IsQuestActive(l, id) ==> !TurnInAccepted(catalog, l, id)
  {
    if IsQuestReadyToTurnIn(l, id) {
      assert LedgerTurnIn(catalog, l, id).status[id] == Completed || id == "";
    }
  }

  // ---------------------------------------------------------------------------
  // What a completion grants
  // ---------------------------------------------------------------------------

  /** The inventory kind a reward `type` names, if any. */
  function RewardKind(rtype: string): Option<Kind>
  {
    if rtype == "item" then Some(Item)
    else if rtype == "weapon" then Some(Weapon)
    else if rtype == "armor" then Some(Armor)
    else None
  }

  /** Gold one line grants. */
  function GoldOf(r: Reward): int
  {
    if r.rtype == "gold" then AmountOr(r.amount, 0) else 0
  }

  /** Units of `k` one line grants: its amount (1 when missing) when the line
      names `k` and `k` has a database record. */
  function ItemsOf(db: Database, r: Reward, k: ItemKey): int
  {
    if RewardKind(r.rtype) == Some(k.kind) && r.id == k.id && k.id in Records(db, k.kind)
    then AmountOr(r.amount, 1) else 0
  }

  function GoldTotal(rs: seq<Reward>): int
  {
    if rs == [] then 0 else GoldOf(rs[0]) + GoldTotal(rs[1..])
  }

  function ItemTotal(db: Database, rs: seq<Reward>, k: ItemKey): int
  {
    if rs == [] then 0 else ItemsOf(db, rs[0], k) + ItemTotal(db, rs[1..], k)
  }

  lemma ApplyRewardAmounts(db: Database, s: PartyState, r: Reward)
    ensures ApplyReward(db, s, r).gold == s.gold + GoldOf(r)
    ensures ApplyReward(db, s, r).exp == s.exp
    ensures forall k :: Count(ApplyReward(db, s, r).items, k) == Count(s.items, k) + ItemsOf(db, r, k)
  {
  }

  /** The reward lines together grant the sum of their gold and, for every
      inventory key, the sum of the units that name it; experience is not
      touched. */
  lemma {:induction false} ApplyRewardsTotals(db: Database, s: PartyState, rs: seq<Reward>)
    ensures ApplyRewards(db, s, rs).gold == s.gold + GoldTotal(rs)
    ensures ApplyRewards(db, s, rs).exp == s.exp
    ensures forall k :: Count(ApplyRewards(db, s, rs).items, k) == Count(s.items, k) + ItemTotal(db, rs, k)
    decreases |rs|
  {
    if rs != [] {
      ApplyRewardAmounts(db, s, rs[0]);
      ApplyRewardsTotals(db, ApplyReward(db, s, rs[0]), rs[1..]);
    }
  }

  function Sum(e: seq<int>): int
  {
    if e == [] then 0 else e[0] + Sum(e[1..])
  }

  /** The party as a whole gains `xp` once per member. */
  lemma {:induction false} ApplyXpTotal(exp: seq<int>, xp: int)
    ensures Sum(ApplyXp(exp, xp)) == Sum(exp) + |exp| * (if xp > 0 then xp else 0)
    decreases |exp|
  {
    if exp != [] {
      assert ApplyXp(exp, xp)[1..] == ApplyXp(exp[1..], xp);
      ApplyXpTotal(exp[1..], xp);
    }
  }

  /** A granted completion: every member gains the quest's `xp`, the gold is
      the sum of the gold lines, every item count grows by its lines' units. */
  lemma CompletionGrantsTotals(catalog: Catalog, db: Database, l: Ledger, id: string, s: PartyState)
    requires CanComplete(l, id) && id in catalog
    ensures var g := CompletionGrants(catalog, db, l, id, s);
      && g.exp == ApplyXp(s.exp, catalog[id].xp)
      && g.gold == s.gold + GoldTotal(catalog[id].rewards)
      && forall k :: Count(g.items, k) == Count(s.items, k) + ItemTotal(db, catalog[id].rewards, k)
  {
    ApplyRewardsTotals(db, s.(exp := ApplyXp(s.exp, catalog[id].xp)), catalog[id].rewards);
  }

  // ---------------------------------------------------------------------------
  // Sequences of calls: the ready cue and the rewards happen at most once
  // ---------------------------------------------------------------------------

  /** A call on the ledger from any of the entry points. */
  datatype Op = AddOp(id: string) | ProgressOp(id: string, value: int)
              | CompleteOp(id: string) | TurnInOp(id: string)

  function Step(catalog: Catalog, l: Ledger, op: Op): Ledger
  {
    match op
    case AddOp(id) => LedgerAddQuest(catalog, l, id)
    case ProgressOp(id, value) => LedgerAddProgress(catalog, l, id, value)
    case CompleteOp(id) => LedgerCompleteQuest(l, id)
    case TurnInOp(id) => LedgerTurnIn(catalog, l, id)
  }

  function Run(catalog: Catalog, l: Ledger, ops: seq<Op>): Ledger
    decreases |ops|
  {
    if ops == [] then l else Run(catalog, Step(catalog, l, ops[0]), ops[1..])
  }

  /** How far along `id` is: untracked, active, ready, completed. */
  function Rank(l: Ledger, id: string): nat
  {
    if id !in l.status then 0
    else match l.status[id]
      case Active => 1
      case ReadyToTurnIn => 2
      case Completed => 3
  }

  /** The call plays the ready cue for `id`. */
  predicate CuesReady(catalog: Catalog, l: Ledger, op: Op, id: string)
  {
    op.ProgressOp? && op.id == id && BecomesReady(catalog, l, id, op.value)
  }

  /** The call runs the completion of `id` (and its grants). */
  predicate Completes(catalog: Catalog, l: Ledger, op: Op, id: string)
  {
    && op.id == id && CanComplete(l, id)
    && (op.CompleteOp? || (op.TurnInOp? && TurnInAccepted(catalog, l, id)))
  }

  function ReadyCues(catalog: Catalog, l: Ledger, ops: seq<Op>, id: string): nat
    decreases |ops|
  {
    if ops == [] then 0
    else (if CuesReady(catalog, l, ops[0], id) then 1 else 0) + ReadyCues(catalog, Step(catalog, l, ops[0]), ops[1..], id)
  }

  function Completions(catalog: Catalog, l: Ledger, ops: seq<Op>, id: string): nat
    decreases |ops|
  {
    if ops == [] then 0
    else (if Completes(catalog, l, ops[0], id) then 1 else 0) + Completions(catalog, Step(catalog, l, ops[0]), ops[1..], id)
  }

  /** No call moves a quest backwards; the ready cue is the step from active
      to ready and a completion the step into completed. */
  lemma StepRank(catalog: Catalog, l: Ledger, op: Op, id: string)
    ensures Rank(Step(catalog, l, op), id) >= Rank(l, id)
    ensures CuesReady(catalog, l, op, id) ==> Rank(l, id) == 1 && Rank(Step(catalog, l, op), id) == 2
    ensures Completes(catalog, l, op, id) ==> Rank(l, id) <= 2 && Rank(Step(catalog, l, op), id) == 3
  {
  }

  /** Whatever calls follow, the ready cue for a quest plays at most once, and
      never again once the quest is ready or completed. */
  lemma {:induction false} ReadyCueAtMostOnce(catalog: Catalog, l: Ledger, ops: seq<Op>, id: string)
    ensures ReadyCues(catalog, l, ops, id) <= (if Rank(l, id) <= 1 then 1 else 0)
    decreases |ops|
  {
    if ops != [] {
      StepRank(catalog, l, ops[0], id);
      ReadyCueAtMostOnce(catalog, Step(catalog, l, ops[0]), ops[1..], id);
    }
  }

  /** Whatever calls follow, a quest is completed, and its rewards granted, at
      most once, and never again once it is completed. */
  lemma {:induction false} CompletionAtMostOnce(catalog: Catalog, l: Ledger, ops: seq<Op>, id: string)
    ensures Completions(catalog, l, ops, id) <= (if Rank(l, id) <= 2 then 1 else 0)
    decreases |ops|
  {
    if ops != [] {
      StepRank(catalog, l, ops[0], id);
      CompletionAtMostOnce(catalog, Step(catalog, l, ops[0]), ops[1..], id);
    }
  }

  // ---------------------------------------------------------------------------
  // The id lists
  // ---------------------------------------------------------------------------

  /** `getAllQuestIds` lists every tracked id, completed ones included, once. */
  lemma AllQuestIdsTracked(catalog: Catalog, l: Ledger, id: string)
    requires LedgerValid(catalog, l)
    ensures id in GetAllQuestIds(l) <==> GetStatus(l, id) != "none"
    ensures IsQuestCompleted(l, id) ==> id in GetAllQuestIds(l)
  {
  }

  /** The quest log shows exactly the active and ready quests. */
  lemma QuestListShowsOpen(catalog: Catalog, l: Ledger, id: string)
    requires LedgerValid(catalog, l)
    ensures id in QuestListIds(l) <==> IsQuestActive(l, id) || IsQuestReadyToTurnIn(l, id)
  {
    assert id in QuestListIds(l) <==> id in l.order && Listed(l, id);
    if id in l.status {
      assert id in l.order;
      var t := l.status[id];
      assert GetStatus(l, id) == StatusText(t);
      assert t == Completed ==> StatusText(t) == "completed";
    }
  }

  /** The filter keeps the ledger's order. */
  lemma {:induction false} ListFilterAppend(l: Ledger, a: seq<string>, b: seq<string>)
    ensures ListFilter(l, a + b) == ListFilter(l, a) + ListFilter(l, b)
    decreases |a|
  {
    if a != [] {
      var head := if Listed(l, a[0]) then [a[0]] else [];
      assert (a + b)[0] == a[0];
      assert (a + b)[1..] == a[1..] + b;
      assert ListFilter(l, a + b) == head + ListFilter(l, a[1..] + b);
      ListFilterAppend(l, a[1..], b);
    } else {
      assert a + b == b;
    }
  }

  lemma {:induction false} ListFilterSameListed(l: Ledger, l': Ledger, ids: seq<string>)
    requires forall x :: x in ids ==> (Listed(l, x) <==> Listed(l', x))
    ensures ListFilter(l, ids) == ListFilter(l', ids)
    decreases |ids|
  {
    if ids != [] {
      ListFilterSameListed(l, l', ids[1..]);
    }
  }

  /** A newly accepted quest appears at the end of the quest log. */
  lemma AddQuestAppendsToList(catalog: Catalog, l: Ledger, id: string)
    requires forall x :: x in l.order ==> x in l.status
    requires id in catalog && id !in l.status
    ensures QuestListIds(LedgerAddQuest(catalog, l, id)) == QuestListIds(l) + [id]
  {
    var r := LedgerAddQuest(catalog, l, id);
    assert r.order == l.order + [id];
    forall x | x in l.order ensures Listed(l, x) <==> Listed(r, x) {
      assert x != id;
    }
    ListFilterSameListed(l, r, l.order);
    ListFilterAppend(r, l.order, [id]);
    assert Listed(r, id);
    assert ListFilter(r, [id]) == [id] by {
      assert [id][1..] == [];
    }
  }

  /** The party forwards an id to the manager only the first time; after that
      the pair is unchanged by further calls. */
  lemma PartyAddQuestOnce(catalog: Catalog, seen: set<string>, l: Ledger, id: string)
    ensures id !in seen ==> PartyAddQuest(catalog, seen, l, id).1 == LedgerAddQuest(catalog, l, id)
    ensures id in seen ==> PartyAddQuest(catalog, seen, l, id) == (seen, l)
    ensures id in PartyAddQuest(catalog, seen, l, id).0
    ensures var p := PartyAddQuest(catalog, seen, l, id); PartyAddQuest(catalog, p.0, p.1, id) == p
  {
  }

  // ---------------------------------------------------------------------------
  // The shipped example quest
  // ---------------------------------------------------------------------------

  const GatherApplesId := "gather_apples"

  /** `gather_apples`: five apples, 100 XP, item 7 and 200 gold. */
  const GatherApples := QuestDef("Gather Apples", "Aqui vai um texto descritivo de teste", 5, 100,
                                 [Reward("item", 7, 1), Reward("gold", 0, 200)], "Chime2")

  const GatherApplesCatalog := map[GatherApplesId := GatherApples]

  /** After accepting the quest and four apples, it is active at progress 4. */
  lemma GatherApplesFour()
    ensures Run(GatherApplesCatalog, EmptyLedger, [AddOp(GatherApplesId), ProgressOp(GatherApplesId, 1),
              ProgressOp(GatherApplesId, 1), ProgressOp(GatherApplesId, 1), ProgressOp(GatherApplesId, 1)])
            == Ledger(map[GatherApplesId := Active], map[GatherApplesId := 4], [GatherApplesId])
  {
    var catalog := GatherApplesCatalog;
    var g := GatherApplesId;
    assert Goal(catalog, g) == 5;
    var l1 := Ledger(map[g := Active], map[g := 0], [g]);
    assert Step(catalog, EmptyLedger, AddOp(g)) == l1;
    var ops := [ProgressOp(g, 1), ProgressOp(g, 1), ProgressOp(g, 1), ProgressOp(g, 1)];
    assert Step(catalog, l1, ops[0]) == Ledger(map[g := Active], map[g := 1], [g]);
    assert Step(catalog, Ledger(map[g := Active], map[g := 1], [g]), ops[1]) == Ledger(map[g := Active], map[g := 2], [g]);
    assert Step(catalog, Ledger(map[g := Active], map[g := 2], [g]), ops[2]) == Ledger(map[g := Active], map[g := 3], [g]);
    var l4 := Ledger(map[g := Active], map[g := 4], [g]);
    assert Step(catalog, Ledger(map[g := Active], map[g := 3], [g]), ops[3]) == l4;
    assert Run(catalog, l4, []) == l4;
    assert Run(catalog, Ledger(map[g := Active], map[g := 3], [g]), ops[3..]) == l4;
    assert Run(catalog, Ledger(map[g := Active], map[g := 2], [g]), ops[2..]) == l4;
    assert Run(catalog, Ledger(map[g := Active], map[g := 1], [g]), ops[1..]) == l4;
    assert Run(catalog, l1, ops) == l4;
    assert ([AddOp(g)] + ops)[1..] == ops;
  }

  /** Completing the quest grants 100 XP to each member, one item 7 and 200 gold. */
  lemma GatherApplesGrants(db: Database, s: PartyState, l: Ledger)
    requires 7 in db.items && CanComplete(l, GatherApplesId)
    ensures CompletionGrants(GatherApplesCatalog, db, l, GatherApplesId, s) ==
      PartyState(AddItem(s.items, Some(ItemKey(Item, 7)), 1), s.gold + 200, ApplyXp(s.exp, 100))
  {
    ApplyRewardsTotals(db, s.(exp := ApplyXp(s.exp, 100)), GatherApples.rewards);
  }

  /** Accept the quest, collect four apples and the turn-in is refused with the
      buzzer; the fifth apple makes it ready with the ready cue, and turning it
      in completes it, granting 100 XP to each member, one item 7 and 200 gold. */
  lemma GatherApplesScenario(db: Database, s: PartyState)
    requires 7 in db.items
    ensures var catalog := GatherApplesCatalog;
      var l4 := Run(catalog, EmptyLedger, [AddOp(GatherApplesId), ProgressOp(GatherApplesId, 1),
                   ProgressOp(GatherApplesId, 1), ProgressOp(GatherApplesId, 1), ProgressOp(GatherApplesId, 1)]);
      var l5 := LedgerAddProgress(catalog, l4, GatherApplesId, 1);
      && GetStatus(l4, GatherApplesId) == "active" && GetProgress(l4, GatherApplesId) == 4
      && LedgerTurnIn(catalog, l4, GatherApplesId) == l4
      && TurnInSounds(catalog, l4, GatherApplesId) == [BuzzerSe]
      && AddProgressSounds(catalog, l4, GatherApplesId, 1) == [ReadySe]
      && GetStatus(l5, GatherApplesId) == "readyToTurnIn" && GetProgress(l5, GatherApplesId) == 5
      && GetStatus(LedgerTurnIn(catalog, l5, GatherApplesId), GatherApplesId) == "completed"
      && TurnInSounds(catalog, l5, GatherApplesId) == ["Chime2"]
      && CompletionGrants(catalog, db, l5, GatherApplesId, s) ==
           PartyState(AddItem(s.items, Some(ItemKey(Item, 7)), 1), s.gold + 200, ApplyXp(s.exp, 100))
  {
    var catalog := GatherApplesCatalog;
    var g := GatherApplesId;
    assert Goal(catalog, g) == 5;
    GatherApplesFour();
    var l4 := Ledger(map[g := Active], map[g := 4], [g]);
    var l5 := Ledger(map[g := ReadyToTurnIn], map[g := 5], [g]);
    assert LedgerAddProgress(catalog, l4, g, 1) == l5;
    GatherApplesGrants(db, s, l5);
  }
}
