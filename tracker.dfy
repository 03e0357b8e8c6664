/** The encounter state of `App` (App.js:22-90) and its combat handlers: the
    per-combatant handlers that map one rule over the roster, the round change,
    the initiative reroll, removal with or without looting, the undo list, and
    unique monster names. */
module Tracker {
  import opened Common
  import opened Loot
  import opened Combatants
  import opened CombatantProps
  import opened Initiative
  import opened Names

  /** `MAX_UNDO_BUFFER` (App.js:90). */
  const MaxUndoBuffer: nat := 20

  /** An entry of the undo list: the removed combatant as it was, and whether its
      XP and items went to the pools. */
  datatype Snapshot = Snapshot(c: Combatant, wasLooted: bool)

  /** The state the handlers change, as one value. */
  datatype EncounterState = EncounterState(
    characters: seq<Combatant>,
    round: int,
    deathSavesEnabled: bool,
    deleted: seq<Snapshot>,
    lootPool: seq<LootItem>,
    totalXpPool: int,
    usedUniqueNames: set<string>)

  predicate AllConsistent(s: seq<Combatant>) {
    forall c :: c in s ==> Consistent(c)
  }

  predicate SnapshotsConsistent(d: seq<Snapshot>) {
    forall sn :: sn in d ==> Consistent(sn.c)
  }

  // ---------------------------------------------------------------------------
  // Queries on the roster and on the undo list.

  /** `findIndex(char => char.id === id)`. */
  function IndexOfId(s: seq<Combatant>, id: Id): (r: int)
    ensures -1 <= r < |s|
    ensures r >= 0 ==> s[r].sheet.id == id && forall j :: 0 <= j < r ==> s[j].sheet.id != id
    ensures r == -1 ==> forall j :: 0 <= j < |s| ==> s[j].sheet.id != id
  {
    FindFirst(s, (c: Combatant) => c.sheet.id == id)
  }

  /** `filter(char => char.id !== id)` on the roster. */
  function Without(s: seq<Combatant>, id: Id): (r: seq<Combatant>)
    ensures forall c :: c in r <==> c in s && c.sheet.id != id
    ensures (forall j :: 0 <= j < |s| ==> s[j].sheet.id != id) ==> r == s
  {
    Filter(s, (c: Combatant) => c.sheet.id != id)
  }

  /** `find(char => char.id === id)` on the undo list, as an index. */
  function SnapshotIndex(d: seq<Snapshot>, id: Id): (r: int)
    ensures -1 <= r < |d|
    ensures r >= 0 ==> d[r].c.sheet.id == id && forall j :: 0 <= j < r ==> d[j].c.sheet.id != id
    ensures r == -1 ==> forall j :: 0 <= j < |d| ==> d[j].c.sheet.id != id
  {
    FindFirst(d, (sn: Snapshot) => sn.c.sheet.id == id)
  }

  /** `filter(char => char.id !== id)` on the undo list. */
  function SnapshotsWithout(d: seq<Snapshot>, id: Id): (r: seq<Snapshot>)
    ensures forall sn :: sn in r <==> sn in d && sn.c.sheet.id != id
    ensures (forall j :: 0 <= j < |d| ==> d[j].c.sheet.id != id) ==> r == d
  {
    Filter(d, (sn: Snapshot) => sn.c.sheet.id != id)
  }

  /** Filtering a list whose last entry is the only one with `id` drops exactly
      that entry. */
  lemma SnapshotsWithoutLast(d: seq<Snapshot>, sn: Snapshot, id: Id)
    requires forall j :: 0 <= j < |d| ==> d[j].c.sheet.id != id
    requires sn.c.sheet.id == id
    ensures SnapshotsWithout(d + [sn], id) == d
  {
    assert (d + [sn])[..|d|] == d;
  }

  /** Appending to the undo list (App.js:746-752 and 797-803): the newest entry
      goes last and, past `MaxUndoBuffer` entries, the oldest are dropped. */
  function PushSnapshot(deleted: seq<Snapshot>, sn: Snapshot): (r: seq<Snapshot>)
    ensures |r| == Min(|deleted| + 1, MaxUndoBuffer)
    ensures r[|r| - 1] == sn
    ensures forall i :: 0 <= i < |r| - 1 ==> r[i] == deleted[|deleted| + 1 - |r| + i]
    ensures forall x :: x in r ==> x in deleted || x == sn
  {
    var all := deleted + [sn];
    if |all| > MaxUndoBuffer then all[|all| - MaxUndoBuffer..] else all
  }

  // ---------------------------------------------------------------------------
  // Per-combatant handlers over the roster.

  /** `prevCharacters.map(char => char.id === id ? <rule>(char) : char)`. */
  function MapEvent(s: seq<Combatant>, id: Id, ev: Event, deathSavesEnabled: bool, table: StatusTable): (r: seq<Combatant>)
    ensures |r| == |s|
    ensures forall i :: 0 <= i < |s| ==>
      r[i] == if s[i].sheet.id == id then Apply(s[i], ev, deathSavesEnabled, table) else s[i]
  {
    seq(|s|, i requires 0 <= i < |s| =>
      if s[i].sheet.id == id then Apply(s[i], ev, deathSavesEnabled, table) else s[i])
  }

  /** A per-combatant handler keeps every record consistent. */
  lemma MapEventConsistent(s: seq<Combatant>, id: Id, ev: Event, deathSavesEnabled: bool, table: StatusTable)
    requires AllConsistent(s)
    ensures AllConsistent(MapEvent(s, id, ev, deathSavesEnabled, table))
  {
    var r := MapEvent(s, id, ev, deathSavesEnabled, table);
    forall c | c in r
      ensures Consistent(c)
    {
      var i :| 0 <= i < |r| && r[i] == c;
      assert s[i] in s;
      if s[i].sheet.id == id {
        ApplyKeepsConsistent(s[i], ev, deathSavesEnabled, table);
      }
    }
  }

  /** A per-combatant handler neither adds, drops nor reorders combatants: the
      roster's sheets, ids included, stay as they were, and records with other
      ids are untouched. */
  lemma MapEventKeepsRoster(s: seq<Combatant>, id: Id, ev: Event, deathSavesEnabled: bool, table: StatusTable)
    ensures var r := MapEvent(s, id, ev, deathSavesEnabled, table);
      |r| == |s|
      && (forall i :: 0 <= i < |s| ==> r[i].sheet == s[i].sheet)
      && (forall i :: 0 <= i < |s| && s[i].sheet.id != id ==> r[i] == s[i])
  {
    var r := MapEvent(s, id, ev, deathSavesEnabled, table);
    forall i | 0 <= i < |s|
      ensures r[i].sheet == s[i].sheet
    {
      ApplyKeepsSheet(s[i], ev, deathSavesEnabled, table);
    }
  }

  /** The roster after `handleNextRound` (App.js:645-697). */
  function NextRoundAll(s: seq<Combatant>, deathSavesEnabled: bool, table: StatusTable): (r: seq<Combatant>)
    ensures |r| == |s|
    ensures forall i :: 0 <= i < |s| ==> r[i] == Apply(s[i], NewRound, deathSavesEnabled, table)
  {
    seq(|s|, i requires 0 <= i < |s| => Apply(s[i], NewRound, deathSavesEnabled, table))
  }

  lemma NextRoundAllConsistent(s: seq<Combatant>, deathSavesEnabled: bool, table: StatusTable)
    requires AllConsistent(s)
    ensures AllConsistent(NextRoundAll(s, deathSavesEnabled, table))
  {
    var r := NextRoundAll(s, deathSavesEnabled, table);
    forall c | c in r
      ensures Consistent(c)
    {
      var i :| 0 <= i < |r| && r[i] == c;
      assert s[i] in s;
      ApplyKeepsConsistent(s[i], NewRound, deathSavesEnabled, table);
    }
  }

  /** The reroll changes initiatives only, so consistency is kept. */
  lemma RerolledConsistent(s: seq<Combatant>, bonus: map<Id, int>, rollAt: nat -> D20)
    requires AllConsistent(s)
    ensures AllConsistent(Rerolled(s, bonus, rollAt))
  {
    var r := Rerolled(s, bonus, rollAt);
    forall c | c in r
      ensures Consistent(c)
    {
      var i :| 0 <= i < |r| && r[i] == c;
      assert s[i] in s;
    }
  }

  // ---------------------------------------------------------------------------
  // Removal and the undo list, as functions of the state.

  /** `handleRemoveAndLoot` (`looted`, App.js:742-791) and `handleDeleteCombatant`
      (App.js:793-813): the first combatant with `id` is pushed on the undo list,
      with its XP and items moved to the pools when looted; every combatant with
      `id` leaves the roster. */
  function Removed(st: EncounterState, id: Id, looted: bool): EncounterState {
    var i := IndexOfId(st.characters, id);
    if i < 0 then st.(characters := Without(st.characters, id))
    else
      var c := st.characters[i];
      var l := Ledger(st.totalXpPool, st.lootPool);
      var l' := if looted then Looted(l, c.sheet.xp, c.sheet.items) else l;
      st.(characters := Without(st.characters, id),
          deleted := PushSnapshot(st.deleted, Snapshot(c, looted)),
          totalXpPool := l'.xpPool,
          lootPool := l'.loot)
  }

  /** `handleRestoreDeletedCharacter` (App.js:815-866): the first snapshot with
      `id` takes its XP and items back out of the pools when it was looted, comes
      back at the end of the roster as active unless a combatant with `id` is
      there already, and every snapshot with `id` leaves the undo list. */
  function RestoredFromUndo(st: EncounterState, id: Id): EncounterState {
    var k := SnapshotIndex(st.deleted, id);
    if k < 0 then st
    else
      var sn := st.deleted[k];
      var l := Reclaimed(Ledger(st.totalXpPool, st.lootPool), sn);
      st.(totalXpPool := l.xpPool,
          lootPool := l.loot,
          characters := Reinstated(st.characters, sn.c),
          deleted := SnapshotsWithout(st.deleted, id))
  }

  /** The pools after restoring `sn`: its XP and items come back out only when
      it was looted. */
  function Reclaimed(l: Ledger, sn: Snapshot): Ledger {
    if sn.wasLooted then Unlooted(l, sn.c.sheet.xp, sn.c.sheet.items) else l
  }

  /** The roster updater of App.js:854-861: `c` comes back, active, at the end
      unless a combatant with its id is on the roster. */
  function Reinstated(s: seq<Combatant>, c: Combatant): (r: seq<Combatant>)
    ensures IndexOfId(s, c.sheet.id) < 0 ==> r == s + [Restored(c)]
    ensures IndexOfId(s, c.sheet.id) >= 0 ==> r == s
  {
    if IndexOfId(s, c.sheet.id) < 0 then s + [Restored(c)] else s
  }

  /** The invariant of the encounter: rounds count from 1, the undo list holds
      at most `MaxUndoBuffer` entries, and every record, on the roster or in the
      undo list, is consistent. */
  predicate StateValid(st: EncounterState) {
    && st.round >= 1
    && |st.deleted| <= MaxUndoBuffer
    && AllConsistent(st.characters)
    && SnapshotsConsistent(st.deleted)
  }

  /** No combatant with `id` is left after the filter. */
  lemma WithoutDropsId(s: seq<Combatant>, id: Id)
    ensures IndexOfId(Without(s, id), id) == -1
  {
    var r := Without(s, id);
    forall j | 0 <= j < |r|
      ensures r[j].sheet.id != id
    {
      assert r[j] in r;
    }
  }

  /** Pushing a snapshot with an `id` the undo list did not hold makes it the
      one a restore finds, and the restore's filter gives back the list as it
      was, less any entry the push evicted. */
  lemma PushThenFind(d: seq<Snapshot>, sn: Snapshot, id: Id)
    requires SnapshotIndex(d, id) == -1 && sn.c.sheet.id == id
    ensures var p := PushSnapshot(d, sn);
      SnapshotIndex(p, id) == |p| - 1 && SnapshotsWithout(p, id) == d[|d| + 1 - |p|..]
  {
    var p := PushSnapshot(d, sn);
    var kept := d[|d| + 1 - |p|..];
    assert p == kept + [sn];
    forall j | 0 <= j < |p| - 1
      ensures p[j].c.sheet.id != id
    {
      assert p[j] == d[|d| + 1 - |p| + j];
    }
    SnapshotsWithoutLast(kept, sn, id);
  }

  /** A removal keeps the invariant. */
  lemma RemovedValid(st: EncounterState, id: Id, looted: bool)
    requires StateValid(st)
    ensures StateValid(Removed(st, id, looted))
  {
    var i := IndexOfId(st.characters, id);
    if i >= 0 {
      assert st.characters[i] in st.characters;
    }
  }

  /** A restore keeps the invariant. */
  lemma RestoredValid(st: EncounterState, id: Id)
    requires StateValid(st)
    ensures StateValid(RestoredFromUndo(st, id))
  {
    var k := SnapshotIndex(st.deleted, id);
    if k >= 0 {
      assert st.deleted[k] in st.deleted;
      var sn := st.deleted[k];
      var chars := st.characters + [Restored(sn.c)];
      assert forall c :: c in chars ==> c in st.characters || c == Restored(sn.c);
    }
  }

  /** After a removal no combatant with `id` is left, every other combatant is
      still there, and the round and the used names are untouched. */
  lemma RemovedDropsId(st: EncounterState, id: Id, looted: bool)
    ensures var r := Removed(st, id, looted);
      && IndexOfId(r.characters, id) == -1
      && (forall c :: c in st.characters && c.sheet.id != id ==> c in r.characters)
      && r.round == st.round && r.usedUniqueNames == st.usedUniqueNames
  {
    WithoutDropsId(st.characters, id);
  }

  /** Restoring right after a removal undoes it: the XP and loot pools are back
      to what they were, the combatant is back at the end of the roster (active,
      with its HP and death saves as they were), and the undo list is as before
      except for an oldest entry pushed out by a full buffer. */
  lemma RestoreUndoesRemoval(st: EncounterState, id: Id, looted: bool)
    requires IndexOfId(st.characters, id) >= 0
    requires SnapshotIndex(st.deleted, id) == -1
    requires looted ==> st.totalXpPool >= 0 && WellKept(st.lootPool)
    requires var c := st.characters[IndexOfId(st.characters, id)];
      looted ==> AllPositive(c.sheet.items) && (c.sheet.xp.Some? ==> c.sheet.xp.value >= 0)
    ensures var c := st.characters[IndexOfId(st.characters, id)];
      var r := RestoredFromUndo(Removed(st, id, looted), id);
      && r.totalXpPool == st.totalXpPool && r.lootPool == st.lootPool
      && r.characters == Without(st.characters, id) + [Restored(c)]
      && r.deleted == st.deleted[|st.deleted| + 1 - Min(|st.deleted| + 1, MaxUndoBuffer)..]
      && r.round == st.round && r.usedUniqueNames == st.usedUniqueNames
  {
    var c := st.characters[IndexOfId(st.characters, id)];
    var sn := Snapshot(c, looted);
    RemovedFields(st, id, looted);
    var st1 := Removed(st, id, looted);
    PushThenFind(st.deleted, sn, id);
    RestoredFields(st1, id);
    WithoutDropsId(st.characters, id);
    ReclaimUndoesLoot(Ledger(st.totalXpPool, st.lootPool), sn);
  }

  /** The fields of `Removed` for an id on the roster. */
  lemma RemovedFields(st: EncounterState, id: Id, looted: bool)
    requires IndexOfId(st.characters, id) >= 0
    ensures var c := st.characters[IndexOfId(st.characters, id)];
      var l := Ledger(st.totalXpPool, st.lootPool);
      var r := Removed(st, id, looted);
      && r.characters == Without(st.characters, id)
      && r.deleted == PushSnapshot(st.deleted, Snapshot(c, looted))
      && Ledger(r.totalXpPool, r.lootPool) == (if looted then Looted(l, c.sheet.xp, c.sheet.items) else l)
      && r.round == st.round && r.usedUniqueNames == st.usedUniqueNames
  {
  }

  /** The fields of `RestoredFromUndo` for an id in the undo list. */
  lemma RestoredFields(st: EncounterState, id: Id)
    requires SnapshotIndex(st.deleted, id) >= 0
    ensures var sn := st.deleted[SnapshotIndex(st.deleted, id)];
      var r := RestoredFromUndo(st, id);
      && r.characters == Reinstated(st.characters, sn.c)
      && r.deleted == SnapshotsWithout(st.deleted, id)
      && Ledger(r.totalXpPool, r.lootPool) == Reclaimed(Ledger(st.totalXpPool, st.lootPool), sn)
      && r.round == st.round && r.usedUniqueNames == st.usedUniqueNames
  {
  }

  /** Reclaiming a snapshot gives back the pools from before it was removed. */
  lemma ReclaimUndoesLoot(l: Ledger, sn: Snapshot)
    requires sn.wasLooted ==> l.xpPool >= 0 && WellKept(l.loot)
    requires sn.wasLooted ==> AllPositive(sn.c.sheet.items) && (sn.c.sheet.xp.Some? ==> sn.c.sheet.xp.value >= 0)
    ensures Reclaimed(if sn.wasLooted then Looted(l, sn.c.sheet.xp, sn.c.sheet.items) else l, sn) == l
  {
    if sn.wasLooted {
      LedgerRoundTrip(l, sn.c.sheet.xp, sn.c.sheet.items);
    }
  }

  /** A second restore of the same id changes nothing. */
  lemma RestoreOnce(st: EncounterState, id: Id)
    ensures RestoredFromUndo(RestoredFromUndo(st, id), id) == RestoredFromUndo(st, id)
  {
    var r := RestoredFromUndo(st, id);
    forall j | 0 <= j < |r.deleted|
      ensures r.deleted[j].c.sheet.id != id
    {
      assert r.deleted[j] in r.deleted;
    }
  }

  // ---------------------------------------------------------------------------
  // The encounter.

  class Encounter {
    var characters: seq<Combatant>
    var round: int
    var deathSavesEnabled: bool
    var deleted: seq<Snapshot>
    var lootPool: seq<LootItem>
    var totalXpPool: int
    var usedUniqueNames: set<string>
    /** The loaded status-effect table and the monsters' initiative bonuses, by id. */
    const statusEffects: StatusTable
    const monsterBonus: map<Id, int>

    function State(): EncounterState
      reads this
    {
      EncounterState(characters, round, deathSavesEnabled, deleted, lootPool, totalXpPool, usedUniqueNames)
    }

    predicate Valid()
      reads this
    {
      StateValid(State())
    }

    /** The initial state (App.js:22, 80-85), with the combatants added so far as
        `roster`: new combatants are created active and not dying (Combatant
        Management Window.js:1081-1090). */
    constructor(roster: seq<Combatant>, table: StatusTable, bonus: map<Id, int>)
      requires AllConsistent(roster)
      ensures Valid()
      ensures State() == EncounterState(roster, 1, false, [], [], 0, {})
      ensures statusEffects == table && monsterBonus == bonus
    {
      characters := roster;
      round := 1;
      deathSavesEnabled := false;
      deleted := [];
      lootPool := [];
      totalXpPool := 0;
      usedUniqueNames := {};
      statusEffects := table;
      monsterBonus := bonus;
    }

    /** Applies one per-combatant rule to the combatants with `id`. */
    method ApplyToId(id: Id, ev: Event)
      modifies this
      requires Valid()
      ensures Valid()
      ensures State() == old(State()).(characters := MapEvent(old(characters), id, ev, deathSavesEnabled, statusEffects))
    {
      MapEventConsistent(characters, id, ev, deathSavesEnabled, statusEffects);
      characters := MapEvent(characters, id, ev, deathSavesEnabled, statusEffects);
    }

    /** `updateCharacterHp` (App.js:338-401). */
    method UpdateCharacterHp(id: Id, newHp: int)
      modifies this
      requires Valid()
      ensures Valid()
      ensures State() == old(State()).(characters := MapEvent(old(characters), id, SetHp(newHp), deathSavesEnabled, statusEffects))
    {
      ApplyToId(id, SetHp(newHp));
    }

    /** `updateCharacterStatus` (App.js:403-448), with the status string the
        caller passes. */
    method UpdateCharacterStatus(id: Id, newStatus: string)
      modifies this
      requires Valid()
      ensures Valid()
      ensures State() == old(State()).(characters := MapEvent(old(characters), id, SetStatus(ParseStatus(newStatus)), deathSavesEnabled, statusEffects))
    {
      ApplyToId(id, SetStatus(ParseStatus(newStatus)));
    }

    /** `toggleRemovedFromCombat` (App.js:450-475). */
    method ToggleRemovedFromCombat(id: Id, isRemoved: bool)
      modifies this
      requires Valid()
      ensures Valid()
      ensures State() == old(State()).(characters := MapEvent(old(characters), id, SetRemoved(isRemoved), deathSavesEnabled, statusEffects))
    {
      ApplyToId(id, SetRemoved(isRemoved));
    }

    /** `updateActionCheckbox` (App.js:517-546). */
    method UpdateActionCheckbox(id: Id, box: Checkbox, value: bool)
      modifies this
      requires Valid()
      ensures Valid()
      ensures State() == old(State()).(characters := MapEvent(old(characters), id, Check(box, value), deathSavesEnabled, statusEffects))
    {
      ApplyToId(id, Check(box, value));
    }

    /** `updateCurrentMovement` (App.js:572-582). */
    method UpdateCurrentMovement(id: Id, newMovement: int)
      modifies this
      requires Valid()
      ensures Valid()
      ensures State() == old(State()).(characters := MapEvent(old(characters), id, SetMovement(newMovement), deathSavesEnabled, statusEffects))
    {
      ApplyToId(id, SetMovement(newMovement));
    }

    /** `handleRollDeathSave` (App.js:584-631), with `roll` the d20 it draws. */
    method HandleRollDeathSave(id: Id, roll: D20)
      modifies this
      requires Valid()
      ensures Valid()
      ensures State() == old(State()).(characters := MapEvent(old(characters), id, Save(roll), deathSavesEnabled, statusEffects))
    {
      ApplyToId(id, Save(roll));
    }

    /** `handleActivateTrait` (App.js:633-640): an action, bonus-action or
        reaction trait checks its box; any other trait changes nothing. */
    method HandleActivateTrait(id: Id, actionType: string)
      modifies this
      requires Valid()
      ensures Valid()
      ensures State() == old(State()).(characters := MapEvent(old(characters), id, UseTrait(actionType), deathSavesEnabled, statusEffects))
    {
      var box := TraitCheckbox(actionType);
      if box.Some? {
        ghost var s := characters;
        UpdateActionCheckbox(id, box.value, true);
        assert characters == MapEvent(s, id, UseTrait(actionType), deathSavesEnabled, statusEffects);
      } else {
        assert characters == MapEvent(characters, id, UseTrait(actionType), deathSavesEnabled, statusEffects);
      }
    }

    /** The death-save switch of the initiative window (Initiative Order
        Window.js:197). */
    method SetDeathSavesEnabled(enabled: bool)
      modifies this
      requires Valid()
      ensures Valid()
      ensures State() == old(State()).(deathSavesEnabled := enabled)
    {
      deathSavesEnabled := enabled;
    }

    /** `handleNextRound` (App.js:642-700). */
    method HandleNextRound()
      modifies this
      requires Valid()
      ensures Valid()
      ensures State() == old(State()).(round := old(round) + 1,
                                       characters := NextRoundAll(old(characters), deathSavesEnabled, statusEffects))
    {
      round := round + 1;
      NextRoundAllConsistent(characters, deathSavesEnabled, statusEffects);
      characters := NextRoundAll(characters, deathSavesEnabled, statusEffects);
    }

    /** `handleRerollAllInitiatives` (App.js:702-740), with `rollAt(n)` the `n`-th
        d20 it draws. */
    method HandleRerollAllInitiatives(rollAt: nat -> D20)
      modifies this
      requires Valid()
      ensures Valid()
      ensures State() == old(State()).(characters := Rerolled(old(characters), monsterBonus, rollAt))
    {
      RerolledConsistent(characters, monsterBonus, rollAt);
      characters := RerollPass(characters, monsterBonus, rollAt);
    }

    /** `handleRemoveAndLoot` (App.js:742-791). */
    method HandleRemoveAndLoot(id: Id)
      modifies this
      requires Valid()
      ensures Valid()
      ensures State() == Removed(old(State()), id, true)
    {
      ghost var st := State();
      RemovedValid(st, id, true);
      var i := IndexOfId(characters, id);
      if i >= 0 {
        var c := characters[i];
        deleted := PushSnapshot(deleted, Snapshot(c, true));
        totalXpPool, lootPool := LootLedger(totalXpPool, lootPool, c.sheet.xp, c.sheet.items);
      }
      characters := Without(characters, id);
    }

    /** `handleDeleteCombatant` (App.js:793-813). */
    method HandleDeleteCombatant(id: Id)
      modifies this
      requires Valid()
      ensures Valid()
      ensures State() == Removed(old(State()), id, false)
    {
      ghost var st := State();
      RemovedValid(st, id, false);
      var i := IndexOfId(characters, id);
      if i >= 0 {
        deleted := PushSnapshot(deleted, Snapshot(characters[i], false));
      }
      characters := Without(characters, id);
    }

    /** `handleRestoreDeletedCharacter` (App.js:815-866). */
    method HandleRestoreDeletedCharacter(id: Id)
      modifies this
      requires Valid()
      ensures Valid()
      ensures State() == RestoredFromUndo(old(State()), id)
    {
      ghost var st := State();
      var k := SnapshotIndex(deleted, id);
      if k >= 0 {
        var charToRestore := deleted[k];
        var xp, loot := totalXpPool, lootPool;
        if charToRestore.wasLooted {
          xp, loot := UnlootLedger(xp, loot, charToRestore.c.sheet.xp, charToRestore.c.sheet.items);
        }
        var restoredCharacters := Reinstated(characters, charToRestore.c);
        var remaining := SnapshotsWithout(deleted, id);
        RestoredFields(st, id);
        totalXpPool, lootPool, characters, deleted := xp, loot, restoredCharacters, remaining;
      }
      assert State() == RestoredFromUndo(st, id);
      RestoredValid(st, id);
    }

    /** `generateMonsterName` (App.js:868-904) for a monster of `species` whose
        template is named `templateName`, with `batch` the names given earlier in
        the same batch and `pickFirst(t)`, `pickLast(t)` the random draws of
        attempt `t`. A species without first names keeps the template name;
        otherwise the name is the first free random pair, or else the template
        name with the smallest free counter, and it is recorded as used. */
    method GenerateMonsterName(templateName: string, species: string, batch: set<string>,
                               namesData: map<string, NameLists>, pickFirst: nat -> nat, pickLast: nat -> nat)
      returns (name: string)
      modifies this
      requires Valid()
      ensures Valid()
      ensures State() == old(State()).(usedUniqueNames := usedUniqueNames)
      ensures species !in namesData || |namesData[species].first| == 0 ==>
        name == templateName && usedUniqueNames == old(usedUniqueNames)
      ensures species in namesData && |namesData[species].first| > 0 ==>
        name !in old(usedUniqueNames) && name !in batch && usedUniqueNames == old(usedUniqueNames) + {name}
      ensures species in namesData && |namesData[species].first| > 0
              && FirstFree(namesData[species], pickFirst, pickLast, old(usedUniqueNames) + batch, 0).Some? ==>
        name == FirstFree(namesData[species], pickFirst, pickLast, old(usedUniqueNames) + batch, 0).value
      ensures species in namesData && |namesData[species].first| > 0
              && FirstFree(namesData[species], pickFirst, pickLast, old(usedUniqueNames) + batch, 0).None? ==>
        exists k ::
          k >= 1 && name == Fallback(templateName, k)
          && forall j :: 1 <= j < k ==> Fallback(templateName, j) in old(usedUniqueNames) + batch
    {
      if species !in namesData || |namesData[species].first| == 0 {
        return templateName;
      }
      ghost var st := State();
      name := RandomName(namesData[species], pickFirst, pickLast, usedUniqueNames, batch);
      if name == "" {
        name := FallbackName(templateName, usedUniqueNames, batch);
      } else {
        assert name !in usedUniqueNames + batch;
      }
      usedUniqueNames := usedUniqueNames + {name};
      assert State() == st.(usedUniqueNames := usedUniqueNames);
    }
  }
}
