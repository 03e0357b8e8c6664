# Battle-Tracker combat engine, modelled in Dafny

This project models the combat-state engine of Battle-Tracker's `App.js`: the
React handlers that take one event (an HP entry, a status change, a checkbox, a
death save, the round change, an initiative reroll, a removal, a restore, a
request for a unique monster name) and produce the next encounter state. The
state is the roster of combatant records, the round counter, the death-save
switch, the undo list of removed combatants (at most `MAX_UNDO_BUFFER` = 20),
the loot pool, the XP pool and the set of used monster names.

The model has the same shape as the source:

- `common.dfy` (`Common`): `Option` for `null`/`undefined`, `Max`/`Min`,
  and `findIndex` and `filter` as `FindFirst` and `Filter`.
- `combatants.dfy` (`Combatants`): the combatant record and one pure
  function per handler that maps over the roster. Each function is the
  copy-and-assign step on one record (`UpdateHp`, `UpdateStatus`,
  `ToggleRemoved`, `UpdateCheckbox`, `ActivateTrait`, `UpdateCurrentMovement`,
  `RollDeathSave`, `NextRoundCombatant`).
- `combatant_props.dfy` (`CombatantProps`): properties that relate several
  calls. These are the record invariant every rule keeps, idempotence, one
  save per round, the action/dash exclusion, and the countdown of missed
  death saves.
- `initiative.dfy` (`Initiative`): the modifier and group rule of the reroll,
  specified by the function `Rerolled`. `RerollPass` is the in-place loop
  over the copied roster, proved against `Rerolled`. It also holds the
  two-list display order, `SortedForInitiative`, with its insertion-sort
  specification.
- `loot.dfy` (`Loot`): loot entries keyed by `(name, unit, isCustom)`, the
  merge and un-merge loops over the loot pool, the XP/loot ledger, and the
  round trip "restore undoes remove-and-loot".
- `names.dfy` (`Names`): the random-name loop and the numbered fallback loop
  of `generateMonsterName`.
- `tracker.dfy` (`Tracker`): the encounter as the class `Encounter`, with
  one method per handler. Each method is tied to a function of the old state
  (`MapEvent`, `NextRoundAll`, `Rerolled`, `Removed`, `RestoredFromUndo`), and
  the undo-list and state-invariant lemmas are stated over those functions.

Inputs the source takes from elsewhere are parameters here:

- a d20 roll is a value of type `D20` (1..20);
- the reroll's successive d20s are `rollAt: nat -> D20`;
- the random name picks are `pickFirst`, `pickLast: nat -> nat`;
- the status-effect table is a `map<Status, Effect>`;
- the monster initiative bonuses are a `map<Id, int>`;
- the names data is a `map<string, NameLists>`.

The invariant the class keeps (`Tracker.StateValid`) has four parts:

- the round is at least 1;
- the undo list holds at most 20 entries;
- every dead record is dying with at least three failures;
- every record that is not dying carries no death-save progress.

New combatants are created active and not dying (Combatant Management
Window.js:1081-1090), so the constructor asks this of its starting roster.

## Model

| member | source | states |
|---|---|---|
| Combatants.UpdateHp | App.js:338-401 | With death saves off and hp <= 0 the record is dead on the spot: 3 failures, 0 successes, 0 opportunities, turn completed, no ability roll, and hp stored unclamped. Otherwise hp is `max(newHp, -maxHp)`. Dropping to <= 0 while not dying gives unconscious, 0/0 counters, 4 opportunities and turn completed. Going above 0 while dying gives active, not dying, with the turn open. Going above 0 while unconscious and not dying gives active with the turn open and the death saves kept. Reaching -maxHp gives dead with the turn completed: a combatant already dying keeps its successes and save-made flag and gets 3 failures and 0 opportunities, and one not yet dying gets exactly 0 successes, 3 failures and 0 opportunities. Damage to a combatant already dying, short of -maxHp, changes only the hp. Above 0 HP a combatant neither dying nor unconscious keeps its status, death saves and turn flag, and so does a dying one when death saves are off. The last ability roll is cleared exactly when the result is dead. Only the lifecycle fields change. |
| Combatants.UpdateStatus | App.js:403-448 | Setting `active` at hp <= 0 returns the record unchanged. Otherwise the status is set. `dead` sets the dying fields. `unconscious` or `active` above 0 HP clears them and sets the turn flag. Any other status keeps the dying state. Only `dead` clears the last ability roll, and a custom status or `unconscious` at 0 HP or below leaves the turn flag alone. The movement comes from the table row (override, floor of the multiplier, or base with 0 for no movement), and a status with no row leaves it as it was. |
| Combatants.TableMovement | App.js:433-443 | A status-effect row gives its movement override if there is one, else the floor of base times the multiplier, stated as the bounds `r*den <= base*num < (r+1)*den`, else the base movement. |
| Combatants.ToggleRemoved | App.js:450-467 | Removal spends all four actions and completes the turn, which puts the combatant out of the initiative order. Putting back only reopens the turn. Nothing else changes. |
| Combatants.UpdateCheckbox | App.js:517-546 | The toggled flag takes the value. Checking action clears dash and checking dash clears action. Every other flag is kept. Dash on sets movement to 2*base and marks it dashed. Dash off sets movement to base and clears the mark. No other field changes. |
| Combatants.TraitCheckbox | App.js:633-640 | `action`, `bonusAction` and `reaction` map to their checkboxes. Any other action type checks nothing. |
| Combatants.UpdateCurrentMovement | App.js:572-582 | The movement becomes `max(0, m)` and nothing else changes. |
| Combatants.RollDeathSave | App.js:584-631 | Nothing changes unless the combatant is dying, has not saved this round and death saves are on. A roll >= 10 adds a success, and the third success gives hp 1, active, not dying and counters reset. A roll < 10 adds one failure, or two on a natural 1, and at >= 3 failures the combatant is dead with 0 opportunities. Positive opportunities drop by exactly one. |
| Combatants.UseOpportunity | App.js:590-592 | A positive opportunity count drops by one, and any other count stays as it is. |
| Combatants.RoundSaves | App.js:654-680 | With death saves on, a dying combatant who did not save this round loses one opportunity, and one left with 0 opportunities and fewer than 3 failures dies with 3 failures. It dies of attrition only then: otherwise its status and failures are kept. The turn stays completed exactly for the dying who are not dead. With death saves off, every turn reopens. |
| Combatants.NextRoundCombatant | App.js:642-697 | The four action flags, the save-made flag and the dash flag are cleared, and the `RoundSaves` rule applies. The movement is reset from the table row for the new status when the row has an override or a multiplier. Otherwise, and when the status has no row, it becomes the sheet's movement, `undefined` (`None`) when the sheet has none. |
| Combatants.Restored | App.js:854-861 | The restored record is back in combat, active, with the turn open. Its hp, sheet and death-save fields are as saved. |
| Combatants.ParseStatus | App.js:406 | Reading a status string gives a status whose name is that string. |
| CombatantProps.ApplyKeepsConsistent | App.js:338-697 | Every per-combatant rule keeps the record invariant: dead implies dying with >= 3 failures, and not dying implies no death-save progress. |
| CombatantProps.ApplyKeepsSheet | App.js:338-697 | No per-combatant rule rewrites the id, kind or loaded statistics. |
| CombatantProps.ActiveOnlyWhenRecovered | App.js:338-697 | A combatant that becomes active through any rule except restore is no longer dying. |
| CombatantProps.RestoreKeepsDying | App.js:857 | A dying snapshot comes back active and still dying. |
| CombatantProps.HpIdempotent | App.js:338-401 | Entering the same HP twice is the same as entering it once. |
| CombatantProps.StatusIdempotent | App.js:403-448 | Setting the same status twice is the same as setting it once. |
| CombatantProps.OneSavePerRound | App.js:584-631 | A second death save in the same round changes nothing. |
| CombatantProps.CheckboxKeepsExclusion | App.js:521-530 | Action and dash are never both checked after a checkbox update, when they were not both checked before. |
| CombatantProps.TraitKeepsExclusion | App.js:633-640 | The same holds after a trait is used. |
| CombatantProps.TraitKeepsMovement | App.js:633-640 | A trait never changes the movement or the dash mark. |
| CombatantProps.NextRoundReopensRemoved | App.js:645-679 | A combatant out of combat stays out after the round change, but its four actions are open again and, unless it is dying with death saves on, so is its turn. |
| CombatantProps.DashThenUndash | App.js:532-540 | Dashing then un-dashing leaves the base movement with no dash, whatever the movement was before. |
| CombatantProps.MissedSavesCountDown | App.js:657-673 | A dying combatant with k opportunities who never rolls loses one per round. It stays dying, neither dead nor a red skull, for k-1 rounds. |
| CombatantProps.MissedSavesKill | App.js:657-673 | At the k-th round that combatant is dead with 3 failures, 0 opportunities, and shown as a red skull. |
| CombatantProps.ThreeSuccessesStabilise | App.js:598-606 | Three successful saves in three rounds bring a dying combatant, even one marked dead, back at 1 HP, active and not dying. |
| Initiative.Modifier | App.js:712-719 | For a player the modifier is `floor((dex or 10 - 10) / 2)`. For a monster it is the bonus looked up by the combatant's id, or 0 when there is none. |
| Initiative.GroupOf | App.js:721 | A combatant is in a group exactly when its shared-initiative id is a non-empty string. |
| Initiative.Leader | App.js:722-726 | The leader is the first eligible member of the group, or -1 when the group has none. |
| Initiative.Rerolled | App.js:707-736 | Removed and dead combatants keep their record. Every other combatant gets its new initiative. |
| Initiative.DistinctDraws | App.js:721-731 | Two combatants that draw use different d20s. |
| Initiative.GroupShares | App.js:721-730 | All eligible members of a group get the same initiative. It is the leader's single d20 plus the leader's modifier, and the leader comes no later than any member. |
| Initiative.RerollPass | App.js:704-736 | The in-place pass over the copied roster, filling the group map as it goes, yields exactly `Rerolled`. |
| Initiative.SortDescSorted | App.js:920-921 | The sort by descending initiative gives a descending permutation of its input. |
| Initiative.SortDescStable | App.js:920-921 | The sort is stable: the combatants with equal initiative keep their order. |
| Initiative.SelectSplits | App.js:910-918 | The two lists the pass fills are together a permutation of the roster. |
| Initiative.InitiativeOrderShape | App.js:906-924 | The display order is a permutation of the roster. Combatants still in the fight come first and red skulls or removed combatants after, each part non-increasing by initiative. |
| Initiative.SortedForInitiative | App.js:906-924 | The loop that pushes each combatant onto the active or the out list, followed by the two sorts, yields `InitiativeOrder`. |
| Loot.KeyIndex | App.js:762-764 | Returns the index of the first pool entry with the key, or -1 when there is none. |
| Loot.MergeItems | App.js:758-779 | The merge loop over the copied loot pool yields `Merged`, which adds each truthy quantity to the first entry with the same key and appends the item otherwise. |
| Loot.UnmergeItems | App.js:824-849 | The un-merge loop yields `Unmerged`, which subtracts and splices at <= 0, or splices the entry when the quantity is falsy. |
| Loot.LootLedger | App.js:754-779 | Adds the XP when there is some and merges a non-empty item list. The result is `Looted` of the old ledger. |
| Loot.UnlootLedger | App.js:819-852 | Subtracts the XP with a floor of 0 and un-merges a non-empty item list. The result is `Unlooted` of the old ledger. |
| Loot.Unlooted | App.js:819-822 | After a restore the XP pool is never negative, unless the snapshot had no XP. |
| Loot.MergedSum | App.js:758-779 | Merging items adds what they carry to every key's total, and to nothing else. |
| Loot.UnmergedSum | App.js:824-849 | Un-merging positive items from a well-kept pool that holds at least their total for every key takes exactly that total off each key, and the pool stays well kept, whatever order its entries are in. |
| Loot.LootedAllTotals | App.js:754-779 | Looting several combatants in turn adds exactly their XP to the XP pool and their items to every key's total. |
| Loot.RestoreAfterOthers | App.js:754-852 | Restoring a looted combatant after any number of other combatants were looted takes back exactly its own share. The XP pool and every key's total come out as if only the others had been looted, and the pool stays well kept. This needs non-negative XP and positive quantities. |
| Loot.MergedWellKept | App.js:758-779 | Merging positive quantities into a pool with one entry per key and positive quantities keeps it that way. |
| Loot.LootRoundTrip | App.js:758-849 | Un-merging the same items gives back a well-kept pool exactly, when quantities are positive integers. |
| Loot.LedgerRoundTrip | App.js:754-852 | Restore after remove-and-loot returns the XP pool and every loot quantity to their prior values, for non-negative XP and positive integer quantities. |
| Names.Decimal | App.js:894 | `${counter}` is a non-empty string of decimal digits. |
| Names.DecimalRoundTrip | App.js:894 | Reading back the numeral gives the number. |
| Names.FallbackInjective | App.js:894 | Different counters give different fallback names. |
| Names.FirstFree | App.js:876-889 | The first random attempt whose name is free is taken, with every earlier attempt taken. `None` means all 100 attempts are taken. |
| Names.RandomName | App.js:876-889 | The random loop returns the first free attempt, or `""` after 100 taken attempts. |
| Names.FallbackName | App.js:891-902 | The counter loop ends. It returns `"<name> <k>"` for the smallest k >= 1 whose name is in neither used-name set. |
| Tracker.IndexOfId | App.js:744 | Returns the first combatant with the id, or -1 when there is none. |
| Tracker.Without | App.js:784 | Removes every combatant with the id and keeps every other one. |
| Tracker.SnapshotsWithout | App.js:862 | Removes every snapshot with the id and keeps every other one. |
| Tracker.PushSnapshot | App.js:746-752 | The snapshot goes last. The list keeps min(n+1, 20) entries, which are the newest ones, so the oldest are evicted first. |
| Tracker.MapEventKeepsRoster | App.js:339-400 | A per-combatant handler neither adds, drops nor reorders combatants, and records with other ids are untouched. |
| Tracker.Reinstated | App.js:854-861 | The snapshot comes back at the end of the roster unless a combatant with its id is there already. |
| Tracker.RemovedValid | App.js:742-813 | Removal, looted or not, keeps the encounter invariant. |
| Tracker.RestoredValid | App.js:815-866 | Restore keeps the encounter invariant. |
| Tracker.RemovedDropsId | App.js:742-813 | After a removal no combatant with the id is left, every other combatant is still there, and the round and the used names are untouched. |
| Tracker.PushThenFind | App.js:746-862 | A pushed snapshot is the one a restore finds, and the restore's filter gives back the list from before the push, less any evicted entry. |
| Tracker.RestoreUndoesRemoval | App.js:742-866 | Restore right after a removal returns both pools to their prior values and puts the combatant back last, active. It leaves the undo list as it was before, less an entry evicted by a full buffer. |
| Tracker.RestoreOnce | App.js:815-866 | A second restore of the same id changes nothing. |
| Tracker.Encounter.constructor | App.js:80-85 | The initial state is round 1 with death saves off and empty undo list, loot pool, XP pool and used names. |
| Tracker.Encounter.UpdateCharacterHp | App.js:338-401 | Applies `UpdateHp` to the combatants with the id and keeps the invariant. |
| Tracker.Encounter.UpdateCharacterStatus | App.js:403-448 | Reads the status string and applies `UpdateStatus` with it to the combatants with the id, and keeps the invariant. |
| Tracker.Encounter.ToggleRemovedFromCombat | App.js:450-475 | Applies `ToggleRemoved` to the combatants with the id and keeps the invariant. |
| Tracker.Encounter.UpdateActionCheckbox | App.js:517-546 | Applies `UpdateCheckbox` to the combatants with the id and keeps the invariant. |
| Tracker.Encounter.UpdateCurrentMovement | App.js:572-582 | Applies `UpdateCurrentMovement` to the combatants with the id and keeps the invariant. |
| Tracker.Encounter.HandleRollDeathSave | App.js:584-631 | Applies `RollDeathSave` with the given d20 to the combatants with the id and keeps the invariant. |
| Tracker.Encounter.HandleActivateTrait | App.js:633-640 | Checks the trait's box on the combatants with the id, or changes nothing for a free action. |
| Tracker.Encounter.SetDeathSavesEnabled | App.js:81 | Sets only the death-save switch. |
| Tracker.Encounter.HandleNextRound | App.js:642-700 | The round goes up by one and every combatant gets `NextRoundCombatant`. The invariant is kept. |
| Tracker.Encounter.HandleRerollAllInitiatives | App.js:702-740 | The roster becomes `Rerolled` under the monster bonuses, and the invariant is kept. |
| Tracker.Encounter.HandleRemoveAndLoot | App.js:742-791 | The new state is `Removed(old, id, true)`, and the invariant is kept. |
| Tracker.Encounter.HandleDeleteCombatant | App.js:793-813 | The new state is `Removed(old, id, false)`, and the invariant is kept. |
| Tracker.Encounter.HandleRestoreDeletedCharacter | App.js:815-866 | The new state is `RestoredFromUndo(old, id)`, and the invariant is kept. |
| Tracker.Encounter.GenerateMonsterName | App.js:868-904 | A species with no first names keeps the template name and records nothing. Otherwise the name is fresh for both used-name sets: the first free random attempt, else the template name with the smallest free counter. It is recorded as used, and nothing else changes. |

## Left out

- I/O and loading: CSV and JSON loading of monsters, names and status effects
  are left out, and the tables are parameters. Rendering, window positions,
  the open-panel set, colours, the log, and the trivial field setters for
  name, actions, ability rolls and locks are also left out.
- Randomness: each `Math.random()` d20 or name pick is a parameter.
  `crypto.randomUUID()` loot-entry ids and timestamps are dropped. The loot
  model keys entries by `(name, unit, isCustom)` and keeps only the quantity.
- React scheduling: each handler is one sequential transition.
  - The nested `setState` calls inside updater callbacks (App.js:746, 855) are
    not modelled as deferred.
  - StrictMode double invocation is not modelled.
  - Neither is the aliasing by which `char.initiative = ...` (App.js:734)
    and `updatedLoot[i].quantity = ...` (App.js:770, 838) also mutate the
    objects in the previous state. The model writes into fresh values.
- Floating point: the movement multiplier is an exact fraction `Ratio`, and
  `Math.floor` is Euclidean division by a positive denominator.
- `parseInt`:
  - The sheet's movement (`parseInt` of `"<n>ft"`) is an `Option<nat>`, `None`
    when the string is absent or empty, and the base movement reads `None` as 0.
    A movement string that `parseInt` reads as `NaN` or a negative number is not
    modelled.
  - The current movement is an `Option<int>`, `None` for `undefined`.
  - A loot quantity is `Some(n)` when it is truthy, with n the value of
    `parseInt(q) || 0`, and `None` when it is falsy.
  - The `isNaN` checks after `|| 0` (App.js:769, 771) can never fail, so the
    unreachable push branch is not modelled.
- Status strings: statuses are the datatype `Status` (`active`,
  `unconscious`, `dead`, or another name). The status-effect table is keyed
  by `Status`; `ParseStatus` and `StatusName` are inverse, so this is the
  same as a table keyed by string.
- Combatant kind: the kind is `Player` or `Monster`. The source's 0 modifier
  for any other `type` (App.js:712) is not modelled.
- The restored record: in the source it keeps the `wasLooted` field; the
  model puts back the combatant record without it.
- Monster initiative bonus: looked up by the combatant's id, as App.js:716
  does. The lookup is a map from ids to bonuses, where a missing or falsy
  bonus reads as 0.
- Loot entries: the code at App.js:758-779 and 824-849 works on the loot pool
  copied at the start of each update. The model's pools are values, so this
  copy is implicit.
- Add and batch-add of combatants, the dice engine and any turn
  auto-completion live in files that are not part of this model. The
  constructor takes the starting roster instead.
- Loot.Unlooted: states only the floor of the XP pool. Its loot-pool
  behaviour is stated through `Loot.LootRoundTrip`, because un-merging
  arbitrary items has no simpler closed form.
- Loot.LootRoundTrip and Loot.LedgerRoundTrip: proved for non-negative XP and
  positive integer quantities only. With a negative XP pool the floor at 0
  breaks the round trip, and with a falsy quantity the un-merge splices the
  whole entry.
- Tracker.RestoreUndoesRemoval: stated for an id that is not already in the
  undo list, because otherwise the restore finds the older snapshot first. It
  covers a restore straight after the removal only. A restore after removals of
  other combatants is covered per key and for XP by `Loot.RestoreAfterOthers`,
  not as equality of states. The order of pool entries need not come back: with
  an empty pool, looting A with `[k1]`, then B with `[k2, k1]`, then restoring A
  leaves `[k1, k2]`, where looting B alone gives `[k2, k1]`.
- The documented rules and the code differ in a few places, and the model
  follows the code:
  - Restore sets `active` but keeps a saved dying state (App.js:857).
  - With death saves off, hp <= 0 is stored unclamped (App.js:343-353).
  - Removal sets both action and dash as used (App.js:458-463), although they
    exclude each other when set through checkboxes.
  - A custom status on a dying combatant keeps the dying state.
  - A removed combatant is documented to keep its four actions and its turn
    used, but the round change clears them for every combatant, removed ones
    included (App.js:647-655, 676-679); `CombatantProps.NextRoundReopensRemoved`
    states this.
