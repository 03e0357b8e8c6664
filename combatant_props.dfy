/** Properties of the per-combatant rules that relate several calls: the
    invariant every rule keeps, idempotence of the setters, one death save per
    round, the action/dash exclusion, and the countdown of missed death saves. */
module CombatantProps {
  import opened Common
  import opened Combatants

  /** One event on one combatant record, as the handlers deliver it. */
  datatype Event =
    | SetHp(newHp: int)
    | SetStatus(s: Status)
    | SetRemoved(isRemoved: bool)
    | Check(box: Checkbox, value: bool)
    | UseTrait(actionType: string)
    | SetMovement(m: int)
    | Save(roll: D20)
    | NewRound
    | Restore

  /** The record after one event, under the encounter's death-save switch and
      status-effect table. */
  function Apply(c: Combatant, ev: Event, deathSavesEnabled: bool, table: StatusTable): Combatant {
    match ev
    case SetHp(h) => UpdateHp(c, h, deathSavesEnabled)
    case SetStatus(s) => UpdateStatus(c, s, table)
    case SetRemoved(b) => ToggleRemoved(c, b)
    case Check(b, v) => UpdateCheckbox(c, b, v)
    case UseTrait(t) => ActivateTrait(c, t)
    case SetMovement(m) => UpdateCurrentMovement(c, m)
    case Save(roll) => RollDeathSave(c, roll, deathSavesEnabled)
    case NewRound => NextRoundCombatant(c, deathSavesEnabled, table)
    case Restore => Restored(c)
  }

  /** Every rule keeps `Consistent`: the dead are dying with three failures, and
      the living who are not dying carry no death-save progress. */
  lemma ApplyKeepsConsistent(c: Combatant, ev: Event, deathSavesEnabled: bool, table: StatusTable)
    requires Consistent(c)
    ensures Consistent(Apply(c, ev, deathSavesEnabled, table))
  {
    match ev
    case SetHp(h) =>
    case SetStatus(s) =>
    case SetRemoved(b) =>
    case Check(b, v) =>
    case UseTrait(t) =>
    case SetMovement(m) =>
    case Save(roll) =>
    case NewRound =>
    case Restore =>
  }

  /** No event changes the sheet: the id, the kind and the loaded statistics are
      never rewritten by a handler. */
  lemma ApplyKeepsSheet(c: Combatant, ev: Event, deathSavesEnabled: bool, table: StatusTable)
    ensures Apply(c, ev, deathSavesEnabled, table).sheet == c.sheet
  {
    match ev
    case SetHp(h) =>
    case SetStatus(s) =>
    case SetRemoved(b) =>
    case Check(b, v) =>
    case UseTrait(t) =>
    case SetMovement(m) =>
    case Save(roll) =>
    case NewRound =>
    case Restore =>
  }

  /** A combatant that becomes `active` through any event but `Restore` is no
      longer dying. */
  lemma ActiveOnlyWhenRecovered(c: Combatant, ev: Event, deathSavesEnabled: bool, table: StatusTable)
    requires Consistent(c) && ev != Restore && c.status != Active
    requires Apply(c, ev, deathSavesEnabled, table).status == Active
    ensures !Apply(c, ev, deathSavesEnabled, table).saves.isDying
  {
    match ev
    case SetHp(h) =>
    case SetStatus(s) =>
    case SetRemoved(b) =>
    case Check(b, v) =>
    case UseTrait(t) =>
    case SetMovement(m) =>
    case Save(roll) =>
    case NewRound =>
  }

  /** `Restore`, by contrast, puts a dying snapshot back as `active` and still
      dying (App.js:857). */
  lemma RestoreKeepsDying(c: Combatant)
    requires c.saves.isDying
    ensures Restored(c).status == Active && Restored(c).saves.isDying
  {
  }

  /** Entering the same HP twice is the same as entering it once. */
  lemma HpIdempotent(c: Combatant, h: int, deathSavesEnabled: bool)
    ensures UpdateHp(UpdateHp(c, h, deathSavesEnabled), h, deathSavesEnabled) == UpdateHp(c, h, deathSavesEnabled)
  {
  }

  /** Setting the same status twice is the same as setting it once. */
  lemma StatusIdempotent(c: Combatant, s: Status, table: StatusTable)
    ensures UpdateStatus(UpdateStatus(c, s, table), s, table) == UpdateStatus(c, s, table)
  {
  }

  /** A second death save in the same round changes nothing: the first one either
      marks the save as made or ends the dying state. */
  lemma OneSavePerRound(c: Combatant, r1: D20, r2: D20, deathSavesEnabled: bool)
    ensures var once := RollDeathSave(c, r1, deathSavesEnabled);
      RollDeathSave(once, r2, deathSavesEnabled) == once
  {
  }

  /** Action and dash are never both checked after a checkbox update, once they
      were not both checked before. */
  lemma CheckboxKeepsExclusion(c: Combatant, b: Checkbox, v: bool)
    requires !(c.actions.actionUsed && c.actions.dashUsed)
    ensures !(UpdateCheckbox(c, b, v).actions.actionUsed && UpdateCheckbox(c, b, v).actions.dashUsed)
  {
    if v && b == ActionBox {
      assert !Flag(UpdateCheckbox(c, b, v), DashBox);
    } else if v && b == DashBox {
      assert !Flag(UpdateCheckbox(c, b, v), ActionBox);
    } else {
      assert Flag(UpdateCheckbox(c, b, v), ActionBox) ==> Flag(c, ActionBox);
      assert Flag(UpdateCheckbox(c, b, v), DashBox) ==> Flag(c, DashBox);
    }
  }

  /** ... nor after a trait is used. */
  lemma TraitKeepsExclusion(c: Combatant, actionType: string)
    requires !(c.actions.actionUsed && c.actions.dashUsed)
    ensures !(ActivateTrait(c, actionType).actions.actionUsed && ActivateTrait(c, actionType).actions.dashUsed)
  {
    if TraitCheckbox(actionType).Some? {
      CheckboxKeepsExclusion(c, TraitCheckbox(actionType).value, true);
    }
  }

  /** A trait never dashes, so it never changes movement. */
  lemma TraitKeepsMovement(c: Combatant, actionType: string)
    ensures ActivateTrait(c, actionType).currentMovement == c.currentMovement
    ensures ActivateTrait(c, actionType).isMovementDashed == c.isMovementDashed
  {
  }

  /** Dashing and then un-dashing leaves the base movement and clears the dash,
      whatever the movement was before. */
  lemma DashThenUndash(c: Combatant)
    ensures var d := UpdateCheckbox(UpdateCheckbox(c, DashBox, true), DashBox, false);
      d.currentMovement == Some(c.sheet.BaseMovement()) && !d.isMovementDashed && !d.actions.dashUsed
      && !d.actions.actionUsed
  {
  }

  /** The round change treats a combatant taken out of combat like any other:
      it stays out, but its four actions are open again and, unless it is dying
      with death saves on, so is its turn. */
  lemma NextRoundReopensRemoved(c: Combatant, deathSavesEnabled: bool, table: StatusTable)
    requires c.removedFromCombat
    ensures var r := NextRoundCombatant(c, deathSavesEnabled, table);
      && r.removedFromCombat && r.actions == NoneSpent
      && (!(deathSavesEnabled && c.saves.isDying) ==> !r.turnCompleted)
  {
  }

  // ---------------------------------------------------------------------------
  // Rounds without a death save.

  /** The record after `n` round changes with death saves on. */
  function Rounds(c: Combatant, table: StatusTable, n: nat): Combatant
    decreases n
  {
    if n == 0 then c else NextRoundCombatant(Rounds(c, table, n - 1), true, table)
  }

  /** A dying combatant with `k` opportunities who never rolls loses one per
      round and stays dying, neither dead nor a red skull, for the first `k - 1`
      rounds. */
  lemma {:induction false} MissedSavesCountDown(c: Combatant, table: StatusTable, k: nat, j: nat)
    requires c.saves.isDying && c.status != Dead && c.saves.deathFailures < 3
    requires c.saves.deathSaveOpportunities == Some(k) && !c.saves.hasMadeDeathSaveThisRound
    requires j < k
    ensures var d := Rounds(c, table, j);
      && d.saves.isDying && d.status == c.status && d.saves.deathFailures == c.saves.deathFailures
      && d.saves.deathSaveOpportunities == Some(k - j) && !d.saves.hasMadeDeathSaveThisRound
      && !IsRedSkull(d)
    decreases j
  {
    if j > 0 {
      MissedSavesCountDown(c, table, k, j - 1);
    }
  }

  /** ... and dies at the `k`-th round, with three failures, as a red skull. */
  lemma MissedSavesKill(c: Combatant, table: StatusTable, k: nat)
    requires c.saves.isDying && c.status != Dead && c.saves.deathFailures < 3
    requires c.saves.deathSaveOpportunities == Some(k) && !c.saves.hasMadeDeathSaveThisRound
    requires k >= 1
    ensures var d := Rounds(c, table, k);
      && d.status == Dead && d.saves.isDying && d.saves.deathFailures == 3
      && d.saves.deathSaveOpportunities == Some(0) && !d.turnCompleted && IsRedSkull(d)
  {
    MissedSavesCountDown(c, table, k, k - 1);
  }

  /** Three successful saves in three rounds bring any dying combatant, even one
      marked dead, back at 1 HP. */
  lemma ThreeSuccessesStabilise(c: Combatant, table: StatusTable, r1: D20, r2: D20, r3: D20)
    requires CanSave(c, true) && c.saves.deathSuccesses == 0
    requires r1 >= 10 && r2 >= 10 && r3 >= 10
    ensures var d1 := NextRoundCombatant(RollDeathSave(c, r1, true), true, table);
      var d2 := NextRoundCombatant(RollDeathSave(d1, r2, true), true, table);
      var d3 := RollDeathSave(d2, r3, true);
      d3.hp == 1 && d3.status == Active && d3.saves == NotDying && !d3.turnCompleted
  {
  }
}
