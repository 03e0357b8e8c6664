/** One combatant of the encounter and the per-combatant rules of the handlers in
    App.js. Each handler there maps over the roster and, for the combatant with the
    given id, copies the record and assigns fields branch by branch; each function
    here is that copy-and-assign step on one record. The roster-level `map` is in
    the Tracker module. */
module Combatants {
  import opened Common
  import opened Loot

  type Id = int

  /** A d20 roll. */
  type D20 = r: int | 1 <= r <= 20 witness 1

  type Pos = n: int | n > 0 witness 1

  datatype Kind = Player | Monster

  /** The `status` string of a combatant: the three the handlers test for, and any
      other name (a status effect such as "prone"). */
  datatype Status = Active | Unconscious | Dead | Other(name: string)

  function StatusName(s: Status): string {
    match s
    case Active => "active"
    case Unconscious => "unconscious"
    case Dead => "dead"
    case Other(n) => n
  }

  /** A status as the record stores it. */
  predicate WellNamed(s: Status) {
    s.Other? ==> s.name !in {"active", "unconscious", "dead"}
  }

  /** Reads a status string. */
  function ParseStatus(name: string): (r: Status)
    ensures StatusName(r) == name
    ensures WellNamed(r)
  {
    if name == "active" then Active
    else if name == "unconscious" then Unconscious
    else if name == "dead" then Dead
    else Other(name)
  }

  /** A status effect's movement multiplier, as the exact fraction `num / den`. */
  datatype Ratio = Ratio(num: int, den: Pos)

  /** One row of the status-effect table: an absolute movement override and/or a
      multiplier of the base movement. */
  datatype Effect = Effect(movement: Option<int>, multiplier: Option<Ratio>)

  /** The status-effect table, keyed by the status each row is for. */
  type StatusTable = map<Status, Effect>

  /** What the core never writes: identity, kind, dexterity, maximum HP, the
      movement (`parseInt` of the `"<n>ft"` movement string, `None` when the string
      is absent or empty), the shared-initiative group, XP and carried items. */
  datatype Sheet = Sheet(
    id: Id,
    kind: Kind,
    dex: Option<int>,
    maxHp: int,
    movement: Option<nat>,
    sharedInitiativeId: Option<string>,
    xp: Option<int>,
    items: seq<LootItem>)
  {
    /** `char.movement ? parseInt(char.movement.replace('ft', '')) : 0`. */
    function BaseMovement(): nat {
      if movement.Some? then movement.value else 0
    }
  }

  /** The death-save fields; `deathSaveOpportunities` is `None` for `null`. */
  datatype DeathSaves = DeathSaves(
    isDying: bool,
    deathSuccesses: nat,
    deathFailures: nat,
    deathSaveOpportunities: Option<nat>,
    hasMadeDeathSaveThisRound: bool)

  /** The death-save fields as every "no longer dying" branch leaves them. */
  const NotDying := DeathSaves(false, 0, 0, None, false)

  /** The four per-turn action checkboxes. */
  datatype Actions = Actions(actionUsed: bool, bonusActionUsed: bool, dashUsed: bool, reactionUsed: bool)

  const AllSpent := Actions(true, true, true, true)
  const NoneSpent := Actions(false, false, false, false)

  /** A combatant record. `lastAbilityRoll` stands for the last ability-roll record,
      `None` for `null`. */
  datatype Combatant = Combatant(
    sheet: Sheet,
    hp: int,
    status: Status,
    saves: DeathSaves,
    turnCompleted: bool,
    lastAbilityRoll: Option<int>,
    currentMovement: Option<int>,
    isMovementDashed: bool,
    actions: Actions,
    removedFromCombat: bool,
    initiative: int)

  // ---------------------------------------------------------------------------
  // Predicates over one record.

  /** A dead combatant is dying with at least three failures, and one who is not
      dying carries no death-save progress. */
  predicate Consistent(c: Combatant) {
    && (c.status == Dead ==> c.saves.isDying && c.saves.deathFailures >= 3)
    && (!c.saves.isDying ==> c.saves == NotDying)
  }

  /** The "red skull" of the initiative list: dying with three failures or with no
      save opportunity left (App.js:911). */
  predicate IsRedSkull(c: Combatant) {
    && c.saves.isDying
    && (c.saves.deathFailures >= 3
        || (c.saves.deathSaveOpportunities.Some? && c.saves.deathSaveOpportunities.value <= 0))
  }

  /** Sorted after everyone else in the initiative list (App.js:913). */
  predicate IsOut(c: Combatant) {
    IsRedSkull(c) || c.removedFromCombat
  }

  // ---------------------------------------------------------------------------
  // Status-effect movement.

  /** The movement a status-effect row gives a combatant with this base movement:
      the override, else `Math.floor(base * multiplier)`, else the base
      (App.js:433-443, App.js:684-691). */
  function TableMovement(base: nat, e: Effect): (r: int)
    ensures e.movement.Some? ==> r == e.movement.value
    ensures e.movement.None? && e.multiplier.Some? ==>
      r * e.multiplier.value.den <= base * e.multiplier.value.num < (r + 1) * e.multiplier.value.den
    ensures e.movement.None? && e.multiplier.None? ==> r == base
  {
    if e.movement.Some? then e.movement.value
    else if e.multiplier.Some? then (base * e.multiplier.value.num) / e.multiplier.value.den
    else base
  }

  // ---------------------------------------------------------------------------
  // HP, status and the dying lifecycle.

  /** The fields the HP rule may write; everything else is kept. */
  predicate LifecycleOnly(c: Combatant, r: Combatant) {
    r == c.(hp := r.hp, status := r.status, saves := r.saves,
            turnCompleted := r.turnCompleted, lastAbilityRoll := r.lastAbilityRoll)
  }

  /** `updateCharacterHp` on the matching record (App.js:338-401). With death saves
      off, dropping to 0 or below kills outright and stores the hp unclamped;
      otherwise the hp is clamped to `-maxHp`, the dying state is entered or left,
      and reaching `-maxHp` while dying is instant death. */
  function UpdateHp(c: Combatant, newHp: int, deathSavesEnabled: bool): (r: Combatant)
    ensures LifecycleOnly(c, r)
    // death saves off: dead on the spot, hp exactly as given
    ensures !deathSavesEnabled && newHp <= 0 ==>
      && r.hp == newHp && r.status == Dead && r.saves == DeathSaves(true, 0, 3, Some(0), false)
      && r.turnCompleted && r.lastAbilityRoll.None?
    // otherwise the stored hp is clamped from below at -maxHp
    ensures deathSavesEnabled || newHp > 0 ==> r.hp == Max(newHp, -c.sheet.maxHp)
    ensures deathSavesEnabled ==> r.hp >= -c.sheet.maxHp
    ensures r.hp == newHp <==> newHp >= -c.sheet.maxHp || (!deathSavesEnabled && newHp <= 0)
    // falling to 0 or below starts dying, unconscious, with four opportunities
    ensures deathSavesEnabled && !c.saves.isDying && -c.sheet.maxHp < newHp <= 0 ==>
      && r.status == Unconscious && r.saves == DeathSaves(true, 0, 0, Some(4), false)
      && r.turnCompleted
    // healing above 0 ends dying, even for the dead
    ensures deathSavesEnabled && c.saves.isDying && newHp > 0 ==>
      r.status == Active && r.saves == NotDying && !r.turnCompleted
    // healing above 0 wakes an unconscious combatant who is not dying
    ensures newHp > 0 && -c.sheet.maxHp < newHp && c.status == Unconscious && !c.saves.isDying ==>
      r.status == Active && !r.turnCompleted && r.saves == c.saves
    // instant death at -maxHp
    ensures deathSavesEnabled && c.sheet.maxHp >= 0 && newHp <= -c.sheet.maxHp ==>
      && r.hp == -c.sheet.maxHp && r.status == Dead && r.turnCompleted
      // a combatant already dying keeps its successes and its save-made flag
      && (c.saves.isDying ==> r.saves == c.saves.(deathFailures := 3, deathSaveOpportunities := Some(0)))
      // one not yet dying starts dying and dies in the same update
      && (!c.saves.isDying ==> r.saves == DeathSaves(true, 0, 3, Some(0), false))
    // damage taken while already dying, short of -maxHp: only the hp changes
    ensures deathSavesEnabled && c.saves.isDying && -c.sheet.maxHp < newHp <= 0 ==>
      r == c.(hp := newHp, lastAbilityRoll := r.lastAbilityRoll)
    // above 0 HP, a combatant neither dying nor unconscious keeps its lifecycle state
    ensures newHp > 0 && !c.saves.isDying && c.status != Unconscious ==>
      r.status == c.status && r.saves == c.saves && r.turnCompleted == c.turnCompleted
    // with death saves off, a dying combatant above 0 HP stays dying
    ensures !deathSavesEnabled && newHp > 0 && newHp > -c.sheet.maxHp && c.saves.isDying ==>
      r.status == c.status && r.saves == c.saves && r.turnCompleted == c.turnCompleted
    // the last ability roll is cleared exactly for the dead
    ensures r.status == Dead ==> r.lastAbilityRoll.None?
    ensures r.status != Dead ==> r.lastAbilityRoll == c.lastAbilityRoll
    ensures r.status != c.status ==> r.status in {Dead, Unconscious, Active}
  {
    if !deathSavesEnabled && newHp <= 0 then
      c.(hp := newHp, saves := DeathSaves(true, 0, 3, Some(0), false), status := Dead,
         lastAbilityRoll := None, turnCompleted := true)
    else
      var a := c.(hp := Max(newHp, -c.sheet.maxHp));
      var b :=
        if !deathSavesEnabled then a
        else if a.hp <= 0 && !a.saves.isDying then
          a.(saves := DeathSaves(true, 0, 0, Some(4), false), status := Unconscious, turnCompleted := true)
        else if a.hp > 0 && a.saves.isDying then
          a.(saves := NotDying, status := Active, turnCompleted := false)
        else a;
      var d :=
        if b.hp > 0 && b.status == Unconscious && !b.saves.isDying then b.(status := Active, turnCompleted := false)
        else b;
      var e :=
        if d.saves.isDying && d.hp <= -d.sheet.maxHp then
          d.(saves := d.saves.(deathFailures := 3, deathSaveOpportunities := Some(0)),
             status := Dead, turnCompleted := true)
        else d;
      if e.status == Dead then e.(lastAbilityRoll := None) else e
  }

  /** `updateCharacterStatus` on the matching record (App.js:403-448). Setting
      `active` at 0 HP or below is refused and returns the record as it was.
      Otherwise the status is set (`dead` also sets the dying fields, `unconscious`
      above 0 HP and `active` clear them), then the current movement is taken from
      the table row for the new status; a status with no row leaves it as it was. */
  function UpdateStatus(c: Combatant, s: Status, table: StatusTable): (r: Combatant)
    ensures s == Active && c.hp <= 0 ==> r == c
    ensures !(s == Active && c.hp <= 0) ==> r.status == s
    ensures s == Dead ==>
      && r.saves == c.saves.(isDying := true, deathFailures := 3, deathSaveOpportunities := Some(0))
      && r.lastAbilityRoll.None? && r.turnCompleted
    ensures (s == Unconscious || s == Active) && c.hp > 0 ==>
      r.saves == NotDying && r.turnCompleted == (s == Unconscious)
    // any other status keeps the dying state as it is
    ensures s != Dead && !((s == Unconscious || s == Active) && c.hp > 0) ==> r.saves == c.saves
    // only `dead` clears the last ability roll
    ensures s != Dead ==> r.lastAbilityRoll == c.lastAbilityRoll
    // a custom status, or `unconscious` at 0 HP or below, leaves the turn flag alone
    ensures s.Other? || (s == Unconscious && c.hp <= 0) ==> r.turnCompleted == c.turnCompleted
    ensures !(s == Active && c.hp <= 0) ==>
      r.currentMovement == (if s in table then Some(TableMovement(c.sheet.BaseMovement(), table[s])) else c.currentMovement)
    ensures r == c.(status := r.status, saves := r.saves, turnCompleted := r.turnCompleted,
                    lastAbilityRoll := r.lastAbilityRoll, currentMovement := r.currentMovement)
  {
    if s == Active && c.hp <= 0 then c
    else
      var u := c.(status := s);
      var v :=
        if s == Dead then
          u.(saves := u.saves.(isDying := true, deathFailures := 3, deathSaveOpportunities := Some(0)),
             lastAbilityRoll := None, turnCompleted := true)
        else if s == Unconscious && u.hp > 0 then u.(saves := NotDying, turnCompleted := true)
        else if s == Active then u.(saves := NotDying, turnCompleted := false)
        else u;
      if s in table then v.(currentMovement := Some(TableMovement(c.sheet.BaseMovement(), table[s]))) else v
  }

  /** `toggleRemovedFromCombat` on the matching record (App.js:450-467): removal
      spends every action and completes the turn; putting back only reopens the
      turn. */
  function ToggleRemoved(c: Combatant, isRemoved: bool): (r: Combatant)
    ensures r.removedFromCombat == isRemoved && r.turnCompleted == isRemoved
    ensures isRemoved ==> r.actions == AllSpent && IsOut(r)
    ensures !isRemoved ==> r.actions == c.actions
    ensures r == c.(removedFromCombat := r.removedFromCombat, turnCompleted := r.turnCompleted,
                    actions := r.actions)
  {
    var u := c.(removedFromCombat := isRemoved);
    if isRemoved then u.(actions := AllSpent, turnCompleted := true)
    else u.(turnCompleted := false)
  }

  // ---------------------------------------------------------------------------
  // Action economy.

  /** The boolean fields `updateActionCheckbox` is called with. */
  datatype Checkbox = ActionBox | BonusActionBox | DashBox | ReactionBox | TurnCompletedBox

  function Flag(c: Combatant, b: Checkbox): bool {
    match b
    case ActionBox => c.actions.actionUsed
    case BonusActionBox => c.actions.bonusActionUsed
    case DashBox => c.actions.dashUsed
    case ReactionBox => c.actions.reactionUsed
    case TurnCompletedBox => c.turnCompleted
  }

  /** `{ ...char, [checkboxType]: value }`. */
  function SetFlag(c: Combatant, b: Checkbox, v: bool): Combatant {
    match b
    case ActionBox => c.(actions := c.actions.(actionUsed := v))
    case BonusActionBox => c.(actions := c.actions.(bonusActionUsed := v))
    case DashBox => c.(actions := c.actions.(dashUsed := v))
    case ReactionBox => c.(actions := c.actions.(reactionUsed := v))
    case TurnCompletedBox => c.(turnCompleted := v)
  }

  /** The flag that checking `b` clears: action and dash exclude each other. */
  function Excluded(b: Checkbox): Option<Checkbox> {
    match b
    case ActionBox => Some(DashBox)
    case DashBox => Some(ActionBox)
    case _ => None
  }

  /** `updateActionCheckbox` on the matching record (App.js:517-546). */
  function UpdateCheckbox(c: Combatant, b: Checkbox, v: bool): (r: Combatant)
    ensures Flag(r, b) == v
    ensures v && Excluded(b).Some? ==> !Flag(r, Excluded(b).value)
    ensures forall o :: o != b && (!v || Excluded(b) != Some(o)) ==> Flag(r, o) == Flag(c, o)
    ensures b == DashBox ==>
      r.isMovementDashed == v && r.currentMovement == Some(if v then 2 * c.sheet.BaseMovement() else c.sheet.BaseMovement())
    ensures b != DashBox ==>
      r.isMovementDashed == c.isMovementDashed && r.currentMovement == c.currentMovement
    ensures r == c.(actions := r.actions, turnCompleted := r.turnCompleted,
                    currentMovement := r.currentMovement, isMovementDashed := r.isMovementDashed)
  {
    var n := SetFlag(c, b, v);
    var m :=
      if b == ActionBox && v then n.(actions := n.actions.(dashUsed := false))
      else if b == DashBox && v then n.(actions := n.actions.(actionUsed := false))
      else n;
    if b == DashBox then
      if v then m.(currentMovement := Some(c.sheet.BaseMovement() * 2), isMovementDashed := true)
      else m.(currentMovement := Some(c.sheet.BaseMovement()), isMovementDashed := false)
    else m
  }

  /** The checkbox a trait's action type spends in `handleActivateTrait`
      (App.js:633-640); any other type is a free action. */
  function TraitCheckbox(actionType: string): (r: Option<Checkbox>)
    ensures r.Some? <==> actionType in {"action", "bonusAction", "reaction"}
    ensures actionType == "action" ==> r == Some(ActionBox)
    ensures actionType == "bonusAction" ==> r == Some(BonusActionBox)
    ensures actionType == "reaction" ==> r == Some(ReactionBox)
  {
    if actionType == "action" then Some(ActionBox)
    else if actionType == "bonusAction" then Some(BonusActionBox)
    else if actionType == "reaction" then Some(ReactionBox)
    else None
  }

  /** `handleActivateTrait` on the record of the combatant using the trait. */
  function ActivateTrait(c: Combatant, actionType: string): Combatant {
    match TraitCheckbox(actionType)
    case None => c
    case Some(b) => UpdateCheckbox(c, b, true)
  }

  /** `updateCurrentMovement` on the matching record (App.js:572-582). */
  function UpdateCurrentMovement(c: Combatant, m: int): (r: Combatant)
    ensures r.currentMovement.Some? && r.currentMovement.value >= 0
    ensures m >= 0 ==> r.currentMovement == Some(m)
    ensures m < 0 ==> r.currentMovement == Some(0)
    ensures r == c.(currentMovement := r.currentMovement)
  {
    c.(currentMovement := Some(Max(0, m)))
  }

  // ---------------------------------------------------------------------------
  // Death saves and the round change.

  /** Whether `handleRollDeathSave` acts on this record (App.js:587). */
  predicate CanSave(c: Combatant, deathSavesEnabled: bool) {
    c.saves.isDying && !c.saves.hasMadeDeathSaveThisRound && deathSavesEnabled
  }

  /** An opportunity counter after one is used: positive counts drop by one. */
  function UseOpportunity(o: Option<nat>): (r: Option<nat>)
    ensures o.Some? && o.value > 0 ==> r == Some(o.value - 1)
    ensures !(o.Some? && o.value > 0) ==> r == o
  {
    if o.Some? && o.value > 0 then Some(o.value - 1) else o
  }

  /** `handleRollDeathSave` on the matching record (App.js:584-631), with the d20
      roll as a parameter. A roll of 10 or more is a success and the third success
      stabilises at 1 HP; a lower roll is a failure, a natural 1 counts twice, and
      the third failure is death. */
  function RollDeathSave(c: Combatant, roll: D20, deathSavesEnabled: bool): (r: Combatant)
    ensures !CanSave(c, deathSavesEnabled) ==> r == c
    ensures CanSave(c, deathSavesEnabled) && roll >= 10 && c.saves.deathSuccesses >= 2 ==>
      r == c.(hp := 1, saves := NotDying, status := Active, turnCompleted := false)
    ensures CanSave(c, deathSavesEnabled) && roll >= 10 && c.saves.deathSuccesses < 2 ==>
      r == c.(saves := c.saves.(deathSuccesses := c.saves.deathSuccesses + 1, hasMadeDeathSaveThisRound := true,
                                deathSaveOpportunities := UseOpportunity(c.saves.deathSaveOpportunities)))
    ensures CanSave(c, deathSavesEnabled) && roll < 10 ==>
      && r.saves.deathFailures == c.saves.deathFailures + (if roll == 1 then 2 else 1)
      && r.saves.isDying && r.saves.hasMadeDeathSaveThisRound
      && r.saves.deathSuccesses == c.saves.deathSuccesses
      && r.hp == c.hp
      && (r.saves.deathFailures >= 3 ==>
            r.status == Dead && r.saves.deathSaveOpportunities == Some(0) && r.turnCompleted)
      && (r.saves.deathFailures < 3 ==>
            && r.status == c.status && r.turnCompleted == c.turnCompleted
            && r.saves.deathSaveOpportunities == UseOpportunity(c.saves.deathSaveOpportunities))
    ensures r == c.(hp := r.hp, status := r.status, saves := r.saves, turnCompleted := r.turnCompleted)
  {
    if CanSave(c, deathSavesEnabled) then
      var u := c.(saves := c.saves.(hasMadeDeathSaveThisRound := true,
                                    deathSaveOpportunities := UseOpportunity(c.saves.deathSaveOpportunities)));
      if roll >= 10 then
        var s := u.(saves := u.saves.(deathSuccesses := u.saves.deathSuccesses + 1));
        if s.saves.deathSuccesses >= 3 then
          s.(hp := 1, saves := NotDying, status := Active, turnCompleted := false)
        else s
      else
        var f := u.(saves := u.saves.(deathFailures := u.saves.deathFailures + (if roll == 1 then 2 else 1)));
        if f.saves.deathFailures >= 3 then
          f.(status := Dead, saves := f.saves.(deathSaveOpportunities := Some(0)), turnCompleted := true)
        else f
    else c
  }

  /** The death-save part of `handleNextRound` (App.js:654-680): a dying combatant
      who did not roll this round loses an opportunity, and one left with none and
      fewer than three failures dies; the turn stays completed exactly for the
      dying who are not dead. */
  function RoundSaves(c: Combatant, deathSavesEnabled: bool): (r: Combatant)
    ensures !(deathSavesEnabled && c.saves.isDying) ==> r == c.(turnCompleted := false)
    ensures r.turnCompleted <==> deathSavesEnabled && r.saves.isDying && r.status != Dead
    ensures r.saves.isDying == c.saves.isDying
    ensures deathSavesEnabled && c.saves.isDying && !c.saves.hasMadeDeathSaveThisRound ==>
      r.saves.deathSaveOpportunities == UseOpportunity(c.saves.deathSaveOpportunities)
    ensures deathSavesEnabled && c.saves.isDying && c.saves.hasMadeDeathSaveThisRound ==>
      r.saves.deathSaveOpportunities == c.saves.deathSaveOpportunities
    ensures deathSavesEnabled && c.saves.isDying && r.saves.deathSaveOpportunities == Some(0)
            && c.saves.deathFailures < 3
            ==> r.status == Dead && r.saves.deathFailures == 3
    ensures r.status != c.status || r.saves.deathFailures != c.saves.deathFailures ==>
      r.status == Dead && r.saves.deathFailures == 3
    // and it dies of attrition only when the opportunities have run out
    ensures deathSavesEnabled && c.saves.isDying
            && !(r.saves.deathSaveOpportunities == Some(0) && c.saves.deathFailures < 3) ==>
      r.status == c.status && r.saves.deathFailures == c.saves.deathFailures
    ensures r.saves == c.saves.(deathSaveOpportunities := r.saves.deathSaveOpportunities,
                                deathFailures := r.saves.deathFailures)
    ensures r == c.(saves := r.saves, status := r.status, turnCompleted := r.turnCompleted)
  {
    if deathSavesEnabled && c.saves.isDying then
      var d :=
        if !c.saves.hasMadeDeathSaveThisRound
        then c.(saves := c.saves.(deathSaveOpportunities := UseOpportunity(c.saves.deathSaveOpportunities)))
        else c;
      var e :=
        if d.saves.deathSaveOpportunities.Some? && d.saves.deathSaveOpportunities.value <= 0
           && d.saves.deathFailures < 3
        then d.(saves := d.saves.(deathFailures := 3), status := Dead)
        else d;
      e.(turnCompleted := e.status != Dead)
    else c.(turnCompleted := false)
  }

  /** `handleNextRound` on one record (App.js:642-697): the action flags, the
      save-made flag and the dash flag are cleared, the death-save rule of
      `RoundSaves` applies, and the current movement is reset from the table row
      for the (new) status. A row with neither a movement nor a multiplier, or no
      row, gives the sheet's movement, `undefined` (`None`) when it has none; the
      status handler gives 0 there instead. */
  function NextRoundCombatant(c: Combatant, deathSavesEnabled: bool, table: StatusTable): (r: Combatant)
    ensures r.actions == NoneSpent && !r.saves.hasMadeDeathSaveThisRound && !r.isMovementDashed
    ensures r.status in table && (table[r.status].movement.Some? || table[r.status].multiplier.Some?) ==>
      r.currentMovement == Some(TableMovement(c.sheet.BaseMovement(), table[r.status]))
    // a row with neither field, or no row, leaves `undefined` when the sheet has no movement
    ensures !(r.status in table && (table[r.status].movement.Some? || table[r.status].multiplier.Some?)) ==>
      r.currentMovement == c.sheet.movement
    ensures var s := RoundSaves(c, deathSavesEnabled);
      r == s.(actions := NoneSpent, saves := s.saves.(hasMadeDeathSaveThisRound := false),
              isMovementDashed := false, currentMovement := r.currentMovement)
  {
    var s := RoundSaves(c, deathSavesEnabled);
    var v := s.(actions := NoneSpent, saves := s.saves.(hasMadeDeathSaveThisRound := false),
                isMovementDashed := false);
    v.(currentMovement :=
         if v.status in table && (table[v.status].movement.Some? || table[v.status].multiplier.Some?)
         then Some(TableMovement(c.sheet.BaseMovement(), table[v.status]))
         else c.sheet.movement)
  }

  /** The record `handleRestoreDeletedCharacter` puts back (App.js:857): back in
      combat, `active`, turn open; the dying state is left as it was saved. */
  function Restored(snapshot: Combatant): (r: Combatant)
    ensures !r.removedFromCombat && r.status == Active && !r.turnCompleted
    ensures r.saves == snapshot.saves && r.hp == snapshot.hp && r.sheet == snapshot.sheet
    ensures r == snapshot.(removedFromCombat := false, status := Active, turnCompleted := false)
  {
    snapshot.(removedFromCombat := false, status := Active, turnCompleted := false)
  }
}
