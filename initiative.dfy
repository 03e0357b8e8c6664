/** Initiative: the modifier and the group rule of `handleRerollAllInitiatives`
    (App.js:702-740) and the display order `sortedCharactersForInitiative`
    (App.js:906-924). */
module Initiative {
  import opened Common
  import opened Combatants

  // ---------------------------------------------------------------------------
  // Rerolling.

  /** Rerolled: neither removed from combat nor marked dead (App.js:709). A red
      skull that is not marked dead is rerolled. */
  predicate Eligible(c: Combatant) {
    !c.removedFromCombat && c.status != Dead
  }

  /** The shared-initiative group, when the id is a non-empty string. */
  function GroupOf(c: Combatant): (r: Option<string>)
    ensures r.Some? <==> c.sheet.sharedInitiativeId.Some? && c.sheet.sharedInitiativeId.value != ""
    ensures r.Some? ==> r == c.sheet.sharedInitiativeId
  {
    if c.sheet.sharedInitiativeId.Some? && c.sheet.sharedInitiativeId.value != "" then c.sheet.sharedInitiativeId
    else None
  }

  /** `char.dex || 10`: a missing or zero dexterity counts as 10. */
  function DexScore(c: Combatant): int {
    if c.sheet.dex.Some? && c.sheet.dex.value != 0 then c.sheet.dex.value else 10
  }

  /** The initiative modifier (App.js:713-719): `Math.floor((dex - 10) / 2)` for a
      player; for a monster, the initiative bonus of the monster template whose id
      is the combatant's id, 0 when there is none. */
  function Modifier(c: Combatant, bonus: map<Id, int>): (r: int)
    ensures c.sheet.kind == Player ==> 2 * r <= DexScore(c) - 10 < 2 * r + 2
    ensures c.sheet.kind == Monster ==> r == (if c.sheet.id in bonus then bonus[c.sheet.id] else 0)
  {
    match c.sheet.kind
    case Player => (DexScore(c) - 10) / 2
    case Monster => if c.sheet.id in bonus then bonus[c.sheet.id] else 0
  }

  /** The first eligible member of group `g`, which draws the group's roll; -1 when
      there is none. */
  function Leader(s: seq<Combatant>, g: string): (r: int)
    ensures -1 <= r < |s|
    ensures r >= 0 ==> Eligible(s[r]) && GroupOf(s[r]) == Some(g)
    ensures r >= 0 ==> forall j :: 0 <= j < r ==> !(Eligible(s[j]) && GroupOf(s[j]) == Some(g))
    ensures r == -1 ==> forall j :: 0 <= j < |s| ==> !(Eligible(s[j]) && GroupOf(s[j]) == Some(g))
  {
    FindFirst(s, (c: Combatant) => Eligible(c) && GroupOf(c) == Some(g))
  }

  /** The combatant at `i` takes a fresh d20: it is eligible and either in no
      group or the first eligible member of its group. */
  predicate Draws(s: seq<Combatant>, i: int)
    requires 0 <= i < |s|
  {
    Eligible(s[i]) && (GroupOf(s[i]).None? || Leader(s, GroupOf(s[i]).value) == i)
  }

  /** How many d20s the loop has drawn before reaching index `i`. */
  function DrawsBefore(s: seq<Combatant>, i: int): (r: nat)
    requires 0 <= i <= |s|
    ensures r <= i
    decreases i
  {
    if i == 0 then 0
    else DrawsBefore(s, i - 1) + (if Draws(s, i - 1) then 1 else 0)
  }

  /** The rerolled initiative of the eligible combatant at `i`, when the `n`-th
      d20 drawn is `rollAt(n)`: its own draw plus its modifier, or, in a group,
      the value the group's first eligible member drew with that member's own
      modifier. */
  function NewInitiative(s: seq<Combatant>, i: int, bonus: map<Id, int>, rollAt: nat -> D20): int
    requires 0 <= i < |s| && Eligible(s[i])
  {
    match GroupOf(s[i])
    case None => rollAt(DrawsBefore(s, i)) + Modifier(s[i], bonus)
    case Some(g) =>
      var l := Leader(s, g);
      rollAt(DrawsBefore(s, l)) + Modifier(s[l], bonus)
  }

  /** The roster after the reroll. */
  function Rerolled(s: seq<Combatant>, bonus: map<Id, int>, rollAt: nat -> D20): (r: seq<Combatant>)
    ensures |r| == |s|
    ensures forall i :: 0 <= i < |s| && !Eligible(s[i]) ==> r[i] == s[i]
    ensures forall i :: 0 <= i < |s| && Eligible(s[i]) ==>
      r[i] == s[i].(initiative := NewInitiative(s, i, bonus, rollAt))
  {
    seq(|s|, i requires 0 <= i < |s| =>
      if Eligible(s[i]) then s[i].(initiative := NewInitiative(s, i, bonus, rollAt)) else s[i])
  }

  /** The draws at two different positions are different d20s: every ungrouped
      combatant and every group rolls on its own. */
  lemma {:induction false} DistinctDraws(s: seq<Combatant>, i: int, j: int)
    requires 0 <= i < j < |s| && Draws(s, i)
    ensures DrawsBefore(s, i) < DrawsBefore(s, j)
    decreases j - i
  {
    if j == i + 1 {
    } else {
      DistinctDraws(s, i, j - 1);
    }
  }

  /** All eligible members of one group get the same initiative, taken from one
      d20 (App.js:721-730). */
  lemma GroupShares(s: seq<Combatant>, bonus: map<Id, int>, rollAt: nat -> D20, i: int, j: int, g: string)
    requires 0 <= i < |s| && 0 <= j < |s|
    requires Eligible(s[i]) && Eligible(s[j]) && GroupOf(s[i]) == Some(g) && GroupOf(s[j]) == Some(g)
    ensures Rerolled(s, bonus, rollAt)[i].initiative == Rerolled(s, bonus, rollAt)[j].initiative
    ensures var l := Leader(s, g);
      0 <= l <= i && Draws(s, l)
      && Rerolled(s, bonus, rollAt)[i].initiative == rollAt(DrawsBefore(s, l)) + Modifier(s[l], bonus)
  {
  }

  /** The leader of `g` is at `i` exactly when `s[i]` is an eligible member of
      `g` and no earlier member is eligible; otherwise an eligible member at `i`
      has its leader before `i`. */
  lemma LeaderAt(s: seq<Combatant>, i: int, g: string)
    requires 0 <= i < |s|
    ensures Leader(s, g) == i <==> Eligible(s[i]) && GroupOf(s[i]) == Some(g) && !(0 <= Leader(s, g) < i)
    ensures Eligible(s[i]) && GroupOf(s[i]) == Some(g) ==> 0 <= Leader(s, g) <= i
  {
  }

  /** What the reroll pass knows after `i` combatants: those are done, the rest
      untouched, `draws` d20s drawn, and `shared` holds the value of each group
      whose leader was passed. */
  ghost predicate PassState(s: seq<Combatant>, bonus: map<Id, int>, rollAt: nat -> D20, i: int,
                            updated: seq<Combatant>, shared: map<string, int>, draws: nat) {
    && 0 <= i <= |s|
    && RosterPassed(s, bonus, rollAt, i, updated)
    && draws == DrawsBefore(s, i)
    && GroupsPassed(s, bonus, rollAt, i, shared)
  }

  /** The first `i` combatants carry their rerolled initiative, the rest are
      as they were. */
  ghost predicate RosterPassed(s: seq<Combatant>, bonus: map<Id, int>, rollAt: nat -> D20, i: int,
                               updated: seq<Combatant>) {
    && |updated| == |s|
    && (forall j :: 0 <= j < i && j < |s| ==> updated[j] == Rerolled(s, bonus, rollAt)[j])
    && (forall j :: 0 <= i <= j < |s| ==> updated[j] == s[j])
  }

  /** `shared` holds the value of exactly the groups whose leader is before
      `i`. */
  ghost predicate GroupsPassed(s: seq<Combatant>, bonus: map<Id, int>, rollAt: nat -> D20, i: int,
                               shared: map<string, int>) {
    && (forall g :: g in shared <==> 0 <= Leader(s, g) < i)
    && (forall g :: g in shared ==>
          shared[g] == rollAt(DrawsBefore(s, Leader(s, g))) + Modifier(s[Leader(s, g)], bonus))
  }

  /** Skipping a combatant that is removed or dead. */
  lemma PassSkip(s: seq<Combatant>, bonus: map<Id, int>, rollAt: nat -> D20, i: int,
                 updated: seq<Combatant>, shared: map<string, int>, draws: nat)
    requires PassState(s, bonus, rollAt, i, updated, shared, draws) && i < |updated| && !Eligible(updated[i])
    ensures PassState(s, bonus, rollAt, i + 1, updated, shared, draws)
  {
    assert updated[i] == s[i];
    SkipRoster(s, bonus, rollAt, i, updated);
    KeepGroups(s, bonus, rollAt, i, shared);
  }

  lemma SkipRoster(s: seq<Combatant>, bonus: map<Id, int>, rollAt: nat -> D20, i: int, updated: seq<Combatant>)
    requires 0 <= i < |s| && !Eligible(s[i]) && RosterPassed(s, bonus, rollAt, i, updated)
    ensures RosterPassed(s, bonus, rollAt, i + 1, updated)
  {
    assert updated[i] == s[i] == Rerolled(s, bonus, rollAt)[i];
  }

  /** A combatant that leads no group leaves the groups as they were. */
  lemma KeepGroups(s: seq<Combatant>, bonus: map<Id, int>, rollAt: nat -> D20, i: int, shared: map<string, int>)
    requires 0 <= i < |s|
    requires !Eligible(s[i]) || (GroupOf(s[i]).Some? && Leader(s, GroupOf(s[i]).value) < i)
    requires GroupsPassed(s, bonus, rollAt, i, shared)
    ensures GroupsPassed(s, bonus, rollAt, i + 1, shared)
  {
    forall g
      ensures 0 <= Leader(s, g) < i + 1 ==> 0 <= Leader(s, g) < i
    {
      LeaderAt(s, i, g);
    }
  }

  /** A combatant that draws: ungrouped, or the first of its group. */
  lemma PassDraw(s: seq<Combatant>, bonus: map<Id, int>, rollAt: nat -> D20, i: int,
                 updated: seq<Combatant>, shared: map<string, int>, draws: nat)
    requires PassState(s, bonus, rollAt, i, updated, shared, draws) && i < |updated| && Eligible(updated[i])
    requires GroupOf(updated[i]).Some? ==> GroupOf(updated[i]).value !in shared
    ensures var v := rollAt(draws) + Modifier(updated[i], bonus);
      var shared' := if GroupOf(updated[i]).Some? then shared[GroupOf(updated[i]).value := v] else shared;
      PassState(s, bonus, rollAt, i + 1, updated[i := updated[i].(initiative := v)], shared', draws + 1)
  {
    assert updated[i] == s[i];
    PassDrawAt(s, bonus, rollAt, i, updated, shared, draws);
  }

  lemma PassDrawAt(s: seq<Combatant>, bonus: map<Id, int>, rollAt: nat -> D20, i: int,
                   updated: seq<Combatant>, shared: map<string, int>, draws: nat)
    requires PassState(s, bonus, rollAt, i, updated, shared, draws) && i < |s| && Eligible(s[i])
    requires GroupOf(s[i]).Some? ==> GroupOf(s[i]).value !in shared
    ensures var v := rollAt(draws) + Modifier(s[i], bonus);
      var shared' := if GroupOf(s[i]).Some? then shared[GroupOf(s[i]).value := v] else shared;
      PassState(s, bonus, rollAt, i + 1, updated[i := s[i].(initiative := v)], shared', draws + 1)
  {
    if GroupOf(s[i]).Some? {
      LeaderAt(s, i, GroupOf(s[i]).value);
    }
    assert Draws(s, i);
    DrawRoster(s, bonus, rollAt, i, updated, draws);
    DrawGroups(s, bonus, rollAt, i, shared, draws);
  }

  lemma DrawRoster(s: seq<Combatant>, bonus: map<Id, int>, rollAt: nat -> D20, i: int,
                   updated: seq<Combatant>, draws: nat)
    requires 0 <= i < |s| && Draws(s, i) && draws == DrawsBefore(s, i)
    requires RosterPassed(s, bonus, rollAt, i, updated)
    ensures RosterPassed(s, bonus, rollAt, i + 1, updated[i := s[i].(initiative := rollAt(draws) + Modifier(s[i], bonus))])
  {
    if GroupOf(s[i]).Some? {
      LeaderAt(s, i, GroupOf(s[i]).value);
    }
    var v := rollAt(draws) + Modifier(s[i], bonus);
    var u := updated[i := s[i].(initiative := v)];
    assert NewInitiative(s, i, bonus, rollAt) == v;
    forall j | 0 <= j < i + 1 && j < |s|
      ensures u[j] == Rerolled(s, bonus, rollAt)[j]
    {
      if j < i {
        assert u[j] == updated[j];
      }
    }
  }

  lemma DrawGroups(s: seq<Combatant>, bonus: map<Id, int>, rollAt: nat -> D20, i: int,
                   shared: map<string, int>, draws: nat)
    requires 0 <= i < |s| && Draws(s, i) && draws == DrawsBefore(s, i)
    requires GroupsPassed(s, bonus, rollAt, i, shared)
    ensures var v := rollAt(draws) + Modifier(s[i], bonus);
      GroupsPassed(s, bonus, rollAt, i + 1, if GroupOf(s[i]).Some? then shared[GroupOf(s[i]).value := v] else shared)
  {
    var v := rollAt(draws) + Modifier(s[i], bonus);
    if GroupOf(s[i]).Some? {
      DrawGroupLeader(s, bonus, rollAt, i, shared, v);
    } else {
      DrawUngrouped(s, bonus, rollAt, i, shared);
    }
  }

  /** A combatant in no group leaves the groups as they were. */
  lemma DrawUngrouped(s: seq<Combatant>, bonus: map<Id, int>, rollAt: nat -> D20, i: int,
                      shared: map<string, int>)
    requires 0 <= i < |s| && GroupOf(s[i]).None?
    requires GroupsPassed(s, bonus, rollAt, i, shared)
    ensures GroupsPassed(s, bonus, rollAt, i + 1, shared)
  {
    forall g
      ensures 0 <= Leader(s, g) < i + 1 ==> 0 <= Leader(s, g) < i
    {
      LeaderAt(s, i, g);
    }
  }

  /** The leader of its group at `i` enters its value under the group's name. */
  lemma DrawGroupLeader(s: seq<Combatant>, bonus: map<Id, int>, rollAt: nat -> D20, i: int,
                        shared: map<string, int>, v: int)
    requires 0 <= i < |s| && Draws(s, i) && GroupOf(s[i]).Some?
    requires v == rollAt(DrawsBefore(s, i)) + Modifier(s[i], bonus)
    requires GroupsPassed(s, bonus, rollAt, i, shared)
    ensures GroupsPassed(s, bonus, rollAt, i + 1, shared[GroupOf(s[i]).value := v])
  {
    var g0 := GroupOf(s[i]).value;
    assert Leader(s, g0) == i;
    forall g | g != g0
      ensures 0 <= Leader(s, g) < i + 1 ==> 0 <= Leader(s, g) < i
    {
      LeaderAt(s, i, g);
    }
  }

  /** A group member whose group has drawn already. */
  lemma PassShare(s: seq<Combatant>, bonus: map<Id, int>, rollAt: nat -> D20, i: int,
                  updated: seq<Combatant>, shared: map<string, int>, draws: nat)
    requires PassState(s, bonus, rollAt, i, updated, shared, draws) && i < |updated| && Eligible(updated[i])
    requires GroupOf(updated[i]).Some? && GroupOf(updated[i]).value in shared
    ensures PassState(s, bonus, rollAt, i + 1, updated[i := updated[i].(initiative := shared[GroupOf(updated[i]).value])], shared, draws)
  {
    assert updated[i] == s[i];
    var g0 := GroupOf(s[i]).value;
    LeaderAt(s, i, g0);
    assert !Draws(s, i);
    ShareRoster(s, bonus, rollAt, i, updated, shared);
    KeepGroups(s, bonus, rollAt, i, shared);
  }

  lemma ShareRoster(s: seq<Combatant>, bonus: map<Id, int>, rollAt: nat -> D20, i: int,
                    updated: seq<Combatant>, shared: map<string, int>)
    requires 0 <= i < |s| && Eligible(s[i]) && GroupOf(s[i]).Some?
    requires 0 <= Leader(s, GroupOf(s[i]).value) < i
    requires GroupsPassed(s, bonus, rollAt, i, shared) && RosterPassed(s, bonus, rollAt, i, updated)
    ensures GroupOf(s[i]).value in shared
    ensures RosterPassed(s, bonus, rollAt, i + 1, updated[i := s[i].(initiative := shared[GroupOf(s[i]).value])])
  {
    var g0 := GroupOf(s[i]).value;
    var u := updated[i := s[i].(initiative := shared[g0])];
    assert NewInitiative(s, i, bonus, rollAt) == shared[g0];
    forall j | 0 <= j < i + 1 && j < |s|
      ensures u[j] == Rerolled(s, bonus, rollAt)[j]
    {
      if j < i {
        assert u[j] == updated[j];
      }
    }
  }

  /** At the end of the pass every combatant is done. */
  lemma PassDone(s: seq<Combatant>, bonus: map<Id, int>, rollAt: nat -> D20,
                 updated: seq<Combatant>, shared: map<string, int>, draws: nat)
    requires PassState(s, bonus, rollAt, |s|, updated, shared, draws)
    ensures updated == Rerolled(s, bonus, rollAt)
  {
  }

  /** The pass of App.js:707-735 over a copy of the roster: each eligible
      combatant draws the next d20, except that a group member whose group has
      drawn already takes the remembered value. */
  method RerollPass(s: seq<Combatant>, bonus: map<Id, int>, rollAt: nat -> D20) returns (updated: seq<Combatant>)
    ensures updated == Rerolled(s, bonus, rollAt)
  {
    updated := s;
    var shared: map<string, int> := map[];
    var draws: nat := 0;
    var i := 0;
    while i < |updated|
      invariant PassState(s, bonus, rollAt, i, updated, shared, draws)
    {
      updated, shared, draws := PassStep(s, bonus, rollAt, i, updated, shared, draws);
      i := i + 1;
    }
    PassDone(s, bonus, rollAt, updated, shared, draws);
  }

  /** The loop body of App.js:708-734 for the combatant at `i`. */
  method PassStep(s: seq<Combatant>, bonus: map<Id, int>, rollAt: nat -> D20, i: int,
                  updated: seq<Combatant>, shared: map<string, int>, draws: nat)
    returns (updated': seq<Combatant>, shared': map<string, int>, draws': nat)
    requires PassState(s, bonus, rollAt, i, updated, shared, draws) && i < |updated|
    ensures PassState(s, bonus, rollAt, i + 1, updated', shared', draws')
  {
    var c := updated[i];
    if c.removedFromCombat || c.status == Dead {
      PassSkip(s, bonus, rollAt, i, updated, shared, draws);
      return updated, shared, draws;
    }
    var modifier := Modifier(c, bonus);
    var group := GroupOf(c);
    if group.Some? && group.value in shared {
      PassShare(s, bonus, rollAt, i, updated, shared, draws);
      return updated[i := c.(initiative := shared[group.value])], shared, draws;
    }
    PassDraw(s, bonus, rollAt, i, updated, shared, draws);
    var newInitiative := rollAt(draws) + modifier;
    shared' := shared;
    if group.Some? {
      shared' := shared[group.value := newInitiative];
    }
    return updated[i := c.(initiative := newInitiative)], shared', draws + 1;
  }

  // ---------------------------------------------------------------------------
  // Display order.

  /** The combatants of `s` with `IsOut(c) == out`, in their order: the two
      arrays the `forEach` at App.js:910-918 pushes into. */
  function Select(s: seq<Combatant>, out: bool): (r: seq<Combatant>)
    ensures |r| <= |s|
    ensures forall i :: 0 <= i < |r| ==> IsOut(r[i]) == out
    decreases |s|
  {
    if |s| == 0 then []
    else
      var init := Select(s[..|s| - 1], out);
      if IsOut(s[|s| - 1]) == out then init + [s[|s| - 1]] else init
  }

  lemma {:induction false} SelectSplits(s: seq<Combatant>)
    ensures multiset(Select(s, false)) + multiset(Select(s, true)) == multiset(s)
    decreases |s|
  {
    if |s| > 0 {
      SelectSplits(s[..|s| - 1]);
      assert s == s[..|s| - 1] + [s[|s| - 1]];
    }
  }

  predicate Descending(s: seq<Combatant>) {
    forall i, j :: 0 <= i < j < |s| ==> s[i].initiative >= s[j].initiative
  }

  /** Inserts `c` into a descending sequence after every entry whose initiative is
      at least `c`'s, so equal initiatives keep their arrival order. */
  function Insert(s: seq<Combatant>, c: Combatant): (r: seq<Combatant>)
    decreases |s|
  {
    if |s| == 0 then [c]
    else if s[|s| - 1].initiative >= c.initiative then s + [c]
    else Insert(s[..|s| - 1], c) + [s[|s| - 1]]
  }

  lemma {:induction false} InsertElements(s: seq<Combatant>, c: Combatant)
    ensures |Insert(s, c)| == |s| + 1
    ensures forall x :: x in Insert(s, c) <==> x in s || x == c
    decreases |s|
  {
    if |s| > 0 && s[|s| - 1].initiative < c.initiative {
      InsertElements(s[..|s| - 1], c);
      assert s == s[..|s| - 1] + [s[|s| - 1]];
    }
  }

  lemma {:induction false} InsertBound(s: seq<Combatant>, c: Combatant, b: int)
    requires forall i :: 0 <= i < |s| ==> s[i].initiative >= b
    requires c.initiative >= b
    ensures forall i :: 0 <= i < |Insert(s, c)| ==> Insert(s, c)[i].initiative >= b
    decreases |s|
  {
    if |s| > 0 && s[|s| - 1].initiative < c.initiative {
      InsertBound(s[..|s| - 1], c, b);
    }
  }

  lemma {:induction false} InsertDescending(s: seq<Combatant>, c: Combatant)
    requires Descending(s)
    ensures Descending(Insert(s, c))
    decreases |s|
  {
    if |s| > 0 && s[|s| - 1].initiative < c.initiative {
      var init, last := s[..|s| - 1], s[|s| - 1];
      InsertDescending(init, c);
      InsertBound(init, c, last.initiative);
    }
  }

  lemma {:induction false} InsertPermutes(s: seq<Combatant>, c: Combatant)
    ensures multiset(Insert(s, c)) == multiset(s) + multiset{c}
    decreases |s|
  {
    if |s| > 0 && s[|s| - 1].initiative < c.initiative {
      InsertPermutes(s[..|s| - 1], c);
      assert s == s[..|s| - 1] + [s[|s| - 1]];
    }
  }

  /** Sorting by initiative, highest first, keeping the order of equal
      initiatives: what the `sort` calls at App.js:920-921 do, as `sort` is stable. */
  function SortDesc(s: seq<Combatant>): seq<Combatant>
    decreases |s|
  {
    if |s| == 0 then [] else Insert(SortDesc(s[..|s| - 1]), s[|s| - 1])
  }

  lemma {:induction false} SortDescElements(s: seq<Combatant>)
    ensures |SortDesc(s)| == |s|
    ensures forall x :: x in SortDesc(s) <==> x in s
    decreases |s|
  {
    if |s| > 0 {
      SortDescElements(s[..|s| - 1]);
      InsertElements(SortDesc(s[..|s| - 1]), s[|s| - 1]);
      assert s == s[..|s| - 1] + [s[|s| - 1]];
    }
  }

  /** The sort yields a descending permutation of its input. */
  lemma {:induction false} SortDescSorted(s: seq<Combatant>)
    ensures Descending(SortDesc(s))
    ensures multiset(SortDesc(s)) == multiset(s)
  {
    SortDescDescending(s);
    SortDescPermutes(s);
  }

  lemma {:induction false} SortDescDescending(s: seq<Combatant>)
    ensures Descending(SortDesc(s))
    decreases |s|
  {
    if |s| > 0 {
      SortDescDescending(s[..|s| - 1]);
      InsertDescending(SortDesc(s[..|s| - 1]), s[|s| - 1]);
    }
  }

  lemma {:induction false} SortDescPermutes(s: seq<Combatant>)
    ensures multiset(SortDesc(s)) == multiset(s)
    decreases |s|
  {
    if |s| > 0 {
      SortDescPermutes(s[..|s| - 1]);
      InsertPermutes(SortDesc(s[..|s| - 1]), s[|s| - 1]);
      assert s == s[..|s| - 1] + [s[|s| - 1]];
    }
  }

  /** The entries of `s` whose initiative is `v`, in their order. */
  function WithInitiative(s: seq<Combatant>, v: int): seq<Combatant>
    decreases |s|
  {
    if |s| == 0 then []
    else WithInitiative(s[..|s| - 1], v) + (if s[|s| - 1].initiative == v then [s[|s| - 1]] else [])
  }

  lemma WithInitiativeSnoc(s: seq<Combatant>, x: Combatant, v: int)
    ensures WithInitiative(s + [x], v) == WithInitiative(s, v) + (if x.initiative == v then [x] else [])
  {
    assert (s + [x])[..|s|] == s;
  }

  lemma {:induction false} InsertStable(t: seq<Combatant>, c: Combatant, v: int)
    requires Descending(t)
    ensures WithInitiative(Insert(t, c), v) == WithInitiative(t, v) + (if c.initiative == v then [c] else [])
    decreases |t|
  {
    if |t| == 0 {
      WithInitiativeSnoc([], c, v);
      assert [] + [c] == [c];
    } else if t[|t| - 1].initiative >= c.initiative {
      WithInitiativeSnoc(t, c, v);
    } else {
      var init, last := t[..|t| - 1], t[|t| - 1];
      assert t == init + [last];
      assert Descending(init);
      InsertStable(init, c, v);
      WithInitiativeSnoc(Insert(init, c), last, v);
      WithInitiativeSnoc(init, last, v);
      var C := if c.initiative == v then [c] else [];
      var L := if last.initiative == v then [last] else [];
      assert C + L == L + C by {
        if C != [] {
          assert L == [];
        }
      }
      assert WithInitiative(Insert(t, c), v) == WithInitiative(init, v) + C + L;
    }
  }

  /** The sort is stable: for every initiative value, the combatants holding it
      come out in the order they went in. */
  lemma {:induction false} SortDescStable(s: seq<Combatant>, v: int)
    ensures WithInitiative(SortDesc(s), v) == WithInitiative(s, v)
    decreases |s|
  {
    if |s| > 0 {
      SortDescStable(s[..|s| - 1], v);
      SortDescSorted(s[..|s| - 1]);
      InsertStable(SortDesc(s[..|s| - 1]), s[|s| - 1], v);
    }
  }

  /** The display order: those still in the fight, highest initiative first, then
      the removed and the red skulls, highest first. */
  function InitiativeOrder(s: seq<Combatant>): seq<Combatant> {
    SortDesc(Select(s, false)) + SortDesc(Select(s, true))
  }

  /** The display order is a permutation of the roster; the combatants still in
      the fight come first, then the others, each part highest initiative
      first. */
  lemma InitiativeOrderShape(s: seq<Combatant>)
    ensures multiset(InitiativeOrder(s)) == multiset(s)
    ensures var k := |Select(s, false)|;
      && k <= |InitiativeOrder(s)|
      && (forall i :: 0 <= i < k ==> !IsOut(InitiativeOrder(s)[i]))
      && (forall i :: k <= i < |InitiativeOrder(s)| ==> IsOut(InitiativeOrder(s)[i]))
      && Descending(InitiativeOrder(s)[..k]) && Descending(InitiativeOrder(s)[k..])
  {
    var a, b := Select(s, false), Select(s, true);
    SortDescSorted(a);
    SortDescSorted(b);
    SortDescElements(a);
    SortDescElements(b);
    SelectSplits(s);
    var o := InitiativeOrder(s);
    assert o[..|a|] == SortDesc(a);
    assert o[|a|..] == SortDesc(b);
    forall i | 0 <= i < |a| ensures !IsOut(o[i]) {
      assert o[i] in SortDesc(a);
    }
    forall i | |a| <= i < |o| ensures IsOut(o[i]) {
      assert o[i] == SortDesc(b)[i - |a|];
      assert o[i] in SortDesc(b);
    }
  }

  /** `sortedCharactersForInitiative` (App.js:906-924): one pass pushes each
      combatant onto the active or the out list, then both are sorted. */
  method SortedForInitiative(characters: seq<Combatant>) returns (r: seq<Combatant>)
    ensures r == InitiativeOrder(characters)
  {
    var active: seq<Combatant> := [];
    var out: seq<Combatant> := [];
    var i := 0;
    while i < |characters|
      invariant 0 <= i <= |characters|
      invariant active == Select(characters[..i], false)
      invariant out == Select(characters[..i], true)
    {
      var c := characters[i];
      assert characters[..i + 1][..i] == characters[..i];
      if IsRedSkull(c) || c.removedFromCombat {
        out := out + [c];
      } else {
        active := active + [c];
      }
      i := i + 1;
    }
    assert characters[..i] == characters;
    r := SortDesc(active) + SortDesc(out);
  }
}
